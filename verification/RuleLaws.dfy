/** What the order of the rules decides, and what it does not. */
module RuleLaws {
  import opened Prelude
  import opened Sorting
  import opened Json
  import opened Models
  import opened Grants
  import opened Rules

  lemma RuleOrder()
    ensures TotalPreorder(RuleLe)
  {
  }

  // ── Which rules matter ─────────────────────────────────────────────────

  /** Rules that are inactive or expired can be left out of a fold. */
  lemma {:induction false} FoldSkips(x: Texts, now: int, rules: seq<Rule>, s: Outcome)
    ensures Fold(x, now, Filter(rules, r => Live(r, now)), s) == Fold(x, now, rules, s)
  {
    if rules != [] {
      var front, last := rules[..|rules| - 1], rules[|rules| - 1];
      FoldSkips(x, now, front, s);
      assert rules == front + [last];
      FilterAppend(front, [last], r => Live(r, now));
      var kept := Filter(front, r => Live(r, now));
      if Live(last, now) {
        assert [last][1..] == [];
        assert Filter([last], r => Live(r, now)) == [last];
        assert (kept + [last])[..|kept + [last]| - 1] == kept;
      } else {
        assert [last][1..] == [];
        assert Filter([last], r => Live(r, now)) == [];
        assert kept + [] == kept;
      }
    }
  }

  /** Deleting the inactive and the expired rules changes nothing; a rule expires after
      the moment it names. */
  lemma DeletingIdleRules(x: Texts, now: int, rules: seq<Rule>, n: Loaded)
    ensures var kept := Filter(rules, (r: Rule) => r.active && (r.expiresAt.None? || now <= r.expiresAt.value));
            Evaluated(x, now, kept, n) == Evaluated(x, now, rules, n)
  {
    RuleOrder();
    SortFilter(rules, RuleLe, r => Live(r, now));
    FoldSkips(x, now, StableSort(rules, RuleLe), Outcome(n, None));
    FilterSame(rules, r => Live(r, now), (r: Rule) => r.active && (r.expiresAt.None? || now <= r.expiresAt.value));
  }

  predicate DistinctPriorities(rules: seq<Rule>) {
    forall i, j :: 0 <= i < j < |rules| ==> rules[i].priority != rules[j].priority
  }

  /** The order in which rules with distinct priorities are stored is irrelevant. */
  lemma PermutingRules(x: Texts, now: int, rules: seq<Rule>, others: seq<Rule>, n: Loaded)
    requires multiset(rules) == multiset(others) && DistinctPriorities(rules)
    ensures Evaluated(x, now, others, n) == Evaluated(x, now, rules, n)
  {
    RuleOrder();
    SortSorts(rules, RuleLe);
    SortSorts(others, RuleLe);
    SortPermutes(rules, RuleLe);
    SortPermutes(others, RuleLe);
    var sorted := StableSort(rules, RuleLe);
    forall a, b | a in sorted && b in sorted && RuleLe(a, b) && RuleLe(b, a) ensures a == b {
      assert a in multiset(sorted) && b in multiset(sorted);
      assert a in rules && b in rules;
    }
    SortedUnique(sorted, StableSort(others, RuleLe), RuleLe);
  }

  // ── What rules leave alone ─────────────────────────────────────────────

  /** Only status, urgency and deadline change; status to open or muted, urgency into 0..5. */
  predicate Touched(n: Loaded, n': Loaded) {
    && n' == n.(status := n'.status, urgency := n'.urgency, deadline := n'.deadline)
    && (n'.status == n.status || n'.status == Open || n'.status == Muted)
    && (n'.urgency == n.urgency || 0 <= n'.urgency <= 5)
  }

  lemma ApplyTouches(x: Texts, now: int, r: Rule, n: Loaded, s: Outcome)
    requires Touched(n, s.n)
    ensures Touched(n, Apply(x, now, r, s).n)
  {
  }

  lemma {:induction false} FoldTouches(x: Texts, now: int, rules: seq<Rule>, s: Outcome)
    ensures Touched(s.n, Fold(x, now, rules, s).n)
  {
    if rules != [] {
      FoldTouches(x, now, rules[..|rules| - 1], s);
      ApplyTouches(x, now, rules[|rules| - 1], s.n, Fold(x, now, rules[..|rules| - 1], s));
    }
  }

  /** An approval ask is never answered by a rule, and whatever rules there are, a
      new open ask is stored open or muted with its identity intact. */
  lemma ApprovalNeverAutoAnswered(x: Texts, now: int, rules: seq<Rule>, n: Loaded)
    ensures Touched(n, Evaluated(x, now, rules, n).n)
    ensures n.questionType == Approval ==> Evaluated(x, now, rules, n).auto.None?
  {
    FoldTouches(x, now, StableSort(rules, RuleLe), Outcome(n, None));
  }

  // ── The last writer wins ───────────────────────────────────────────────

  /** The rule's tests do not look at urgency. */
  predicate IgnoresUrgency(r: Rule) {
    match r.compiled
    case Some(c) =>
      (match Field(c, "match") case Some(m) => AsInt(Field(m, "urgency_min")).None?
       && AsInt(Field(m, "urgency_max")).None?
                               case None => true)
    case None => true
  }

  /** The rule applies to the ask, as it arrives. */
  predicate Fires(x: Texts, now: int, r: Rule, n: Loaded) {
    Live(r, now) && (r.compiled.Some? ==> MatchRule(x, r.compiled.value, n))
  }

  /** The action of a rule that has fired, "mute" when there is only raw semantics. */
  function ActionOf(r: Rule): string {
    match r.compiled
    case None => if r.mute then "mute" else ""
    case Some(c) => (match AsStr(Field(c, "action")) case Some(a) => a case None => "")
  }

  /** What one rule writes, column by column. */
  datatype Writes = Writes(status: Option<NotificationStatus>, urgency: Option<int>, deadline: Option<int>,
                           auto: Option<string>)

  const NOTHING := Writes(None, None, None, None)

  function WritesOf(x: Texts, action: string): Writes {
    if action == "mute" then NOTHING.(status := Some(Muted))
    else if action == "surface" then NOTHING.(status := Some(Open))
    else if StripPrefix(action, "reprioritize:").Some? then
      (match ParseI32(StripPrefix(action, "reprioritize:").value)
       case Some(u) => NOTHING.(urgency := Some(Clamp(u)))
       case None => NOTHING)
    else if StripPrefix(action, "snooze:").Some? then
      NOTHING.(deadline := x.deadline(StripPrefix(action, "snooze:").value))
    else NOTHING.(auto := StripPrefix(action, "auto_answer:"))
  }

  function RuleWrites(x: Texts, now: int, n: Loaded, r: Rule): Writes {
    if Fires(x, now, r, n) then WritesOf(x, ActionOf(r)) else NOTHING
  }

  function Over<T>(w: Option<T>, before: T): T {
    match w case Some(v) => v case None => before
  }

  function Write(w: Writes, s: Outcome): Outcome {
    Outcome(s.n.(status := Over(w.status, s.n.status), urgency := Over(w.urgency, s.n.urgency),
                 deadline := if w.deadline.Some? then w.deadline else s.n.deadline),
            if w.auto.Some? then w.auto else s.auto)
  }

  lemma ActWrites(x: Texts, action: string, s: Outcome)
    ensures Act(x, action, s) == Write(WritesOf(x, action), s)
  {
  }

  lemma SameMatch(x: Texts, c: Json, n: Loaded, n': Loaded)
    requires Touched(n, n')
    requires Field(c, "match").Some? ==>
      AsInt(Field(Field(c, "match").value, "urgency_min")).None?
      && AsInt(Field(Field(c, "match").value, "urgency_max")).None?
    ensures MatchRule(x, c, n') == MatchRule(x, c, n)
  {
    if Field(c, "match").Some? {
      SameTexts(x, Field(c, "match").value, n, n');
    }
  }

  lemma SameTexts(x: Texts, m: Json, n: Loaded, n': Loaded)
    requires n'.agentName == n.agentName && n'.question == n.question && n'.src == n.src
    ensures TextMatches(x, m, n') == TextMatches(x, m, n)
  {
    SameAccepts(m, "agent", s => s == n.agentName, s => s == n'.agentName);
    SameAccepts(m, "source_contains", s => Contains(x.lower(n.src), x.lower(s)),
                s => Contains(x.lower(n'.src), x.lower(s)));
    SameAccepts(m, "source_is", s => x.lower(n.src) == x.lower(s), s => x.lower(n'.src) == x.lower(s));
  }

  lemma SameAccepts(m: Json, key: string, p: string -> bool, q: string -> bool)
    requires forall s :: p(s) == q(s)
    ensures FieldAccepts(m, key, p) == FieldAccepts(m, key, q)
  {
  }

  /** Applying a rule that ignores urgency is writing what it writes for the ask as it arrived. */
  lemma ApplyWrites(x: Texts, now: int, r: Rule, n: Loaded, s: Outcome)
    requires IgnoresUrgency(r) && Touched(n, s.n)
    ensures Apply(x, now, r, s) == Write(RuleWrites(x, now, n, r), s)
  {
    if r.compiled.Some? {
      SameMatch(x, r.compiled.value, n, s.n);
    }
    ActWrites(x, ActionOf(r), s);
  }

  /** The last value written, if any. */
  function Last<T>(ws: seq<Option<T>>): Option<T> {
    if ws == [] then None
    else if ws[|ws| - 1].Some? then ws[|ws| - 1]
    else Last(ws[..|ws| - 1])
  }

  function Column<T>(rules: seq<Rule>, w: Rule -> Option<T>): seq<Option<T>> {
    seq(|rules|, i requires 0 <= i < |rules| => w(rules[i]))
  }

  function LastWrites(x: Texts, now: int, n: Loaded, rules: seq<Rule>): Writes {
    Writes(Last(Column(rules, r => RuleWrites(x, now, n, r).status)),
           Last(Column(rules, r => RuleWrites(x, now, n, r).urgency)),
           Last(Column(rules, r => RuleWrites(x, now, n, r).deadline)),
           Last(Column(rules, r => RuleWrites(x, now, n, r).auto)))
  }

  lemma LastSnoc<T>(rules: seq<Rule>, w: Rule -> Option<T>)
    requires rules != []
    ensures var (front, last) := (rules[..|rules| - 1], rules[|rules| - 1]);
            Last(Column(rules, w)) == if w(last).Some? then w(last) else Last(Column(front, w))
  {
    assert Column(rules, w)[..|rules| - 1] == Column(rules[..|rules| - 1], w);
  }

  lemma {:induction false} FoldWrites(x: Texts, now: int, rules: seq<Rule>, n: Loaded)
    requires forall i :: 0 <= i < |rules| ==> IgnoresUrgency(rules[i])
    ensures Fold(x, now, rules, Outcome(n, None)) == Write(LastWrites(x, now, n, rules), Outcome(n, None))
  {
    if rules != [] {
      var front, last := rules[..|rules| - 1], rules[|rules| - 1];
      FoldWrites(x, now, front, n);
      FoldTouches(x, now, front, Outcome(n, None));
      ApplyWrites(x, now, last, n, Fold(x, now, front, Outcome(n, None)));
      LastSnoc(rules, r => RuleWrites(x, now, n, r).status);
      LastSnoc(rules, r => RuleWrites(x, now, n, r).urgency);
      LastSnoc(rules, r => RuleWrites(x, now, n, r).deadline);
      LastSnoc(rules, r => RuleWrites(x, now, n, r).auto);
    }
  }

  /** When no rule tests urgency, each column of the outcome is the last matching
      writer's value in the sorted order, or what the ask arrived with. */
  lemma LastWriterWins(x: Texts, now: int, rules: seq<Rule>, n: Loaded)
    requires forall i :: 0 <= i < |rules| ==> IgnoresUrgency(rules[i])
    ensures Evaluated(x, now, rules, n) ==
            Lock(Write(LastWrites(x, now, n, StableSort(rules, RuleLe)), Outcome(n, None)))
  {
    var sorted := StableSort(rules, RuleLe);
    SortPermutes(rules, RuleLe);
    forall i | 0 <= i < |sorted| ensures IgnoresUrgency(sorted[i]) {
      assert sorted[i] in multiset(sorted);
      assert sorted[i] in rules;
    }
    FoldWrites(x, now, sorted, n);
  }

  /** A rule that writes the column, while every other rule that does has a key below its own. */
  ghost predicate Strongest<T(!new)>(rules: seq<Rule>, w: Rule -> Option<T>, r: Rule) {
    r in rules && w(r).Some? && forall o :: o in rules && o != r && w(o).Some? ==> SortKey(o) < SortKey(r)
  }

  lemma {:induction false} LastIsStrongest<T(!new)>(rules: seq<Rule>, w: Rule -> Option<T>, r: Rule)
    requires Sorted(rules, RuleLe) && Strongest(rules, w, r)
    ensures Last(Column(rules, w)) == w(r)
  {
    var front, last := rules[..|rules| - 1], rules[|rules| - 1];
    assert rules == front + [last];
    LastSnoc(rules, w);
    var i :| 0 <= i < |rules| && rules[i] == r;
    assert i == |rules| - 1 || RuleLe(rules[i], rules[|rules| - 1]);
    if last != r {
      assert front[i] == r;
      LastIsStrongest(front, w, r);
    }
  }

  /** The lowest priority wins. Among rules of which none tests urgency, the rule
      that mutes or surfaces the ask with a priority below that of every other
      rule that does decides its status; so for every column. */
  lemma LowestPriorityWins(x: Texts, now: int, rules: seq<Rule>, n: Loaded, r: Rule)
    requires forall i :: 0 <= i < |rules| ==> IgnoresUrgency(rules[i])
    ensures Strongest(rules, o => RuleWrites(x, now, n, o).status, r) ==>
            Some(Evaluated(x, now, rules, n).n.status) == RuleWrites(x, now, n, r).status
    ensures Strongest(rules, o => RuleWrites(x, now, n, o).urgency, r) ==>
            Some(Evaluated(x, now, rules, n).n.urgency) == RuleWrites(x, now, n, r).urgency
    ensures Strongest(rules, o => RuleWrites(x, now, n, o).deadline, r) ==>
            Evaluated(x, now, rules, n).n.deadline == RuleWrites(x, now, n, r).deadline
    ensures Strongest(rules, o => RuleWrites(x, now, n, o).auto, r) && n.questionType != Approval ==>
            Evaluated(x, now, rules, n).auto == RuleWrites(x, now, n, r).auto
  {
    LastWriterWins(x, now, rules, n);
    ColumnWins(rules, o => RuleWrites(x, now, n, o).status, r);
    ColumnWins(rules, o => RuleWrites(x, now, n, o).urgency, r);
    ColumnWins(rules, o => RuleWrites(x, now, n, o).deadline, r);
    ColumnWins(rules, o => RuleWrites(x, now, n, o).auto, r);
  }

  lemma ColumnWins<T(!new)>(rules: seq<Rule>, w: Rule -> Option<T>, r: Rule)
    ensures Strongest(rules, w, r) ==> Last(Column(StableSort(rules, RuleLe), w)) == w(r)
  {
    if Strongest(rules, w, r) {
      var sorted := StableSort(rules, RuleLe);
      RuleOrder();
      SortSorts(rules, RuleLe);
      SortPermutes(rules, RuleLe);
      forall o ensures o in sorted <==> o in rules {
        assert o in multiset(sorted) <==> o in multiset(rules);
      }
      LastIsStrongest(sorted, w, r);
    }
  }

  /** A higher key is a lower priority, except that the least priority sorts first. */
  lemma KeyIsPriority(a: Rule, b: Rule)
    ensures SortKey(a) < SortKey(b) <==>
            if a.priority == I32_MIN || b.priority == I32_MIN then a.priority == I32_MIN && b.priority != I32_MIN
            else a.priority > b.priority
  {
  }

  // ── Urgency as text ────────────────────────────────────────────────────

  lemma DigitChar(k: nat)
    requires k < 10
    ensures "0123456789"[k] as int - '0' as int == k
  {
  }

  lemma DigitsSnoc(front: string, c: char, n: nat, k: nat)
    requires Digits(front) == Some(n) && '0' <= c <= '9' && c as int - '0' as int == k
    ensures Digits(front + [c]) == Some(10 * n + k)
  {
    assert (front + [c])[..|front + [c]| - 1] == front;
  }

  lemma {:induction false} DigitsOfPrinted(n: nat)
    ensures Digits(Decimal(n)) == Some(n)
  {
    DigitChar(n % 10);
    if n >= 10 {
      DigitsOfPrinted(n / 10);
      DigitsSnoc(Decimal(n / 10), "0123456789"[n % 10], n / 10, n % 10);
    } else {
      DigitsSnoc("", "0123456789"[n], 0, n);
      assert "" + ["0123456789"[n]] == Decimal(n);
    }
  }

  lemma ParseUnsigned(d: string, n: nat)
    requires d != "" && '0' <= d[0] <= '9' && Digits(d) == Some(n) && n <= I32_MAX
    ensures ParseI32(d) == Some(n)
  {
  }

  lemma ParseNegative(d: string, n: nat)
    requires d != "" && Digits(d) == Some(n) && 0 - n >= I32_MIN
    ensures ParseI32("-" + d) == Some(0 - n)
  {
    assert ("-" + d)[1..] == d;
  }

  /** Every 32-bit integer that is printed into an action is read back. */
  lemma ParsePrintedI32(n: I32)
    ensures ParseI32(PrintInt(n)) == Some(n)
  {
    var m: int := n;
    if m < 0 {
      DigitsOfPrinted(-m);
      ParseNegative(Decimal(-m), -m);
    } else {
      DigitsOfPrinted(m);
      ParseUnsigned(Decimal(m), m);
    }
  }

  // ── The example in the comment ─────────────────────────────────────────

  /** A compiled rule with one test. */
  function OneRule(action: string, key: string, v: Json): Json {
    Obj([Member("action", Str(action)), Member("match", Obj([Member(key, v)]))])
  }

  function MuteAll(priority: I32): Rule {
    Rule("mute", priority, true, None, Some(OneRule("mute", "agent", Str("*"))), false)
  }

  function SurfaceFrom(priority: I32, source: string): Rule {
    Rule("surface", priority, true, None, Some(OneRule("surface", "source_contains", Str(source))), false)
  }

  lemma MuteWrites(x: Texts, now: int, n: Loaded, p: I32)
    ensures RuleWrites(x, now, n, MuteAll(p)).status == Some(Muted) && IgnoresUrgency(MuteAll(p))
  {
    OneTest("mute", "agent", Str("*"));
  }

  lemma SurfaceMatches(x: Texts, n: Loaded, source: string)
    requires Contains(x.lower(n.src), x.lower(source))
    ensures MatchRule(x, OneRule("surface", "source_contains", Str(source)), n)
  {
    OneTest("surface", "source_contains", Str(source));
  }

  lemma SurfaceWrites(x: Texts, now: int, n: Loaded, source: string, q: I32)
    requires Contains(x.lower(n.src), x.lower(source))
    ensures RuleWrites(x, now, n, SurfaceFrom(q, source)).status == Some(Open) && IgnoresUrgency(SurfaceFrom(q, source))
  {
    SurfaceMatches(x, n, source);
    OneTest("surface", "source_contains", Str(source));
  }

  lemma TheOneOf(x: Texts, now: int, n: Loaded, a: Rule, b: Rule, r: Rule)
    requires IgnoresUrgency(a) && IgnoresUrgency(b) && (r == a || r == b)
    requires RuleWrites(x, now, n, r).status.Some?
    requires if r == a then SortKey(b) < SortKey(a) else SortKey(a) < SortKey(b)
    ensures Some(Evaluated(x, now, [a, b], n).n.status) == RuleWrites(x, now, n, r).status
  {
    LowestPriorityWins(x, now, [a, b], n, r);
  }

  /** "Mute all at 10, surface one contact at 20" leaves that contact's ask muted:
      the rule of priority 10 is applied last. */
  lemma CommentExampleFails(x: Texts, now: int, n: Loaded, source: string)
    requires Contains(x.lower(n.src), x.lower(source))
    ensures Evaluated(x, now, [MuteAll(10), SurfaceFrom(20, source)], n).n.status == Muted
    ensures Evaluated(x, now, [MuteAll(20), SurfaceFrom(10, source)], n).n.status == Open
  {
    MuteWrites(x, now, n, 10);
    MuteWrites(x, now, n, 20);
    SurfaceWrites(x, now, n, source, 10);
    SurfaceWrites(x, now, n, source, 20);
    TheOneOf(x, now, n, MuteAll(10), SurfaceFrom(20, source), MuteAll(10));
    TheOneOf(x, now, n, MuteAll(20), SurfaceFrom(10, source), SurfaceFrom(10, source));
  }

  lemma GetOne(key: string, v: Json, other: string)
    ensures Get([Member(key, v)], other) == if key == other then Some(v) else None
  {
    assert [Member(key, v)][1..] == [];
  }

  lemma OneTest(action: string, key: string, v: Json)
    ensures Field(OneRule(action, key, v), "action") == Some(Str(action))
    ensures Field(OneRule(action, key, v), "match") == Some(Obj([Member(key, v)]))
    ensures forall other :: Field(Obj([Member(key, v)]), other) == if key == other then Some(v) else None
  {
    var ms := OneRule(action, key, v).members;
    assert ms[1..] == [Member("match", Obj([Member(key, v)]))];
    assert "action"[0] != "match"[0];
    GetOne("match", Obj([Member(key, v)]), "match");
    forall other ensures Field(Obj([Member(key, v)]), other) == if key == other then Some(v) else None {
      GetOne(key, v, other);
    }
  }

  function Raise(): Rule {
    Rule("raise", 2, true, None, Some(OneRule("reprioritize:5", "agent", Str("*"))), false)
  }

  function HushUrgent(): Rule {
    Rule("hush", 1, true, None, Some(OneRule("mute", "urgency_min", Int(4))), false)
  }

  lemma ParsesFive()
    ensures StripPrefix("reprioritize:5", "reprioritize:") == Some("5") && ParseI32("5") == Some(5)
  {
    assert "5"[..0] == "";
    assert Digits("5") == Some(5);
  }

  lemma RaiseRaises(x: Texts, now: int, n: Loaded)
    ensures Apply(x, now, Raise(), Outcome(n, None)) == Outcome(n.(urgency := 5), None)
  {
    OneTest("reprioritize:5", "agent", Str("*"));
    ParsesFive();
  }

  lemma HushMutes(x: Texts, now: int, n: Loaded)
    ensures Apply(x, now, HushUrgent(), Outcome(n, None)) ==
            Outcome(if n.urgency >= 4 then n.(status := Muted) else n, None)
    ensures Fires(x, now, HushUrgent(), n) == (n.urgency >= 4)
  {
    OneTest("mute", "urgency_min", Int(4));
  }

  lemma SortTwo(a: Rule, b: Rule)
    requires SortKey(a) < SortKey(b)
    ensures StableSort([a, b], RuleLe) == [a, b] && StableSort([b], RuleLe) == [b]
  {
    assert [a, b][1..] == [b] && [b][1..] == [];
    assert StableSort([b], RuleLe) == Insert(b, StableSort([b][1..], RuleLe), RuleLe);
    assert StableSort([a, b], RuleLe) == Insert(a, StableSort([a, b][1..], RuleLe), RuleLe);
  }

  lemma FoldTwo(x: Texts, now: int, a: Rule, b: Rule, s: Outcome)
    ensures Fold(x, now, [a, b], s) == Apply(x, now, b, Apply(x, now, a, s))
    ensures Fold(x, now, [b], s) == Apply(x, now, b, s)
  {
    assert [a, b][..1] == [a] && [a][..0] == [] && [b][..0] == [];
    assert Fold(x, now, [a], s) == Apply(x, now, a, Fold(x, now, [a][..0], s));
  }

  /** Where a rule does test urgency, an earlier rule can decide whether it fires:
      the fold is not a choice among the rules that match the ask as it arrived. */
  lemma UrgencyIsRead(x: Texts, now: int, n: Loaded)
    requires n.urgency < 4 && n.status == Open
    ensures !Fires(x, now, HushUrgent(), n)
    ensures Evaluated(x, now, [Raise(), HushUrgent()], n).n.status == Muted
    ensures Evaluated(x, now, [HushUrgent()], n).n.status == Open
  {
    SortTwo(Raise(), HushUrgent());
    FoldTwo(x, now, Raise(), HushUrgent(), Outcome(n, None));
    RaiseRaises(x, now, n);
    HushMutes(x, now, n);
    HushMutes(x, now, n.(urgency := 5));
  }
}
