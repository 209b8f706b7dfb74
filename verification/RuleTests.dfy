/** What one rule asks of an ask and what it does to it, test by test and action by
    action, as its JSON says. */
module RuleTests {
  import opened Prelude
  import opened Sorting
  import opened Json
  import opened Models
  import opened Grants
  import opened Rules
  import opened RuleLaws
  import GrantLaws
  import JsonParse

  /** An active rule with a compiled form. */
  function Compiled(compiled: Json, expires: Option<int>): Rule {
    Rule("rule", 0, true, expires, Some(compiled), false)
  }

  lemma OneApplied(x: Texts, now: int, r: Rule, n: Loaded)
    ensures Evaluated(x, now, [r], n) == Lock(Apply(x, now, r, Outcome(n, None)))
  {
    FoldTwo(x, now, r, r, Outcome(n, None));
    assert [r][1..] == [];
    assert StableSort([r], RuleLe) == Insert(r, StableSort([r][1..], RuleLe), RuleLe);
  }

  /** The rule mutes the ask. */
  predicate Mutes(x: Texts, now: int, r: Rule, n: Loaded) {
    Evaluated(x, now, [r], n).n.status == Muted
  }

  // ── Tests ──────────────────────────────────────────────────────────────

  /** A muting rule with one test. */
  function MuteWhere(key: string, v: Json): Rule {
    Compiled(OneRule("mute", key, v), None)
  }

  /** All the tests of an object of tests. */
  predicate Passes(x: Texts, m: Json, n: Loaded) {
    TextMatches(x, m, n) && UrgencyMatches(m, n.urgency)
  }

  lemma MutesIff(x: Texts, now: int, key: string, v: Json, n: Loaded)
    requires n.status == Open
    ensures Mutes(x, now, MuteWhere(key, v), n) <==> Passes(x, Obj([Member(key, v)]), n)
  {
    OneTest("mute", key, v);
    OneApplied(x, now, MuteWhere(key, v), n);
  }

  /** The members of "match" that are tests. */
  predicate IsTest(key: string) {
    key == "agent" || key == "question_includes" || key == "source_contains" || key == "source_is"
    || key == "urgency_min" || key == "urgency_max"
  }

  lemma TestsDiffer()
    ensures |"agent"| == 5 && |"source_is"| == 9 && |"source_contains"| == 15 && |"question_includes"| == 17
    ensures |"urgency_min"| == 11 && |"urgency_max"| == 11 && "urgency_min" != "urgency_max"
  {
    assert "urgency_min"[9] == 'i' && "urgency_max"[9] == 'a';
  }

  /** The object has a value under one name only. */
  ghost predicate Alone(m: Json, key: string, v: Json) {
    forall other :: Field(m, other) == if other == key then Some(v) else None
  }

  lemma OneAlone(key: string, v: Json)
    ensures Alone(Obj([Member(key, v)]), key, v)
  {
    OneTest("mute", key, v);
  }

  lemma AgentPasses(x: Texts, m: Json, v: Json, n: Loaded)
    requires Alone(m, "agent", v)
    ensures Passes(x, m, n) <==> Accepts(v, s => s == n.agentName)
  {
    TestsDiffer();
  }

  lemma SourceIsPasses(x: Texts, m: Json, v: Json, n: Loaded)
    requires Alone(m, "source_is", v)
    ensures Passes(x, m, n) <==> Accepts(v, s => x.lower(n.src) == x.lower(s))
  {
    TestsDiffer();
  }

  lemma SourceContainsPasses(x: Texts, m: Json, v: Json, n: Loaded)
    requires Alone(m, "source_contains", v)
    ensures Passes(x, m, n) <==> Accepts(v, s => Contains(x.lower(n.src), x.lower(s)))
  {
    TestsDiffer();
  }

  lemma QuestionPasses(x: Texts, m: Json, v: Json, n: Loaded)
    requires Alone(m, "question_includes", v)
    ensures Passes(x, m, n) <==> (v.Str? ==> Contains(x.lower(n.question), x.lower(v.s)))
  {
    TestsDiffer();
  }

  lemma MinPasses(x: Texts, m: Json, v: Json, n: Loaded)
    requires Alone(m, "urgency_min", v)
    ensures Passes(x, m, n) <==> (v.Int? ==> v.n <= n.urgency)
  {
    TestsDiffer();
  }

  lemma MaxPasses(x: Texts, m: Json, v: Json, n: Loaded)
    requires Alone(m, "urgency_max", v)
    ensures Passes(x, m, n) <==> (v.Int? ==> n.urgency <= v.n)
  {
    TestsDiffer();
  }

  lemma AgentAt(x: Texts, v: Json, n: Loaded)
    ensures Passes(x, Obj([Member("agent", v)]), n) <==> Accepts(v, s => s == n.agentName)
  {
    OneAlone("agent", v);
    AgentPasses(x, Obj([Member("agent", v)]), v, n);
  }

  lemma SourceIsAt(x: Texts, v: Json, n: Loaded)
    ensures Passes(x, Obj([Member("source_is", v)]), n) <==> Accepts(v, s => x.lower(n.src) == x.lower(s))
  {
    OneAlone("source_is", v);
    SourceIsPasses(x, Obj([Member("source_is", v)]), v, n);
  }

  lemma SourceContainsAt(x: Texts, v: Json, n: Loaded)
    ensures Passes(x, Obj([Member("source_contains", v)]), n) <==>
            Accepts(v, s => Contains(x.lower(n.src), x.lower(s)))
  {
    OneAlone("source_contains", v);
    SourceContainsPasses(x, Obj([Member("source_contains", v)]), v, n);
  }

  lemma QuestionAt(x: Texts, v: Json, n: Loaded)
    ensures Passes(x, Obj([Member("question_includes", v)]), n) <==>
            (v.Str? ==> Contains(x.lower(n.question), x.lower(v.s)))
  {
    OneAlone("question_includes", v);
    QuestionPasses(x, Obj([Member("question_includes", v)]), v, n);
  }

  lemma UrgencyAt(x: Texts, v: Json, n: Loaded)
    ensures Passes(x, Obj([Member("urgency_min", v)]), n) <==> (v.Int? ==> v.n <= n.urgency)
    ensures Passes(x, Obj([Member("urgency_max", v)]), n) <==> (v.Int? ==> n.urgency <= v.n)
  {
    OneAlone("urgency_min", v);
    OneAlone("urgency_max", v);
    MinPasses(x, Obj([Member("urgency_min", v)]), v, n);
    MaxPasses(x, Obj([Member("urgency_max", v)]), v, n);
  }

  lemma OtherPasses(x: Texts, m: Json, key: string, v: Json, n: Loaded)
    requires Alone(m, key, v) && !IsTest(key)
    ensures Passes(x, m, n)
  {
  }

  /** The value is the text, or a list with the text in it. */
  predicate Offers(v: Json, s: string) {
    v == Str(s) || (v.Arr? && Str(s) in v.items)
  }

  /** The text is a part of the other. */
  ghost predicate PartOf(part: string, whole: string) {
    exists before, after :: whole == before + part + after
  }

  lemma ContainsIff(hay: string, needle: string)
    ensures Contains(hay, needle) <==> PartOf(needle, hay)
  {
    if Contains(hay, needle) {
      var i :| 0 <= i <= |hay| && OccursAt(hay, needle, i);
      assert hay == hay[..i] + needle + hay[i + |needle|..];
    }
    if PartOf(needle, hay) {
      var before, after :| hay == before + needle + after;
      assert hay[|before|..|before| + |needle|] == needle;
      assert OccursAt(hay, needle, |before|);
    }
  }

  lemma AcceptsIff(v: Json, test: string -> bool)
    ensures Accepts(v, test) <==> Offers(v, "*") || exists s :: Offers(v, s) && test(s)
  {
    if Accepts(v, test) {
      if v.Str? {
        assert Offers(v, v.s);
      } else {
        var i :| 0 <= i < |v.items| && (v.items[i].Str? && (v.items[i].s == "*" || test(v.items[i].s)));
        assert Str(v.items[i].s) in v.items;
        assert Offers(v, v.items[i].s);
      }
    }
    if Offers(v, "*") && v.Arr? {
      var i :| 0 <= i < |v.items| && v.items[i] == Str("*");
    }
    if exists s :: Offers(v, s) && test(s) {
      var s :| Offers(v, s) && test(s);
      if v.Arr? {
        var i :| 0 <= i < |v.items| && v.items[i] == Str(s);
      }
    }
  }

  /** "agent": the name of the agent, or a list with it, or "*". */
  lemma AgentTest(x: Texts, now: int, v: Json, n: Loaded)
    requires n.status == Open
    ensures Mutes(x, now, MuteWhere("agent", v), n) <==> Offers(v, "*") || Offers(v, n.agentName)
  {
    MutesIff(x, now, "agent", v, n);
    AgentAt(x, v, n);
    AcceptsIff(v, s => s == n.agentName);
  }

  /** "source_is": the source, whatever its case. */
  lemma SourceIsTest(x: Texts, now: int, v: Json, n: Loaded)
    requires n.status == Open
    ensures Mutes(x, now, MuteWhere("source_is", v), n) <==>
            Offers(v, "*") || exists s :: Offers(v, s) && x.lower(s) == x.lower(n.src)
  {
    MutesIff(x, now, "source_is", v, n);
    SourceIsAt(x, v, n);
    AcceptsIff(v, s => x.lower(n.src) == x.lower(s));
  }

  /** "source_contains": a part of the source, whatever its case. */
  lemma SourceContainsTest(x: Texts, now: int, v: Json, n: Loaded)
    requires n.status == Open
    ensures Mutes(x, now, MuteWhere("source_contains", v), n) <==>
            Offers(v, "*") || exists s :: Offers(v, s) && PartOf(x.lower(s), x.lower(n.src))
  {
    MutesIff(x, now, "source_contains", v, n);
    SourceContainsAt(x, v, n);
    AcceptsIff(v, s => Contains(x.lower(n.src), x.lower(s)));
    forall s ensures Contains(x.lower(n.src), x.lower(s)) <==> PartOf(x.lower(s), x.lower(n.src)) {
      ContainsIff(x.lower(n.src), x.lower(s));
    }
  }

  /** "question_includes": a part of the question, whatever its case; anything but a
      text is no test. */
  lemma QuestionTest(x: Texts, now: int, v: Json, n: Loaded)
    requires n.status == Open
    ensures Mutes(x, now, MuteWhere("question_includes", v), n) <==>
            (v.Str? ==> PartOf(x.lower(v.s), x.lower(n.question)))
  {
    MutesIff(x, now, "question_includes", v, n);
    QuestionAt(x, v, n);
    if v.Str? { ContainsIff(x.lower(n.question), x.lower(v.s)); }
  }

  /** "urgency_min" and "urgency_max": bounds that are met; anything but an integer is
      no test. */
  lemma UrgencyTests(x: Texts, now: int, v: Json, n: Loaded)
    requires n.status == Open
    ensures Mutes(x, now, MuteWhere("urgency_min", v), n) <==> (v.Int? ==> v.n <= n.urgency)
    ensures Mutes(x, now, MuteWhere("urgency_max", v), n) <==> (v.Int? ==> n.urgency <= v.n)
  {
    MutesIff(x, now, "urgency_min", v, n);
    MutesIff(x, now, "urgency_max", v, n);
    UrgencyAt(x, v, n);
  }

  /** Any other member of "match" is no test. */
  lemma OtherTest(x: Texts, now: int, key: string, v: Json, n: Loaded)
    requires n.status == Open && !IsTest(key)
    ensures Mutes(x, now, MuteWhere(key, v), n)
  {
    MutesIff(x, now, key, v, n);
    OneAlone(key, v);
    OtherPasses(x, Obj([Member(key, v)]), key, v, n);
  }

  /** A muting rule with many tests. */
  function MuteWhereAll(ms: seq<Member>): Rule {
    Compiled(Obj([Member("action", Str("mute")), Member("match", Obj(ms))]), None)
  }

  lemma MatchOf(action: Json, m: Json)
    ensures Field(Obj([Member("action", action), Member("match", m)]), "match") == Some(m)
    ensures Field(Obj([Member("action", action), Member("match", m)]), "action") == Some(action)
  {
    var ms := [Member("action", action), Member("match", m)];
    assert "action"[0] != "match"[0];
    assert ms[1..] == [Member("match", m)];
    GetOne("match", m, "match");
  }

  /** The test of one name, on what an object has under it. */
  predicate PassesAt(x: Texts, key: string, v: Option<Json>, n: Loaded) {
    v.Some? ==> Passes(x, Obj([Member(key, v.value)]), n)
  }

  lemma SourcesByName(x: Texts, m: Json, n: Loaded)
    ensures FieldAccepts(m, "source_contains", s => Contains(x.lower(n.src), x.lower(s))) <==>
            PassesAt(x, "source_contains", Field(m, "source_contains"), n)
    ensures FieldAccepts(m, "source_is", s => x.lower(n.src) == x.lower(s)) <==>
            PassesAt(x, "source_is", Field(m, "source_is"), n)
  {
    if Field(m, "source_contains").Some? { SourceContainsAt(x, Field(m, "source_contains").value, n); }
    if Field(m, "source_is").Some? { SourceIsAt(x, Field(m, "source_is").value, n); }
  }

  lemma TextsByName(x: Texts, m: Json, n: Loaded)
    ensures TextMatches(x, m, n) <==>
            && PassesAt(x, "agent", Field(m, "agent"), n)
            && PassesAt(x, "question_includes", Field(m, "question_includes"), n)
            && PassesAt(x, "source_contains", Field(m, "source_contains"), n)
            && PassesAt(x, "source_is", Field(m, "source_is"), n)
  {
    if Field(m, "agent").Some? { AgentAt(x, Field(m, "agent").value, n); }
    if Field(m, "question_includes").Some? { QuestionAt(x, Field(m, "question_includes").value, n); }
    SourcesByName(x, m, n);
  }

  lemma UrgencyByName(x: Texts, m: Json, n: Loaded)
    ensures UrgencyMatches(m, n.urgency) <==>
            && PassesAt(x, "urgency_min", Field(m, "urgency_min"), n)
            && PassesAt(x, "urgency_max", Field(m, "urgency_max"), n)
  {
    if Field(m, "urgency_min").Some? { UrgencyAt(x, Field(m, "urgency_min").value, n); }
    if Field(m, "urgency_max").Some? { UrgencyAt(x, Field(m, "urgency_max").value, n); }
  }

  /** The tests of an object are those of the six names. */
  lemma PassesByName(x: Texts, m: Json, n: Loaded)
    ensures Passes(x, m, n) <==>
            && PassesAt(x, "agent", Field(m, "agent"), n)
            && PassesAt(x, "question_includes", Field(m, "question_includes"), n)
            && PassesAt(x, "source_contains", Field(m, "source_contains"), n)
            && PassesAt(x, "source_is", Field(m, "source_is"), n)
            && PassesAt(x, "urgency_min", Field(m, "urgency_min"), n)
            && PassesAt(x, "urgency_max", Field(m, "urgency_max"), n)
  {
    TextsByName(x, m, n);
    UrgencyByName(x, m, n);
  }

  lemma MutesAllIff(x: Texts, now: int, ms: seq<Member>, n: Loaded)
    requires n.status == Open
    ensures Mutes(x, now, MuteWhereAll(ms), n) <==> Passes(x, Obj(ms), n)
  {
    MatchOf(Str("mute"), Obj(ms));
    OneApplied(x, now, MuteWhereAll(ms), n);
  }

  lemma MemberPasses(x: Texts, ms: seq<Member>, i: nat, n: Loaded)
    requires WellFormed(Obj(ms)) && i < |ms| && Passes(x, Obj(ms), n)
    ensures Passes(x, Obj([ms[i]]), n)
  {
    GrantLaws.GetAt(ms, i);
    assert [ms[i]] == [Member(ms[i].key, ms[i].value)];
    if IsTest(ms[i].key) {
      PassesByName(x, Obj(ms), n);
    } else {
      OneAlone(ms[i].key, ms[i].value);
      OtherPasses(x, Obj([ms[i]]), ms[i].key, ms[i].value, n);
    }
  }

  lemma NamePasses(x: Texts, ms: seq<Member>, key: string, n: Loaded)
    requires forall i :: 0 <= i < |ms| ==> Passes(x, Obj([ms[i]]), n)
    ensures PassesAt(x, key, Field(Obj(ms), key), n)
  {
    if Get(ms, key).Some? {
      var i := PlaceOf(ms, key);
      assert ms[i] == Member(key, Get(ms, key).value);
    }
  }

  /** A rule with many tests matches exactly when each of them does. */
  lemma TestsAreConjunctive(x: Texts, now: int, ms: seq<Member>, n: Loaded)
    requires n.status == Open && WellFormed(Obj(ms))
    ensures Mutes(x, now, MuteWhereAll(ms), n) <==>
            forall i :: 0 <= i < |ms| ==> Mutes(x, now, MuteWhere(ms[i].key, ms[i].value), n)
  {
    MutesAllIff(x, now, ms, n);
    forall i | 0 <= i < |ms|
      ensures Mutes(x, now, MuteWhere(ms[i].key, ms[i].value), n) <==> Passes(x, Obj([ms[i]]), n)
    {
      assert [ms[i]] == [Member(ms[i].key, ms[i].value)];
      MutesIff(x, now, ms[i].key, ms[i].value, n);
    }
    if Passes(x, Obj(ms), n) {
      forall i | 0 <= i < |ms| ensures Passes(x, Obj([ms[i]]), n) { MemberPasses(x, ms, i, n); }
    }
    if forall i :: 0 <= i < |ms| ==> Passes(x, Obj([ms[i]]), n) {
      NamePasses(x, ms, "agent", n);
      NamePasses(x, ms, "question_includes", n);
      NamePasses(x, ms, "source_contains", n);
      NamePasses(x, ms, "source_is", n);
      NamePasses(x, ms, "urgency_min", n);
      NamePasses(x, ms, "urgency_max", n);
      PassesByName(x, Obj(ms), n);
    }
  }

  /** Where a member is found. */
  function PlaceOf(ms: seq<Member>, key: string): (i: nat)
    requires Get(ms, key).Some?
    ensures i < |ms| && ms[i].key == key && ms[i].value == Get(ms, key).value
  {
    if ms[0].key == key then 0 else 1 + PlaceOf(ms[1..], key)
  }

  /** Without "match", or with one that is not an object, a rule matches every ask. */
  lemma NoTests(x: Texts, now: int, m: Json, n: Loaded)
    requires !m.Obj?
    ensures Mutes(x, now, Compiled(Obj([Member("action", Str("mute")), Member("match", m)]), None), n)
    ensures Mutes(x, now, Compiled(Obj([Member("action", Str("mute"))]), None), n)
  {
    MatchOf(Str("mute"), m);
    OneApplied(x, now, Compiled(Obj([Member("action", Str("mute")), Member("match", m)]), None), n);
    GetOne("action", Str("mute"), "action");
    GetOne("action", Str("mute"), "match");
    assert "action"[0] != "match"[0];
    OneApplied(x, now, Compiled(Obj([Member("action", Str("mute"))]), None), n);
  }

  // ── Expiry ─────────────────────────────────────────────────────────────

  /** A rule that matches still acts at the moment it names, and not a millisecond later. */
  lemma ExpiryIsExact(x: Texts, now: int, key: string, v: Json, n: Loaded)
    requires n.status == Open && Mutes(x, now, MuteWhere(key, v), n)
    ensures Mutes(x, now, Compiled(OneRule("mute", key, v), Some(now)), n)
    ensures !Mutes(x, now, Compiled(OneRule("mute", key, v), Some(now - 1)), n)
  {
    MutesIff(x, now, key, v, n);
    OneTest("mute", key, v);
    OneApplied(x, now, Compiled(OneRule("mute", key, v), Some(now)), n);
    OneApplied(x, now, Compiled(OneRule("mute", key, v), Some(now - 1)), n);
  }

  /** A rule that is not active does nothing. */
  lemma InactiveIsIdle(x: Texts, now: int, r: Rule, n: Loaded)
    requires !r.active
    ensures Evaluated(x, now, [r], n) == Outcome(n, None)
  {
    OneApplied(x, now, r, n);
  }

  /** A rule that is not compiled mutes or does nothing, as its flag says. */
  lemma RawRule(x: Texts, now: int, r: Rule, n: Loaded)
    requires r.active && r.expiresAt.None? && r.compiled.None?
    ensures Evaluated(x, now, [r], n) == Outcome(if r.mute then n.(status := Muted) else n, None)
  {
    OneApplied(x, now, r, n);
  }

  // ── Actions ────────────────────────────────────────────────────────────

  /** A rule that matches every ask. */
  function Always(action: string): Rule {
    Compiled(OneRule(action, "agent", Str("*")), None)
  }

  lemma AlwaysMatches(x: Texts, action: string, n: Loaded)
    ensures MatchRule(x, OneRule(action, "agent", Str("*")), n)
  {
    OneTest(action, "agent", Str("*"));
    AgentAt(x, Str("*"), n);
  }

  lemma AlwaysActs(x: Texts, now: int, action: string, n: Loaded)
    ensures Evaluated(x, now, [Always(action)], n) == Lock(Act(x, action, Outcome(n, None)))
  {
    OneTest(action, "agent", Str("*"));
    AlwaysMatches(x, action, n);
    OneApplied(x, now, Always(action), n);
  }

  lemma Prefixed(prefix: string, rest: string, other: string)
    ensures StripPrefix(prefix + rest, prefix) == Some(rest)
    ensures other != "" && prefix != "" && other[0] != prefix[0] ==> StripPrefix(prefix + rest, other).None?
  {
    assert (prefix + rest)[..|prefix|] == prefix && (prefix + rest)[|prefix|..] == rest;
    if other != "" && prefix != "" && other[0] != prefix[0] && |other| <= |prefix + rest| {
      assert (prefix + rest)[..|other|][0] == prefix[0];
    }
  }

  lemma NotAWord(prefix: string, rest: string, word: string)
    requires |word| < |prefix|
    ensures prefix + rest != word
  {
  }

  /** "mute" and "surface". */
  lemma StatusActions(x: Texts, now: int, n: Loaded)
    ensures Evaluated(x, now, [Always("mute")], n) == Outcome(n.(status := Muted), None)
    ensures Evaluated(x, now, [Always("surface")], n) == Outcome(n.(status := Open), None)
  {
    AlwaysActs(x, now, "mute", n);
    AlwaysActs(x, now, "surface", n);
    assert "mute"[0] != "surface"[0];
  }

  /** The integer nearest to k among 0 to 5. */
  predicate Nearest(u: int, k: int) {
    0 <= u <= 5 && (u == k || (u == 0 && k < 0) || (u == 5 && k > 5))
  }

  /** "reprioritize:" and a text: the urgency is the integer the text is, moved into 0 to
      5; a text that is none changes nothing. */
  lemma ReprioritizeAction(x: Texts, now: int, text: string, n: Loaded)
    ensures var n' := Evaluated(x, now, [Always("reprioritize:" + text)], n).n;
            && n' == n.(urgency := n'.urgency)
            && (forall k :: IsI32(text, k) ==> Nearest(n'.urgency, k))
            && ((forall k :: !IsI32(text, k)) ==> n' == n)
    ensures Evaluated(x, now, [Always("reprioritize:" + text)], n).auto == None
  {
    AlwaysActs(x, now, "reprioritize:" + text, n);
    Prefixed("reprioritize:", text, "snooze:");
    NotAWord("reprioritize:", text, "mute");
    NotAWord("reprioritize:", text, "surface");
    forall k ensures IsI32(text, k) <==> ParseI32(text) == Some(k) {
      if I32_MIN <= k <= I32_MAX { ParsesI32(text, k); }
    }
  }

  /** "snooze:" and a text: the deadline that the text gives, if it gives one. */
  lemma SnoozeAction(x: Texts, now: int, text: string, n: Loaded)
    ensures Evaluated(x, now, [Always("snooze:" + text)], n) ==
            Outcome(if x.deadline(text).Some? then n.(deadline := x.deadline(text)) else n, None)
  {
    AlwaysActs(x, now, "snooze:" + text, n);
    Prefixed("snooze:", text, "reprioritize:");
    NotAWord("snooze:", text, "mute");
    assert ("snooze:" + text)[1] == 'n' && "surface"[1] == 'u';
  }

  /** "auto_answer:" and a text: the ask is answered with the text, unless it is an approval. */
  lemma AutoAnswerAction(x: Texts, now: int, text: string, n: Loaded)
    ensures Evaluated(x, now, [Always("auto_answer:" + text)], n) ==
            Outcome(n, if n.questionType == Approval then None else Some(text))
  {
    AlwaysActs(x, now, "auto_answer:" + text, n);
    Prefixed("auto_answer:", text, "reprioritize:");
    Prefixed("auto_answer:", text, "snooze:");
    NotAWord("auto_answer:", text, "mute");
    NotAWord("auto_answer:", text, "surface");
  }

  /** Any other action does nothing. */
  lemma OtherAction(x: Texts, now: int, action: string, n: Loaded)
    requires action != "mute" && action != "surface" && !("reprioritize:" <= action)
    requires !("snooze:" <= action) && !("auto_answer:" <= action)
    ensures Evaluated(x, now, [Always(action)], n) == Outcome(n, None)
  {
    AlwaysActs(x, now, action, n);
  }

  // ── Integers as text ───────────────────────────────────────────────────

  predicate AllDigits(d: string) {
    d != "" && forall i :: 0 <= i < |d| ==> JsonParse.IsDigit(d[i])
  }

  /** The text is a 32-bit integer: digits, after a sign or none. */
  predicate IsI32(s: string, k: int) {
    && I32_MIN <= k <= I32_MAX
    && (|| (AllDigits(s) && k == JsonParse.DigitsValue(s))
        || (s != "" && s[0] == '+' && AllDigits(s[1..]) && k == JsonParse.DigitsValue(s[1..]))
        || (s != "" && s[0] == '-' && AllDigits(s[1..]) && k + JsonParse.DigitsValue(s[1..]) == 0))
  }

  lemma {:induction false} DigitsIff(d: string)
    ensures Digits(d).Some? <==> forall i :: 0 <= i < |d| ==> JsonParse.IsDigit(d[i])
    ensures Digits(d).Some? ==> Digits(d).value == JsonParse.DigitsValue(d)
  {
    if d != "" {
      DigitsIff(d[..|d| - 1]);
      assert d == d[..|d| - 1] + [d[|d| - 1]];
    }
  }

  lemma ParsesI32(s: string, k: int)
    requires I32_MIN <= k <= I32_MAX
    ensures ParseI32(s) == Some(k) <==> IsI32(s, k)
  {
    DigitsIff(s);
    if s != "" { DigitsIff(s[1..]); }
  }

  // ── Ties ───────────────────────────────────────────────────────────────

  /** Of two rules of the same priority that decide the status, the one stored later does. */
  lemma LaterOfEqualsWins(x: Texts, now: int, a: Rule, b: Rule, n: Loaded)
    requires a.priority == b.priority && IgnoresUrgency(a) && IgnoresUrgency(b)
    requires RuleWrites(x, now, n, b).status.Some?
    ensures Some(Evaluated(x, now, [a, b], n).n.status) == RuleWrites(x, now, n, b).status
  {
    SortTies([a, b], RuleLe);
    LastWriterWins(x, now, [a, b], n);
    LastSnoc([a, b], r => RuleWrites(x, now, n, r).status);
  }
}
