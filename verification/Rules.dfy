/** The rule engine (src/rules.rs): a stable sort by descending priority, then
    a fold in which a rule may match on what earlier rules have changed. */
module Rules {
  import opened Prelude
  import opened Sorting
  import opened Json
  import opened Models
  import opened Grants

  /** Library code: case folding, and what parse_deadline makes of a text now. */
  datatype Texts = Texts(lower: string -> string, deadline: string -> Option<int>)

  const I32_MIN: int := -0x8000_0000
  const I32_MAX: int := 0x7FFF_FFFF

  type I32 = n: int | I32_MIN <= n <= I32_MAX

  datatype Rule = Rule(id: string, priority: I32, active: bool, expiresAt: Option<int>, compiled: Option<Json>,
                       mute: bool)

  /** -priority as the release build computes it: the least priority is its own negation. */
  function SortKey(r: Rule): I32 {
    if r.priority == I32_MIN then I32_MIN else -r.priority
  }

  predicate RuleLe(a: Rule, b: Rule) {
    SortKey(a) <= SortKey(b)
  }

  // ── Matching ───────────────────────────────────────────────────────────

  /** Value::get: only an object has members. */
  function Field(v: Json, key: string): Option<Json> {
    if v.Obj? then Get(v.members, key) else None
  }

  function AsStr(v: Option<Json>): Option<string> {
    match v case Some(Str(s)) => Some(s) case _ => None
  }

  function AsInt(v: Option<Json>): Option<int> {
    match v case Some(Int(n)) => Some(n) case _ => None
  }

  predicate OccursAt(hay: string, needle: string, i: nat) {
    i + |needle| <= |hay| && hay[i..i + |needle|] == needle
  }

  predicate Contains(hay: string, needle: string) {
    exists i :: 0 <= i <= |hay| && OccursAt(hay, needle, i)
  }

  /** A text test, or a list of them of which one must hold; "*" always holds. */
  predicate Accepts(v: Json, test: string -> bool) {
    match v
    case Str(s) => s == "*" || test(s)
    case Arr(items) => exists i :: 0 <= i < |items| && (items[i].Str? && (items[i].s == "*" || test(items[i].s)))
    case _ => false
  }

  predicate FieldAccepts(m: Json, key: string, test: string -> bool) {
    match Field(m, key) case None => true case Some(v) => Accepts(v, test)
  }

  /** The tests that look at urgency. */
  predicate UrgencyMatches(m: Json, urgency: int) {
    && (AsInt(Field(m, "urgency_min")).Some? ==> urgency >= AsInt(Field(m, "urgency_min")).value)
    && (AsInt(Field(m, "urgency_max")).Some? ==> urgency <= AsInt(Field(m, "urgency_max")).value)
  }

  /** The tests that look at what no rule changes. */
  predicate TextMatches(x: Texts, m: Json, n: Loaded) {
    && FieldAccepts(m, "agent", s => s == n.agentName)
    && (AsStr(Field(m, "question_includes")).Some? ==>
          Contains(x.lower(n.question), x.lower(AsStr(Field(m, "question_includes")).value)))
    && FieldAccepts(m, "source_contains", s => Contains(x.lower(n.src), x.lower(s)))
    && FieldAccepts(m, "source_is", s => x.lower(n.src) == x.lower(s))
  }

  predicate MatchRule(x: Texts, compiled: Json, n: Loaded) {
    match Field(compiled, "match")
    case None => true
    case Some(m) => TextMatches(x, m, n) && UrgencyMatches(m, n.urgency)
  }

  // ── Actions ────────────────────────────────────────────────────────────

  function Digits(s: string): Option<nat> {
    if s == "" then Some(0)
    else if !('0' <= s[|s| - 1] <= '9') then None
    else match Digits(s[..|s| - 1]) case None => None case Some(n) => Some(10 * n + (s[|s| - 1] as int - '0' as int))
  }

  /** str::parse::<i32>. */
  function ParseI32(s: string): Option<I32> {
    var (sign, body) := if s != "" && s[0] == '-' then (-1, s[1..])
                        else if s != "" && s[0] == '+' then (1, s[1..])
                        else (1, s);
    if body == "" then None
    else
      match Digits(body)
      case None => None
      case Some(n) => if I32_MIN <= sign * n <= I32_MAX then Some(sign * n) else None
  }

  function Clamp(n: int): int {
    if n < 0 then 0 else if n > 5 then 5 else n
  }

  function StripPrefix(s: string, prefix: string): Option<string> {
    if |prefix| <= |s| && s[..|prefix|] == prefix then Some(s[|prefix|..]) else None
  }

  /** What the fold carries: the notification, and the automatic answer. */
  datatype Outcome = Outcome(n: Loaded, auto: Option<string>)

  function Act(x: Texts, action: string, s: Outcome): Outcome {
    if action == "mute" then s.(n := s.n.(status := Muted))
    else if action == "surface" then s.(n := s.n.(status := Open))
    else if StripPrefix(action, "reprioritize:").Some? then
      (match ParseI32(StripPrefix(action, "reprioritize:").value)
       case Some(u) => s.(n := s.n.(urgency := Clamp(u)))
       case None => s)
    else if StripPrefix(action, "snooze:").Some? then
      (match x.deadline(StripPrefix(action, "snooze:").value)
       case Some(d) => s.(n := s.n.(deadline := Some(d)))
       case None => s)
    else if StripPrefix(action, "auto_answer:").Some? then s.(auto := StripPrefix(action, "auto_answer:"))
    else s
  }

  /** The rule is looked at: active, and not past its expiry. */
  predicate Live(r: Rule, now: int) {
    r.active && (r.expiresAt.Some? ==> now <= r.expiresAt.value)
  }

  function Apply(x: Texts, now: int, r: Rule, s: Outcome): Outcome {
    if !Live(r, now) then s
    else
      match r.compiled
      case None => if r.mute then s.(n := s.n.(status := Muted)) else s
      case Some(compiled) =>
        if !MatchRule(x, compiled, s.n) then s
        else
          match AsStr(Field(compiled, "action"))
          case None => s
          case Some(action) => Act(x, action, s)
  }

  function Fold(x: Texts, now: int, rules: seq<Rule>, s: Outcome): Outcome {
    if rules == [] then s else Apply(x, now, rules[|rules| - 1], Fold(x, now, rules[..|rules| - 1], s))
  }

  /** No rule answers an approval ask. */
  function Lock(s: Outcome): Outcome {
    if s.n.questionType == Approval then s.(auto := None) else s
  }

  function Evaluated(x: Texts, now: int, rules: seq<Rule>, n: Loaded): Outcome {
    Lock(Fold(x, now, StableSort(rules, RuleLe), Outcome(n, None)))
  }

  /** evaluate: the loop as it runs. */
  method Evaluate(x: Texts, now: int, rules: seq<Rule>, notif: Loaded) returns (n: Loaded, auto: Option<string>)
    ensures Outcome(n, auto) == Evaluated(x, now, rules, notif)
  {
    n, auto := notif, None;
    var sorted := StableSort(rules, RuleLe);
    for i := 0 to |sorted|
      invariant Outcome(n, auto) == Fold(x, now, sorted[..i], Outcome(notif, None))
    {
      var rule := sorted[i];
      assert sorted[..i + 1][..i] == sorted[..i];
      if !rule.active {
        continue;
      }
      if rule.expiresAt.Some? && now > rule.expiresAt.value {
        continue;
      }
      if rule.compiled.None? {
        if rule.mute {
          n := n.(status := Muted);
        }
        continue;
      }
      if !MatchRule(x, rule.compiled.value, n) {
        continue;
      }
      var action := AsStr(Field(rule.compiled.value, "action"));
      if action.Some? {
        var after := Act(x, action.value, Outcome(n, auto));
        n, auto := after.n, after.auto;
      }
    }
    assert sorted[..|sorted|] == sorted;
    if n.questionType == Approval {
      auto := None;
    }
  }
}
