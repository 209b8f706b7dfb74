/** The cursor and the form walk, over every sequence of what can reach the console. */
module ConsoleLaws {
  import opened Prelude
  import opened Sorting
  import opened Models
  import opened Console

  /** A server list or event that arrives, the clock, or a key. */
  datatype Input =
    | Listed(list: seq<Loaded>, now: int)
    | Changed(n: Loaded, now: int)
    | Closed(id: string)
    | Tick(now: int)
    | Arrow(right: bool)
    | BackKey
    | Pick(i: nat)
    | Entered(value: string)

  function Take(v: View, input: Input): (View, Option<Submission>) {
    match input
    case Listed(list, now) => (Refill(v, list, now), None)
    case Changed(n, now) => (Upsert(v, n, now), None)
    case Closed(id) => (RemoveAsk(v, id), None)
    case Tick(now) => (Normalize(v, now), None)
    case Arrow(right) => (StepBy(v, right), None)
    case BackKey => (Back(v), None)
    case Pick(i) => (if Current(v.queue, v.cur).Some? then v.(sel := Some(i)) else v, None)
    case Entered(value) => (match Current(v.queue, v.cur) case Some(n) => Submit(v, n, value) case None => (v, None))
  }

  function After(inputs: seq<Input>): View {
    if inputs == [] then BLANK else Take(After(inputs[..|inputs| - 1]), inputs[|inputs| - 1]).0
  }

  // ── The cursor ─────────────────────────────────────────────────────────

  predicate Member(queue: seq<Loaded>, id: string) {
    exists i :: 0 <= i < |queue| && queue[i].id == id
  }

  /** The cursor is null exactly when the queue is empty, and names a member otherwise. */
  predicate CursorOk(v: View) {
    (v.cur.None? <==> v.queue == []) && (v.cur.Some? ==> Member(v.queue, v.cur.value))
  }

  lemma NearIsMember(queue: seq<Loaded>, i: int)
    ensures Near(queue, i).None? <==> queue == []
    ensures Near(queue, i).Some? ==> Member(queue, Near(queue, i).value)
  {
    if queue != [] {
      var k := if i < 0 then 0 else if i >= |queue| then |queue| - 1 else i;
      assert queue[k].id == Near(queue, i).value;
    }
  }

  lemma CurrentIsMember(queue: seq<Loaded>, id: Option<string>)
    ensures Current(queue, id).Some? <==> id.Some? && Member(queue, id.value)
  {
  }

  lemma NormalizeCursor(v: View, now: int)
    ensures CursorOk(Normalize(v, now)) && Normalize(v, now).queue == Kept(v.queue, now)
  {
    var keep := Kept(v.queue, now);
    NearIsMember(keep, LastIndex(v.queue, v.cur));
    CurrentIsMember(keep, v.cur);
  }

  lemma RemoveCursor(v: View, id: string)
    requires CursorOk(v)
    ensures CursorOk(RemoveAsk(v, id))
  {
    var i := LastIndex(v.queue, Some(id));
    if i >= 0 {
      var rest := RemoveAt(v.queue, i);
      NearIsMember(rest, i);
      if v.cur != Some(id) {
        var k :| 0 <= k < |v.queue| && v.queue[k].id == v.cur.value;
        assert rest[if k < i then k else k - 1].id == v.cur.value;
      }
    }
  }

  lemma StepCursor(v: View, right: bool)
    requires CursorOk(v)
    ensures CursorOk(StepBy(v, right))
  {
    if v.queue != [] {
      var at := LastIndex(v.queue, v.cur);
      var k := ((if at < 0 then 0 else at) + (if right then 1 else -1) + |v.queue|) % |v.queue|;
      assert v.queue[k].id == StepBy(v, right).cur.value;
    }
  }

  lemma TakeCursor(v: View, input: Input)
    requires CursorOk(v)
    ensures CursorOk(Take(v, input).0)
  {
    match input
    case Listed(list, now) => NormalizeCursor(v.(queue := list), now);
    case Changed(n, now) => NormalizeCursor(v.(queue := Filter(v.queue, Not(n.id)) + [n]), now);
    case Closed(id) => RemoveCursor(v, id);
    case Tick(now) => NormalizeCursor(v, now);
    case Arrow(right) => StepCursor(v, right);
    case _ =>
  }

  /** Whatever lists, events, ticks and keys arrive, in any order. */
  lemma {:induction false} CursorAlways(inputs: seq<Input>)
    ensures CursorOk(After(inputs))
  {
    if inputs != [] {
      CursorAlways(inputs[..|inputs| - 1]);
      TakeCursor(After(inputs[..|inputs| - 1]), inputs[|inputs| - 1]);
    }
  }

  /** The place k of a ring of n, reached from one turn or two turns above. */
  lemma Round(k: nat, n: nat)
    requires k < n
    ensures (k + n) % n == k && (k + 2 * n) % n == k
  {
    assert k + n == 1 * n + k && k + 2 * n == 2 * n + k;
  }

  lemma RightOf(at: nat, n: nat)
    requires at < n
    ensures (at + 1 + n) % n == if at == n - 1 then 0 else at + 1
  {
    Round(if at == n - 1 then 0 else at + 1, n);
  }

  lemma LeftOf(at: nat, n: nat)
    requires at < n
    ensures (at - 1 + n) % n == if at == 0 then n - 1 else at - 1
  {
    if at > 0 {
      Round(at - 1, n);
    }
  }

  predicate DistinctIds(queue: seq<Loaded>) {
    forall i, j :: 0 <= i < j < |queue| ==> queue[i].id != queue[j].id
  }

  /** From the ask at one place, an arrow goes to the ask at the next place, round the ends. */
  lemma StepAt(v: View, at: nat, right: bool)
    requires DistinctIds(v.queue) && at < |v.queue| && v.cur == Some(v.queue[at].id)
    ensures StepBy(v, right).queue == v.queue
    ensures StepBy(v, right).cur ==
            Some(v.queue[if right then (if at == |v.queue| - 1 then 0 else at + 1)
                         else (if at == 0 then |v.queue| - 1 else at - 1)].id)
  {
    LastIndexIs(v.queue, v.cur, at);
    RightOf(at, |v.queue|);
    LeftOf(at, |v.queue|);
  }

  /** Right then left comes back to the same ask. */
  lemma RightLeft(v: View)
    requires CursorOk(v) && DistinctIds(v.queue)
    ensures StepBy(StepBy(v, true), false).cur == v.cur && StepBy(v, true).queue == v.queue
  {
    if v.queue != [] {
      var at :| 0 <= at < |v.queue| && v.queue[at].id == v.cur.value;
      StepAt(v, at, true);
      StepAt(StepBy(v, true), if at == |v.queue| - 1 then 0 else at + 1, false);
    }
  }

  // ── Where the cursor goes ──────────────────────────────────────────────

  /** The cursor, the selection and the form under it are as they were. */
  predicate SameFocus(v: View, v': View) {
    v'.cur == v.cur && v'.sel == v.sel && v'.formIdx == v.formIdx && v'.formAnswers == v.formAnswers
  }

  /** The ask under the cursor is still live after the input. */
  predicate Untouched(v: View, input: Input) {
    match input
    case Listed(list, now) => exists n :: n in list && Some(n.id) == v.cur && Live(n, now)
    case Changed(n, now) =>
      if Some(n.id) == v.cur then Live(n, now) else exists m :: m in v.queue && Some(m.id) == v.cur && Live(m, now)
    case Closed(id) => v.cur != Some(id)
    case Tick(now) => exists m :: m in v.queue && Some(m.id) == v.cur && Live(m, now)
    case _ => false
  }

  lemma TidyStays(v: View, queue: seq<Loaded>, now: int, m: Loaded)
    requires m in queue && Some(m.id) == v.cur && Live(m, now)
    ensures SameFocus(v, Normalize(v.(queue := queue), now))
  {
    KeptMember(queue, now, m);
    var keep := Kept(queue, now);
    var i :| 0 <= i < |keep| && keep[i] == m;
    assert Current(keep, v.cur).Some?;
  }

  /** Nothing that arrives takes the person away from an ask that is still live, or
      from the form half filled in under it. */
  lemma FocusStays(v: View, input: Input)
    requires Untouched(v, input)
    ensures SameFocus(v, Take(v, input).0)
  {
    match input
    case Listed(list, now) =>
      var m :| m in list && Some(m.id) == v.cur && Live(m, now);
      TidyStays(v, list, now, m);
    case Changed(n, now) =>
      var q := Filter(v.queue, Not(n.id)) + [n];
      if Some(n.id) == v.cur {
        assert n in q by { assert q[|q| - 1] == n; }
        TidyStays(v, q, now, n);
      } else {
        var m :| m in v.queue && Some(m.id) == v.cur && Live(m, now);
        OtherMember(v.queue, n.id, m);
        TidyStays(v, q, now, m);
      }
    case Tick(now) =>
      var m :| m in v.queue && Some(m.id) == v.cur && Live(m, now);
      TidyStays(v, v.queue, now, m);
    case _ =>
  }

  /** When the ask under the cursor is removed, the cursor goes to the one after it, to
      the new last one if there is none, and is null when the queue is empty. */
  lemma RemoveMovesOn(v: View, at: nat)
    requires DistinctIds(v.queue) && at < |v.queue| && v.cur == Some(v.queue[at].id)
    ensures RemoveAsk(v, v.queue[at].id).cur ==
            if at + 1 < |v.queue| then Some(v.queue[at + 1].id) else if at > 0 then Some(v.queue[at - 1].id) else None
  {
    LastIndexIs(v.queue, v.cur, at);
    var rest := RemoveAt(v.queue, at);
    assert at + 1 < |v.queue| ==> rest[at] == v.queue[at + 1];
    assert at + 1 == |v.queue| && at > 0 ==> rest[at - 1] == v.queue[at - 1];
  }

  lemma RemoveSorted(v: View, id: string)
    requires Sorted(v.queue, OlderFirst)
    ensures Sorted(RemoveAsk(v, id).queue, OlderFirst)
  {
    var i := LastIndex(v.queue, Some(id));
    if i >= 0 {
      var rest := RemoveAt(v.queue, i);
      forall j, k | 0 <= j < k < |rest| ensures OlderFirst(rest[j], rest[k]) {
        assert rest[j] == v.queue[if j < i then j else j + 1] && rest[k] == v.queue[if k < i then k else k + 1];
      }
    }
  }

  lemma NormalizeSorted(v: View, now: int)
    ensures Sorted(Normalize(v, now).queue, OlderFirst)
  {
    SortSorts(Filter(v.queue, LiveAt(now)), OlderFirst);
    NormalizeCursor(v, now);
  }

  /** The queue is always shown oldest first. */
  lemma {:induction false} SortedAlways(inputs: seq<Input>)
    ensures forall i, j :: 0 <= i < j < |After(inputs).queue| ==>
              After(inputs).queue[i].createdAt <= After(inputs).queue[j].createdAt
  {
    if inputs != [] {
      var v, input := After(inputs[..|inputs| - 1]), inputs[|inputs| - 1];
      SortedAlways(inputs[..|inputs| - 1]);
      match input
      case Listed(list, now) => NormalizeSorted(v.(queue := list), now);
      case Changed(n, now) => NormalizeSorted(v.(queue := Filter(v.queue, Not(n.id)) + [n]), now);
      case Closed(id) => RemoveSorted(v, id);
      case Tick(now) => NormalizeSorted(v, now);
      case _ =>
    }
  }

  // ── Forms ──────────────────────────────────────────────────────────────

  /** The questions of an ask that is walked as a form; none for any other ask. */
  function Questions(n: Loaded): seq<SubQuestion> {
    if IsForm(n) then n.subQuestions else []
  }

  function KeysOf(subs: seq<SubQuestion>): set<string> {
    set i | 0 <= i < |subs| :: subs[i].key
  }

  /** Keys that an answer can be kept under. */
  function Keepable(subs: seq<SubQuestion>): set<string> {
    KeysOf(subs) - {"__proto__"}
  }

  /** The questions of an ask never change: every copy that arrives has those of its id. */
  predicate Faithful(forms: string -> seq<SubQuestion>, n: Loaded) {
    Questions(n) == forms(n.id)
  }

  predicate FaithfulInput(forms: string -> seq<SubQuestion>, input: Input) {
    match input
    case Listed(list, _) => forall i :: 0 <= i < |list| ==> Faithful(forms, list[i])
    case Changed(n, _) => Faithful(forms, n)
    case _ => true
  }

  /** Every question before the current one is answered, and nothing else is. */
  predicate Walk(v: View, subs: seq<SubQuestion>) {
    subs != [] ==>
      && v.formIdx.Some? && v.formIdx.value < |subs|
      && Keepable(subs[..v.formIdx.value]) <= v.formAnswers.Keys <= Keepable(subs)
  }

  ghost predicate FormsOk(forms: string -> seq<SubQuestion>, v: View) {
    && (forall n :: n in v.queue ==> Faithful(forms, n))
    && (v.cur.Some? ==> Walk(v, forms(v.cur.value)))
  }

  lemma SelectForms(forms: string -> seq<SubQuestion>, v: View, id: Option<string>)
    requires (forall n :: n in v.queue ==> Faithful(forms, n)) && (v.cur.Some? ==> Walk(v, forms(v.cur.value)))
    ensures FormsOk(forms, SelectAsk(v, id))
  {
    if id != v.cur && id.Some? {
      var subs := forms(id.value);
      assert subs[..0] == [];
      assert Keepable(subs[..0]) == {};
    }
  }

  lemma SortMembers(queue: seq<Loaded>, n: Loaded)
    ensures n in StableSort(queue, OlderFirst) <==> n in queue
  {
    SortPermutes(queue, OlderFirst);
    assert n in multiset(StableSort(queue, OlderFirst)) <==> n in multiset(queue);
  }

  lemma KeptMember(queue: seq<Loaded>, now: int, n: Loaded)
    ensures n in Kept(queue, now) <==> n in queue && Live(n, now)
  {
    FilterMembers(queue, LiveAt(now));
    assert n in Filter(queue, LiveAt(now)) <==> n in queue && LiveAt(now)(n);
    SortMembers(Filter(queue, LiveAt(now)), n);
  }

  lemma KeptMembers(queue: seq<Loaded>, now: int)
    ensures forall n :: n in Kept(queue, now) <==> n in queue && Live(n, now)
  {
    forall n ensures n in Kept(queue, now) <==> n in queue && Live(n, now) {
      KeptMember(queue, now, n);
    }
  }

  lemma NormalizeForms(forms: string -> seq<SubQuestion>, v: View, now: int)
    requires FormsOk(forms, v)
    ensures FormsOk(forms, Normalize(v, now))
  {
    KeptMembers(v.queue, now);
    var keep := Kept(v.queue, now);
    SelectForms(forms, v.(queue := keep), Near(keep, LastIndex(v.queue, v.cur)));
  }

  lemma OtherMember(queue: seq<Loaded>, id: string, m: Loaded)
    ensures m in Filter(queue, Not(id)) <==> m in queue && m.id != id
  {
    FilterMembers(queue, Not(id));
    assert m in Filter(queue, Not(id)) <==> m in queue && Not(id)(m);
  }

  lemma UpsertForms(forms: string -> seq<SubQuestion>, v: View, n: Loaded, now: int)
    requires FormsOk(forms, v) && Faithful(forms, n)
    ensures FormsOk(forms, Upsert(v, n, now))
  {
    var others := Filter(v.queue, Not(n.id));
    forall m | m in others + [n] ensures Faithful(forms, m) {
      assert m == n || m in others;
      OtherMember(v.queue, n.id, m);
    }
    NormalizeForms(forms, v.(queue := others + [n]), now);
  }

  lemma RemoveForms(forms: string -> seq<SubQuestion>, v: View, id: string)
    requires FormsOk(forms, v)
    ensures FormsOk(forms, RemoveAsk(v, id))
  {
    var i := LastIndex(v.queue, Some(id));
    if i >= 0 {
      var v' := v.(queue := RemoveAt(v.queue, i));
      if v.cur == Some(id) {
        SelectForms(forms, v'.(cur := None), Near(v'.queue, i));
      }
    }
  }

  lemma KeysGrow(subs: seq<SubQuestion>, i: nat)
    requires i < |subs|
    ensures KeysOf(subs[..i + 1]) == KeysOf(subs[..i]) + {subs[i].key} && KeysOf(subs[..i]) <= KeysOf(subs)
    ensures subs[i].key in KeysOf(subs)
  {
    var more, fewer := subs[..i + 1], subs[..i];
    assert more == fewer + [subs[i]];
    forall k | k in KeysOf(fewer) + {subs[i].key} ensures k in KeysOf(more) {
      if k == subs[i].key { assert more[i].key == k; }
      else { var j :| 0 <= j < i && fewer[j].key == k; assert more[j].key == k; }
    }
    forall k | k in KeysOf(fewer) ensures k in KeysOf(subs) {
      var j :| 0 <= j < i && fewer[j].key == k;
      assert subs[j].key == k;
    }
  }

  /** One answer entered: the walk goes on, or the whole form is sent with an
      answer for every question it can keep one for. */
  lemma SubmitWalks(v: View, n: Loaded, value: string)
    requires IsForm(n) && Walk(v, n.subQuestions)
    ensures Walk(Submit(v, n, value).0, n.subQuestions)
    ensures Submit(v, n, value).1.Some? ==>
      Submit(v, n, value).1.value.WholeForm? && Submit(v, n, value).1.value.answers.Keys == Keepable(n.subQuestions)
  {
    var subs, i := n.subQuestions, v.formIdx.value;
    KeysGrow(subs, i);
    assert Keepable(subs[..i + 1]) <= SetAnswer(v.formAnswers, subs[i].key, value).Keys <= Keepable(subs);
    assert subs[..|subs|] == subs;
  }

  lemma BackWalks(v: View, subs: seq<SubQuestion>)
    requires Walk(v, subs) && subs != [] && v.formIdx.value > 0
    ensures Walk(FormGoto(v, v.formIdx.value - 1), subs)
  {
    var i := v.formIdx.value;
    assert subs[..i][..i - 1] == subs[..i - 1];
    KeysGrow(subs, i - 1);
  }

  lemma TakeForms(forms: string -> seq<SubQuestion>, v: View, input: Input)
    requires FormsOk(forms, v) && FaithfulInput(forms, input)
    ensures FormsOk(forms, Take(v, input).0)
  {
    match input
    case Listed(list, now) =>
      assert FormsOk(forms, v.(queue := list));
      NormalizeForms(forms, v.(queue := list), now);
    case Changed(n, now) => UpsertForms(forms, v, n, now);
    case Closed(id) => RemoveForms(forms, v, id);
    case Tick(now) => NormalizeForms(forms, v, now);
    case Arrow(right) => SelectForms(forms, v, StepBy(v, right).cur);
    case BackKey =>
      var n := Current(v.queue, v.cur);
      if n.Some? && IsForm(n.value) && v.formIdx.Some? && v.formIdx.value > 0 {
        assert Faithful(forms, n.value);
        BackWalks(v, forms(n.value.id));
      }
    case Pick(_) =>
    case Entered(value) =>
      var n := Current(v.queue, v.cur);
      if n.Some? && IsForm(n.value) {
        assert Faithful(forms, n.value);
        SubmitWalks(v, n.value, value);
      }
  }

  lemma {:induction false} FormsAlways(forms: string -> seq<SubQuestion>, inputs: seq<Input>)
    requires forall i :: 0 <= i < |inputs| ==> FaithfulInput(forms, inputs[i])
    ensures FormsOk(forms, After(inputs))
  {
    if inputs != [] {
      FormsAlways(forms, inputs[..|inputs| - 1]);
      TakeForms(forms, After(inputs[..|inputs| - 1]), inputs[|inputs| - 1]);
    }
  }

  /** A form that is sent, after any walk of answers, back keys, other asks, lists
      and events, carries an answer for every key of its form that a plain object
      can hold, and for no other key. */
  lemma FormsAreWhole(forms: string -> seq<SubQuestion>, inputs: seq<Input>, value: string)
    requires forall i :: 0 <= i < |inputs| ==> FaithfulInput(forms, inputs[i])
    ensures Whole(forms, Take(After(inputs), Entered(value)).1)
  {
    FormsAlways(forms, inputs);
    SentWhole(forms, After(inputs), value);
  }

  /** A form that is sent is whole. */
  predicate Whole(forms: string -> seq<SubQuestion>, out: Option<Submission>) {
    out.Some? && out.value.WholeForm? ==> out.value.answers.Keys == Keepable(forms(out.value.id))
  }

  lemma SentWhole(forms: string -> seq<SubQuestion>, v: View, value: string)
    requires FormsOk(forms, v)
    ensures Whole(forms, Take(v, Entered(value)).1)
  {
    var n := Current(v.queue, v.cur);
    if n.Some? && IsForm(n.value) {
      assert Faithful(forms, n.value);
      SubmitWalks(v, n.value, value);
    }
  }

  /** So the answers are complete exactly when no question has the key "__proto__". */
  lemma CompleteIff(subs: seq<SubQuestion>)
    ensures Keepable(subs) == KeysOf(subs) <==> forall i :: 0 <= i < |subs| ==> subs[i].key != "__proto__"
  {
    if Keepable(subs) == KeysOf(subs) {
      forall i | 0 <= i < |subs| ensures subs[i].key != "__proto__" {
        assert subs[i].key in KeysOf(subs);
      }
    }
  }
}
