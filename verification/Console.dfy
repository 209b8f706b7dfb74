/** The console's queue, cursor and form walk (static/console.js): what each
    operation makes of the view, and the operations themselves, in place. */
module Console {
  import opened Prelude
  import opened Sorting
  import opened Models

  /** The part of S that the queue and the forms use. */
  datatype View = View(
    queue: seq<Loaded>,
    cur: Option<string>,
    sel: Option<nat>,
    formIdx: Option<nat>,
    formAnswers: map<string, string>)

  const BLANK := View([], None, None, None, map[])

  /** Whether an ask belongs in the queue now. */
  predicate Live(n: Loaded, now: int) {
    && n.status == Open
    && !(n.snoozeUntil.Some? && n.snoozeUntil.value > now)
    && !(n.deadline.Some? && n.deadline.value <= now)
  }

  function LiveAt(now: int): Loaded -> bool {
    n => Live(n, now)
  }

  function Not(id: string): Loaded -> bool {
    (n: Loaded) => n.id != id
  }

  predicate OlderFirst(a: Loaded, b: Loaded) {
    a.createdAt <= b.createdAt
  }

  /** Where the id stands in the queue, the last place if there are several; -1 if nowhere. */
  function LastIndex(queue: seq<Loaded>, id: Option<string>): (i: int)
    ensures -1 <= i < |queue|
    ensures i >= 0 ==> Some(queue[i].id) == id
    ensures forall j :: i < j < |queue| ==> Some(queue[j].id) != id
  {
    if queue == [] then -1
    else if Some(queue[|queue| - 1].id) == id then |queue| - 1
    else LastIndex(queue[..|queue| - 1], id)
  }

  /** The ask under the cursor: the first with its id. */
  function Current(queue: seq<Loaded>, id: Option<string>): (n: Option<Loaded>)
    ensures n.Some? ==> n.value in queue && Some(n.value.id) == id
    ensures n.None? ==> forall j :: 0 <= j < |queue| ==> Some(queue[j].id) != id
  {
    if queue == [] then None
    else if Some(queue[0].id) == id then Some(queue[0])
    else Current(queue[1..], id)
  }

  // ── Operations on views ────────────────────────────────────────────────

  function SelectAsk(v: View, id: Option<string>): View {
    if id == v.cur then v else v.(cur := id, sel := None, formIdx := Some(0), formAnswers := map[])
  }

  /** The id at place i of a queue, pushed into its bounds. */
  function Near(queue: seq<Loaded>, i: int): Option<string> {
    if queue == [] then None
    else Some(queue[if i < 0 then 0 else if i >= |queue| then |queue| - 1 else i].id)
  }

  function Kept(queue: seq<Loaded>, now: int): seq<Loaded> {
    StableSort(Filter(queue, LiveAt(now)), OlderFirst)
  }

  function Normalize(v: View, now: int): View {
    var keep := Kept(v.queue, now);
    var v' := v.(queue := keep);
    if Current(keep, v.cur).Some? then v' else SelectAsk(v', Near(keep, LastIndex(v.queue, v.cur)))
  }

  function Refill(v: View, list: seq<Loaded>, now: int): View {
    Normalize(v.(queue := list), now)
  }

  function Upsert(v: View, n: Loaded, now: int): View {
    Normalize(v.(queue := Filter(v.queue, Not(n.id)) + [n]), now)
  }

  function RemoveAt(queue: seq<Loaded>, i: nat): seq<Loaded>
    requires i < |queue|
  {
    queue[..i] + queue[i + 1..]
  }

  function RemoveAsk(v: View, id: string): View {
    var i := LastIndex(v.queue, Some(id));
    if i < 0 then v
    else
      var v' := v.(queue := RemoveAt(v.queue, i));
      if v.cur == Some(id) then SelectAsk(v'.(cur := None), Near(v'.queue, i)) else v'
  }

  /** One ask to the right or to the left, round the ends. */
  function StepBy(v: View, right: bool): View {
    if v.queue == [] then v
    else
      var at := LastIndex(v.queue, v.cur);
      var i := if at < 0 then 0 else at;
      var d := if right then 1 else -1;
      SelectAsk(v, Some(v.queue[(i + d + |v.queue|) % |v.queue|].id))
  }

  // ── Forms ──────────────────────────────────────────────────────────────

  predicate IsForm(n: Loaded) {
    n.questionType == Form && n.subQuestions != []
  }

  /** The sub-question the keys act on. */
  function FormSub(n: Loaded, formIdx: Option<nat>): SubQuestion
    requires IsForm(n)
  {
    var i := if formIdx.Some? then formIdx.value else 0;
    n.subQuestions[if i < |n.subQuestions| then i else |n.subQuestions| - 1]
  }

  /** Assigning to a property of a plain object: "__proto__" takes no text. */
  function SetAnswer(answers: map<string, string>, key: string, value: string): map<string, string> {
    if key == "__proto__" then answers else answers[key := value]
  }

  function FormGoto(v: View, idx: nat): View {
    v.(formIdx := Some(idx), sel := None)
  }

  /** What is sent to the server: a plain answer, or the answers of a whole form. */
  datatype Submission = Plain(id: string, answer: string) | WholeForm(id: string, answers: map<string, string>)

  /** undefined + 1 is not below any length, so an unset index submits. */
  predicate MoreToAsk(n: Loaded, formIdx: Option<nat>) {
    formIdx.Some? && formIdx.value + 1 < |n.subQuestions|
  }

  function Submit(v: View, n: Loaded, value: string): (View, Option<Submission>) {
    if !IsForm(n) then (v, Some(Plain(n.id, value)))
    else
      var v' := v.(formAnswers := SetAnswer(v.formAnswers, FormSub(n, v.formIdx).key, value));
      if MoreToAsk(n, v.formIdx) then (FormGoto(v', v.formIdx.value + 1), None)
      else (v', Some(WholeForm(n.id, v'.formAnswers)))
  }

  /** The back key. */
  function Back(v: View): View {
    match Current(v.queue, v.cur)
    case Some(n) => if IsForm(n) && v.formIdx.Some? && v.formIdx.value > 0 then FormGoto(v, v.formIdx.value - 1) else v
    case None => v
  }

  // ── The console, in place ──────────────────────────────────────────────

  lemma LastIndexIs(queue: seq<Loaded>, id: Option<string>, i: int)
    requires -1 <= i < |queue| && (i >= 0 ==> Some(queue[i].id) == id)
    requires forall j :: i < j < |queue| ==> Some(queue[j].id) != id
    ensures LastIndex(queue, id) == i
  {
  }

  lemma FilterSnoc<T>(xs: seq<T>, x: T, p: T -> bool)
    ensures Filter(xs + [x], p) == Filter(xs, p) + if p(x) then [x] else []
  {
    FilterAppend(xs, [x], p);
    assert [x][1..] == [];
  }

  class Console {
    var queue: seq<Loaded>
    var cur: Option<string>
    var sel: Option<nat>
    var formIdx: Option<nat>
    var formAnswers: map<string, string>

    ghost function Shown(): View
      reads this
    {
      View(queue, cur, sel, formIdx, formAnswers)
    }

    constructor ()
      ensures Shown() == BLANK
    {
      queue, cur, sel, formIdx, formAnswers := [], None, None, None, map[];
    }

    method Find() returns (n: Option<Loaded>)
      ensures n == Current(queue, cur)
    {
      for i := 0 to |queue|
        invariant Current(queue, cur) == Current(queue[i..], cur)
      {
        if Some(queue[i].id) == cur {
          return Some(queue[i]);
        }
        assert queue[i..][1..] == queue[i + 1..];
      }
      n := None;
    }

    method IndexOf(id: Option<string>) returns (at: int)
      ensures at == LastIndex(queue, id)
    {
      at := -1;
      for i := 0 to |queue|
        invariant -1 <= at < i && (at >= 0 ==> Some(queue[at].id) == id)
        invariant forall j :: at < j < i ==> Some(queue[j].id) != id
      {
        if Some(queue[i].id) == id {
          at := i;
        }
      }
      LastIndexIs(queue, id, at);
    }

    method Select(id: Option<string>)
      modifies this
      ensures Shown() == SelectAsk(old(Shown()), id)
    {
      if id == cur {
        return;
      }
      cur, sel := id, None;
      formIdx, formAnswers := Some(0), map[];
    }

    /** The asks that pass, in order. */
    method Keep(p: Loaded -> bool) returns (keep: seq<Loaded>)
      ensures keep == Filter(queue, p)
    {
      keep := [];
      for i := 0 to |queue|
        invariant keep == Filter(queue[..i], p)
      {
        assert queue[..i + 1] == queue[..i] + [queue[i]];
        FilterSnoc(queue[..i], queue[i], p);
        if p(queue[i]) {
          keep := keep + [queue[i]];
        }
      }
      assert queue[..|queue|] == queue;
    }

    method Tidy(now: int)
      modifies this
      ensures Shown() == Normalize(old(Shown()), now)
    {
      var at := IndexOf(cur);
      var keep := Keep(LiveAt(now));
      keep := StableSort(keep, OlderFirst);
      queue := keep;
      var found := Find();
      if found.None? {
        if keep == [] {
          Select(None);
        } else {
          var i := if at < |keep| - 1 then at else |keep| - 1;
          Select(Some(keep[if i < 0 then 0 else i].id));
        }
      }
    }

    method Reload(list: seq<Loaded>, now: int)
      modifies this
      ensures Shown() == Refill(old(Shown()), list, now)
    {
      queue := list;
      Tidy(now);
    }

    method Put(n: Loaded, now: int)
      modifies this
      ensures Shown() == Upsert(old(Shown()), n, now)
    {
      var others := Keep(Not(n.id));
      queue := others + [n];
      Tidy(now);
    }

    method Remove(id: string)
      modifies this
      ensures Shown() == RemoveAsk(old(Shown()), id)
    {
      var i := IndexOf(Some(id));
      if i < 0 {
        return;
      }
      queue := queue[..i] + queue[i + 1..];
      if cur == Some(id) {
        cur := None;
        if queue == [] {
          Select(None);
        } else {
          Select(Some(queue[if i < |queue| - 1 then i else |queue| - 1].id));
        }
      }
    }

    method Step(right: bool)
      modifies this
      ensures Shown() == StepBy(old(Shown()), right)
    {
      if queue == [] {
        return;
      }
      var at := IndexOf(cur);
      var i := if at < 0 then 0 else at;
      Select(Some(queue[(i + (if right then 1 else -1) + |queue|) % |queue|].id));
    }

    method Goto(idx: nat)
      modifies this`formIdx, this`sel
      ensures Shown() == FormGoto(old(Shown()), idx)
    {
      formIdx, sel := Some(idx), None;
    }

    method Enter(n: Loaded, value: string) returns (out: Option<Submission>)
      modifies this
      ensures (Shown(), out) == Submit(old(Shown()), n, value)
    {
      if !IsForm(n) {
        return Some(Plain(n.id, value));
      }
      formAnswers := SetAnswer(formAnswers, FormSub(n, formIdx).key, value);
      if MoreToAsk(n, formIdx) {
        Goto(formIdx.value + 1);
        return None;
      }
      out := Some(WholeForm(n.id, formAnswers));
    }

    method GoBack()
      modifies this
      ensures Shown() == Back(old(Shown()))
    {
      var n := Find();
      if n.Some? && IsForm(n.value) && formIdx.Some? && formIdx.value > 0 {
        Goto(formIdx.value - 1);
      }
    }
  }
}
