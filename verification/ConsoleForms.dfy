/** What the console sends: which value it keeps for which question of a form, and
    where its cursor goes when an ask leaves the queue. */
module ConsoleForms {
  import opened Prelude
  import opened Sorting
  import opened Models
  import opened Console
  import opened ConsoleLaws

  // ── One step of a form ─────────────────────────────────────────────────

  /** The question of the form that the keys act on. */
  function Asked(n: Loaded, v: View): SubQuestion
    requires n.questionType == Form && n.subQuestions != []
  {
    var last := |n.subQuestions| - 1;
    if v.formIdx.Some? && v.formIdx.value < last then n.subQuestions[v.formIdx.value]
    else if v.formIdx.None? then n.subQuestions[0]
    else n.subQuestions[last]
  }

  /** The answers after one more is entered: the value under its key, and every other
      key as before; a key that takes no text changes nothing. */
  ghost predicate AlsoKept(before: map<string, string>, after: map<string, string>, key: string, value: string) {
    && (key != "__proto__" ==> key in after && after[key] == value)
    && (forall k :: k != key || k == "__proto__" ==>
          (k in after <==> k in before) && (k in before ==> after[k] == before[k]))
  }

  /** Entering a value: an ask that is not a form is sent with the value; a form keeps
      the value under the key of its question, and goes on, or is sent whole. */
  lemma EnteredIsKept(v: View, value: string, n: Loaded)
    requires Current(v.queue, v.cur) == Some(n)
    ensures var (v', out) := Take(v, Entered(value));
            if n.questionType != Form || n.subQuestions == [] then v' == v && out == Some(Plain(n.id, value))
            else
              && AlsoKept(v.formAnswers, v'.formAnswers, Asked(n, v).key, value)
              && v'.queue == v.queue && v'.cur == v.cur
              && (if v.formIdx.Some? && v.formIdx.value + 1 < |n.subQuestions|
                  then v'.formIdx == Some(v.formIdx.value + 1) && v'.sel == None && out == None
                  else v'.formIdx == v.formIdx && v'.sel == v.sel && out == Some(WholeForm(n.id, v'.formAnswers)))
  {
  }

  /** The back key: one question back, the answers as they are. */
  lemma BackGoesBack(v: View, n: Loaded)
    requires Current(v.queue, v.cur) == Some(n)
    ensures var v' := Take(v, BackKey).0;
            if n.questionType == Form && n.subQuestions != [] && v.formIdx.Some? && v.formIdx.value > 0
            then v' == v.(formIdx := Some(v.formIdx.value - 1), sel := None)
            else v' == v
  {
  }

  /** Wherever the cursor goes to another ask, selection and form start anew. */
  lemma NewFocusIsBlank(v: View, input: Input)
    requires Take(v, input).0.cur != v.cur && Take(v, input).0.cur.Some?
    ensures var v' := Take(v, input).0; v'.sel == None && v'.formIdx == Some(0) && v'.formAnswers == map[]
  {
  }

  // ── A whole form ───────────────────────────────────────────────────────

  /** The cursor is at the ask before input i. */
  predicate AtAsk(inputs: seq<Input>, i: nat, id: string)
    requires i <= |inputs|
  {
    After(inputs[..i]).cur == Some(id)
  }

  /** Input i enters the value, at a question of the ask with the key. */
  predicate EntersAt(forms: string -> seq<SubQuestion>, inputs: seq<Input>, i: nat, id: string, key: string,
                     value: string)
    requires i < |inputs|
  {
    var v := After(inputs[..i]);
    && inputs[i] == Entered(value) && v.cur == Some(id)
    && v.formIdx.Some? && v.formIdx.value < |forms(id)| && forms(id)[v.formIdx.value].key == key
  }

  predicate EntersSome(forms: string -> seq<SubQuestion>, inputs: seq<Input>, i: nat, id: string, key: string)
    requires i < |inputs|
  {
    inputs[i].Entered? && EntersAt(forms, inputs, i, id, key, inputs[i].value)
  }

  /** Input i is the last of them to enter something for the key, and from then on the
      cursor has stayed at the ask. */
  ghost predicate LastEntered(forms: string -> seq<SubQuestion>, inputs: seq<Input>, i: nat, id: string, key: string,
                              value: string)
    requires i < |inputs|
  {
    && EntersAt(forms, inputs, i, id, key, value)
    && (forall j :: i < j < |inputs| ==> AtAsk(inputs, j, id) && !EntersSome(forms, inputs, j, id, key))
  }

  ghost predicate WasEntered(forms: string -> seq<SubQuestion>, inputs: seq<Input>, id: string, key: string,
                             value: string) {
    exists i :: 0 <= i < |inputs| && LastEntered(forms, inputs, i, id, key, value)
  }

  /** Every answer kept for the ask under the cursor is the last one entered for its key. */
  ghost predicate AnswersOk(forms: string -> seq<SubQuestion>, inputs: seq<Input>) {
    var v := After(inputs);
    v.cur.Some? ==> forall key :: key in v.formAnswers ==>
      WasEntered(forms, inputs, v.cur.value, key, v.formAnswers[key])
  }

  lemma Earlier(inputs: seq<Input>, more: Input, i: nat)
    requires i <= |inputs|
    ensures (inputs + [more])[..i] == inputs[..i]
  {
  }

  lemma AfterSnoc(inputs: seq<Input>, more: Input)
    ensures After(inputs + [more]) == Take(After(inputs), more).0
    ensures (inputs + [more])[..|inputs|] == inputs
  {
    assert (inputs + [more])[..|inputs + [more]| - 1] == inputs;
  }

  /** What was entered last stays so over an input that enters nothing for the key. */
  lemma StillLast(forms: string -> seq<SubQuestion>, inputs: seq<Input>, more: Input, id: string, key: string,
                  value: string)
    requires WasEntered(forms, inputs, id, key, value) && After(inputs).cur == Some(id)
    requires !EntersSome(forms, inputs + [more], |inputs|, id, key)
    ensures WasEntered(forms, inputs + [more], id, key, value)
  {
    var i :| 0 <= i < |inputs| && LastEntered(forms, inputs, i, id, key, value);
    var all := inputs + [more];
    Earlier(inputs, more, i);
    forall j | i < j < |all| ensures AtAsk(all, j, id) && !EntersSome(forms, all, j, id, key) {
      Earlier(inputs, more, j);
      if j < |inputs| {
        assert AtAsk(inputs, j, id) && !EntersSome(forms, inputs, j, id, key);
      } else {
        AfterSnoc(inputs, more);
      }
    }
    assert LastEntered(forms, all, i, id, key, value);
  }

  lemma JustEntered(forms: string -> seq<SubQuestion>, inputs: seq<Input>, value: string, id: string, key: string)
    requires EntersAt(forms, inputs + [Entered(value)], |inputs|, id, key, value)
    ensures WasEntered(forms, inputs + [Entered(value)], id, key, value)
  {
    assert LastEntered(forms, inputs + [Entered(value)], |inputs|, id, key, value);
  }

  /** The answers are as they were at the same ask, or forgotten. */
  predicate KeepsOrForgets(v: View, v': View) {
    v'.cur.Some? ==> (v'.cur == v.cur && v'.formAnswers == v.formAnswers) || v'.formAnswers == map[]
  }

  lemma NormalizeKeeps(v: View, queue: seq<Loaded>, now: int)
    ensures KeepsOrForgets(v, Normalize(v.(queue := queue), now))
  {
  }

  /** A cursor that is set anew forgets. */
  lemma SelectForgets(v: View, id: Option<string>)
    requires v.cur.None?
    ensures SelectAsk(v, id).cur.Some? ==> SelectAsk(v, id).formAnswers == map[]
  {
  }

  lemma RemoveKeeps(v: View, id: string)
    ensures KeepsOrForgets(v, RemoveAsk(v, id))
  {
    var i := LastIndex(v.queue, Some(id));
    if i >= 0 && v.cur == Some(id) {
      var queue := RemoveAt(v.queue, i);
      SelectForgets(v.(queue := queue, cur := None), Near(queue, i));
    }
  }

  /** An input other than a value leaves the answers of the ask under the cursor alone,
      or forgets them all. */
  lemma OthersKeep(v: View, input: Input)
    requires !input.Entered?
    ensures KeepsOrForgets(v, Take(v, input).0)
  {
    match input
    case Listed(list, now) => NormalizeKeeps(v, list, now);
    case Changed(n, now) => NormalizeKeeps(v, Filter(v.queue, Not(n.id)) + [n], now);
    case Tick(now) => NormalizeKeeps(v, v.queue, now);
    case Closed(id) => RemoveKeeps(v, id);
    case _ =>
  }

  lemma OtherAnswersOk(forms: string -> seq<SubQuestion>, inputs: seq<Input>, more: Input)
    requires AnswersOk(forms, inputs) && !more.Entered?
    ensures AnswersOk(forms, inputs + [more])
  {
    AfterSnoc(inputs, more);
    OthersKeep(After(inputs), more);
    var v, v' := After(inputs), After(inputs + [more]);
    if v'.cur.Some? && v'.formAnswers != map[] {
      forall key | key in v'.formAnswers
        ensures WasEntered(forms, inputs + [more], v'.cur.value, key, v'.formAnswers[key])
      {
        StillLast(forms, inputs, more, v.cur.value, key, v.formAnswers[key]);
      }
    }
  }

  /** The question a value is entered at, when the forms are the ones the asks have. */
  lemma QuestionAsked(forms: string -> seq<SubQuestion>, v: View, n: Loaded)
    requires FormsOk(forms, v) && Current(v.queue, v.cur) == Some(n) && IsForm(n)
    ensures n.id == v.cur.value && forms(n.id) == n.subQuestions
    ensures v.formIdx.Some? && v.formIdx.value < |forms(n.id)| && Asked(n, v) == forms(n.id)[v.formIdx.value]
  {
    assert Faithful(forms, n);
  }

  lemma EnteredAnswersOk(forms: string -> seq<SubQuestion>, inputs: seq<Input>, value: string)
    requires AnswersOk(forms, inputs) && FormsOk(forms, After(inputs)) && CursorOk(After(inputs))
    ensures AnswersOk(forms, inputs + [Entered(value)])
  {
    var v := After(inputs);
    AfterSnoc(inputs, Entered(value));
    var n := Current(v.queue, v.cur);
    if n.Some? && IsForm(n.value) {
      EnteredIsKept(v, value, n.value);
      QuestionAsked(forms, v, n.value);
      FormAnswersOk(forms, inputs, value, n.value, Asked(n.value, v).key);
    } else if n.Some? {
      assert Faithful(forms, n.value);
    } else {
      CurrentIsMember(v.queue, v.cur);
    }
  }

  lemma FormAnswersOk(forms: string -> seq<SubQuestion>, inputs: seq<Input>, value: string, n: Loaded, key: string)
    requires AnswersOk(forms, inputs) && After(inputs).cur == Some(n.id)
    requires EntersAt(forms, inputs + [Entered(value)], |inputs|, n.id, key, value)
    requires After(inputs + [Entered(value)]).cur == Some(n.id)
    requires AlsoKept(After(inputs).formAnswers, After(inputs + [Entered(value)]).formAnswers, key, value)
    requires "__proto__" !in After(inputs).formAnswers
    ensures AnswersOk(forms, inputs + [Entered(value)])
  {
    var v, v', all := After(inputs), After(inputs + [Entered(value)]), inputs + [Entered(value)];
    forall k | k in v'.formAnswers ensures WasEntered(forms, all, n.id, k, v'.formAnswers[k]) {
      if k == key {
        JustEntered(forms, inputs, value, n.id, key);
      } else {
        StillLast(forms, inputs, Entered(value), n.id, k, v.formAnswers[k]);
      }
    }
  }

  lemma {:induction false} AnswersAlways(forms: string -> seq<SubQuestion>, inputs: seq<Input>)
    requires forall i :: 0 <= i < |inputs| ==> FaithfulInput(forms, inputs[i])
    ensures AnswersOk(forms, inputs)
  {
    if inputs != [] {
      var before, last := inputs[..|inputs| - 1], inputs[|inputs| - 1];
      assert inputs == before + [last];
      AnswersAlways(forms, before);
      FormsAlways(forms, before);
      CursorAlways(before);
      if last.Entered? {
        EnteredAnswersOk(forms, before, last.value);
      } else {
        OtherAnswersOk(forms, before, last);
      }
    }
  }

  /** A form that is sent has exactly the keys it can keep an answer for, each with the
      value last entered at a question with that key since the cursor came to the ask. */
  ghost predicate SentAsEntered(forms: string -> seq<SubQuestion>, inputs: seq<Input>, out: Option<Submission>) {
    out.Some? && out.value.WholeForm? ==>
      && out.value.answers.Keys == Keepable(forms(out.value.id))
      && forall key :: key in out.value.answers ==>
           WasEntered(forms, inputs, out.value.id, key, out.value.answers[key])
  }

  lemma SentIsKept(v: View, value: string)
    ensures var (v', out) := Take(v, Entered(value));
            out.Some? && out.value.WholeForm? ==> v'.cur == Some(out.value.id) && v'.formAnswers == out.value.answers
  {
    var n := Current(v.queue, v.cur);
    if n.Some? { EnteredIsKept(v, value, n.value); }
  }

  lemma KeptAsEntered(forms: string -> seq<SubQuestion>, inputs: seq<Input>, out: Submission)
    requires AnswersOk(forms, inputs) && out.WholeForm?
    requires After(inputs).cur == Some(out.id) && After(inputs).formAnswers == out.answers
    requires out.answers.Keys == Keepable(forms(out.id))
    ensures SentAsEntered(forms, inputs, Some(out))
  {
  }

  /** So it is whatever comes: answers, back keys, other asks, lists and events. */
  lemma FormsSendWhatWasEntered(forms: string -> seq<SubQuestion>, inputs: seq<Input>, value: string)
    requires forall i :: 0 <= i < |inputs| ==> FaithfulInput(forms, inputs[i])
    ensures SentAsEntered(forms, inputs + [Entered(value)], Take(After(inputs), Entered(value)).1)
  {
    var out := Take(After(inputs), Entered(value)).1;
    FormsAreWhole(forms, inputs, value);
    AnswersAlways(forms, inputs + [Entered(value)]);
    AfterSnoc(inputs, Entered(value));
    SentIsKept(After(inputs), value);
    if out.Some? && out.value.WholeForm? {
      KeptAsEntered(forms, inputs + [Entered(value)], out.value);
    }
  }

  // ── Where the cursor goes ──────────────────────────────────────────────

  /** When the ask under the cursor leaves the queue in a clean-up, the cursor goes to the
      ask that now stands at its place, to the last one if the queue has become shorter
      than that, and to none when it is empty. */
  lemma TidyMovesToPlace(v: View, at: nat, now: int)
    requires at < |v.queue| && v.cur == Some(v.queue[at].id)
    requires forall j :: at < j < |v.queue| ==> v.queue[j].id != v.queue[at].id
    requires !Member(Kept(v.queue, now), v.queue[at].id)
    ensures var v' := Take(v, Tick(now)).0;
            v'.cur == if v'.queue == [] then None
                      else Some(v'.queue[if at < |v'.queue| then at else |v'.queue| - 1].id)
  {
    LastIndexIs(v.queue, v.cur, at);
    CurrentIsMember(Kept(v.queue, now), v.cur);
    NormalizeCursor(v, now);
  }

  /** A list that arrives is shown as far as its asks are open, not asleep and not past
      their deadlines, and oldest first. */
  lemma ListIsShown(v: View, list: seq<Loaded>, now: int)
    ensures var q := Take(v, Listed(list, now)).0.queue;
            && (forall n :: n in q <==>
                  n in list && n.status == Open && (n.snoozeUntil.None? || n.snoozeUntil.value <= now)
                  && (n.deadline.None? || now < n.deadline.value))
            && (forall i, j :: 0 <= i < j < |q| ==> q[i].createdAt <= q[j].createdAt)
  {
    NormalizeCursor(v.(queue := list), now);
    KeptMembers(list, now);
    NormalizeSorted(v.(queue := list), now);
    var q := Take(v, Listed(list, now)).0.queue;
    forall i, j | 0 <= i < j < |q| ensures q[i].createdAt <= q[j].createdAt {
      assert OlderFirst(q[i], q[j]);
    }
  }
}
