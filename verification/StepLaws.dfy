/** What one step of a handler does when other handlers ran before it: column by column,
    for any tables the step may find. */
module StepLaws {
  import opened Prelude
  import opened Json
  import opened Models
  import opened Grants
  import opened Store
  import opened Daemon
  import opened HandlerLaws

  // ── Any handler ────────────────────────────────────────────────────────

  /** A handler that has not replied may be dropped at any step; it has written what it
      has written, and its waiter, if it is a wait, stays registered. */
  lemma DroppedAnywhere(lib: Library, s: Sys, pid: nat)
    requires pid in s.procs && !s.procs[pid].Finished?
    ensures Step(lib, s, Action(pid, Abort)) ==
            Sys(s.tables, s.waiters, s.sent, s.procs[pid := Finished(Refused)], s.nextChan)
  {
  }

  // ── Asking ─────────────────────────────────────────────────────────────

  /** The check stops the ask at a row of its caller of the last 24 hours that it can
      read; what is stored later is a new ask of that caller, or what a rule answered,
      which is stored nowhere. */
  lemma AskStepsMean(t: Tables, caller: Option<string>, readOk: bool, now: int, checkedAt: int, n: Loaded,
                     id: string, answer: string)
    ensures AskHandler(t, None, AskCheck(caller, now, readOk)) ==
            Some((t, if readOk && caller.Some? && (exists other :: RowOfDay(t, other, caller, now))
                     then Finished(Done) else AskPending(caller, now)))
    ensures AskHandler(t, Some(AskPending(caller, checkedAt)), AskStore(n)) ==
            if n.callerId != caller || n.status !in {Open, Muted} || n.answer.Some? || n.answeredAt.Some?
               || n.answerLabel.Some? || n.snoozeUntil.Some? || n.note.Some?
            then None
            else if n.id in t.notifications then Some((t, Finished(Refused)))
            else Some((InsertNotification(t, n).value, Finished(Done)))
    ensures AskHandler(t, Some(AskPending(caller, checkedAt)), AskAutoAnswer(id, answer, now)) ==
            if id in t.notifications then None else Some((t, Finished(Done)))
  {
    if caller.Some? {
      if SeenCaller(t, caller.value, now - DAY) {
        var other :| other in t.notifications && t.notifications[other].callerId == Some(caller.value)
                     && t.notifications[other].createdAt > now - DAY;
        assert RowOfDay(t, other, caller, now);
      }
    }
  }

  // ── Rows and reads ─────────────────────────────────────────────────────

  /** INSERT: refused when the id is taken; a new row is never snoozed and has no note. */
  lemma InsertMeans(t: Tables, n: Loaded)
    ensures if n.id in t.notifications then InsertNotification(t, n).None?
            else
              && InsertNotification(t, n).Some?
              && var t' := InsertNotification(t, n).value;
              && n.id in t'.notifications && t' == WithRow(t, n.id, t'.notifications[n.id])
              && t'.notifications[n.id].snoozeUntil.None? && t'.notifications[n.id].note.None?
              && t'.notifications[n.id].answer == n.answer && t'.notifications[n.id].answerLabel == n.answerLabel
              && t'.notifications[n.id].answeredAt == n.answeredAt
  {
  }

  /** What a handler keeps of a row it has read: the columns it uses later. */
  predicate Copied(n: Loaded, row: Row) {
    && n.answer == row.answer && n.answerLabel == row.answerLabel && n.answeredAt == row.answeredAt
    && n.note == row.note && n.once == row.once && n.questionType == row.questionType && n.id == row.id
  }

  // ── Answering ──────────────────────────────────────────────────────────

  /** The check lets through exactly an ask that reads open and is no approval. */
  lemma AnswerBeginMeans(t: Tables, id: string, answer: string, via: Option<string>, note: Option<string>, now: int)
    ensures var out := AnswerHandler(t, None, AnswerBegin(id, answer, via, note, now));
            && out.Some? && out.value.0 == t
            && (if ReadsOpen(t, id) && t.notifications[id].questionType != Approval
                then
                  && out.value.1.AnswerWrite? && Copied(out.value.1.loaded, t.notifications[id])
                  && out.value.1 == AnswerWrite(id, answer, via, note, now, out.value.1.loaded)
                else out.value.1 == Finished(Refused))
  {
  }

  /** The write looks at no text: it answers whatever row is there by then, and none. */
  lemma AnswerCommitMeans(t: Tables, w: Proc, at: int)
    requires w.AnswerWrite?
    ensures AnswerHandler(t, Some(w), AnswerCommit(at)) ==
            Some((if w.id !in t.notifications then t
                  else WithRow(t, w.id, t.notifications[w.id].(status := "answered", answer := Some(w.answer),
                         answerLabel := Some(if w.via.Some? then w.via.value else w.answer),
                         answeredAt := Some(at), note := w.note)),
                  AnswerRead(w.id, w.answer, w.via, w.now, w.loaded)))
  {
  }

  /** The waiter is told the handler's own answer at the time the request began, with the
      label and the note of the row as it is by then, or as it was read at first. */
  lemma AnswerRereadMeans(t: Tables, r: Proc, readOk: bool)
    requires r.AnswerRead?
    ensures var (shown, note, once) :=
              if readOk && r.id in t.notifications
              then (t.notifications[r.id].answerLabel, t.notifications[r.id].note, t.notifications[r.id].once)
              else (r.loaded.answerLabel, r.loaded.note, r.loaded.once);
            AnswerHandler(t, Some(r), AnswerReread(readOk)) ==
            Some((t, Wake(AnswerEnvelope(r.id, Some(r.answer), shown, Some(r.now),
                                         if r.via.Some? then r.via.value else "dashboard", note, None, once))))
  {
  }

  // ── Cancelling, dismissing, snoozing ───────────────────────────────────

  /** A cancel goes on for any stored ask that is not answered, and then writes whatever
      the row has become. */
  lemma CancelStepsMean(t: Tables, id: string)
    ensures CancelHandler(t, None, CancelBegin(id)) ==
            Some((t, if id !in t.notifications then Finished(Refused)
                     else if t.notifications[id].status == "answered" then Finished(Done)
                     else CancelWrite(id)))
    ensures CancelHandler(t, Some(CancelWrite(id)), CancelCommit) ==
            Some((if id in t.notifications then WithRow(t, id, t.notifications[id].(status := "cancelled")) else t,
                  Finished(Done)))
  {
  }

  /** A dismissal goes on for exactly an ask that reads open. */
  lemma DismissBeginMeans(t: Tables, id: string, now: int)
    ensures var out := DismissHandler(t, None, DismissBegin(id, now));
            && out.Some? && out.value.0 == t
            && (if ReadsOpen(t, id)
                then
                  && out.value.1.DismissWrite? && Copied(out.value.1.loaded, t.notifications[id])
                  && out.value.1 == DismissWrite(id, now, out.value.1.loaded)
                else out.value.1 == Finished(Refused))
  {
  }

  /** It then writes whatever the row has become, and tells the waiter there is no answer. */
  lemma DismissCommitMeans(t: Tables, w: Proc, at: int)
    requires w.DismissWrite?
    ensures DismissHandler(t, Some(w), DismissCommit(at)) ==
            Some((if w.id !in t.notifications then t
                  else WithRow(t, w.id, t.notifications[w.id].(status := "dismissed", answeredAt := Some(at))),
                  Wake(AnswerEnvelope(w.id, None, None, Some(w.now), "dismissed", None, None, w.loaded.once))))
  {
  }

  /** A snooze goes on for exactly an ask that reads open and outlasts it; the write
      counts the minutes from its own time and stops at the deadline. */
  lemma SnoozeStepsMean(t: Tables, id: string, minutes: int, now: int)
    ensures var wake := now + minutes * 60 * 1000;
            && SnoozeHandler(t, None, SnoozeBegin(id, minutes, now)) ==
               Some((t, if ReadsOpen(t, id)
                           && (t.notifications[id].deadline.Some? ==> wake <= t.notifications[id].deadline.value)
                        then SnoozeWrite(id, minutes) else Finished(Refused)))
            && SnoozeHandler(t, Some(SnoozeWrite(id, minutes)), SnoozeCommit(now)) ==
               Some((if id !in t.notifications then t
                     else
                       var d := t.notifications[id].deadline;
                       WithRow(t, id, t.notifications[id].(snoozeUntil := Some(
                         if d.Some? && d.value < wake then d.value else wake))),
                     Finished(Done)))
  {
  }

  // ── Waiting ────────────────────────────────────────────────────────────

  /** A wait out of time looks once more: only an ask that reads open is to be marked, and
      its caller is told timed_out either way. */
  lemma WaitLookMeans(t: Tables, id: string, readOk: bool, now: int)
    ensures var env := AnswerEnvelope(id, None, None, Some(now), "timed_out", None, None,
                         if readOk && id in t.notifications then t.notifications[id].once else None);
            WaitHandler(t, Some(WaitLook(id)), WaitReread(readOk, now)) ==
            Some((t, if readOk && ReadsOpen(t, id) then WaitMark(id, env) else Finished(Waited(id, env))))
  {
  }

  /** The mark goes on whatever the row has become, when the write works. */
  lemma WaitMarkMeans(t: Tables, id: string, env: Answering, writeOk: bool)
    ensures WaitHandler(t, Some(WaitMark(id, env)), WaitTimeOut(writeOk)) ==
            Some((if writeOk && id in t.notifications
                  then WithRow(t, id, t.notifications[id].(status := "timedout")) else t,
                  Finished(Waited(id, env))))
  {
  }

  // ── Grants ─────────────────────────────────────────────────────────────

  /** The record says the grant may be used once. */
  predicate SaysOnce(g: StoredGrant) {
    g.kind == "grant" && g.record.Obj? && Get(g.record.members, "once") == Some(Bool(true))
  }

  /** Why a claim is refused. */
  lemma ClaimRefusal(g: StoredGrant)
    ensures CheckClaim(g) == if !SaysOnce(g) then Some(NotOnce(g.id))
                             else if g.claimedBy.Some? then Some(AlreadyClaimed(g.id)) else None
  {
  }

  /** The check lets a claim through; the write takes it only if nobody has by then; and
      the caller is shown the row as it is. */
  lemma ClaimStepsMean(t: Tables, id: string, claimer: string, at: int)
    ensures ClaimHandler(t, None, ClaimBegin(id, claimer)) ==
            Some((t, if id in t.grants && SaysOnce(t.grants[id]) && t.grants[id].claimedBy.None?
                     then ClaimWrite(id, claimer) else Finished(Refused)))
    ensures ClaimHandler(t, Some(ClaimWrite(id, claimer)), ClaimCommit(at)) ==
            if id in t.grants && t.grants[id].claimedBy.None?
            then Some((Tables(t.notifications,
                              t.grants[id := t.grants[id].(claimedBy := Some(claimer), claimedAt := Some(at))]),
                       ClaimRead(id, claimer, at)))
            else Some((t, Finished(Refused)))
    ensures ClaimHandler(t, Some(ClaimRead(id, claimer, at)), ClaimReread) ==
            Some((t, if id in t.grants then Finished(Claimed(id, claimer, t.grants[id])) else Finished(Refused)))
  {
  }

  /** The ask that a stored grant has answered, as its handler goes on with it: the row
      read again if its text was open, and the row it would have become if not. */
  lemma GrantedCopy(t: Tables, g: StoredGrant, record: GrantRecord, at: int)
    requires InsertGrantAnswering(t, g, record, at).1.Ok?
    requires record.askId in t.notifications ==> t.notifications[record.askId].id == record.askId
    ensures var (t', out) := InsertGrantAnswering(t, g, record, at);
            var n := out.value;
            && record.askId in t.notifications && record.askId in t'.notifications
            && n.status == Answered && n.answeredAt == Some(at) && n.id == record.askId
            && n.once == t.notifications[record.askId].once
            && (t.notifications[record.askId].status == "open" ==> Copied(n, t'.notifications[record.askId]))
  {
  }

  /** A revoke or an enrolment that is not refused is told created; a refused one changes
      nothing. */
  lemma OtherRecordsMean(t: Tables, v: Verified, now: int)
    requires !v.parsed.record.Grant?
    ensures var (t', p) := StoreVerified(t, v, now);
            var id := v.envelope.id;
            if id in t.grants || (v.parsed.record.Revoke? && v.parsed.record.target !in t.grants)
            then t' == t && p == Finished(Refused)
            else p == Finished(Created(id)) && id in t'.grants && t'.notifications == t.notifications
  {
  }
}
