/** What each handler does, column by column: exactly when it acts, what the row is
    afterwards, and what its caller is told. */
module HandlerLaws {
  import opened Prelude
  import opened Json
  import opened Models
  import opened Grants
  import opened Store
  import opened Daemon
  import opened Serving
  import opened RecordLaws
  import Rules

  /** The text of a row that readers take for an open ask. */
  predicate ReadsOpen(t: Tables, id: string) {
    && id in t.notifications
    && t.notifications[id].status !in {"answered", "cancelled", "muted", "timed_out", "dismissed"}
  }

  /** The tables with one row in place of another. */
  function WithRow(t: Tables, id: string, row: Row): Tables {
    Tables(t.notifications[id := row], t.grants)
  }

  // ── Asking ─────────────────────────────────────────────────────────────

  /** A row of the caller that was made less than 24 hours before. */
  ghost predicate AskedToday(t: Tables, n: Loaded, now: int) {
    n.callerId.Some? && exists id :: RowOfDay(t, id, n.callerId, now)
  }

  predicate RowOfDay(t: Tables, id: string, caller: Option<string>, now: int) {
    id in t.notifications && t.notifications[id].callerId == caller
    && now - t.notifications[id].createdAt < 24 * 60 * 60 * 1000
  }

  lemma SeenIff(t: Tables, n: Loaded, now: int)
    requires n.callerId.Some?
    ensures SeenCaller(t, n.callerId.value, now - DAY) <==> AskedToday(t, n, now)
  {
    if SeenCaller(t, n.callerId.value, now - DAY) {
      var id :| id in t.notifications && t.notifications[id].callerId == Some(n.callerId.value)
                && t.notifications[id].createdAt > now - DAY;
      assert RowOfDay(t, id, n.callerId, now);
    }
    if AskedToday(t, n, now) {
      var id :| RowOfDay(t, id, n.callerId, now);
    }
  }

  /** A new row: what the rules made of the ask, with its text; nothing answered,
      snoozed or noted. */
  predicate NewRow(row: Row, n: Loaded) {
    && row.id == n.id && row.agentName == n.agentName && row.src == n.src && row.question == n.question
    && row.questionType == n.questionType && row.urgency == n.urgency && row.deadline == n.deadline
    && row.createdAt == n.createdAt && row.callerId == n.callerId && row.subQuestions == n.subQuestions
    && row.renews == n.renews && row.once == n.once
    && row.status == (if n.status == Open then "open" else "muted")
    && row.answer.None? && row.answerLabel.None? && row.answeredAt.None? && row.snoozeUntil.None? && row.note.None?
  }

  /** ask: the caller's row of the day, or what a rule answers, or a new row. */
  lemma AskMeans(x: Rules.Texts, rules: seq<Rules.Rule>, t: Tables, n: NewAsk, now: int)
    requires n.id !in t.notifications
    ensures var (t', reply) := Serving.Ask(x, rules, t, n, now);
            var e := Rules.Evaluated(x, now, rules, n);
            if AskedToday(t, n, now) then t' == t && reply == Known
            else if e.auto.Some? then t' == t && reply == ByRule(e.auto.value)
            else
              && reply == Saved(e.n) && n.id in t'.notifications && NewRow(t'.notifications[n.id], e.n)
              && t' == WithRow(t, n.id, t'.notifications[n.id])
  {
    EvaluatedIsFresh(x, rules, n, now);
    if n.callerId.Some? { SeenIff(t, n, now); }
  }

  // ── Answering, closing, snoozing ───────────────────────────────────────

  /** answer: exactly an ask that reads open and is no approval; the row takes the
      answer, its label, the note and the time, and the caller is told the same. */
  lemma AnswerMeans(t: Tables, id: string, answer: string, via: Option<string>, note: Option<string>, now: int)
    ensures var (t', out) := Serving.Answer(t, id, answer, via, note, now);
            var shown := if via.Some? then via.value else answer;
            if ReadsOpen(t, id) && t.notifications[id].questionType != Approval
            then
              && t' == WithRow(t, id, t.notifications[id].(status := "answered", answer := Some(answer),
                                        answerLabel := Some(shown), answeredAt := Some(now), note := note))
              && out == Some(AnswerEnvelope(id, Some(answer), Some(shown), Some(now),
                                            if via.Some? then via.value else "dashboard", note, None,
                                            t.notifications[id].once))
            else t' == t && out.None?
  {
  }

  /** cancel: every stored ask but an answered one. */
  lemma CancelMeans(t: Tables, id: string)
    ensures var (t', out) := Serving.Cancel(t, id);
            if id !in t.notifications then t' == t && out == Missing
            else if t.notifications[id].status == "answered" then t' == t && out == AlreadyAnswered
            else t' == WithRow(t, id, t.notifications[id].(status := "cancelled")) && out == Serving.Closed
  {
  }

  /** dismiss: exactly an ask that reads open; its waiter is told there is no answer. */
  lemma DismissMeans(t: Tables, id: string, now: int)
    ensures var (t', out) := Serving.Dismiss(t, id, now);
            if ReadsOpen(t, id)
            then
              && t' == WithRow(t, id, t.notifications[id].(status := "dismissed", answeredAt := Some(now)))
              && out == Some(AnswerEnvelope(id, None, None, Some(now), "dismissed", None, None,
                                            t.notifications[id].once))
            else t' == t && out.None?
  {
  }

  /** snooze: exactly an ask that reads open and whose deadline is not passed by the time
      it would wake; it wakes that many minutes later. */
  lemma SnoozeMeans(t: Tables, id: string, minutes: int, now: int)
    ensures var (t', out) := Serving.Snooze(t, id, minutes, now);
            var wake := now + minutes * 60 * 1000;
            if ReadsOpen(t, id) && (t.notifications[id].deadline.Some? ==> wake <= t.notifications[id].deadline.value)
            then
              && t' == WithRow(t, id, t.notifications[id].(snoozeUntil := Some(wake)))
              && out.Some? && out.value.snoozeUntil == Some(wake) && out.value.id == t.notifications[id].id
              && out.value.status == Open
            else t' == t && out.None?
  {
  }

  /** The SQL of a snooze never goes beyond the deadline, even when the handler's check
      was made earlier. */
  lemma SnoozeWriteMeans(t: Tables, id: string, minutes: int, now: int)
    requires id in t.notifications
    ensures var row := t.notifications[id];
            var wake := now + minutes * 60 * 1000;
            SnoozeNotification(t, id, minutes, now) ==
            WithRow(t, id, row.(snoozeUntil := Some(
              if row.deadline.Some? && row.deadline.value < wake then row.deadline.value else wake)))
  {
  }

  // ── Waiting ────────────────────────────────────────────────────────────

  /** What a wait that finds the ask closed tells: its columns, or why there is no answer. */
  function ToldOf(id: string, row: Row): Answering {
    if row.status == "answered" then
      AnswerEnvelope(id, row.answer, row.answerLabel, row.answeredAt, "dashboard", row.note, None, row.once)
    else
      AnswerEnvelope(id, None, None, row.answeredAt, if row.status == "timed_out" then "timedout" else row.status,
                     None, None, row.once)
  }

  /** A wait that begins: an answered approval is to get its grant; any other ask that is
      answered, dismissed, cancelled or timed out is told at once; otherwise it registers. */
  lemma WaitBeginMeans(t: Tables, id: string, readOk: bool)
    ensures WaitHandler(t, None, WaitBegin(id, readOk)).Some?
    ensures var (t', p) := WaitHandler(t, None, WaitBegin(id, readOk)).value;
            && t' == t
            && (if !readOk || id !in t.notifications
                   || t.notifications[id].status !in {"answered", "dismissed", "cancelled", "timed_out"}
                then p == WaitRegister(id)
                else if t.notifications[id].status == "answered" && t.notifications[id].questionType == Approval
                then p == WaitAttach(ToldOf(id, t.notifications[id]))
                else p == Finished(Waited(id, ToldOf(id, t.notifications[id]))))
  {
  }

  /** The grants that name the ask, and the one of them issued last, or stored last among
      those issued at the same time. */
  predicate GrantFor(g: StoredGrant, ask: string) {
    g.kind == "grant" && g.notificationId == Some(ask)
  }

  ghost predicate LastFor(t: Tables, ask: string, gid: string) {
    && gid in t.grants && GrantFor(t.grants[gid], ask)
    && forall other :: other in t.grants && GrantFor(t.grants[other], ask) ==>
         t.grants[other].issuedAt <= t.grants[gid].issuedAt
         && (t.grants[other].issuedAt == t.grants[gid].issuedAt ==>
               t.grants[other].createdAt <= t.grants[gid].createdAt)
  }

  /** The lookup of the answering grant takes the last that names the ask. */
  lemma WaitFindMeans(t: Tables, env: Answering, pick: string, readOk: bool)
    ensures var out := WaitHandler(t, Some(WaitAttach(env)), WaitFindGrant(pick, readOk));
            if !readOk || (forall gid :: gid in t.grants ==> !GrantFor(t.grants[gid], env.id))
            then out == Some((t, Finished(Waited(env.id, env))))
            else if LastFor(t, env.id, pick)
            then
              var g := t.grants[pick];
              out == Some((t, Finished(Waited(env.id, env.(via := ['t', 'a', ':'] + g.signer,
                grant := Some(Envelope(g.id, g.record, g.recordSha256, "es256", g.sig)))))))
            else out.None?
  {
    forall gid | gid in t.grants ensures GrantFor(t.grants[gid], env.id) <==> Names(t.grants[gid], env.id) {}
    assert LastFor(t, env.id, pick) <==> Latest(t, env.id, pick);
  }

  /** The end of a wait that has run out of time: the text "timedout", on an ask that
      reads open, when the write works; the waiter is told "timed_out". */
  lemma TimeOutMeans(t: Tables, id: string, writeOk: bool, now: int)
    ensures var (t', out) := Serving.TimeOut(t, id, writeOk, now);
            && t' == (if ReadsOpen(t, id) && writeOk
                      then WithRow(t, id, t.notifications[id].(status := "timedout")) else t)
            && out == AnswerEnvelope(id, None, None, Some(now), "timed_out", None, None,
                                     if id in t.notifications then t.notifications[id].once else None)
  {
  }

  /** The steps of a wait on the waiters and its channel. */
  lemma WaiterMeans(s: Sys, q: Proc, op: Op)
    ensures q.WaitRegister? && op.WaitInsert? ==>
              var c := Chan(s.nextChan, q.id);
              ChannelStep(s, Some(q), op) ==
              Some((s.(waiters := s.waiters[q.id := c], sent := s.sent[c := []], nextChan := s.nextChan + 1),
                    Waiting(c)))
    ensures q.Waiting? && op.WaitReceive? ==>
              ChannelStep(s, Some(q), op) ==
              if q.chan in s.sent && |s.sent[q.chan]| > 0
              then Some((s, Finished(Waited(q.chan.ask, s.sent[q.chan][0])))) else None
    ensures q.Waiting? && op.WaitClosed? ==>
              (ChannelStep(s, Some(q), op) == Some((s, Finished(Refused)))
               || ChannelStep(s, Some(q), op) == None)
              && (ChannelStep(s, Some(q), op).Some? <==>
                  q.chan in s.sent && |s.sent[q.chan]| == 0
                  && !(q.chan.ask in s.waiters && s.waiters[q.chan.ask] == q.chan))
    ensures q.Waiting? && op.WaitElapse? ==> ChannelStep(s, Some(q), op) == Some((s, WaitRemove(q.chan.ask)))
    ensures q.WaitRemove? && op.WaitUnregister? ==>
              ChannelStep(s, Some(q), op) == Some((s.(waiters := s.waiters - {q.id}), WaitLook(q.id)))
  {
  }

  /** Waking: the sender of the ask is taken out and used once; without one, nothing. */
  lemma SendMeans(s: Sys, env: Answering)
    ensures var out := ChannelStep(s, Some(Wake(env)), Send);
            && out.Some? && out.value.1 == Finished(Sent(env))
            && (if env.id in s.waiters
                then
                  && out.value.0.waiters == s.waiters - {env.id}
                  && s.waiters[env.id] in out.value.0.sent
                  && out.value.0.sent[s.waiters[env.id]] ==
                       (if s.waiters[env.id] in s.sent then s.sent[s.waiters[env.id]] else []) + [env]
                  && (forall c :: c != s.waiters[env.id] ==>
                        (c in out.value.0.sent <==> c in s.sent)
                        && (c in s.sent ==> out.value.0.sent[c] == s.sent[c]))
                else out.value.0 == s)
  {
  }

  // ── Grants ─────────────────────────────────────────────────────────────

  /** claim: exactly a stored kind-grant whose record says once, and that nobody has
      claimed; it takes the claimer and the time. */
  lemma ClaimMeans(t: Tables, id: string, claimer: string, now: int)
    ensures var (t', out) := Serving.Claim(t, id, claimer, now);
            if id in t.grants && t.grants[id].kind == "grant" && t.grants[id].record.Obj?
               && Get(t.grants[id].record.members, "once") == Some(Bool(true)) && t.grants[id].claimedBy.None?
            then
              && out == Some(t.grants[id].(claimedBy := Some(claimer), claimedAt := Some(now)))
              && t' == Tables(t.notifications, t.grants[id := out.value])
            else t' == t && out.None?
  {
  }

  /** Why a kind-grant is refused: the first check that fails. */
  lemma GrantRefusal(t: Tables, g: StoredGrant, record: GrantRecord, at: int)
    requires record.askId in t.notifications ==> t.notifications[record.askId].id == record.askId
    ensures var (t', out) := InsertGrantAnswering(t, g, record, at);
            var id := record.askId;
            if id !in t.notifications then t' == t && out == Err(NotificationNotFound(id))
            else if t.notifications[id].questionType != Approval then t' == t && out == Err(NotApproval(id))
            else if !ReadsOpen(t, id) then t' == t && out == Err(NotOpen(id))
            else if t.notifications[id].question != record.question then t' == t && out == Err(QuestionMismatch)
            else if g.id in t.grants then t' == t && out == Err(IdCollision(g.id))
            else out.Ok?
  {
  }

  /** A revoke: of a stored grant, with an id of its own; it marks the grant unless it
      is marked already. */
  lemma RevokeMeans(t: Tables, g: StoredGrant, target: string)
    ensures var (t', out) := InsertGrantRevoking(t, g, target);
            if target !in t.grants then t' == t && out == Err(TargetNotFound(target))
            else if g.id in t.grants then t' == t && out == Err(IdCollision(g.id))
            else
              && out.Ok?
              && t' == Tables(t.notifications,
                              if t.grants[target].revokedBy.Some? then t.grants[g.id := g]
                              else t.grants[g.id := g][target := t.grants[target].(revokedBy := Some(g.id))])
  {
  }
}
