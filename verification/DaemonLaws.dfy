/** What holds of every run of the daemon, in any interleaving of its handlers. */
module DaemonLaws {
  import opened Prelude
  import opened Json
  import opened Models
  import opened Grants
  import opened Store
  import opened Daemon
  import opened DaemonInv
  import opened DaemonTables
  import opened DaemonGrants
  import opened DaemonSteps
  import opened DaemonRuns

  /** The row of an ask, after a run. */
  ghost predicate RowIs(lib: Library, acts: seq<Action>, id: string, status: string) {
    id in Run(lib, acts).tables.notifications && Run(lib, acts).tables.notifications[id].status == status
  }

  ghost predicate OnceAnswered(lib: Library, acts: seq<Action>, id: string, answer: string) {
    RowIs(lib, acts, id, "answered") && Run(lib, acts).tables.notifications[id].answer == Some(answer)
  }

  // ── The history is about prefixes of the run ───────────────────────────

  ghost predicate WasTimedOut(lib: Library, acts: seq<Action>, id: string) {
    exists k :: 0 <= k <= |acts| && RowIs(lib, acts[..k], id, "timedout")
  }

  ghost predicate WasAnswered(lib: Library, acts: seq<Action>, id: string, answer: string) {
    exists k :: 0 <= k <= |acts| && OnceAnswered(lib, acts[..k], id, answer)
  }

  lemma {:induction false} TimedOutIsPast(lib: Library, acts: seq<Action>, id: string)
    requires id in HistoryOf(lib, acts).timedOut
    ensures WasTimedOut(lib, acts, id)
  {
    if acts != [] {
      var before := acts[..|acts| - 1];
      if id in HistoryOf(lib, before).timedOut {
        TimedOutIsPast(lib, before, id);
        var k :| 0 <= k <= |before| && RowIs(lib, before[..k], id, "timedout");
        assert before[..k] == acts[..k];
      } else {
        assert acts[..|acts|] == acts;
        assert id in TimedOutIn(Run(lib, acts).tables);
      }
    }
  }

  lemma {:induction false} AnswerIsPast(lib: Library, acts: seq<Action>, id: string, answer: string)
    requires (id, answer) in HistoryOf(lib, acts).answers
    ensures WasAnswered(lib, acts, id, answer)
  {
    if acts != [] {
      var before := acts[..|acts| - 1];
      if (id, answer) in HistoryOf(lib, before).answers {
        AnswerIsPast(lib, before, id, answer);
        var k :| 0 <= k <= |before| && OnceAnswered(lib, before[..k], id, answer);
        assert before[..k] == acts[..k];
      } else {
        assert acts[..|acts|] == acts;
        assert (id, answer) in AnswersIn(Run(lib, acts).tables);
      }
    }
  }

  // ── Answers and grants ─────────────────────────────────────────────────

  /** The grant names the ask, no other kind-grant does, and the answer columns of
      the ask's row are those of the grant's record. */
  ghost predicate SoleGrant(lib: Library, t: Tables, id: string, gid: string)
    requires id in t.notifications
  {
    var row := t.notifications[id];
    && gid in t.grants && Names(t.grants[gid], id)
    && Matches(lib, t.grants[gid], row.answer, row.answerLabel, row.note)
    && forall other :: other in t.grants && Names(t.grants[other], id) ==> other == gid
  }

  /** An approval row that says "answered" is named by exactly one stored
      kind-grant, and its answer, label and note are those of that grant's record. */
  lemma AnsweredByExactlyOneGrant(lib: Library, acts: seq<Action>, id: string)
    requires RowIs(lib, acts, id, "answered") && Run(lib, acts).tables.notifications[id].questionType == Approval
    ensures exists gid :: SoleGrant(lib, Run(lib, acts).tables, id, gid)
  {
    RunInv(lib, acts);
    var t := Run(lib, acts).tables;
    assert RowOk(lib, t, id);
    var row := t.notifications[id];
    var gid :| gid in t.grants && Names(t.grants[gid], id)
               && Matches(lib, t.grants[gid], row.answer, row.answerLabel, row.note);
    forall other | other in t.grants && Names(t.grants[other], id) ensures other == gid {
      if other != gid { assert Rivals(t, other, gid, id); }
    }
    assert SoleGrant(lib, t, id, gid);
  }

  /** Two kind-grants for one ask are stored only in runs in which its row took
      the "timedout" write. */
  lemma TwoGrantsNeedTimeout(lib: Library, acts: seq<Action>, a: string, b: string, ask: string)
    requires Rivals(Run(lib, acts).tables, a, b, ask)
    ensures WasTimedOut(lib, acts, ask)
  {
    RunInv(lib, acts);
    TimedOutIsPast(lib, acts, ask);
  }

  /** A kind-grant names a stored approval ask whose text is not "open". */
  lemma NoGrantWhileOpen(lib: Library, acts: seq<Action>, gid: string, ask: string)
    requires gid in Run(lib, acts).tables.grants && Names(Run(lib, acts).tables.grants[gid], ask)
    ensures ask in Run(lib, acts).tables.notifications
    ensures Run(lib, acts).tables.notifications[ask].questionType == Approval
    ensures Run(lib, acts).tables.notifications[ask].status != "open"
  {
    RunInv(lib, acts);
    assert GrantOk(lib, Run(lib, acts).tables, gid);
  }

  /** The status text never becomes "open" again, and is never the "timed_out"
      that readers look for. */
  lemma NeverReopens(lib: Library, acts: seq<Action>, more: seq<Action>, id: string)
    requires id in Run(lib, acts).tables.notifications
    ensures id in Run(lib, acts + more).tables.notifications
    ensures RowIs(lib, acts + more, id, "open") ==> RowIs(lib, acts, id, "open")
    ensures !RowIs(lib, acts + more, id, "timed_out")
  {
    RunGrows(lib, acts, more);
    RunInv(lib, acts + more);
    assert RowOk(lib, Run(lib, acts + more).tables, id);
    assert SameAsk(Run(lib, acts).tables.notifications[id], Run(lib, acts + more).tables.notifications[id]);
  }

  /** A snooze never outlasts the deadline of its ask, and the deadline stays. */
  lemma SnoozeWithinDeadline(lib: Library, acts: seq<Action>, more: seq<Action>, id: string)
    requires id in Run(lib, acts).tables.notifications
    ensures id in Run(lib, acts + more).tables.notifications
    ensures var (row, row') := (Run(lib, acts).tables.notifications[id],
                                Run(lib, acts + more).tables.notifications[id]);
            row'.deadline == row.deadline && SnoozeCapped(row')
  {
    RunGrows(lib, acts, more);
    RunInv(lib, acts + more);
    assert RowOk(lib, Run(lib, acts + more).tables, id);
    assert SameAsk(Run(lib, acts).tables.notifications[id], Run(lib, acts + more).tables.notifications[id]);
  }

  /** A stored grant's signed part never changes, and at every moment the
      envelope served for it verifies. */
  lemma StoredGrantsLast(lib: Library, acts: seq<Action>, more: seq<Action>, gid: string)
    requires gid in Run(lib, acts).tables.grants
    ensures gid in Run(lib, acts + more).tables.grants
    ensures var (g, g') := (Run(lib, acts).tables.grants[gid], Run(lib, acts + more).tables.grants[gid]);
            g'.ToEnvelope() == g.ToEnvelope() && g.id == gid
            && exists registry :: VerifyEnvelope(lib, registry, EnvelopeJson(g'.ToEnvelope())).Ok?
  {
    RunGrows(lib, acts, more);
    RunInv(lib, acts);
    var g := Run(lib, acts).tables.grants[gid];
    assert GrantOk(lib, Run(lib, acts).tables, gid);
    var registry, v :| VerifiesAs(lib, registry, g, v);
    assert SameGrant(g, Run(lib, acts + more).tables.grants[gid]);
    assert VerifyEnvelope(lib, registry, EnvelopeJson(g.ToEnvelope())).Ok?;
  }

  // ── Waiters ────────────────────────────────────────────────────────────

  /** What a finished wait received. */
  ghost predicate Received(lib: Library, acts: seq<Action>, pid: nat, ask: string, env: Answering) {
    pid in Run(lib, acts).procs && Run(lib, acts).procs[pid] == Finished(Waited(ask, env))
  }

  lemma ReceivedGood(lib: Library, acts: seq<Action>, pid: nat, ask: string, env: Answering)
    requires Received(lib, acts, pid, ask, env)
    ensures env.id == ask
    ensures || GoodEnvelope(lib, Run(lib, acts).tables, HistoryOf(lib, acts), env)
            || FoundOk(lib, Run(lib, acts).tables, env)
  {
    RunInv(lib, acts);
    assert ProcOk(lib, Run(lib, acts).tables, HistoryOf(lib, acts), Run(lib, acts).procs[pid]);
  }

  /** An answer a waiter receives belongs to a stored ask, and on any ask that is
      not an approval the row has held that answer before. */
  lemma PlainAnswerWasWritten(lib: Library, acts: seq<Action>, pid: nat, ask: string, env: Answering)
    requires Received(lib, acts, pid, ask, env) && env.answer.Some?
    ensures env.id == ask && ask in Run(lib, acts).tables.notifications
    ensures Run(lib, acts).tables.notifications[ask].questionType != Approval ==>
      WasAnswered(lib, acts, ask, env.answer.value)
  {
    ReceivedGood(lib, acts, pid, ask, env);
    if Run(lib, acts).tables.notifications[ask].questionType != Approval {
      AnswerIsPast(lib, acts, ask, env.answer.value);
    }
  }

  /** A channel carries at most one envelope, for the ask it was registered for. */
  lemma OneEnvelopePerChannel(lib: Library, acts: seq<Action>, c: Chan)
    requires c in Run(lib, acts).sent
    ensures |Run(lib, acts).sent[c]| <= 1
    ensures Run(lib, acts).sent[c] != [] ==> Run(lib, acts).sent[c][0].id == c.ask
    ensures c in Run(lib, acts).waiters.Values ==> Run(lib, acts).sent[c] == []
  {
    RunInv(lib, acts);
    assert SentOk(lib, Run(lib, acts).tables, HistoryOf(lib, acts), c, Run(lib, acts).sent[c]);
  }

  // ── Claims ─────────────────────────────────────────────────────────────

  ghost predicate ClaimedBy(lib: Library, acts: seq<Action>, pid: nat, id: string, claimer: string, view: StoredGrant) {
    pid in Run(lib, acts).procs && Run(lib, acts).procs[pid] == Finished(Claimed(id, claimer, view))
  }

  /** Of all claims of a grant, however many run at once, at most one succeeds. */
  lemma OneClaimSucceeds(lib: Library, acts: seq<Action>, p: nat, q: nat, id: string, by1: string, by2: string,
                         v1: StoredGrant, v2: StoredGrant)
    requires ClaimedBy(lib, acts, p, id, by1, v1) && ClaimedBy(lib, acts, q, id, by2, v2)
    ensures p == q
  {
    RunInv(lib, acts);
    assert HoldsClaim(Run(lib, acts).procs[p], id) && HoldsClaim(Run(lib, acts).procs[q], id);
  }

  /** The winner is told its own name, and the stored grant keeps it whatever runs on. */
  lemma ClaimStays(lib: Library, acts: seq<Action>, more: seq<Action>, pid: nat, id: string, claimer: string,
                   view: StoredGrant)
    requires ClaimedBy(lib, acts, pid, id, claimer, view)
    ensures view.id == id && view.claimedBy == Some(claimer) && view.IsOnce()
    ensures id in Run(lib, acts).tables.grants && id in Run(lib, acts + more).tables.grants
    ensures Run(lib, acts + more).tables.grants[id].claimedBy == Some(claimer)
    ensures Run(lib, acts + more).tables.grants[id].claimedAt == Run(lib, acts).tables.grants[id].claimedAt
  {
    RunInv(lib, acts);
    RunGrows(lib, acts, more);
    assert ProcOk(lib, Run(lib, acts).tables, HistoryOf(lib, acts), Run(lib, acts).procs[pid]);
    assert SameGrant(Run(lib, acts).tables.grants[id], Run(lib, acts + more).tables.grants[id]);
  }

  /** Only a once grant is ever claimed. */
  lemma OnlyOnceClaimed(lib: Library, acts: seq<Action>, id: string)
    requires id in Run(lib, acts).tables.grants && Run(lib, acts).tables.grants[id].claimedBy.Some?
    ensures Run(lib, acts).tables.grants[id].IsOnce() && Run(lib, acts).tables.grants[id].claimedAt.Some?
  {
    RunInv(lib, acts);
    assert GrantOk(lib, Run(lib, acts).tables, id);
  }

  // ── A grant handler's effect ───────────────────────────────────────────

  /** The tables differ in the rows of one ask at most. */
  predicate OnlyAsk(t: Tables, t': Tables, ask: string) {
    && t'.notifications.Keys == t.notifications.Keys
    && forall id :: id in t.notifications && id != ask ==> t'.notifications[id] == t.notifications[id]
  }

  /** The grants differ by one new row, and in the revoked_by of one other at most. */
  predicate OneNewGrant(t: Tables, t': Tables, g: StoredGrant, target: Option<string>) {
    && g.id !in t.grants && t'.grants.Keys == t.grants.Keys + {g.id} && t'.grants[g.id] == g
    && forall id :: id in t.grants ==>
         || t'.grants[id] == t.grants[id]
         || (Some(id) == target && t'.grants[id] == t.grants[id].(revokedBy := Some(g.id)))
  }

  /** What an accepted envelope does, by kind. */
  predicate Effect(t: Tables, t': Tables, v: Verified, g: StoredGrant) {
    match v.parsed.record
    case Grant(record) => OneNewGrant(t, t', g, None) && OnlyAsk(t, t', record.askId)
    case Revoke(_, target, _, _, _) =>
      OneNewGrant(t, t', g, Some(target)) && t'.notifications == t.notifications && target in t.grants
    case Enroll(_, _, _, _, _, _, _) => OneNewGrant(t, t', g, None) && t'.notifications == t.notifications
  }

  lemma GrantEffect(t: Tables, g: StoredGrant, record: GrantRecord, at: int)
    requires record.askId in t.notifications ==> t.notifications[record.askId].id == record.askId
    ensures var (t', r) := InsertGrantAnswering(t, g, record, at);
            if r.Err? then t' == t else OneNewGrant(t, t', g, None) && OnlyAsk(t, t', record.askId)
  {
    var (t', r) := InsertGrantAnswering(t, g, record, at);
    if r.Ok? {
      AcceptedAnswers(t, g, record, at, r.value, t');
    }
  }

  lemma RevokeEffect(t: Tables, g: StoredGrant, target: string)
    ensures var (t', r) := InsertGrantRevoking(t, g, target);
            if r.Err? then t' == t
            else OneNewGrant(t, t', g, Some(target)) && t'.notifications == t.notifications && target in t.grants
  {
  }

  lemma EnrollEffect(t: Tables, g: StoredGrant)
    ensures var (t', r) := InsertGrantOnly(t, g);
            if r.Err? then t' == t else OneNewGrant(t, t', g, None) && t'.notifications == t.notifications
  {
  }

  lemma VerifiedEffect(lib: Library, t: Tables, h: History, v: Verified, now: int, g: StoredGrant)
    requires TablesOk(lib, t, h) && g == FromVerified(v, now)
    ensures var (t', p') := StoreVerified(t, v, now);
            if p' == Finished(Refused) then t' == t else Effect(t, t', v, g)
  {
    match v.parsed.record
    case Grant(record) =>
      assert record.askId in t.notifications ==> RowOk(lib, t, record.askId);
      GrantEffect(t, g, record, now);
    case Revoke(_, target, _, _, _) => RevokeEffect(t, g, target);
    case Enroll(_, _, _, _, _, _, _) => EnrollEffect(t, g);
  }

  /** The step of an envelope that is posted, by a new handler. */
  lemma PostStep(lib: Library, s: Sys, pid: nat, raw: Json, registry: Registry, now: int)
    requires pid !in s.procs
    ensures Step(lib, s, Action(pid, Post(raw, registry, now))) ==
            match VerifyEnvelope(lib, registry, raw)
            case Err(_) => s.(procs := s.procs[pid := Finished(Refused)])
            case Ok(v) => s.(tables := StoreVerified(s.tables, v, now).0,
                             procs := s.procs[pid := StoreVerified(s.tables, v, now).1])
  {
  }

  /** The outcome of posting an envelope, by the state before and after. */
  ghost predicate Posted(lib: Library, s: Sys, s': Sys, pid: nat, raw: Json, registry: Registry, now: int) {
    && pid in s'.procs
    && (if s'.procs[pid] == Finished(Refused) then s'.tables == s.tables
        else VerifyEnvelope(lib, registry, raw).Ok?
             && var v := VerifyEnvelope(lib, registry, raw).value;
             Effect(s.tables, s'.tables, v, FromVerified(v, now)))
  }

  /** A refused envelope changes nothing; an accepted one adds exactly the grant it
      verified to, and changes at most its ask or its target's revoked_by. */
  lemma PostEffect(lib: Library, acts: seq<Action>, pid: nat, raw: Json, registry: Registry, now: int)
    requires pid !in Run(lib, acts).procs
    ensures Posted(lib, Run(lib, acts), Step(lib, Run(lib, acts), Action(pid, Post(raw, registry, now))), pid, raw,
                   registry, now)
  {
    RunInv(lib, acts);
    PostedFrom(lib, Run(lib, acts), HistoryOf(lib, acts), pid, raw, registry, now);
  }

  lemma PostedFrom(lib: Library, s: Sys, h: History, pid: nat, raw: Json, registry: Registry, now: int)
    requires pid !in s.procs && TablesOk(lib, s.tables, h)
    ensures Posted(lib, s, Step(lib, s, Action(pid, Post(raw, registry, now))), pid, raw, registry, now)
  {
    var s' := Step(lib, s, Action(pid, Post(raw, registry, now)));
    PostStep(lib, s, pid, raw, registry, now);
    match VerifyEnvelope(lib, registry, raw)
    case Err(_) =>
    case Ok(v) => VerifiedEffect(lib, s.tables, h, v, now, FromVerified(v, now));
  }

  /** Exactly when a verified kind-grant is stored: its ask is an approval that is
      open or timed out, the question is the same, and the id is new. */
  lemma GrantStoredIff(lib: Library, acts: seq<Action>, g: StoredGrant, record: GrantRecord, at: int)
    ensures var t := Run(lib, acts).tables;
            InsertGrantAnswering(t, g, record, at).1.Ok? <==>
              && record.askId in t.notifications && g.id !in t.grants
              && t.notifications[record.askId].questionType == Approval
              && t.notifications[record.askId].status in {"open", "timedout"}
              && t.notifications[record.askId].question == record.question
  {
    RunInv(lib, acts);
    if record.askId in Run(lib, acts).tables.notifications {
      assert RowOk(lib, Run(lib, acts).tables, record.askId);
    }
  }
}
