/** When an answered ask stops saying so: exactly which steps overwrite the
    status of an answered row, in any run. */
module DaemonAnswers {
  import opened Prelude
  import opened Json
  import opened Models
  import opened Grants
  import opened Store
  import opened Daemon
  import opened DaemonInv
  import opened DaemonGrants
  import opened DaemonSteps
  import opened DaemonRuns
  import opened DaemonLaws
  import opened DaemonRaces

  /** The write of a cancel, a dismiss or a timeout whose handler read the ask
      before; for a timeout, a write that works. */
  predicate Overwrites(p: Option<Proc>, op: Op, id: string) {
    && p.Some?
    && ((p.value.CancelWrite? && op.CancelCommit?) || (p.value.DismissWrite? && op.DismissCommit?)
        || (p.value.WaitMark? && op.WaitTimeOut? && op.writeOk))
    && p.value.id == id
  }

  predicate Says(t: Tables, id: string, text: string) {
    id in t.notifications && t.notifications[id].status == text
  }

  // ── Handler by handler ─────────────────────────────────────────────────

  lemma AskLeaves(t: Tables, p: Option<Proc>, op: Op, t': Tables, p': Proc, id: string)
    requires AskHandler(t, p, op) == Some((t', p')) && Says(t, id, "answered")
    ensures Says(t', id, "answered") && !Overwrites(p, op, id)
  {
  }

  lemma AnswerLeaves(t: Tables, p: Option<Proc>, op: Op, t': Tables, p': Proc, id: string)
    requires AnswerHandler(t, p, op) == Some((t', p')) && Says(t, id, "answered")
    ensures Says(t', id, "answered") && !Overwrites(p, op, id)
  {
  }

  lemma CancelLeaves(t: Tables, p: Option<Proc>, op: Op, t': Tables, p': Proc, id: string)
    requires CancelHandler(t, p, op) == Some((t', p')) && Says(t, id, "answered")
    ensures !Says(t', id, "answered") <==> Overwrites(p, op, id)
  {
  }

  lemma DismissLeaves(t: Tables, p: Option<Proc>, op: Op, t': Tables, p': Proc, id: string)
    requires DismissHandler(t, p, op) == Some((t', p')) && Says(t, id, "answered")
    ensures !Says(t', id, "answered") <==> Overwrites(p, op, id)
  {
  }

  lemma SnoozeLeaves(t: Tables, p: Option<Proc>, op: Op, t': Tables, p': Proc, id: string)
    requires SnoozeHandler(t, p, op) == Some((t', p')) && Says(t, id, "answered")
    ensures Says(t', id, "answered") && !Overwrites(p, op, id)
  {
  }

  lemma WaitLeaves(t: Tables, p: Option<Proc>, op: Op, t': Tables, p': Proc, id: string)
    requires WaitHandler(t, p, op) == Some((t', p')) && Says(t, id, "answered")
    ensures !Says(t', id, "answered") <==> Overwrites(p, op, id)
  {
  }

  lemma ClaimLeaves(t: Tables, p: Option<Proc>, op: Op, t': Tables, p': Proc, id: string)
    requires ClaimHandler(t, p, op) == Some((t', p')) && Says(t, id, "answered")
    ensures Says(t', id, "answered") && !Overwrites(p, op, id)
  {
  }

  lemma AnsweringLeaves(t: Tables, g: StoredGrant, record: GrantRecord, at: int, id: string)
    requires record.askId in t.notifications ==> t.notifications[record.askId].id == record.askId
    requires Says(t, id, "answered")
    ensures Says(InsertGrantAnswering(t, g, record, at).0, id, "answered")
  {
    var (t', r) := InsertGrantAnswering(t, g, record, at);
    if r.Ok? {
      AcceptedAnswers(t, g, record, at, r.value, t');
    }
  }

  lemma PostLeaves(lib: Library, t: Tables, h: History, p: Option<Proc>, op: Op, t': Tables, p': Proc, id: string)
    requires TablesOk(lib, t, h) && GrantHandler(lib, t, p, op) == Some((t', p')) && Says(t, id, "answered")
    ensures Says(t', id, "answered") && !Overwrites(p, op, id)
  {
    match VerifyEnvelope(lib, op.registry, op.raw)
    case Err(_) =>
    case Ok(v) => StoreLeaves(lib, t, h, v, op.now, id);
  }

  lemma StoreLeaves(lib: Library, t: Tables, h: History, v: Verified, now: int, id: string)
    requires TablesOk(lib, t, h) && Says(t, id, "answered")
    ensures Says(StoreVerified(t, v, now).0, id, "answered")
  {
    match v.parsed.record
    case Grant(record) =>
      assert record.askId in t.notifications ==> RowOk(lib, t, record.askId);
      AnsweringLeaves(t, FromVerified(v, now), record, now, id);
    case Revoke(_, target, _, _, _) => RevokeEffect(t, FromVerified(v, now), target);
    case Enroll(_, _, _, _, _, _, _) => EnrollEffect(t, FromVerified(v, now));
  }

  /** A step of the person at the console. */
  predicate PersonStep(op: Op) {
    op.AnswerBegin? || op.AnswerCommit? || op.AnswerReread? || op.CancelBegin? || op.CancelCommit?
    || op.DismissBegin? || op.DismissCommit? || op.SnoozeBegin? || op.SnoozeCommit?
  }

  lemma PersonStepLeaves(lib: Library, t: Tables, p: Option<Proc>, op: Op, t': Tables, p': Proc, id: string)
    requires PersonStep(op)
    requires TableStep(lib, t, p, op) == Some((t', p')) && Says(t, id, "answered")
    ensures !Says(t', id, "answered") <==> Overwrites(p, op, id)
  {
    if op.AnswerBegin? || op.AnswerCommit? || op.AnswerReread? {
      AnswerLeaves(t, p, op, t', p', id);
    } else if op.CancelBegin? || op.CancelCommit? {
      CancelLeaves(t, p, op, t', p', id);
    } else if op.DismissBegin? || op.DismissCommit? {
      DismissLeaves(t, p, op, t', p', id);
    } else {
      SnoozeLeaves(t, p, op, t', p', id);
    }
  }

  lemma TableStepLeaves(lib: Library, t: Tables, h: History, p: Option<Proc>, op: Op, t': Tables, p': Proc, id: string)
    requires TablesOk(lib, t, h) && TableStep(lib, t, p, op) == Some((t', p')) && Says(t, id, "answered")
    ensures !Says(t', id, "answered") <==> Overwrites(p, op, id)
  {
    if op.AskCheck? || op.AskStore? || op.AskAutoAnswer? {
      AskLeaves(t, p, op, t', p', id);
    } else if PersonStep(op) {
      PersonStepLeaves(lib, t, p, op, t', p', id);
    } else if op.Post? {
      PostLeaves(lib, t, h, p, op, t', p', id);
    } else if op.ClaimBegin? || op.ClaimCommit? || op.ClaimReread? {
      ClaimLeaves(t, p, op, t', p', id);
    } else {
      WaitLeaves(t, p, op, t', p', id);
    }
  }

  /** A handler at an overwriting write is at a step of its own. */
  lemma OverwriteIsStep(lib: Library, t: Tables, p: Option<Proc>, op: Op, id: string)
    requires Overwrites(p, op, id)
    ensures !OnChannel(op) && TableStep(lib, t, p, op).Some?
  {
  }

  // ── Over every run ─────────────────────────────────────────────────────

  /** A step takes an answered row out of "answered" exactly when it is the write of
      a cancel, a dismiss or a timeout that read the ask earlier. */
  lemma AnswerLostIff(lib: Library, acts: seq<Action>, a: Action, id: string)
    requires RowIs(lib, acts, id, "answered")
    ensures !RowIs(lib, acts + [a], id, "answered") <==> Overwrites(At(Run(lib, acts), a.pid), a.op, id)
  {
    RunInv(lib, acts);
    RunSnoc(lib, acts, a);
    StepLeaves(lib, Run(lib, acts), HistoryOf(lib, acts), a, id);
  }

  lemma StepLeaves(lib: Library, s: Sys, h: History, a: Action, id: string)
    requires Inv(lib, s, h) && Says(s.tables, id, "answered")
    ensures !Says(Step(lib, s, a).tables, id, "answered") <==> Overwrites(At(s, a.pid), a.op, id)
  {
    if Overwrites(At(s, a.pid), a.op, id) {
      OverwriteIsStep(lib, s.tables, At(s, a.pid), a.op, id);
    }
    if OnChannel(a.op) {
      match ChannelStep(s, At(s, a.pid), a.op)
      case None =>
      case Some((s1, p')) => ChannelStepShape(s, At(s, a.pid), a.op, s1, p');
    } else {
      match TableStep(lib, s.tables, At(s, a.pid), a.op)
      case None =>
      case Some((t', p')) => TableStepLeaves(lib, s.tables, h, At(s, a.pid), a.op, t', p', id);
    }
  }

  /** After k steps of the continuation the ask says it is answered. */
  ghost predicate AnsweredAt(lib: Library, acts: seq<Action>, more: seq<Action>, id: string, k: nat)
    requires k <= |more|
  {
    RowIs(lib, acts + more[..k], id, "answered")
  }

  /** Step k of the continuation overwrites the ask. */
  ghost predicate OverwrittenAt(lib: Library, acts: seq<Action>, more: seq<Action>, id: string, k: nat)
    requires k < |more|
  {
    Overwrites(At(Run(lib, acts + more[..k]), more[k].pid), more[k].op, id)
  }

  lemma TakeMore<T>(xs: seq<T>, ys: seq<T>, k: nat)
    requires k < |ys|
    ensures xs + ys[..k + 1] == xs + ys[..k] + [ys[k]]
  {
  }

  lemma LostAt(lib: Library, acts: seq<Action>, more: seq<Action>, id: string, k: nat)
    requires k < |more| && AnsweredAt(lib, acts, more, id, k)
    ensures !AnsweredAt(lib, acts, more, id, k + 1) <==> OverwrittenAt(lib, acts, more, id, k)
  {
    TakeMore(acts, more, k);
    AnswerLostIff(lib, acts + more[..k], more[k], id);
  }

  lemma {:induction false} StandsSoFar(lib: Library, acts: seq<Action>, more: seq<Action>, id: string, k: nat)
    requires k <= |more| && AnsweredAt(lib, acts, more, id, 0)
    requires forall i :: 0 <= i < |more| ==> !OverwrittenAt(lib, acts, more, id, i)
    ensures AnsweredAt(lib, acts, more, id, k)
  {
    if k > 0 {
      StandsSoFar(lib, acts, more, id, k - 1);
      LostAt(lib, acts, more, id, k - 1);
    }
  }

  lemma StandsThroughout(lib: Library, acts: seq<Action>, more: seq<Action>, id: string)
    requires AnsweredAt(lib, acts, more, id, 0)
    requires forall k :: 0 <= k < |more| ==> !OverwrittenAt(lib, acts, more, id, k)
    ensures forall k :: 0 <= k <= |more| ==> AnsweredAt(lib, acts, more, id, k)
  {
    forall k | 0 <= k <= |more| ensures AnsweredAt(lib, acts, more, id, k) {
      StandsSoFar(lib, acts, more, id, k);
    }
  }

  lemma NoneOverwrote(lib: Library, acts: seq<Action>, more: seq<Action>, id: string)
    requires forall k :: 0 <= k <= |more| ==> AnsweredAt(lib, acts, more, id, k)
    ensures forall k :: 0 <= k < |more| ==> !OverwrittenAt(lib, acts, more, id, k)
  {
    forall k | 0 <= k < |more| ensures !OverwrittenAt(lib, acts, more, id, k) {
      assert AnsweredAt(lib, acts, more, id, k) && AnsweredAt(lib, acts, more, id, k + 1);
      LostAt(lib, acts, more, id, k);
    }
  }

  /** An answered ask stays answered throughout whatever runs on exactly when no
      step of it is such a write. */
  lemma AnswerStandsIff(lib: Library, acts: seq<Action>, more: seq<Action>, id: string)
    requires RowIs(lib, acts, id, "answered")
    ensures (forall k :: 0 <= k <= |more| ==> AnsweredAt(lib, acts, more, id, k)) <==>
            (forall k :: 0 <= k < |more| ==> !OverwrittenAt(lib, acts, more, id, k))
  {
    assert acts + more[..0] == acts;
    if forall k :: 0 <= k <= |more| ==> AnsweredAt(lib, acts, more, id, k) {
      NoneOverwrote(lib, acts, more, id);
    } else {
      if forall k :: 0 <= k < |more| ==> !OverwrittenAt(lib, acts, more, id, k) {
        StandsThroughout(lib, acts, more, id);
      }
    }
  }

  // ── A signed answer stays in its row ───────────────────────────────────

  /** The row of an approval ask that is no longer open. */
  predicate Settled(t: Tables, id: string) {
    id in t.notifications && t.notifications[id].questionType == Approval && t.notifications[id].status != "open"
  }

  /** The answer columns of the ask are the same. */
  predicate SameAnswer(t: Tables, t': Tables, id: string) {
    && id in t.notifications && id in t'.notifications
    && t'.notifications[id].answer == t.notifications[id].answer
    && t'.notifications[id].answerLabel == t.notifications[id].answerLabel
    && t'.notifications[id].note == t.notifications[id].note
  }

  lemma AskSettled(t: Tables, p: Option<Proc>, op: Op, t': Tables, p': Proc, id: string)
    requires AskHandler(t, p, op) == Some((t', p')) && Settled(t, id)
    ensures SameAnswer(t, t', id)
  {
  }

  lemma AnswerSettled(lib: Library, t: Tables, h: History, p: Option<Proc>, op: Op, t': Tables, p': Proc, id: string)
    requires AnswerHandler(t, p, op) == Some((t', p')) && Settled(t, id)
    requires p.Some? ==> ProcOk(lib, t, h, p.value)
    ensures SameAnswer(t, t', id)
  {
  }

  lemma CancelSettled(t: Tables, p: Option<Proc>, op: Op, t': Tables, p': Proc, id: string)
    requires CancelHandler(t, p, op) == Some((t', p')) && Settled(t, id)
    ensures SameAnswer(t, t', id)
  {
  }

  lemma DismissSettled(t: Tables, p: Option<Proc>, op: Op, t': Tables, p': Proc, id: string)
    requires DismissHandler(t, p, op) == Some((t', p')) && Settled(t, id)
    ensures SameAnswer(t, t', id)
  {
  }

  lemma SnoozeSettled(t: Tables, p: Option<Proc>, op: Op, t': Tables, p': Proc, id: string)
    requires SnoozeHandler(t, p, op) == Some((t', p')) && Settled(t, id)
    ensures SameAnswer(t, t', id)
  {
  }

  lemma WaitSettled(t: Tables, p: Option<Proc>, op: Op, t': Tables, p': Proc, id: string)
    requires WaitHandler(t, p, op) == Some((t', p')) && Settled(t, id)
    ensures SameAnswer(t, t', id)
  {
  }

  lemma ClaimSettled(t: Tables, p: Option<Proc>, op: Op, t': Tables, p': Proc, id: string)
    requires ClaimHandler(t, p, op) == Some((t', p')) && Settled(t, id)
    ensures SameAnswer(t, t', id)
  {
  }

  lemma AnsweringSettled(t: Tables, g: StoredGrant, record: GrantRecord, at: int, id: string)
    requires record.askId in t.notifications ==> t.notifications[record.askId].id == record.askId
    requires Settled(t, id)
    ensures SameAnswer(t, InsertGrantAnswering(t, g, record, at).0, id)
  {
    var (t', r) := InsertGrantAnswering(t, g, record, at);
    if r.Ok? {
      AcceptedAnswers(t, g, record, at, r.value, t');
    }
  }

  lemma PostSettled(lib: Library, t: Tables, h: History, p: Option<Proc>, op: Op, t': Tables, p': Proc, id: string)
    requires TablesOk(lib, t, h) && GrantHandler(lib, t, p, op) == Some((t', p')) && Settled(t, id)
    ensures SameAnswer(t, t', id)
  {
    match VerifyEnvelope(lib, op.registry, op.raw)
    case Err(_) =>
    case Ok(v) => StoreSettled(lib, t, h, v, op.now, id);
  }

  lemma StoreSettled(lib: Library, t: Tables, h: History, v: Verified, now: int, id: string)
    requires TablesOk(lib, t, h) && Settled(t, id)
    ensures SameAnswer(t, StoreVerified(t, v, now).0, id)
  {
    match v.parsed.record
    case Grant(record) =>
      assert record.askId in t.notifications ==> RowOk(lib, t, record.askId);
      AnsweringSettled(t, FromVerified(v, now), record, now, id);
    case Revoke(_, target, _, _, _) => RevokeEffect(t, FromVerified(v, now), target);
    case Enroll(_, _, _, _, _, _, _) => EnrollEffect(t, FromVerified(v, now));
  }

  lemma PersonStepSettled(lib: Library, t: Tables, h: History, p: Option<Proc>, op: Op, t': Tables, p': Proc,
                          id: string)
    requires PersonStep(op) && (p.Some? ==> ProcOk(lib, t, h, p.value))
    requires TableStep(lib, t, p, op) == Some((t', p')) && Settled(t, id)
    ensures SameAnswer(t, t', id)
  {
    if op.AnswerBegin? || op.AnswerCommit? || op.AnswerReread? {
      AnswerSettled(lib, t, h, p, op, t', p', id);
    } else if op.CancelBegin? || op.CancelCommit? {
      CancelSettled(t, p, op, t', p', id);
    } else if op.DismissBegin? || op.DismissCommit? {
      DismissSettled(t, p, op, t', p', id);
    } else {
      SnoozeSettled(t, p, op, t', p', id);
    }
  }

  lemma TableStepSettled(lib: Library, t: Tables, h: History, p: Option<Proc>, op: Op, t': Tables, p': Proc, id: string)
    requires Ready(lib, t, h, p) && TableStep(lib, t, p, op) == Some((t', p')) && Settled(t, id)
    ensures SameAnswer(t, t', id)
  {
    if op.AskCheck? || op.AskStore? || op.AskAutoAnswer? {
      AskSettled(t, p, op, t', p', id);
    } else if PersonStep(op) {
      PersonStepSettled(lib, t, h, p, op, t', p', id);
    } else if op.Post? {
      PostSettled(lib, t, h, p, op, t', p', id);
    } else if op.ClaimBegin? || op.ClaimCommit? || op.ClaimReread? {
      ClaimSettled(t, p, op, t', p', id);
    } else {
      WaitSettled(t, p, op, t', p', id);
    }
  }

  lemma StepSettled(lib: Library, s: Sys, h: History, a: Action, id: string)
    requires Inv(lib, s, h) && Settled(s.tables, id)
    ensures SameAnswer(s.tables, Step(lib, s, a).tables, id)
  {
    if OnChannel(a.op) {
      match ChannelStep(s, At(s, a.pid), a.op)
      case None =>
      case Some((s1, p')) => ChannelStepShape(s, At(s, a.pid), a.op, s1, p');
    } else {
      match TableStep(lib, s.tables, At(s, a.pid), a.op)
      case None =>
      case Some((t', p')) => TableStepSettled(lib, s.tables, h, At(s, a.pid), a.op, t', p', id);
    }
  }

  lemma StaysSettled(t: Tables, t': Tables, id: string)
    requires Grows(t, t') && Settled(t, id)
    ensures Settled(t', id)
  {
    assert SameAsk(t.notifications[id], t'.notifications[id]);
  }

  /** Once an approval's row is no longer open, its answer, label and note are never
      written again, whatever runs on: they outlast a cancel, a dismiss and a timeout. */
  lemma {:induction false} SettledAnswerStays(lib: Library, acts: seq<Action>, more: seq<Action>, id: string)
    requires Settled(Run(lib, acts).tables, id)
    ensures SameAnswer(Run(lib, acts).tables, Run(lib, acts + more).tables, id)
    decreases |more|
  {
    if more == [] {
      assert acts + more == acts;
    } else {
      var before, last := more[..|more| - 1], more[|more| - 1];
      assert acts + more == acts + before + [last];
      SettledAnswerStays(lib, acts, before, id);
      RunGrows(lib, acts, before);
      StaysSettled(Run(lib, acts).tables, Run(lib, acts + before).tables, id);
      RunInv(lib, acts + before);
      RunSnoc(lib, acts + before, last);
      StepSettled(lib, Run(lib, acts + before), HistoryOf(lib, acts + before), last, id);
    }
  }

  /** The answer of the one grant that answered an approval is in its row for good. */
  lemma GrantAnswerStays(lib: Library, acts: seq<Action>, more: seq<Action>, id: string)
    requires RowIs(lib, acts, id, "answered") && Run(lib, acts).tables.notifications[id].questionType == Approval
    ensures id in Run(lib, acts + more).tables.notifications
    ensures exists gid :: (SoleGrant(lib, Run(lib, acts).tables, id, gid)
                           && gid in Run(lib, acts + more).tables.grants
                           && AnswerIsOf(lib, Run(lib, acts + more).tables, id, gid))
  {
    var t, t' := Run(lib, acts).tables, Run(lib, acts + more).tables;
    AnsweredByExactlyOneGrant(lib, acts, id);
    var gid :| SoleGrant(lib, t, id, gid);
    SettledAnswerStays(lib, acts, more, id);
    RunGrows(lib, acts, more);
    assert SameGrant(t.grants[gid], t'.grants[gid]);
    assert AnswerIsOf(lib, t', id, gid);
  }

  /** The answer columns of the row are those of the grant's record. */
  predicate AnswerIsOf(lib: Library, t: Tables, id: string, gid: string)
    requires id in t.notifications && gid in t.grants
  {
    Matches(lib, t.grants[gid], t.notifications[id].answer, t.notifications[id].answerLabel, t.notifications[id].note)
  }

  // ── A timeout over a signed answer ─────────────────────────────────────

  /** The waiter runs out of time and reads the ask while it is open. */
  function ReadingLate(now: int): seq<Action> {
    [Action(1, WaitElapse), Action(1, WaitUnregister), Action(1, WaitReread(true, now))]
  }

  lemma ReadLate(lib: Library, s: Sys, c: Chan, now: int)
    requires 1 in s.procs && s.procs[1] == Waiting(c)
    requires c.ask in s.tables.notifications && s.tables.notifications[c.ask].status == "open"
    ensures var s' := RunFrom(lib, s, ReadingLate(now));
            s'.tables == s.tables && s'.procs.Keys == s.procs.Keys && s'.procs[1].WaitMark? && s'.procs[1].id == c.ask
  {
    var acts := ReadingLate(now);
    ElapseSteps(lib, s, c);
    TakeTwo(lib, s, acts);
    var s2 := Step(lib, Step(lib, s, acts[0]), acts[1]);
    RereadStep(lib, s2, c.ask, now);
    assert acts[2..] == [acts[2]] && acts[2..][1..] == [];
  }

  /** The grant's columns are in the row, and its text. */
  predicate Holds(t: Tables, id: string, record: GrantRecord, text: string) {
    && Says(t, id, text) && t.notifications[id].answer == Some(AnswerOf(record).answer)
    && t.notifications[id].answerLabel == Some(AnswerOf(record).answerLabel)
    && t.notifications[id].note == AnswerOf(record).note
  }

  /** A verified grant for an open approval ask. */
  lemma OpenTakesGrant(t: Tables, v: Verified, g: GrantRecord, now: int)
    requires v.parsed.record == Grant(g) && g.askId in t.notifications && v.envelope.id !in t.grants
    requires t.notifications[g.askId].id == g.askId && t.notifications[g.askId].status == "open"
    requires t.notifications[g.askId].questionType == Approval && t.notifications[g.askId].question == g.question
    ensures StoreVerified(t, v, now).0.grants == t.grants[v.envelope.id := FromVerified(v, now)]
    ensures Holds(StoreVerified(t, v, now).0, g.askId, g, "answered")
  {
  }

  lemma TimeOutAfterGrant(lib: Library, s: Sys, post: Action, row: Row, v: Verified, s1: Sys)
    requires s.tables == Tables(map[row.id := row], map[]) && s.procs.Keys == {0, 1} && post.pid > 1 && post.op.Post?
    requires VerifyEnvelope(lib, post.op.registry, post.op.raw) == Ok(v) && ForAsk(v, row)
    requires row.status == "open" && row.questionType == Approval
    requires s.procs[1].WaitMark? && s.procs[1].id == row.id && s1 == Step(lib, s, post)
    ensures Holds(s1.tables, row.id, v.parsed.record.grant, "answered") && v.envelope.id in s1.tables.grants
    ensures 1 in s1.procs && s1.procs[1] == s.procs[1]
  {
    PostStep(lib, s, post.pid, post.op.raw, post.op.registry, post.op.now);
    OpenTakesGrant(s.tables, v, v.parsed.record.grant, post.op.now);
  }

  /** The run: the ask, the waiter that times out and reads it open, the grant, and
      then the waiter's write. */
  function LateRun(n: Loaded, now: int): seq<Action> {
    Registering(n, now) + ReadingLate(now)
  }

  lemma LateState(lib: Library, n: Loaded, now: int)
    requires Fresh(n) && n.status == Open
    ensures var s := Run(lib, LateRun(n, now));
            && s.tables == Tables(map[n.id := StoredRow(n)], map[]) && s.procs.Keys == {0, 1}
            && s.procs[1].WaitMark? && s.procs[1].id == n.id
  {
    RunIsRunFrom(lib, Registering(n, now));
    RunAppend(lib, Registering(n, now), ReadingLate(now));
    WaiterRegisters(lib, n, Registering(n, now), now);
    ReadLate(lib, RunFrom(lib, START, Registering(n, now)), Chan(0, n.id), now);
  }

  /** An approval that a signed grant has answered says "timedout" after the write of
      a waiter that read it open: the grant and its answer stay, the status goes. */
  lemma TimeOutOverGrant(lib: Library, n: Loaded, now: int, post: Action, v: Verified)
    requires Fresh(n) && n.status == Open && n.questionType == Approval && post.pid > 1 && post.op.Post?
    requires VerifyEnvelope(lib, post.op.registry, post.op.raw) == Ok(v) && ForAsk(v, n)
    ensures Holds(Run(lib, LateRun(n, now) + [post]).tables, n.id, v.parsed.record.grant, "answered")
    ensures var t := Run(lib, LateRun(n, now) + [post] + [Action(1, WaitTimeOut(true))]).tables;
            Holds(t, n.id, v.parsed.record.grant, "timedout") && v.envelope.id in t.grants
  {
    var acts := LateRun(n, now);
    LateState(lib, n, now);
    RunSnoc(lib, acts, post);
    TimeOutAfterGrant(lib, Run(lib, acts), post, StoredRow(n), v, Run(lib, acts + [post]));
    RunSnoc(lib, acts + [post], Action(1, WaitTimeOut(true)));
    MarkOver(lib, Run(lib, acts + [post]), n.id, v.parsed.record.grant);
  }

  lemma MarkOver(lib: Library, s: Sys, id: string, record: GrantRecord)
    requires 1 in s.procs && s.procs[1].WaitMark? && s.procs[1].id == id && Holds(s.tables, id, record, "answered")
    ensures Holds(Step(lib, s, Action(1, WaitTimeOut(true))).tables, id, record, "timedout")
    ensures Step(lib, s, Action(1, WaitTimeOut(true))).tables.grants == s.tables.grants
  {
    TimeOutStep(lib, s, id);
  }
}
