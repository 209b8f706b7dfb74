/** What a wait on an approval ask receives, and exactly when it receives an answer
    without the grant that gave it. */
module DaemonWaits {
  import opened Prelude
  import opened Json
  import opened Models
  import opened Grants
  import opened Store
  import opened Daemon
  import opened DaemonInv
  import opened DaemonSteps
  import opened DaemonRuns
  import opened DaemonLaws
  import opened DaemonRaces
  import opened DaemonAnswers

  /** A handler that has found its approval answered fails to look its grant up. */
  predicate LookupFails(p: Option<Proc>, op: Op) {
    p.Some? && p.value.WaitAttach? && op.WaitFindGrant? && !op.readOk
  }

  /** The handler has told its caller an approval's answer, and no grant. */
  predicate Bare(t: Tables, p: Option<Proc>) {
    p.Some? && p.value.Finished? && p.value.r.Waited? && BareAnswer(t, p.value.r.envelope)
  }

  predicate BareAnswer(t: Tables, env: Answering) {
    && env.answer.Some? && env.grant.None?
    && env.id in t.notifications && t.notifications[env.id].questionType == Approval
  }

  // ── One step ───────────────────────────────────────────────────────────

  lemma GoodIsNotBare(lib: Library, t: Tables, h: History, env: Answering)
    requires GoodEnvelope(lib, t, h, env)
    ensures !BareAnswer(t, env)
  {
  }

  lemma WaitBeginBare(t: Tables, p: Option<Proc>, op: Op, t': Tables, p': Proc)
    requires op.WaitBegin? && WaitHandler(t, p, op) == Some((t', p'))
    ensures t' == t && !Bare(t, Some(p'))
  {
  }

  lemma FindGrantBare(lib: Library, t: Tables, h: History, p: Proc, op: Op, t': Tables, p': Proc)
    requires op.WaitFindGrant? && p.WaitAttach? && WaitHandler(t, Some(p), op) == Some((t', p'))
    requires ProcOk(lib, t, h, p)
    ensures t' == t && (Bare(t, Some(p')) <==> LookupFails(Some(p), op))
  {
    GrantIsThere(lib, t, h, p.env);
    FindGrant(t, p.env, op, t', p');
  }

  lemma TimedOutBare(lib: Library, t: Tables, h: History, p: Proc, op: Op, t': Tables, p': Proc)
    requires op.WaitReread? || op.WaitTimeOut?
    requires WaitHandler(t, Some(p), op) == Some((t', p')) && ProcOk(lib, t, h, p)
    ensures !Bare(t', Some(p'))
  {
  }

  lemma StoreTellsNobody(t: Tables, v: Verified, now: int)
    ensures var p' := StoreVerified(t, v, now).1; !(p'.Finished? && p'.r.Waited?)
  {
  }

  lemma PostTellsNobody(lib: Library, t: Tables, p: Option<Proc>, op: Op, t': Tables, p': Proc)
    requires GrantHandler(lib, t, p, op) == Some((t', p'))
    ensures !(p'.Finished? && p'.r.Waited?)
  {
    match VerifyEnvelope(lib, op.registry, op.raw)
    case Err(_) =>
    case Ok(v) => StoreTellsNobody(t, v, op.now);
  }

  lemma OthersBare(lib: Library, t: Tables, p: Option<Proc>, op: Op, t': Tables, p': Proc)
    requires !op.WaitBegin? && !op.WaitFindGrant? && !op.WaitReread? && !op.WaitTimeOut?
    requires TableStep(lib, t, p, op) == Some((t', p'))
    ensures !(p'.Finished? && p'.r.Waited?)
  {
    if op.Post? {
      PostTellsNobody(lib, t, p, op, t', p');
    }
  }

  /** Where a wait is at each of its steps on the tables. */
  lemma WaitIsAt(t: Tables, p: Option<Proc>, op: Op)
    requires WaitHandler(t, p, op).Some?
    ensures op.WaitFindGrant? ==> p.Some? && p.value.WaitAttach?
    ensures op.WaitReread? || op.WaitTimeOut? ==> p.Some? && !p.value.WaitAttach?
  {
  }

  lemma TableStepBare(lib: Library, t: Tables, h: History, p: Option<Proc>, op: Op, t': Tables, p': Proc)
    requires (p.Some? ==> ProcOk(lib, t, h, p.value)) && TableStep(lib, t, p, op) == Some((t', p'))
    ensures Bare(t', Some(p')) <==> LookupFails(p, op)
  {
    if op.WaitBegin? {
      WaitBeginBare(t, p, op, t', p');
    } else if op.WaitFindGrant? {
      WaitIsAt(t, p, op);
      FindGrantBare(lib, t, h, p.value, op, t', p');
    } else if op.WaitReread? || op.WaitTimeOut? {
      WaitIsAt(t, p, op);
      TimedOutBare(lib, t, h, p.value, op, t', p');
    } else {
      OthersBare(lib, t, p, op, t', p');
    }
  }

  lemma ChannelStepBare(lib: Library, s: Sys, h: History, p: Option<Proc>, op: Op, s': Sys, p': Proc)
    requires ChannelsOk(lib, s, h) && ChannelStep(s, p, op) == Some((s', p'))
    ensures !Bare(s.tables, Some(p'))
  {
    if op.WaitReceive? {
      var c := p.value.chan;
      assert SentOk(lib, s.tables, h, c, s.sent[c]);
      GoodIsNotBare(lib, s.tables, h, s.sent[c][0]);
    }
  }

  lemma FinishedStays(lib: Library, s: Sys, p: Proc, op: Op)
    requires p.Finished?
    ensures TableStep(lib, s.tables, Some(p), op).None? && ChannelStep(s, Some(p), op).None?
  {
  }

  lemma LookupIsStep(lib: Library, t: Tables, p: Option<Proc>, op: Op)
    requires LookupFails(p, op)
    ensures !OnChannel(op) && TableStep(lib, t, p, op).Some?
  {
  }

  /** The handler's own step. */
  lemma OwnStepBare(lib: Library, s: Sys, h: History, a: Action)
    requires Inv(lib, s, h)
    ensures var s' := Step(lib, s, a);
            Bare(s'.tables, At(s', a.pid)) <==> Bare(s.tables, At(s, a.pid)) || LookupFails(At(s, a.pid), a.op)
  {
    var p := At(s, a.pid);
    if p.Some? && p.value.Finished? { FinishedStays(lib, s, p.value, a.op); }
    if LookupFails(p, a.op) { LookupIsStep(lib, s.tables, p, a.op); }
    if OnChannel(a.op) {
      match ChannelStep(s, p, a.op)
      case None =>
      case Some((s1, p')) =>
        ChannelStepShape(s, p, a.op, s1, p');
        ChannelStepBare(lib, s, h, p, a.op, s1, p');
    } else {
      match TableStep(lib, s.tables, p, a.op)
      case None =>
      case Some((t', p')) => TableStepBare(lib, s.tables, h, p, a.op, t', p');
    }
  }

  lemma BareStays(lib: Library, t: Tables, h: History, p: Proc, t': Tables)
    requires Grows(t, t') && ProcOk(lib, t, h, p)
    ensures Bare(t', Some(p)) <==> Bare(t, Some(p))
  {
    if p.Finished? && p.r.Waited? && p.r.envelope.answer.Some? {
      var id := p.r.envelope.id;
      assert id in t.notifications;
      assert SameAsk(t.notifications[id], t'.notifications[id]);
    }
  }

  /** Another handler's step. */
  lemma OtherStepBare(lib: Library, s: Sys, h: History, a: Action, pid: nat)
    requires Inv(lib, s, h) && a.pid != pid
    ensures var s' := Step(lib, s, a); Bare(s'.tables, At(s', pid)) <==> Bare(s.tables, At(s, pid))
  {
    var s' := Step(lib, s, a);
    StepInv(lib, s, h, a, s');
    OtherAt(lib, s, a, pid);
    if pid in s.procs {
      BareStays(lib, s.tables, h, s.procs[pid], s'.tables);
    }
  }

  lemma OtherAt(lib: Library, s: Sys, a: Action, pid: nat)
    requires a.pid != pid
    ensures At(Step(lib, s, a), pid) == At(s, pid)
  {
  }

  // ── Over every run ─────────────────────────────────────────────────────

  /** Step i of the run is a failed lookup by the handler. */
  ghost predicate FailsAt(lib: Library, acts: seq<Action>, pid: nat, i: nat)
    requires i < |acts|
  {
    acts[i].pid == pid && LookupFails(At(Run(lib, acts[..i]), pid), acts[i].op)
  }

  ghost predicate FailedLookup(lib: Library, acts: seq<Action>, pid: nat) {
    exists i :: 0 <= i < |acts| && FailsAt(lib, acts, pid, i)
  }

  lemma FailedSoFar(lib: Library, acts: seq<Action>, pid: nat)
    requires acts != []
    ensures FailedLookup(lib, acts, pid) <==>
            FailedLookup(lib, acts[..|acts| - 1], pid) || FailsAt(lib, acts, pid, |acts| - 1)
  {
    var before := acts[..|acts| - 1];
    forall i | 0 <= i < |before| ensures FailsAt(lib, before, pid, i) <==> FailsAt(lib, acts, pid, i) {
      assert before[..i] == acts[..i];
    }
    if FailedLookup(lib, before, pid) {
      var i :| 0 <= i < |before| && FailsAt(lib, before, pid, i);
      assert FailsAt(lib, acts, pid, i);
    }
  }

  /** In every run a handler has told an approval's answer without a grant exactly
      when a lookup of its own has failed. */
  lemma {:induction false} BareIff(lib: Library, acts: seq<Action>, pid: nat)
    ensures Bare(Run(lib, acts).tables, At(Run(lib, acts), pid)) <==> FailedLookup(lib, acts, pid)
  {
    if acts != [] {
      var before, last := acts[..|acts| - 1], acts[|acts| - 1];
      BareIff(lib, before, pid);
      FailedSoFar(lib, acts, pid);
      RunInv(lib, before);
      if last.pid == pid {
        OwnStepBare(lib, Run(lib, before), HistoryOf(lib, before), last);
      } else {
        OtherStepBare(lib, Run(lib, before), HistoryOf(lib, before), last, pid);
      }
    }
  }

  /** The envelope carries the stored grant. */
  predicate Carries(env: Answering, g: StoredGrant) {
    env.grant == Some(g.ToEnvelope()) && env.via == "ta:" + g.signer
  }

  /** The stored grant behind an answer: it names the ask, goes with the answer unless
      no grant does, and gave the answer unless the ask has been timed out. */
  ghost predicate Behind(lib: Library, acts: seq<Action>, ask: string, env: Answering, gid: string) {
    && gid in Run(lib, acts).tables.grants && Names(Run(lib, acts).tables.grants[gid], ask)
    && (env.grant.Some? ==> Carries(env, Run(lib, acts).tables.grants[gid]))
    && (Matches(lib, Run(lib, acts).tables.grants[gid], env.answer, env.answerLabel, env.note)
        || (env.grant.Some? && WasTimedOut(lib, acts, ask)))
  }

  /** Behind every answer to an approval that a waiter receives there is a stored
      kind-grant for that ask; the answer carries it exactly when the waiter's own
      lookup has not failed, and is that grant's unless the row has been "timedout". */
  lemma ApprovalAnswerCarriesGrant(lib: Library, acts: seq<Action>, pid: nat, ask: string, env: Answering)
    requires Received(lib, acts, pid, ask, env) && env.answer.Some?
    requires ask in Run(lib, acts).tables.notifications
    requires Run(lib, acts).tables.notifications[ask].questionType == Approval
    ensures env.id == ask
    ensures env.grant.Some? <==> !FailedLookup(lib, acts, pid)
    ensures exists gid :: Behind(lib, acts, ask, env, gid)
  {
    ReceivedGood(lib, acts, pid, ask, env);
    BareIff(lib, acts, pid);
    if FoundOk(lib, Run(lib, acts).tables, env) {
      FoundBehind(lib, acts, ask, env);
    } else {
      BackedBehind(lib, acts, ask, env);
    }
  }

  lemma FoundBehind(lib: Library, acts: seq<Action>, ask: string, env: Answering)
    requires FoundOk(lib, Run(lib, acts).tables, env) && env.id == ask
    ensures exists gid :: Behind(lib, acts, ask, env, gid)
  {
    var t := Run(lib, acts).tables;
    var gid :| gid in t.grants && Names(t.grants[gid], env.id)
               && Matches(lib, t.grants[gid], env.answer, env.answerLabel, env.note);
    assert Behind(lib, acts, ask, env, gid);
  }

  lemma BackedBehind(lib: Library, acts: seq<Action>, ask: string, env: Answering)
    requires Backed(lib, Run(lib, acts).tables, HistoryOf(lib, acts), env) && env.id == ask
    ensures exists gid :: Behind(lib, acts, ask, env, gid)
  {
    var gid :| BackedBy(lib, Run(lib, acts).tables, HistoryOf(lib, acts), env, gid);
    if ask in HistoryOf(lib, acts).timedOut {
      TimedOutIsPast(lib, acts, ask);
    }
    assert Behind(lib, acts, ask, env, gid);
  }

  // ── A run in which a lookup fails ──────────────────────────────────────

  /** An approval ask is made and answered by a grant; a wait finds it answered. */
  function AnsweredRun(n: Loaded, now: int, post: Action): seq<Action> {
    [Action(0, AskCheck(n.callerId, now, true)), Action(0, AskStore(n))] + [post] + [Action(1, WaitBegin(n.id, true))]
  }

  lemma AskRun(lib: Library, n: Loaded, now: int)
    requires Fresh(n) && n.status == Open
    ensures Run(lib, [Action(0, AskCheck(n.callerId, now, true)), Action(0, AskStore(n))]) ==
            START.(tables := Tables(map[n.id := StoredRow(n)], map[]), procs := map[0 := Finished(Done)])
  {
    var acts := [Action(0, AskCheck(n.callerId, now, true)), Action(0, AskStore(n))];
    AskSteps(lib, n, now);
    RunIsRunFrom(lib, acts);
    TakeTwo(lib, START, acts);
  }

  lemma PostAnswers(lib: Library, s: Sys, post: Action, row: Row, v: Verified, s': Sys)
    requires s.tables == Tables(map[row.id := row], map[]) && s.procs.Keys == {0} && post.pid > 1 && post.op.Post?
    requires VerifyEnvelope(lib, post.op.registry, post.op.raw) == Ok(v) && ForAsk(v, row)
    requires row.status == "open" && row.questionType == Approval && s' == Step(lib, s, post)
    ensures Holds(s'.tables, row.id, v.parsed.record.grant, "answered") && v.envelope.id in s'.tables.grants
    ensures s'.tables.notifications[row.id].questionType == Approval && 1 !in s'.procs
  {
    PostStep(lib, s, post.pid, post.op.raw, post.op.registry, post.op.now);
    OpenTakesGrant(s.tables, v, v.parsed.record.grant, post.op.now);
    AnswersApproval(s.tables, v, v.parsed.record.grant, post.op.now);
  }

  lemma AnswersApproval(t: Tables, v: Verified, g: GrantRecord, now: int)
    requires v.parsed.record == Grant(g) && g.askId in t.notifications
    ensures var t' := StoreVerified(t, v, now).0;
            g.askId in t'.notifications
            && t'.notifications[g.askId].questionType == t.notifications[g.askId].questionType
  {
  }

  lemma FindsAnswered(lib: Library, s: Sys, id: string, record: GrantRecord)
    requires Holds(s.tables, id, record, "answered") && s.tables.notifications[id].questionType == Approval
    requires 1 !in s.procs
    ensures Step(lib, s, Action(1, WaitBegin(id, true))) ==
            s.(procs := s.procs[1 := WaitAttach(FoundAnswer(id, Models.Load(s.tables.notifications[id])))])
  {
  }

  lemma FailsToFind(lib: Library, s: Sys, env: Answering)
    requires 1 in s.procs && s.procs[1] == WaitAttach(env)
    ensures Step(lib, s, Action(1, WaitFindGrant("", false))) ==
            s.(procs := s.procs[1 := Finished(Waited(env.id, env))])
  {
  }

  /** The exception is real: when its lookup fails, the waiter receives the answer of
      the signed grant, which is stored, without the grant. */
  lemma FailedLookupIsBare(lib: Library, n: Loaded, now: int, post: Action, v: Verified)
    requires Fresh(n) && n.status == Open && n.questionType == Approval && post.pid > 1 && post.op.Post?
    requires VerifyEnvelope(lib, post.op.registry, post.op.raw) == Ok(v) && ForAsk(v, n)
    ensures var s := Run(lib, AnsweredRun(n, now, post) + [Action(1, WaitFindGrant("", false))]);
            && v.envelope.id in s.tables.grants && 1 in s.procs && Bare(s.tables, Some(s.procs[1]))
            && s.procs[1].r.ask == n.id && s.procs[1].r.envelope.answer == Some(AnswerOf(v.parsed.record.grant).answer)
  {
    var asked := [Action(0, AskCheck(n.callerId, now, true)), Action(0, AskStore(n))];
    AskRun(lib, n, now);
    RunSnoc(lib, asked, post);
    PostAnswers(lib, Run(lib, asked), post, StoredRow(n), v, Run(lib, asked + [post]));
    RunSnoc(lib, asked + [post], Action(1, WaitBegin(n.id, true)));
    FailsFrom(lib, asked + [post], n.id, v.parsed.record.grant);
  }

  lemma FailsFrom(lib: Library, acts: seq<Action>, id: string, record: GrantRecord)
    requires Holds(Run(lib, acts).tables, id, record, "answered") && 1 !in Run(lib, acts).procs
    requires Run(lib, acts).tables.notifications[id].questionType == Approval
    ensures var s := Run(lib, acts + [Action(1, WaitBegin(id, true))] + [Action(1, WaitFindGrant("", false))]);
            && s.tables == Run(lib, acts).tables && 1 in s.procs && Bare(s.tables, Some(s.procs[1]))
            && s.procs[1].r.ask == id && s.procs[1].r.envelope.answer == Some(AnswerOf(record).answer)
  {
    RunSnoc(lib, acts, Action(1, WaitBegin(id, true)));
    RunSnoc(lib, acts + [Action(1, WaitBegin(id, true))], Action(1, WaitFindGrant("", false)));
    var s := Run(lib, acts);
    FindsAnswered(lib, s, id, record);
    FailsToFind(lib, Run(lib, acts + [Action(1, WaitBegin(id, true))]),
                FoundAnswer(id, Models.Load(s.tables.notifications[id])));
  }
}
