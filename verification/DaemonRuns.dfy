/** The invariant of the whole daemon, over every run. */
module DaemonRuns {
  import opened Prelude
  import opened Json
  import opened Models
  import opened Grants
  import opened Store
  import opened Daemon
  import opened DaemonInv
  import opened DaemonTables
  import opened DaemonGrants
  import opened DaemonSteps

  /** What a channel has carried: at most one envelope, for its own ask. */
  ghost predicate SentOk(lib: Library, t: Tables, h: History, c: Chan, envs: seq<Answering>) {
    |envs| <= 1 && forall i :: 0 <= i < |envs| ==> envs[i].id == c.ask && GoodEnvelope(lib, t, h, envs[i])
  }

  /** A sender in the waiters map has not been used, and is under its own ask. */
  predicate WaitersOk(s: Sys) {
    forall id :: id in s.waiters ==>
      s.waiters[id].ask == id && s.waiters[id] in s.sent && s.sent[s.waiters[id]] == []
  }

  ghost predicate ChannelsOk(lib: Library, s: Sys, h: History) {
    && (forall c :: c in s.sent ==> c.num < s.nextChan && SentOk(lib, s.tables, h, c, s.sent[c]))
    && WaitersOk(s)
  }

  ghost predicate ProcsOk(lib: Library, s: Sys, h: History) {
    forall pid :: pid in s.procs ==> ProcOk(lib, s.tables, h, s.procs[pid])
  }

  /** A handler whose claim of the grant was stored. */
  predicate HoldsClaim(p: Proc, id: string) {
    match p
    case ClaimRead(of, _, _) => of == id
    case Finished(Claimed(of, _, _)) => of == id
    case _ => false
  }

  ghost predicate ClaimsOk(s: Sys) {
    forall p, q, id :: p in s.procs && q in s.procs && HoldsClaim(s.procs[p], id) && HoldsClaim(s.procs[q], id) ==>
      p == q
  }

  ghost predicate Inv(lib: Library, s: Sys, h: History) {
    TablesOk(lib, s.tables, h) && ProcsOk(lib, s, h) && ChannelsOk(lib, s, h) && ClaimsOk(s)
  }

  // ── Steps on the tables ────────────────────────────────────────────────

  lemma OthersOk(lib: Library, s: Sys, h: History, s': Sys, h': History, pid: nat, p': Proc)
    requires ProcsOk(lib, s, h) && Grows(s.tables, s'.tables) && Later(h, h')
    requires s'.procs == s.procs[pid := p'] && ProcOk(lib, s'.tables, h', p')
    ensures ProcsOk(lib, s', h')
  {
    forall q | q in s'.procs ensures ProcOk(lib, s'.tables, h', s'.procs[q]) {
      if q != pid {
        ProcOkGrows(lib, s.tables, h, s'.tables, h', s.procs[q]);
      }
    }
  }

  lemma SentOkGrows(lib: Library, t: Tables, h: History, t': Tables, h': History, c: Chan, envs: seq<Answering>)
    requires Grows(t, t') && Later(h, h') && SentOk(lib, t, h, c, envs)
    ensures SentOk(lib, t', h', c, envs)
  {
    forall i | 0 <= i < |envs| ensures GoodEnvelope(lib, t', h', envs[i]) {
      GoodEnvelopeGrows(lib, t, h, t', h', envs[i]);
    }
  }

  lemma ChannelsGrow(lib: Library, s: Sys, h: History, s': Sys, h': History)
    requires ChannelsOk(lib, s, h) && Grows(s.tables, s'.tables) && Later(h, h')
    requires s'.sent == s.sent && s'.waiters == s.waiters && s'.nextChan == s.nextChan
    ensures ChannelsOk(lib, s', h')
  {
    forall c | c in s'.sent ensures SentOk(lib, s'.tables, h', c, s'.sent[c]) {
      SentOkGrows(lib, s.tables, h, s'.tables, h', c, s.sent[c]);
    }
  }

  lemma AskHoldsNone(t: Tables, p: Option<Proc>, op: Op, t': Tables, p': Proc, id: string)
    requires AskHandler(t, p, op) == Some((t', p'))
    ensures !HoldsClaim(p', id)
  {
  }

  lemma AnswerHoldsNone(t: Tables, p: Option<Proc>, op: Op, t': Tables, p': Proc, id: string)
    requires AnswerHandler(t, p, op) == Some((t', p'))
    ensures !HoldsClaim(p', id)
  {
  }

  lemma CancelHoldsNone(t: Tables, p: Option<Proc>, op: Op, t': Tables, p': Proc, id: string)
    requires CancelHandler(t, p, op) == Some((t', p'))
    ensures !HoldsClaim(p', id)
  {
  }

  lemma DismissHoldsNone(t: Tables, p: Option<Proc>, op: Op, t': Tables, p': Proc, id: string)
    requires DismissHandler(t, p, op) == Some((t', p'))
    ensures !HoldsClaim(p', id)
  {
  }

  lemma SnoozeHoldsNone(t: Tables, p: Option<Proc>, op: Op, t': Tables, p': Proc, id: string)
    requires SnoozeHandler(t, p, op) == Some((t', p'))
    ensures !HoldsClaim(p', id)
  {
  }

  lemma WaitHoldsNone(t: Tables, p: Option<Proc>, op: Op, t': Tables, p': Proc, id: string)
    requires WaitHandler(t, p, op) == Some((t', p'))
    ensures !HoldsClaim(p', id)
  {
  }

  lemma StoreHoldsNone(t: Tables, v: Verified, now: int, id: string)
    ensures !HoldsClaim(StoreVerified(t, v, now).1, id)
  {
  }

  lemma PostHoldsNone(lib: Library, t: Tables, p: Option<Proc>, op: Op, t': Tables, p': Proc, id: string)
    requires GrantHandler(lib, t, p, op) == Some((t', p'))
    ensures !HoldsClaim(p', id)
  {
    match VerifyEnvelope(lib, op.registry, op.raw)
    case Err(_) =>
    case Ok(v) => StoreHoldsNone(t, v, op.now, id);
  }

  lemma NewClaimBy(t: Tables, p: Option<Proc>, op: Op, t': Tables, p': Proc, id: string)
    requires ClaimHandler(t, p, op) == Some((t', p')) && HoldsClaim(p', id)
    ensures (p.Some? && HoldsClaim(p.value, id)) || (id in t.grants && t.grants[id].claimedBy.None?)
  {
  }

  /** A handler comes to hold a claim only by storing it, and then nobody held it before. */
  lemma NewClaim(lib: Library, t: Tables, p: Option<Proc>, op: Op, t': Tables, p': Proc, id: string)
    requires TableStep(lib, t, p, op) == Some((t', p')) && HoldsClaim(p', id)
    ensures (p.Some? && HoldsClaim(p.value, id)) || (id in t.grants && t.grants[id].claimedBy.None?)
  {
    if op.AskCheck? || op.AskStore? || op.AskAutoAnswer? {
      AskHoldsNone(t, p, op, t', p', id);
    } else if op.AnswerBegin? || op.AnswerCommit? || op.AnswerReread? {
      AnswerHoldsNone(t, p, op, t', p', id);
    } else if op.CancelBegin? || op.CancelCommit? {
      CancelHoldsNone(t, p, op, t', p', id);
    } else if op.DismissBegin? || op.DismissCommit? {
      DismissHoldsNone(t, p, op, t', p', id);
    } else if op.SnoozeBegin? || op.SnoozeCommit? {
      SnoozeHoldsNone(t, p, op, t', p', id);
    } else if op.Post? {
      PostHoldsNone(lib, t, p, op, t', p', id);
    } else if op.ClaimBegin? || op.ClaimCommit? || op.ClaimReread? {
      NewClaimBy(t, p, op, t', p', id);
    } else {
      WaitHoldsNone(t, p, op, t', p', id);
    }
  }

  lemma HeldIsClaimed(lib: Library, t: Tables, h: History, p: Proc, id: string)
    requires ProcOk(lib, t, h, p) && HoldsClaim(p, id)
    ensures id in t.grants && t.grants[id].claimedBy.Some?
  {
  }

  lemma ClaimsStay(s: Sys, s': Sys, pid: nat, p': Proc)
    requires ClaimsOk(s) && s'.procs == s.procs[pid := p']
    requires forall id :: HoldsClaim(p', id) ==>
      || (pid in s.procs && HoldsClaim(s.procs[pid], id))
      || (forall q :: q in s.procs ==> !HoldsClaim(s.procs[q], id))
    ensures ClaimsOk(s')
  {
    forall p, q, id | p in s'.procs && q in s'.procs && HoldsClaim(s'.procs[p], id) && HoldsClaim(s'.procs[q], id)
      ensures p == q
    {
    }
  }

  lemma TableStepClaims(lib: Library, s: Sys, h: History, pid: nat, op: Op, t': Tables, p': Proc, s': Sys)
    requires ProcsOk(lib, s, h) && ClaimsOk(s) && TableStep(lib, s.tables, At(s, pid), op) == Some((t', p'))
    requires s'.procs == s.procs[pid := p']
    ensures ClaimsOk(s')
  {
    forall id | HoldsClaim(p', id) && !(pid in s.procs && HoldsClaim(s.procs[pid], id))
      ensures forall q :: q in s.procs ==> !HoldsClaim(s.procs[q], id)
    {
      NewClaim(lib, s.tables, At(s, pid), op, t', p', id);
      forall q | q in s.procs ensures !HoldsClaim(s.procs[q], id) {
        if HoldsClaim(s.procs[q], id) {
          HeldIsClaimed(lib, s.tables, h, s.procs[q], id);
        }
      }
    }
    ClaimsStay(s, s', pid, p');
  }

  lemma TableStepInv(lib: Library, s: Sys, h: History, pid: nat, op: Op, t': Tables, p': Proc, s': Sys)
    requires Inv(lib, s, h) && TableStep(lib, s.tables, At(s, pid), op) == Some((t', p'))
    requires s' == s.(tables := t', procs := s.procs[pid := p'])
    ensures Inv(lib, s', Observe(h, t')) && Grows(s.tables, t') && Later(h, Observe(h, t'))
  {
    var h' := Observe(h, t');
    assert Ready(lib, s.tables, h, At(s, pid));
    TableStepKeeps(lib, s.tables, h, At(s, pid), op, t', p');
    assert Later(h, h');
    OthersOk(lib, s, h, s', h', pid, p');
    ChannelsGrow(lib, s, h, s', h');
    TableStepClaims(lib, s, h, pid, op, t', p', s');
  }

  // ── Steps on the waiters and channels ──────────────────────────────────

  lemma DeliverOk(lib: Library, s: Sys, h: History, env: Answering)
    requires ChannelsOk(lib, s, h) && GoodEnvelope(lib, s.tables, h, env)
    ensures ChannelsOk(lib, Deliver(s, env), h)
  {
    var s' := Deliver(s, env);
    if env.id in s.waiters {
      var chan := s.waiters[env.id];
      assert s'.sent[chan] == [env];
      forall c | c in s'.sent ensures c.num < s'.nextChan && SentOk(lib, s'.tables, h, c, s'.sent[c]) {
        if c != chan { assert SentOk(lib, s.tables, h, c, s.sent[c]); }
      }
    }
  }

  lemma RegisterOk(lib: Library, s: Sys, h: History, id: string)
    requires ChannelsOk(lib, s, h)
    ensures ChannelsOk(lib, Register(s, id).0, h)
    ensures Register(s, id).1 !in s.sent
  {
    var (s', chan) := Register(s, id);
    forall c | c in s'.sent ensures c.num < s'.nextChan && SentOk(lib, s'.tables, h, c, s'.sent[c]) {
      if c != chan { assert SentOk(lib, s.tables, h, c, s.sent[c]); }
    }
  }

  lemma UnregisterOk(lib: Library, s: Sys, h: History, id: string)
    requires ChannelsOk(lib, s, h)
    ensures ChannelsOk(lib, s.(waiters := s.waiters - {id}), h)
  {
  }

  lemma ReceivedOk(lib: Library, s: Sys, h: History, c: Chan)
    requires ChannelsOk(lib, s, h) && c in s.sent && s.sent[c] != []
    ensures ProcOk(lib, s.tables, h, Finished(Waited(c.ask, s.sent[c][0])))
  {
    assert SentOk(lib, s.tables, h, c, s.sent[c]);
  }

  lemma ChannelStepOk(lib: Library, s: Sys, h: History, p: Option<Proc>, op: Op, s': Sys, p': Proc)
    requires ChannelsOk(lib, s, h) && (p.Some? ==> ProcOk(lib, s.tables, h, p.value))
    requires ChannelStep(s, p, op) == Some((s', p'))
    ensures ChannelsOk(lib, s', h) && ProcOk(lib, s.tables, h, p')
  {
    if op.Send? {
      DeliverOk(lib, s, h, p.value.env);
    } else if op.WaitInsert? {
      RegisterOk(lib, s, h, p.value.id);
    } else if op.WaitUnregister? {
      UnregisterOk(lib, s, h, p.value.id);
    } else if op.WaitReceive? {
      ReceivedOk(lib, s, h, p.value.chan);
    }
  }

  /** A step on a channel leaves the tables alone and claims nothing. */
  lemma ChannelStepShape(s: Sys, p: Option<Proc>, op: Op, s': Sys, p': Proc)
    requires ChannelStep(s, p, op) == Some((s', p'))
    ensures s'.tables == s.tables && s'.procs == s.procs && forall id :: !HoldsClaim(p', id)
  {
  }

  /** Seeing the same tables again adds nothing. */
  lemma ObserveSame(h: History, t: Tables)
    requires Sees(h, t)
    ensures Observe(h, t) == h
  {
  }

  lemma ChannelStepInv(lib: Library, s: Sys, h: History, pid: nat, op: Op, s1: Sys, p': Proc, s': Sys)
    requires Inv(lib, s, h) && OnChannel(op) && ChannelStep(s, At(s, pid), op) == Some((s1, p'))
    requires s' == s1.(procs := s.procs[pid := p'])
    ensures Inv(lib, s', Observe(h, s'.tables)) && Grows(s.tables, s'.tables) && Later(h, Observe(h, s'.tables))
  {
    ChannelStepShape(s, At(s, pid), op, s1, p');
    ChannelStepOk(lib, s, h, At(s, pid), op, s1, p');
    ObserveSame(h, s.tables);
    GrowsItself(s.tables);
    OthersOk(lib, s, h, s', h, pid, p');
    ChannelsGrow(lib, s1, h, s', h);
    ClaimsStay(s, s', pid, p');
  }

  // ── Runs ───────────────────────────────────────────────────────────────

  lemma IdleInv(lib: Library, s: Sys, h: History)
    requires Inv(lib, s, h)
    ensures Inv(lib, s, Observe(h, s.tables)) && Grows(s.tables, s.tables) && Later(h, Observe(h, s.tables))
  {
    var h' := Observe(h, s.tables);
    NothingKeeps(lib, s.tables, h);
    assert Later(h, h');
    forall q | q in s.procs ensures ProcOk(lib, s.tables, h', s.procs[q]) {
      ProcOkGrows(lib, s.tables, h, s.tables, h', s.procs[q]);
    }
    ChannelsGrow(lib, s, h, s, h');
  }

  /** Every step of every handler keeps the invariant, and tables only grow. */
  lemma StepInv(lib: Library, s: Sys, h: History, a: Action, s': Sys)
    requires Inv(lib, s, h) && s' == Step(lib, s, a)
    ensures Inv(lib, s', Observe(h, s'.tables)) && Grows(s.tables, s'.tables)
    ensures Later(h, Observe(h, s'.tables))
  {
    if OnChannel(a.op) {
      match ChannelStep(s, At(s, a.pid), a.op)
      case None => IdleInv(lib, s, h);
      case Some((s1, p')) => ChannelStepInv(lib, s, h, a.pid, a.op, s1, p', s');
    } else {
      match TableStep(lib, s.tables, At(s, a.pid), a.op)
      case None => IdleInv(lib, s, h);
      case Some((t', p')) => TableStepInv(lib, s, h, a.pid, a.op, t', p', s');
    }
  }

  ghost function HistoryOf(lib: Library, acts: seq<Action>): History {
    if acts == [] then BEGINNING
    else Observe(HistoryOf(lib, acts[..|acts| - 1]), Run(lib, acts).tables)
  }

  lemma StartInv(lib: Library)
    ensures Inv(lib, START, BEGINNING)
  {
  }

  /** The invariant holds after every run. */
  lemma {:induction false} RunInv(lib: Library, acts: seq<Action>)
    ensures Inv(lib, Run(lib, acts), HistoryOf(lib, acts))
  {
    if acts == [] {
      StartInv(lib);
    } else {
      var before := acts[..|acts| - 1];
      RunInv(lib, before);
      StepInv(lib, Run(lib, before), HistoryOf(lib, before), acts[|acts| - 1], Run(lib, acts));
    }
  }

  /** Whatever runs on, the tables only grow: no ask reopens or loses its
      columns, and no stored grant changes its id, record, hash or signature. */
  lemma {:induction false} RunGrows(lib: Library, acts: seq<Action>, more: seq<Action>)
    ensures Grows(Run(lib, acts).tables, Run(lib, acts + more).tables)
    ensures Later(HistoryOf(lib, acts), HistoryOf(lib, acts + more))
  {
    if more == [] {
      assert acts + more == acts;
      GrowsItself(Run(lib, acts).tables);
    } else {
      var before := acts + more[..|more| - 1];
      assert (acts + more)[..|acts + more| - 1] == before;
      RunGrows(lib, acts, more[..|more| - 1]);
      RunInv(lib, before);
      StepInv(lib, Run(lib, before), HistoryOf(lib, before), (acts + more)[|acts + more| - 1], Run(lib, acts + more));
      GrowsTransitive(Run(lib, acts).tables, Run(lib, before).tables, Run(lib, acts + more).tables);
    }
  }
}
