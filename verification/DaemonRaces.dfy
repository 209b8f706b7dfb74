/** Runs of the daemon step by step, and one that stores two grants for an ask. */
module DaemonRaces {
  import opened Prelude
  import opened Json
  import opened Models
  import opened Grants
  import opened Store
  import opened Daemon
  import opened DaemonInv
  import opened DaemonGrants
  import opened DaemonRuns
  import opened DaemonLaws

  lemma RunSnoc(lib: Library, acts: seq<Action>, a: Action)
    ensures Run(lib, acts + [a]) == Step(lib, Run(lib, acts), a)
  {
    assert (acts + [a])[..|acts + [a]| - 1] == acts;
  }

  lemma TakeFirst<T>(xs: seq<T>, ys: seq<T>)
    requires ys != []
    ensures xs + ys == (xs + [ys[0]]) + ys[1..]
  {
  }

  lemma {:induction false} RunAppend(lib: Library, acts: seq<Action>, more: seq<Action>)
    ensures Run(lib, acts + more) == RunFrom(lib, Run(lib, acts), more)
    decreases |more|
  {
    if more == [] {
      assert acts + more == acts;
    } else {
      TakeFirst(acts, more);
      RunAppend(lib, acts + [more[0]], more[1..]);
      RunSnoc(lib, acts, more[0]);
    }
  }

  /** The state after more steps. */
  ghost function RunFrom(lib: Library, s: Sys, acts: seq<Action>): Sys
    decreases |acts|
  {
    if acts == [] then s else RunFrom(lib, Step(lib, s, acts[0]), acts[1..])
  }

  // ── A timed-out ask takes two grants ───────────────────────────────────

  /** One ask, and one wait for it that registers. */
  function Registering(n: Loaded, now: int): seq<Action> {
    [Action(0, AskCheck(n.callerId, now, true)), Action(0, AskStore(n)), Action(1, WaitBegin(n.id, true)),
     Action(1, WaitInsert)]
  }

  /** The wait runs out of time. */
  function RunningOut(now: int): seq<Action> {
    [Action(1, WaitElapse), Action(1, WaitUnregister), Action(1, WaitReread(true, now)), Action(1, WaitTimeOut(true))]
  }

  function StoredRow(n: Loaded): Row {
    WithStatus(n, StatusText(n.status)).(snoozeUntil := None, note := None)
  }

  lemma AskSteps(lib: Library, n: Loaded, now: int)
    requires Fresh(n) && n.status == Open
    ensures var s := Step(lib, Step(lib, START, Action(0, AskCheck(n.callerId, now, true))), Action(0, AskStore(n)));
            s == START.(tables := Tables(map[n.id := StoredRow(n)], map[]), procs := map[0 := Finished(Done)])
  {
    var s1 := Step(lib, START, Action(0, AskCheck(n.callerId, now, true)));
    assert s1.procs == map[0 := AskPending(n.callerId, now)];
    assert s1.procs[0 := Finished(Done)] == map[0 := Finished(Done)];
  }

  lemma WaitBeginStep(lib: Library, s: Sys, id: string)
    requires id in s.tables.notifications && s.tables.notifications[id].status == "open" && 1 !in s.procs
    ensures Step(lib, s, Action(1, WaitBegin(id, true))) == s.(procs := s.procs[1 := WaitRegister(id)])
  {
  }

  lemma WaitInsertStep(lib: Library, s: Sys, id: string)
    requires 1 in s.procs && s.procs[1] == WaitRegister(id)
    ensures var c := Chan(s.nextChan, id);
            Step(lib, s, Action(1, WaitInsert)) ==
            s.(waiters := s.waiters[id := c], sent := s.sent[c := []], nextChan := s.nextChan + 1,
               procs := s.procs[1 := Waiting(c)])
  {
  }

  lemma RereadStep(lib: Library, s: Sys, id: string, now: int)
    requires 1 in s.procs && s.procs[1] == WaitLook(id)
    requires id in s.tables.notifications && s.tables.notifications[id].status == "open"
    ensures Step(lib, s, Action(1, WaitReread(true, now))) ==
            s.(procs := s.procs[1 := WaitMark(id, TimeOutEnvelope(id, GetNotification(s.tables, id), now))])
  {
  }

  lemma TimeOutStep(lib: Library, s: Sys, id: string)
    requires 1 in s.procs && s.procs[1].WaitMark? && s.procs[1].id == id
    ensures var s' := Step(lib, s, Action(1, WaitTimeOut(true)));
            s'.tables == UpdateStatus(s.tables, id, TimedOut) && s'.procs.Keys == s.procs.Keys
  {
  }

  lemma ElapseSteps(lib: Library, s: Sys, c: Chan)
    requires 1 in s.procs && s.procs[1] == Waiting(c)
    ensures Step(lib, Step(lib, s, Action(1, WaitElapse)), Action(1, WaitUnregister)) ==
            s.(waiters := s.waiters - {c.ask}, procs := s.procs[1 := WaitLook(c.ask)])
  {
    var s1 := Step(lib, s, Action(1, WaitElapse));
    assert s1 == s.(procs := s.procs[1 := WaitRemove(c.ask)]);
    assert s1.procs[1 := WaitLook(c.ask)] == s.procs[1 := WaitLook(c.ask)];
  }

  lemma MarkRun(lib: Library, s: Sys, id: string, now: int, acts: seq<Action>)
    requires 1 in s.procs && s.procs[1] == WaitLook(id)
    requires id in s.tables.notifications && s.tables.notifications[id].status == "open"
    requires acts == [Action(1, WaitReread(true, now)), Action(1, WaitTimeOut(true))]
    ensures RunFrom(lib, s, acts).tables == UpdateStatus(s.tables, id, TimedOut)
    ensures RunFrom(lib, s, acts).procs.Keys == s.procs.Keys
  {
    RereadStep(lib, s, id, now);
    TimeOutStep(lib, Step(lib, s, acts[0]), id);
    TakeTwo(lib, s, acts);
  }

  /** The last four steps, by a waiter that has registered. */
  lemma WaiterTimesOut(lib: Library, s: Sys, acts: seq<Action>, c: Chan, now: int)
    requires 1 in s.procs && s.procs[1] == Waiting(c)
    requires c.ask in s.tables.notifications && s.tables.notifications[c.ask].status == "open"
    requires acts == RunningOut(now)
    ensures RunFrom(lib, s, acts).tables == UpdateStatus(s.tables, c.ask, TimedOut)
    ensures RunFrom(lib, s, acts).procs.Keys == s.procs.Keys
  {
    ElapseSteps(lib, s, c);
    TakeTwo(lib, s, acts);
    MarkRun(lib, Step(lib, Step(lib, s, acts[0]), acts[1]), c.ask, now, acts[2..]);
  }

  /** The first four steps: the ask is stored and the waiter registers. */
  lemma WaiterRegisters(lib: Library, n: Loaded, acts: seq<Action>, now: int)
    requires Fresh(n) && n.status == Open
    requires acts == Registering(n, now)
    ensures var s := RunFrom(lib, START, acts);
            && s.tables == Tables(map[n.id := StoredRow(n)], map[])
            && s.procs.Keys == {0, 1} && s.procs[1] == Waiting(Chan(0, n.id))
  {
    AskSteps(lib, n, now);
    var s2 := Step(lib, Step(lib, START, acts[0]), acts[1]);
    WaitBeginStep(lib, s2, n.id);
    WaitInsertStep(lib, Step(lib, s2, acts[2]), n.id);
    TakeTwo(lib, START, acts);
    TakeTwo(lib, s2, acts[2..]);
    assert acts[2..][2..] == [];
  }

  lemma RunIsRunFrom(lib: Library, acts: seq<Action>)
    ensures Run(lib, acts) == RunFrom(lib, START, acts)
  {
    RunAppend(lib, [], acts);
    assert [] + acts == acts;
  }

  lemma MarkedTable(id: string, row: Row)
    ensures UpdateStatus(Tables(map[id := row], map[]), id, TimedOut) ==
            Tables(map[id := row.(status := "timedout")], map[])
  {
  }

  lemma TimesOutFrom(lib: Library, s: Sys, n: Loaded, now: int, row: Row)
    requires s.tables == Tables(map[n.id := row], map[]) && row.status == "open" && s.procs.Keys == {0, 1}
    requires s.procs[1] == Waiting(Chan(0, n.id))
    ensures RunFrom(lib, s, RunningOut(now)).tables == Tables(map[n.id := row.(status := "timedout")], map[])
    ensures RunFrom(lib, s, RunningOut(now)).procs.Keys == {0, 1}
  {
    WaiterTimesOut(lib, s, RunningOut(now), Chan(0, n.id), now);
    MarkedTable(n.id, row);
  }

  /** After the run the row says "timedout" and no grant is stored. */
  lemma TimesOut(lib: Library, n: Loaded, now: int)
    requires Fresh(n) && n.status == Open
    ensures Run(lib, Registering(n, now) + RunningOut(now)).tables ==
            Tables(map[n.id := StoredRow(n).(status := "timedout")], map[])
    ensures Run(lib, Registering(n, now) + RunningOut(now)).procs.Keys == {0, 1}
  {
    RunIsRunFrom(lib, Registering(n, now));
    RunAppend(lib, Registering(n, now), RunningOut(now));
    WaiterRegisters(lib, n, Registering(n, now), now);
    TimesOutFrom(lib, RunFrom(lib, START, Registering(n, now)), n, now, StoredRow(n));
  }

  lemma TakeTwo(lib: Library, s: Sys, acts: seq<Action>)
    requires |acts| >= 2
    ensures RunFrom(lib, s, acts) == RunFrom(lib, Step(lib, Step(lib, s, acts[0]), acts[1]), acts[2..])
  {
    assert acts[1..][0] == acts[1] && acts[1..][1..] == acts[2..];
  }

  /** A verified kind-grant for a "timedout" approval ask is stored, and the row stays as it is. */
  lemma TimedOutTakesGrant(t: Tables, v: Verified, g: GrantRecord, now: int)
    requires v.parsed.record == Grant(g) && g.askId in t.notifications && v.envelope.id !in t.grants
    requires t.notifications[g.askId].id == g.askId && t.notifications[g.askId].status == "timedout"
    requires t.notifications[g.askId].questionType == Approval && t.notifications[g.askId].question == g.question
    ensures StoreVerified(t, v, now).0 == t.(grants := t.grants[v.envelope.id := FromVerified(v, now)])
  {
  }

  /** A post, by a new handler, of a verified kind-grant for a timed-out ask. */
  ghost predicate LatePost(lib: Library, s: Sys, post: Action, row: Row, v: Verified) {
    && post.op.Post? && VerifyEnvelope(lib, post.op.registry, post.op.raw) == Ok(v) && ForAsk(v, row)
    && post.pid !in s.procs && v.envelope.id !in s.tables.grants
    && row.id in s.tables.notifications && s.tables.notifications[row.id] == row
    && row.status == "timedout" && row.questionType == Approval
  }

  lemma PostStored(lib: Library, s: Sys, post: Action, row: Row, v: Verified, s': Sys)
    requires LatePost(lib, s, post, row, v) && s' == Step(lib, s, post)
    ensures s'.tables == s.tables.(grants := s.tables.grants[v.envelope.id := FromVerified(v, post.op.now)])
    ensures s'.procs.Keys == s.procs.Keys + {post.pid}
  {
    PostStep(lib, s, post.pid, post.op.raw, post.op.registry, post.op.now);
    TimedOutTakesGrant(s.tables, v, v.parsed.record.grant, post.op.now);
  }

  lemma StillLate(lib: Library, s: Sys, post: Action, row: Row, v: Verified, s1: Sys, other: Action, w: Verified)
    requires LatePost(lib, s, post, row, v) && LatePost(lib, s, other, row, w)
    requires s1.tables == s.tables.(grants := s.tables.grants[v.envelope.id := FromVerified(v, post.op.now)])
    requires s1.procs.Keys == s.procs.Keys + {post.pid} && other.pid != post.pid && w.envelope.id != v.envelope.id
    ensures LatePost(lib, s1, other, row, w)
  {
  }

  lemma RivalsIn(t: Tables, v1: Verified, v2: Verified, now1: int, now2: int, ask: string)
    requires v1.parsed.record.Grant? && v1.parsed.record.grant.askId == ask
    requires v2.parsed.record.Grant? && v2.parsed.record.grant.askId == ask
    requires t.grants == map[v1.envelope.id := FromVerified(v1, now1)][v2.envelope.id := FromVerified(v2, now2)]
    requires v1.envelope.id != v2.envelope.id
    ensures Rivals(t, v1.envelope.id, v2.envelope.id, ask)
  {
  }

  lemma TwoPosts(lib: Library, s: Sys, row: Row, post1: Action, post2: Action, v1: Verified, v2: Verified, s1: Sys,
                 s2: Sys)
    requires LatePost(lib, s, post1, row, v1) && LatePost(lib, s, post2, row, v2) && s.tables.grants == map[]
    requires post2.pid != post1.pid && v1.envelope.id != v2.envelope.id
    requires s1 == Step(lib, s, post1) && s2 == Step(lib, s1, post2)
    ensures Rivals(s2.tables, v1.envelope.id, v2.envelope.id, row.id)
  {
    PostStored(lib, s, post1, row, v1, s1);
    StillLate(lib, s, post1, row, v1, s1, post2, v2);
    PostStored(lib, s1, post2, row, v2, s2);
    RivalsIn(s2.tables, v1, v2, post1.op.now, post2.op.now, row.id);
  }

  /** The exception is real: whatever two verified kind-grants with different ids
      there are for an approval ask, the run in which a wait for it times out
      first stores them both. */
  lemma BothGrantsStored(lib: Library, n: Loaded, now: int, post1: Action, post2: Action, v1: Verified, v2: Verified)
    requires Fresh(n) && n.status == Open && n.questionType == Approval
    requires post1.pid == 2 && post2.pid == 3 && post1.op.Post? && post2.op.Post?
    requires VerifyEnvelope(lib, post1.op.registry, post1.op.raw) == Ok(v1)
    requires VerifyEnvelope(lib, post2.op.registry, post2.op.raw) == Ok(v2)
    requires ForAsk(v1, n) && ForAsk(v2, n) && v1.envelope.id != v2.envelope.id
    ensures Rivals(Run(lib, Registering(n, now) + RunningOut(now) + [post1] + [post2]).tables, v1.envelope.id,
                   v2.envelope.id, n.id)
  {
    TimesOut(lib, n, now);
    var s, row := Run(lib, Registering(n, now) + RunningOut(now)), StoredRow(n).(status := "timedout");
    LateAfter(lib, s, row, post1, v1);
    LateAfter(lib, s, row, post2, v2);
    BothFrom(lib, Registering(n, now) + RunningOut(now), StoredRow(n).(status := "timedout"), post1, post2, v1, v2);
  }

  lemma LateAfter(lib: Library, s: Sys, row: Row, post: Action, v: Verified)
    requires s.tables == Tables(map[row.id := row], map[]) && s.procs.Keys == {0, 1} && post.pid > 1 && post.op.Post?
    requires VerifyEnvelope(lib, post.op.registry, post.op.raw) == Ok(v) && ForAsk(v, row)
    requires row.status == "timedout" && row.questionType == Approval
    ensures LatePost(lib, s, post, row, v)
  {
  }

  lemma BothFrom(lib: Library, acts: seq<Action>, row: Row, post1: Action, post2: Action, v1: Verified, v2: Verified)
    requires LatePost(lib, Run(lib, acts), post1, row, v1) && LatePost(lib, Run(lib, acts), post2, row, v2)
    requires Run(lib, acts).tables.grants == map[] && post2.pid != post1.pid && v1.envelope.id != v2.envelope.id
    ensures Rivals(Run(lib, acts + [post1] + [post2]).tables, v1.envelope.id, v2.envelope.id, row.id)
  {
    RunSnoc(lib, acts, post1);
    RunSnoc(lib, acts + [post1], post2);
    TwoPosts(lib, Run(lib, acts), row, post1, post2, v1, v2, Run(lib, acts + [post1]),
             Run(lib, acts + [post1] + [post2]));
  }

  /** A verified grant that asks the question of n. */
  predicate ForAsk<S>(v: Verified, n: Notification<S>) {
    v.parsed.record.Grant? && v.parsed.record.grant.askId == n.id && v.parsed.record.grant.question == n.question
  }
}
