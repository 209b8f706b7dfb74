/** The asks of one caller: how far apart the rows are that their runs leave. */
module DaemonCallers {
  import opened Prelude
  import opened Json
  import opened Models
  import opened Grants
  import opened Store
  import opened Daemon
  import opened DaemonInv
  import opened DaemonGrants
  import opened DaemonRuns
  import opened DaemonLaws
  import opened DaemonRaces

  predicate SameCaller(t: Tables, a: string, b: string) {
    && a in t.notifications && b in t.notifications && a != b
    && t.notifications[a].callerId.Some? && t.notifications[a].callerId == t.notifications[b].callerId
  }

  /** Rows of one caller are a day apart. */
  ghost predicate DayApart(t: Tables) {
    forall a, b :: SameCaller(t, a, b) ==>
      || t.notifications[a].createdAt + 24 * 60 * 60 * 1000 <= t.notifications[b].createdAt
      || t.notifications[b].createdAt + 24 * 60 * 60 * 1000 <= t.notifications[a].createdAt
  }

  lemma {:induction false} PidsAreUsed(lib: Library, acts: seq<Action>, pid: nat)
    requires forall j :: 0 <= j < |acts| ==> acts[j].pid != pid
    ensures pid !in Run(lib, acts).procs
  {
    if acts != [] {
      PidsAreUsed(lib, acts[..|acts| - 1], pid);
      OtherPid(lib, Run(lib, acts[..|acts| - 1]), acts[|acts| - 1], pid);
    }
  }

  lemma OtherPid(lib: Library, s: Sys, a: Action, pid: nat)
    requires a.pid != pid && pid !in s.procs
    ensures pid !in Step(lib, s, a).procs
  {
  }

  lemma OtherProc(lib: Library, s: Sys, a: Action, pid: nat)
    requires a.pid != pid && pid in s.procs
    ensures pid in Step(lib, s, a).procs && Step(lib, s, a).procs[pid] == s.procs[pid]
  {
  }

  // ── From the check of an ask to its insert ─────────────────────────────

  /** The ask of this caller has ended, or is still to insert. */
  predicate Pending(s: Sys, pid: nat, caller: Option<string>) {
    && pid in s.procs
    && (s.procs[pid].Finished? || (s.procs[pid].AskPending? && s.procs[pid].caller == caller))
  }

  lemma ChannelStops(s: Sys, p: Proc, op: Op)
    requires p.Finished? || p.AskPending?
    ensures ChannelStep(s, Some(p), op).Some? ==> ChannelStep(s, Some(p), op).value.1.Finished?
  {
  }

  lemma TableStops(lib: Library, t: Tables, p: Proc, op: Op)
    requires p.Finished? || p.AskPending?
    ensures TableStep(lib, t, Some(p), op).Some? ==> TableStep(lib, t, Some(p), op).value.1.Finished?
  {
  }

  lemma PendingStays(lib: Library, s: Sys, a: Action, pid: nat, caller: Option<string>)
    requires Pending(s, pid, caller)
    ensures Pending(Step(lib, s, a), pid, caller)
    ensures Step(lib, s, a).procs[pid].Finished? || Step(lib, s, a).procs[pid] == s.procs[pid]
  {
    if a.pid == pid {
      if OnChannel(a.op) {
        ChannelStops(s, s.procs[pid], a.op);
      } else {
        TableStops(lib, s.tables, s.procs[pid], a.op);
      }
    } else {
      OtherProc(lib, s, a, pid);
    }
  }

  lemma SeenBefore(t: Tables, t': Tables, caller: string, since: int)
    requires Grows(t, t') && t'.notifications.Keys == t.notifications.Keys && SeenCaller(t', caller, since)
    ensures SeenCaller(t, caller, since)
  {
    var id :| id in t'.notifications && t'.notifications[id].callerId == Some(caller)
              && t'.notifications[id].createdAt > since;
    assert SameAsk(t.notifications[id], t'.notifications[id]);
  }

  lemma InsertSeen(t: Tables, n: Loaded, t': Tables, caller: string, since: int)
    requires InsertNotification(t, n) == Some(t') && n.callerId != Some(caller) && SeenCaller(t', caller, since)
    ensures SeenCaller(t, caller, since)
  {
    var id :| id in t'.notifications && t'.notifications[id].callerId == Some(caller)
              && t'.notifications[id].createdAt > since;
    assert id in t.notifications && t.notifications[id] == t'.notifications[id];
  }

  /** Only an insert for the caller can make its check find somebody. */
  lemma UnseenStays(lib: Library, s: Sys, h: History, a: Action, caller: string, since: int)
    requires Inv(lib, s, h) && !(a.op.AskStore? && a.op.n.callerId == Some(caller))
    requires !SeenCaller(s.tables, caller, since)
    ensures !SeenCaller(Step(lib, s, a).tables, caller, since)
  {
    var s' := Step(lib, s, a);
    if SeenCaller(s'.tables, caller, since) && s'.tables != s.tables {
      if a.op.AskStore? {
        StoredBy(lib, s, a);
        InsertSeen(s.tables, a.op.n, s'.tables, caller, since);
      } else {
        StepInv(lib, s, h, a, s');
        StepAddsNoRow(lib, s, h, a);
        SeenBefore(s.tables, s'.tables, caller, since);
      }
    }
  }

  /** The ask of the check has ended, or is still to insert and nobody has been stored
      for its caller since. */
  predicate Clear(s: Sys, check: Action)
    requires check.op.AskCheck?
  {
    && Pending(s, check.pid, check.op.caller)
    && (s.procs[check.pid].AskPending? && check.op.caller.Some? ==>
          !SeenCaller(s.tables, check.op.caller.value, check.op.now - DAY))
  }

  lemma ClearStays(lib: Library, s: Sys, h: History, a: Action, check: Action)
    requires Inv(lib, s, h) && check.op.AskCheck? && Clear(s, check)
    requires check.op.caller.Some? ==> !(a.op.AskStore? && a.op.n.callerId == check.op.caller)
    ensures Clear(Step(lib, s, a), check)
  {
    PendingStays(lib, s, a, check.pid, check.op.caller);
    if s.procs[check.pid].AskPending? && check.op.caller.Some? {
      UnseenStays(lib, s, h, a, check.op.caller.value, check.op.now - DAY);
    }
  }

  /** The check is the first step of its handler. */
  predicate Begins(acts: seq<Action>, j: nat)
    requires j < |acts|
  {
    acts[j].op.AskCheck? && forall i :: 0 <= i < j ==> acts[i].pid != acts[j].pid
  }

  lemma {:induction false} PendingSince(lib: Library, acts: seq<Action>, j: nat, k: nat)
    requires j < k <= |acts| && Begins(acts, j)
    ensures Pending(Run(lib, acts[..k]), acts[j].pid, acts[j].op.caller)
  {
    var before := acts[..k - 1];
    assert acts[..k][..k - 1] == before;
    if k == j + 1 {
      PidsAreUsed(lib, before, acts[j].pid);
      CheckLeaves(lib, Run(lib, before), acts[j]);
    } else {
      PendingSince(lib, acts, j, k - 1);
      PendingStays(lib, Run(lib, before), acts[k - 1], acts[j].pid, acts[j].op.caller);
    }
  }

  /** From a check that reads on, over any steps but inserts for its caller. */
  lemma {:induction false} ClearSince(lib: Library, acts: seq<Action>, j: nat, k: nat)
    requires j < k <= |acts| && Begins(acts, j) && acts[j].op.readOk && acts[j].op.caller.Some?
    requires forall i :: j < i < k ==> !(acts[i].op.AskStore? && acts[i].op.n.callerId == acts[j].op.caller)
    ensures Clear(Run(lib, acts[..k]), acts[j])
  {
    var before := acts[..k - 1];
    assert acts[..k][..k - 1] == before;
    if k == j + 1 {
      PidsAreUsed(lib, before, acts[j].pid);
      CheckLeaves(lib, Run(lib, before), acts[j]);
    } else {
      ClearSince(lib, acts, j, k - 1);
      RunInv(lib, before);
      ClearStays(lib, Run(lib, before), HistoryOf(lib, before), acts[k - 1], acts[j]);
    }
  }

  // ── Asks of one caller, one at a time ──────────────────────────────────

  /** The asks of each caller run one at a time: between the check that begins a
      handler and its insert no other ask of that caller inserts, though anything else
      may come. The check reads, and the clock has not gone back when the new row takes
      its time. Nothing is asked of an ask without a caller. */
  ghost predicate OneAtATime(acts: seq<Action>) {
    forall i :: 0 <= i < |acts| && acts[i].op.AskStore? && acts[i].op.n.callerId.Some? ==>
      exists j :: 0 <= j < i && Pair(acts, j, i)
  }

  predicate Pair(acts: seq<Action>, j: nat, i: nat)
    requires j < i < |acts|
  {
    && Begins(acts, j) && acts[j].pid == acts[i].pid && acts[j].op.readOk
    && acts[i].op.AskStore? && acts[j].op.now <= acts[i].op.n.createdAt
    && (forall k :: j < k < i ==> !(acts[k].op.AskStore? && acts[k].op.n.callerId == acts[i].op.n.callerId))
  }

  lemma OneAtATimePrefix(acts: seq<Action>)
    requires OneAtATime(acts) && acts != []
    ensures OneAtATime(acts[..|acts| - 1])
  {
    var before := acts[..|acts| - 1];
    forall i | 0 <= i < |before| && before[i].op.AskStore? && before[i].op.n.callerId.Some?
      ensures exists j :: 0 <= j < i && Pair(before, j, i)
    {
      assert acts[i].op.AskStore?;
      var j :| 0 <= j < i && Pair(acts, j, i);
      assert Pair(before, j, i);
    }
  }

  /** The insert of an ask that has stayed clear since its check. */
  lemma PairApart(lib: Library, acts: seq<Action>, j: nat, i: nat)
    requires j < i < |acts| && Pair(acts, j, i) && acts[i].op.n.callerId.Some?
    requires DayApart(Run(lib, acts[..i]).tables)
    ensures DayApart(Step(lib, Run(lib, acts[..i]), acts[i]).tables)
  {
    var s := Run(lib, acts[..i]);
    if acts[j].op.caller == acts[i].op.n.callerId {
      ClearSince(lib, acts, j, i);
      StoreApart(lib, s, acts[j], acts[i]);
    } else {
      PendingSince(lib, acts, j, i);
      if Step(lib, s, acts[i]).tables != s.tables {
        StoredBy(lib, s, acts[i]);
      }
    }
  }

  /** Two rows with the same caller id are always at least 24 hours apart, when the
      asks of each caller run one at a time, among any other steps and asks. */
  lemma {:induction false} CallersAreDayApart(lib: Library, acts: seq<Action>)
    requires OneAtATime(acts)
    ensures DayApart(Run(lib, acts).tables)
  {
    if acts != [] {
      var before, last := acts[..|acts| - 1], acts[|acts| - 1];
      OneAtATimePrefix(acts);
      CallersAreDayApart(lib, before);
      if last.op.AskStore? && last.op.n.callerId.Some? {
        var j :| 0 <= j < |acts| - 1 && Pair(acts, j, |acts| - 1);
        PairApart(lib, acts, j, |acts| - 1);
      } else {
        RunInv(lib, before);
        OthersApart(lib, Run(lib, before), HistoryOf(lib, before), last);
      }
    }
  }

  /** The insert of a handler whose check is still clear. */
  lemma StoreApart(lib: Library, s: Sys, check: Action, store: Action)
    requires check.op.AskCheck? && store.op.AskStore? && check.pid == store.pid && Clear(s, check)
    requires check.op.now <= store.op.n.createdAt && DayApart(s.tables)
    ensures DayApart(Step(lib, s, store).tables)
  {
    var s' := Step(lib, s, store);
    if s'.tables != s.tables {
      StoredBy(lib, s, store);
      InsertApart(s.tables, store.op.n, check.op.now, s'.tables);
    }
  }

  lemma CheckLeaves(lib: Library, s: Sys, check: Action)
    requires check.op.AskCheck? && check.pid !in s.procs
    ensures Step(lib, s, check) == s.(procs := s.procs[check.pid :=
              if check.op.readOk && check.op.caller.Some?
                 && SeenCaller(s.tables, check.op.caller.value, check.op.now - DAY)
              then Finished(Done)
              else AskPending(check.op.caller, check.op.now)])
  {
  }

  lemma StoredBy(lib: Library, s: Sys, store: Action)
    requires store.op.AskStore? && Step(lib, s, store).tables != s.tables
    ensures store.pid in s.procs && s.procs[store.pid].AskPending? && s.procs[store.pid].caller == store.op.n.callerId
    ensures InsertNotification(s.tables, store.op.n) == Some(Step(lib, s, store).tables)
  {
  }

  lemma InsertApart(t: Tables, n: Loaded, checkedAt: int, t': Tables)
    requires InsertNotification(t, n) == Some(t') && DayApart(t) && checkedAt <= n.createdAt
    requires n.callerId.Some? ==> !SeenCaller(t, n.callerId.value, checkedAt - DAY)
    ensures DayApart(t')
  {
  }

  lemma AskAddsNoRow(t: Tables, p: Option<Proc>, op: Op, t': Tables, p': Proc)
    requires AskHandler(t, p, op) == Some((t', p')) && !op.AskStore?
    ensures t'.notifications.Keys == t.notifications.Keys
  {
  }

  lemma AnswerAddsNoRow(t: Tables, p: Option<Proc>, op: Op, t': Tables, p': Proc)
    requires AnswerHandler(t, p, op) == Some((t', p'))
    ensures t'.notifications.Keys == t.notifications.Keys
  {
  }

  lemma CancelAddsNoRow(t: Tables, p: Option<Proc>, op: Op, t': Tables, p': Proc)
    requires CancelHandler(t, p, op) == Some((t', p'))
    ensures t'.notifications.Keys == t.notifications.Keys
  {
  }

  lemma DismissAddsNoRow(t: Tables, p: Option<Proc>, op: Op, t': Tables, p': Proc)
    requires DismissHandler(t, p, op) == Some((t', p'))
    ensures t'.notifications.Keys == t.notifications.Keys
  {
  }

  lemma SnoozeAddsNoRow(t: Tables, p: Option<Proc>, op: Op, t': Tables, p': Proc)
    requires SnoozeHandler(t, p, op) == Some((t', p'))
    ensures t'.notifications.Keys == t.notifications.Keys
  {
  }

  lemma WaitAddsNoRow(t: Tables, p: Option<Proc>, op: Op, t': Tables, p': Proc)
    requires WaitHandler(t, p, op) == Some((t', p'))
    ensures t'.notifications.Keys == t.notifications.Keys
  {
  }

  lemma ClaimAddsNoRow(t: Tables, p: Option<Proc>, op: Op, t': Tables, p': Proc)
    requires ClaimHandler(t, p, op) == Some((t', p'))
    ensures t'.notifications.Keys == t.notifications.Keys
  {
  }

  lemma PostAddsNoRow(lib: Library, t: Tables, h: History, p: Option<Proc>, op: Op, t': Tables, p': Proc)
    requires TablesOk(lib, t, h) && GrantHandler(lib, t, p, op) == Some((t', p'))
    ensures t'.notifications.Keys == t.notifications.Keys
  {
    match VerifyEnvelope(lib, op.registry, op.raw)
    case Err(_) =>
    case Ok(v) =>
      VerifiedEffect(lib, t, h, v, op.now, FromVerified(v, op.now));
      if p' != Finished(Refused) {
        EffectKeepsRows(t, t', v, FromVerified(v, op.now));
      }
  }

  lemma EffectKeepsRows(t: Tables, t': Tables, v: Verified, g: StoredGrant)
    requires Effect(t, t', v, g)
    ensures t'.notifications.Keys == t.notifications.Keys
  {
  }

  lemma TableStepAddsNoRow(lib: Library, t: Tables, h: History, p: Option<Proc>, op: Op, t': Tables, p': Proc)
    requires TablesOk(lib, t, h) && TableStep(lib, t, p, op) == Some((t', p')) && !op.AskStore?
    ensures t'.notifications.Keys == t.notifications.Keys
  {
    if op.AskCheck? || op.AskAutoAnswer? {
      AskAddsNoRow(t, p, op, t', p');
    } else if op.AnswerBegin? || op.AnswerCommit? || op.AnswerReread? {
      AnswerAddsNoRow(t, p, op, t', p');
    } else if op.CancelBegin? || op.CancelCommit? {
      CancelAddsNoRow(t, p, op, t', p');
    } else if op.DismissBegin? || op.DismissCommit? {
      DismissAddsNoRow(t, p, op, t', p');
    } else if op.SnoozeBegin? || op.SnoozeCommit? {
      SnoozeAddsNoRow(t, p, op, t', p');
    } else if op.Post? {
      PostAddsNoRow(lib, t, h, p, op, t', p');
    } else if op.ClaimBegin? || op.ClaimCommit? || op.ClaimReread? {
      ClaimAddsNoRow(t, p, op, t', p');
    } else {
      WaitAddsNoRow(t, p, op, t', p');
    }
  }

  lemma StepAddsNoRow(lib: Library, s: Sys, h: History, a: Action)
    requires Inv(lib, s, h) && !a.op.AskStore?
    ensures Step(lib, s, a).tables.notifications.Keys == s.tables.notifications.Keys
  {
    if OnChannel(a.op) {
      match ChannelStep(s, At(s, a.pid), a.op)
      case None =>
      case Some((s1, p')) => ChannelStepShape(s, At(s, a.pid), a.op, s1, p');
    } else {
      match TableStep(lib, s.tables, At(s, a.pid), a.op)
      case None =>
      case Some((t', p')) => TableStepAddsNoRow(lib, s.tables, h, At(s, a.pid), a.op, t', p');
    }
  }

  lemma SameAsksApart(t: Tables, t': Tables)
    requires DayApart(t) && Grows(t, t') && t'.notifications.Keys == t.notifications.Keys
    ensures DayApart(t')
  {
    forall a, b | SameCaller(t', a, b)
      ensures || t'.notifications[a].createdAt + DAY <= t'.notifications[b].createdAt
              || t'.notifications[b].createdAt + DAY <= t'.notifications[a].createdAt
    {
      assert SameAsk(t.notifications[a], t'.notifications[a]) && SameAsk(t.notifications[b], t'.notifications[b]);
      assert SameCaller(t, a, b);
    }
  }

  /** Any other step leaves ids, callers and creation times alone, and adds no row
      with a caller. */
  lemma OthersApart(lib: Library, s: Sys, h: History, a: Action)
    requires Inv(lib, s, h) && !(a.op.AskStore? && a.op.n.callerId.Some?) && DayApart(s.tables)
    ensures DayApart(Step(lib, s, a).tables)
  {
    var s' := Step(lib, s, a);
    if s'.tables != s.tables && a.op.AskStore? {
      StoredBy(lib, s, a);
      InsertApart(s.tables, a.op.n, a.op.n.createdAt, s'.tables);
    } else if s'.tables != s.tables {
      StepInv(lib, s, h, a, s');
      StepAddsNoRow(lib, s, h, a);
      SameAsksApart(s.tables, s'.tables);
    }
  }

  // ── Exactly when ───────────────────────────────────────────────────────

  /** Rows of one caller are made in the order of their times. */
  predicate InOrder(acts: seq<Action>) {
    forall k, i :: 0 <= k < i < |acts| && acts[k].op.AskStore? && acts[i].op.AskStore?
                   && acts[i].op.n.callerId.Some? && acts[k].op.n.callerId == acts[i].op.n.callerId ==>
      acts[k].op.n.createdAt <= acts[i].op.n.createdAt
  }

  /** If step i stores a row for a caller, then the check of ask, made at that very
      moment, would find nobody. */
  ghost predicate StillUnseen(lib: Library, acts: seq<Action>, i: nat)
    requires i < |acts|
  {
    UnseenAt(lib, Run(lib, acts[..i]), acts[i])
  }

  ghost predicate UnseenAt(lib: Library, s: Sys, a: Action) {
    a.op.AskStore? && a.op.n.callerId.Some? && Step(lib, s, a).tables != s.tables ==>
      !SeenCaller(s.tables, a.op.n.callerId.value, a.op.n.createdAt - DAY)
  }

  /** The row was made by an insert of the run, with its caller and time. */
  ghost predicate MadeBy(lib: Library, acts: seq<Action>, id: string, k: nat)
    requires k < |acts| && id in Run(lib, acts).tables.notifications
  {
    && acts[k].op.AskStore? && acts[k].op.n.callerId == Run(lib, acts).tables.notifications[id].callerId
    && acts[k].op.n.createdAt == Run(lib, acts).tables.notifications[id].createdAt
  }

  lemma {:induction false} RowsAreMade(lib: Library, acts: seq<Action>, id: string)
    requires id in Run(lib, acts).tables.notifications
    ensures exists k :: 0 <= k < |acts| && MadeBy(lib, acts, id, k)
  {
    var before, last := acts[..|acts| - 1], acts[|acts| - 1];
    RunInv(lib, before);
    StepInv(lib, Run(lib, before), HistoryOf(lib, before), last, Run(lib, acts));
    if id in Run(lib, before).tables.notifications {
      RowsAreMade(lib, before, id);
      var k :| 0 <= k < |before| && MadeBy(lib, before, id, k);
      assert SameAsk(Run(lib, before).tables.notifications[id], Run(lib, acts).tables.notifications[id]);
      assert MadeBy(lib, acts, id, k);
    } else {
      NewRowMade(lib, Run(lib, before), HistoryOf(lib, before), last, id);
      assert MadeBy(lib, acts, id, |acts| - 1);
    }
  }

  lemma NewRowMade(lib: Library, s: Sys, h: History, a: Action, id: string)
    requires Inv(lib, s, h) && id !in s.tables.notifications && id in Step(lib, s, a).tables.notifications
    ensures a.op.AskStore? && a.op.n.callerId == Step(lib, s, a).tables.notifications[id].callerId
    ensures a.op.n.createdAt == Step(lib, s, a).tables.notifications[id].createdAt
  {
    if a.op.AskStore? {
      StoredBy(lib, s, a);
    } else {
      StepAddsNoRow(lib, s, h, a);
    }
  }

  /** The rows of the caller are not later than the time. */
  ghost predicate NoLater(t: Tables, caller: string, at: int) {
    forall id :: id in t.notifications && t.notifications[id].callerId == Some(caller) ==>
      t.notifications[id].createdAt <= at
  }

  lemma InsertApartIff(t: Tables, n: Loaded, t': Tables)
    requires InsertNotification(t, n) == Some(t') && DayApart(t) && n.callerId.Some?
    requires NoLater(t, n.callerId.value, n.createdAt)
    ensures DayApart(t') <==> !SeenCaller(t, n.callerId.value, n.createdAt - DAY)
  {
    if SeenCaller(t, n.callerId.value, n.createdAt - DAY) {
      var id :| id in t.notifications && t.notifications[id].callerId == Some(n.callerId.value)
                && t.notifications[id].createdAt > n.createdAt - DAY;
      assert SameCaller(t', id, n.id);
    } else {
      InsertApart(t, n, n.createdAt, t');
    }
  }

  lemma OrderedRows(lib: Library, acts: seq<Action>)
    requires InOrder(acts) && acts != [] && acts[|acts| - 1].op.AskStore? && acts[|acts| - 1].op.n.callerId.Some?
    ensures NoLater(Run(lib, acts[..|acts| - 1]).tables, acts[|acts| - 1].op.n.callerId.value,
                    acts[|acts| - 1].op.n.createdAt)
  {
    var before, n := acts[..|acts| - 1], acts[|acts| - 1].op.n;
    var t := Run(lib, before).tables;
    forall id | id in t.notifications && t.notifications[id].callerId == n.callerId
      ensures t.notifications[id].createdAt <= n.createdAt
    {
      RowsAreMade(lib, before, id);
      var k :| 0 <= k < |before| && MadeBy(lib, before, id, k);
      assert before[k] == acts[k];
    }
  }

  lemma ApartBefore(t: Tables, t': Tables)
    requires Grows(t, t') && DayApart(t')
    ensures DayApart(t)
  {
    forall a, b | SameCaller(t, a, b)
      ensures || t.notifications[a].createdAt + DAY <= t.notifications[b].createdAt
              || t.notifications[b].createdAt + DAY <= t.notifications[a].createdAt
    {
      assert SameAsk(t.notifications[a], t'.notifications[a]) && SameAsk(t.notifications[b], t'.notifications[b]);
      assert SameCaller(t', a, b);
    }
  }

  lemma StepApartIff(lib: Library, s: Sys, h: History, a: Action)
    requires Inv(lib, s, h) && DayApart(s.tables)
    requires a.op.AskStore? && a.op.n.callerId.Some? ==> NoLater(s.tables, a.op.n.callerId.value, a.op.n.createdAt)
    ensures DayApart(Step(lib, s, a).tables) <==> UnseenAt(lib, s, a)
  {
    if !a.op.AskStore? || a.op.n.callerId.None? {
      OthersApart(lib, s, h, a);
    } else if Step(lib, s, a).tables != s.tables {
      StoredBy(lib, s, a);
      InsertApartIff(s.tables, a.op.n, Step(lib, s, a).tables);
    }
  }

  lemma InOrderPrefix(acts: seq<Action>, k: nat)
    requires InOrder(acts) && k <= |acts|
    ensures InOrder(acts[..k])
  {
  }

  ghost predicate UnseenUpTo(lib: Library, acts: seq<Action>, k: nat)
    requires k <= |acts|
  {
    forall i :: 0 <= i < k ==> StillUnseen(lib, acts, i)
  }

  lemma UnseenPrefix(lib: Library, acts: seq<Action>, k: nat)
    requires k <= |acts|
    ensures UnseenUpTo(lib, acts[..k], k) <==> UnseenUpTo(lib, acts, k)
  {
    forall i | 0 <= i < k ensures StillUnseen(lib, acts[..k], i) <==> StillUnseen(lib, acts, i) {
      assert acts[..k][..i] == acts[..i];
    }
  }

  /** The last step of a run whose rows were a day apart before it. */
  lemma LastApartIff(lib: Library, acts: seq<Action>)
    requires InOrder(acts) && acts != []
    ensures DayApart(Run(lib, acts).tables) ==> DayApart(Run(lib, acts[..|acts| - 1]).tables)
    ensures DayApart(Run(lib, acts[..|acts| - 1]).tables) ==>
              (DayApart(Run(lib, acts).tables) <==> StillUnseen(lib, acts, |acts| - 1))
  {
    var before, last := acts[..|acts| - 1], acts[|acts| - 1];
    var s, h := Run(lib, before), HistoryOf(lib, before);
    RunInv(lib, before);
    StepInv(lib, s, h, last, Run(lib, acts));
    if DayApart(Run(lib, acts).tables) {
      ApartBefore(s.tables, Run(lib, acts).tables);
    }
    if DayApart(s.tables) {
      if last.op.AskStore? && last.op.n.callerId.Some? { OrderedRows(lib, acts); }
      StepApartIff(lib, s, h, last);
    }
  }

  /** In every run whose rows of one caller are made in the order of their times, they
      are a day apart exactly when the check of each ask, made again as it inserts,
      would still find nobody. */
  lemma {:induction false} DayApartIff(lib: Library, acts: seq<Action>)
    requires InOrder(acts)
    ensures DayApart(Run(lib, acts).tables) <==> UnseenUpTo(lib, acts, |acts|)
  {
    if acts != [] {
      InOrderPrefix(acts, |acts| - 1);
      DayApartIff(lib, acts[..|acts| - 1]);
      UnseenPrefix(lib, acts, |acts| - 1);
      LastApartIff(lib, acts);
    }
  }

  // ── Runs in which they are not ─────────────────────────────────────────

  /** Two asks of one caller that interleave are both stored: the check of the
      second reads before the insert of the first. */
  lemma ConcurrentAsksCollide(lib: Library, n: Loaded, m: Loaded, now: int)
    requires Fresh(n) && Fresh(m) && n.id != m.id && n.callerId.Some? && n.callerId == m.callerId
    requires n.createdAt == m.createdAt
    ensures !DayApart(RunFrom(lib, START,
                              [Action(0, AskCheck(n.callerId, now, true)), Action(1, AskCheck(m.callerId, now, true)),
                                           Action(0, AskStore(n)), Action(1, AskStore(m))]).tables)
  {
    var acts := [Action(0, AskCheck(n.callerId, now, true)), Action(1, AskCheck(m.callerId, now, true)),
                 Action(0, AskStore(n)), Action(1, AskStore(m))];
    CheckLeaves(lib, START, acts[0]);
    CheckLeaves(lib, Step(lib, START, acts[0]), acts[1]);
    var s2 := Step(lib, Step(lib, START, acts[0]), acts[1]);
    StoreStep(lib, s2, acts[2]);
    StoreStep(lib, Step(lib, s2, acts[2]), acts[3]);
    TakeTwo(lib, START, acts);
    TakeTwo(lib, s2, acts[2..]);
    assert acts[2..][2..] == [];
    assert SameCaller(Step(lib, Step(lib, s2, acts[2]), acts[3]).tables, n.id, m.id);
  }

  lemma StoreStep(lib: Library, s: Sys, store: Action)
    requires store.op.AskStore? && store.pid in s.procs && s.procs[store.pid].AskPending?
    requires s.procs[store.pid].caller == store.op.n.callerId && Fresh(store.op.n)
    requires store.op.n.id !in s.tables.notifications
    ensures Step(lib, s, store) ==
            s.(tables := InsertNotification(s.tables, store.op.n).value, procs := s.procs[store.pid := Finished(Done)])
  {
  }

  /** Two asks of one caller, one after the other, the second of which fails to read:
      both are stored. */
  lemma ReadFailureCollides(lib: Library, n: Loaded, m: Loaded, now: int)
    requires Fresh(n) && Fresh(m) && n.id != m.id && n.callerId.Some? && n.callerId == m.callerId
    requires n.createdAt == m.createdAt
    ensures !DayApart(RunFrom(lib, START,
                              [Action(0, AskCheck(n.callerId, now, true)), Action(0, AskStore(n)),
                               Action(1, AskCheck(m.callerId, now, false)), Action(1, AskStore(m))]).tables)
  {
    var acts := [Action(0, AskCheck(n.callerId, now, true)), Action(0, AskStore(n)),
                 Action(1, AskCheck(m.callerId, now, false)), Action(1, AskStore(m))];
    CheckLeaves(lib, START, acts[0]);
    StoreStep(lib, Step(lib, START, acts[0]), acts[1]);
    var s2 := Step(lib, Step(lib, START, acts[0]), acts[1]);
    CheckLeaves(lib, s2, acts[2]);
    StoreStep(lib, Step(lib, s2, acts[2]), acts[3]);
    TakeTwo(lib, START, acts);
    TakeTwo(lib, s2, acts[2..]);
    assert acts[2..][2..] == [];
    assert SameCaller(Step(lib, Step(lib, s2, acts[2]), acts[3]).tables, n.id, m.id);
  }
}
