/** Revocations: a grant is revoked by a revoke stored strictly later, so
    chains of revokes of revokes cannot go round. */
module DaemonRevokes {
  import opened Prelude
  import opened Json
  import opened Models
  import opened Grants
  import opened Store
  import opened Daemon
  import opened DaemonInv
  import opened DaemonRuns
  import opened DaemonLaws

  /** A mark that is new names a grant that is new, on one that is not. */
  ghost predicate MarksForward(t: Tables, t': Tables) {
    forall id :: id in t'.grants && t'.grants[id].revokedBy.Some? ==>
      && id in t.grants
      && (t.grants[id].revokedBy == t'.grants[id].revokedBy || t'.grants[id].revokedBy.value !in t.grants)
  }

  lemma SameGrantsForward(t: Tables, t': Tables)
    requires t'.grants == t.grants
    ensures MarksForward(t, t')
  {
  }

  lemma AskKeepsGrants(t: Tables, p: Option<Proc>, op: Op, t': Tables, p': Proc)
    requires AskHandler(t, p, op) == Some((t', p'))
    ensures t'.grants == t.grants
  {
  }

  lemma AnswerKeepsGrants(t: Tables, p: Option<Proc>, op: Op, t': Tables, p': Proc)
    requires AnswerHandler(t, p, op) == Some((t', p'))
    ensures t'.grants == t.grants
  {
  }

  lemma CancelKeepsGrants(t: Tables, p: Option<Proc>, op: Op, t': Tables, p': Proc)
    requires CancelHandler(t, p, op) == Some((t', p'))
    ensures t'.grants == t.grants
  {
  }

  lemma DismissKeepsGrants(t: Tables, p: Option<Proc>, op: Op, t': Tables, p': Proc)
    requires DismissHandler(t, p, op) == Some((t', p'))
    ensures t'.grants == t.grants
  {
  }

  lemma SnoozeKeepsGrants(t: Tables, p: Option<Proc>, op: Op, t': Tables, p': Proc)
    requires SnoozeHandler(t, p, op) == Some((t', p'))
    ensures t'.grants == t.grants
  {
  }

  lemma WaitKeepsGrants(t: Tables, p: Option<Proc>, op: Op, t': Tables, p': Proc)
    requires WaitHandler(t, p, op) == Some((t', p'))
    ensures t'.grants == t.grants
  {
  }

  lemma ClaimForward(t: Tables, p: Option<Proc>, op: Op, t': Tables, p': Proc)
    requires ClaimHandler(t, p, op) == Some((t', p'))
    ensures MarksForward(t, t')
  {
  }

  lemma EffectForward(t: Tables, t': Tables, v: Verified, g: StoredGrant)
    requires Effect(t, t', v, g) && g.revokedBy.None?
    ensures MarksForward(t, t')
  {
  }

  lemma PostForward(lib: Library, t: Tables, h: History, p: Option<Proc>, op: Op, t': Tables, p': Proc)
    requires TablesOk(lib, t, h) && GrantHandler(lib, t, p, op) == Some((t', p'))
    ensures MarksForward(t, t')
  {
    match VerifyEnvelope(lib, op.registry, op.raw)
    case Err(_) =>
    case Ok(v) =>
      VerifiedEffect(lib, t, h, v, op.now, FromVerified(v, op.now));
      if p' != Finished(Refused) {
        EffectForward(t, t', v, FromVerified(v, op.now));
      }
  }

  lemma TableStepKeepsGrants(lib: Library, t: Tables, p: Option<Proc>, op: Op, t': Tables, p': Proc)
    requires TableStep(lib, t, p, op) == Some((t', p'))
    requires !op.Post? && !op.ClaimBegin? && !op.ClaimCommit? && !op.ClaimReread?
    ensures t'.grants == t.grants
  {
    if op.AskCheck? || op.AskStore? || op.AskAutoAnswer? {
      AskKeepsGrants(t, p, op, t', p');
    } else if op.AnswerBegin? || op.AnswerCommit? || op.AnswerReread? {
      AnswerKeepsGrants(t, p, op, t', p');
    } else if op.CancelBegin? || op.CancelCommit? {
      CancelKeepsGrants(t, p, op, t', p');
    } else if op.DismissBegin? || op.DismissCommit? {
      DismissKeepsGrants(t, p, op, t', p');
    } else if op.SnoozeBegin? || op.SnoozeCommit? {
      SnoozeKeepsGrants(t, p, op, t', p');
    } else {
      WaitKeepsGrants(t, p, op, t', p');
    }
  }

  lemma OtherStepForward(lib: Library, t: Tables, p: Option<Proc>, op: Op, t': Tables, p': Proc)
    requires TableStep(lib, t, p, op) == Some((t', p')) && !op.Post?
    ensures MarksForward(t, t')
  {
    if op.ClaimBegin? || op.ClaimCommit? || op.ClaimReread? {
      ClaimForward(t, p, op, t', p');
    } else {
      TableStepKeepsGrants(lib, t, p, op, t', p');
      SameGrantsForward(t, t');
    }
  }

  lemma TableStepForward(lib: Library, t: Tables, h: History, p: Option<Proc>, op: Op, t': Tables, p': Proc)
    requires TablesOk(lib, t, h) && TableStep(lib, t, p, op) == Some((t', p'))
    ensures MarksForward(t, t')
  {
    if op.Post? {
      PostForward(lib, t, h, p, op, t', p');
    } else {
      OtherStepForward(lib, t, p, op, t', p');
    }
  }

  lemma StepForward(lib: Library, s: Sys, h: History, a: Action)
    requires Inv(lib, s, h)
    ensures MarksForward(s.tables, Step(lib, s, a).tables)
  {
    if OnChannel(a.op) {
      match ChannelStep(s, At(s, a.pid), a.op)
      case None =>
      case Some((s1, p')) => ChannelStepShape(s, At(s, a.pid), a.op, s1, p');
    } else {
      match TableStep(lib, s.tables, At(s, a.pid), a.op)
      case None =>
      case Some((t', p')) => TableStepForward(lib, s.tables, h, At(s, a.pid), a.op, t', p');
    }
  }

  ghost predicate Stored(lib: Library, acts: seq<Action>, id: string) {
    id in Run(lib, acts).tables.grants
  }

  /** How many steps the run had taken when the grant was first stored. */
  ghost function StoredAt(lib: Library, acts: seq<Action>, id: string): nat
    requires Stored(lib, acts, id)
  {
    if acts != [] && Stored(lib, acts[..|acts| - 1], id) then StoredAt(lib, acts[..|acts| - 1], id) else |acts|
  }

  /** The grant is stored after k steps exactly when k has reached that number. */
  lemma {:induction false} StoredAtIsFirst(lib: Library, acts: seq<Action>, id: string, k: nat)
    requires Stored(lib, acts, id) && k <= |acts|
    ensures StoredAt(lib, acts, id) <= |acts|
    ensures Stored(lib, acts[..k], id) <==> StoredAt(lib, acts, id) <= k
  {
    if k == |acts| {
      assert acts[..k] == acts;
      StoredAtBound(lib, acts, id);
    } else {
      var before := acts[..|acts| - 1];
      assert acts[..k] == before[..k];
      if Stored(lib, before, id) {
        StoredAtIsFirst(lib, before, id, k);
      } else {
        StoredLasts(lib, acts, k, id);
      }
    }
  }

  lemma {:induction false} StoredAtBound(lib: Library, acts: seq<Action>, id: string)
    requires Stored(lib, acts, id)
    ensures StoredAt(lib, acts, id) <= |acts|
  {
    if acts != [] && Stored(lib, acts[..|acts| - 1], id) {
      StoredAtBound(lib, acts[..|acts| - 1], id);
    }
  }

  lemma StoredLasts(lib: Library, acts: seq<Action>, k: nat, id: string)
    requires k < |acts|
    ensures Stored(lib, acts[..k], id) ==> Stored(lib, acts[..|acts| - 1], id)
  {
    assert acts[..|acts| - 1] == acts[..k] + acts[k..|acts| - 1];
    RunGrows(lib, acts[..k], acts[k..|acts| - 1]);
  }

  ghost predicate RevokedBy(lib: Library, acts: seq<Action>, id: string, revoker: string) {
    Stored(lib, acts, id) && Run(lib, acts).tables.grants[id].revokedBy == Some(revoker)
  }

  /** revoked_by names a stored revoke of this very grant, stored strictly later. */
  lemma {:induction false} RevokersAreLater(lib: Library, acts: seq<Action>, id: string, revoker: string)
    requires RevokedBy(lib, acts, id, revoker)
    ensures Stored(lib, acts, revoker) && StoredAt(lib, acts, id) < StoredAt(lib, acts, revoker)
    ensures Run(lib, acts).tables.grants[revoker].kind == "revoke"
    ensures RevokeTarget(lib, Run(lib, acts).tables.grants[revoker], id)
  {
    RunInv(lib, acts);
    assert GrantOk(lib, Run(lib, acts).tables, id);
    var before := acts[..|acts| - 1];
    RunInv(lib, before);
    StepForward(lib, Run(lib, before), HistoryOf(lib, before), acts[|acts| - 1]);
    if RevokedBy(lib, before, id, revoker) {
      RevokersAreLater(lib, before, id, revoker);
    } else {
      StoredAtBound(lib, before, id);
    }
  }

  /** revoked_by is written once: it never changes afterwards. */
  lemma RevokedOnce(lib: Library, acts: seq<Action>, more: seq<Action>, id: string, revoker: string)
    requires RevokedBy(lib, acts, id, revoker)
    ensures RevokedBy(lib, acts + more, id, revoker)
  {
    RunGrows(lib, acts, more);
    assert SameGrant(Run(lib, acts).tables.grants[id], Run(lib, acts + more).tables.grants[id]);
  }

  /** A chain of grants, each revoked by the next. */
  ghost predicate Chain(lib: Library, acts: seq<Action>, ids: seq<string>) {
    forall i :: 0 <= i < |ids| - 1 ==> RevokedBy(lib, acts, ids[i], ids[i + 1])
  }

  /** A chain never comes back to a grant it has passed. */
  lemma {:induction false} ChainsDoNotCycle(lib: Library, acts: seq<Action>, ids: seq<string>, i: nat, j: nat)
    requires Chain(lib, acts, ids) && i < j < |ids|
    ensures Stored(lib, acts, ids[i]) && Stored(lib, acts, ids[j])
    ensures StoredAt(lib, acts, ids[i]) < StoredAt(lib, acts, ids[j]) && ids[i] != ids[j]
    decreases j - i
  {
    RevokersAreLater(lib, acts, ids[i], ids[i + 1]);
    if i + 1 < j {
      ChainsDoNotCycle(lib, acts, ids, i + 1, j);
    }
  }
}
