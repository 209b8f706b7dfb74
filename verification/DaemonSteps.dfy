/** Every step of every handler keeps the invariant and leaves its handler with
    local state the invariant can vouch for. */
module DaemonSteps {
  import opened Prelude
  import opened Json
  import opened Models
  import opened Grants
  import opened Store
  import opened Daemon
  import opened DaemonInv
  import opened DaemonTables
  import opened DaemonGrants
  import GrantLaws

  ghost predicate Kept(lib: Library, t: Tables, h: History, t': Tables, p': Proc) {
    Grows(t, t') && TablesOk(lib, t', Observe(h, t')) && ProcOk(lib, t', Observe(h, t'), p')
  }

  ghost predicate Ready(lib: Library, t: Tables, h: History, p: Option<Proc>) {
    TablesOk(lib, t, h) && (p.Some? ==> ProcOk(lib, t, h, p.value))
  }

  lemma KeptFrom(lib: Library, t: Tables, h: History, t': Tables, p': Proc)
    requires Grows(t, t') && TablesOk(lib, t', Observe(h, t')) && ProcOk(lib, t', Observe(h, t'), p')
    ensures Kept(lib, t, h, t', p')
  {
  }

  /** A step that only reads. */
  lemma ReadKeeps(lib: Library, t: Tables, h: History, p': Proc)
    requires TablesOk(lib, t, h) && ProcOk(lib, t, Observe(h, t), p')
    ensures Kept(lib, t, h, t, p')
  {
    NothingKeeps(lib, t, h);
  }

  lemma AskKeeps(lib: Library, t: Tables, h: History, p: Option<Proc>, op: Op, t': Tables, p': Proc)
    requires Ready(lib, t, h, p) && AskHandler(t, p, op) == Some((t', p'))
    ensures Kept(lib, t, h, t', p')
  {
    if op.AskStore? && InsertNotification(t, op.n).Some? {
      InsertNotificationKeeps(lib, t, h, op.n, t');
    } else {
      ReadKeeps(lib, t, h, p');
    }
  }

  // ── Answer, cancel, dismiss, snooze ────────────────────────────────────

  lemma AnswerWritten(lib: Library, t: Tables, h: History, id: string, answer: string, shown: Option<string>,
                      note: Option<string>, at: int, t': Tables)
    requires TablesOk(lib, t, h) && PlainAsk(t, id)
    requires t' == AnswerNotification(t, id, answer, shown, note, at)
    ensures Grows(t, t') && TablesOk(lib, t', Observe(h, t'))
    ensures PlainAsk(t', id) && (id, answer) in Observe(h, t').answers
  {
    var row := t.notifications[id].(status := "answered", answer := Some(answer), answerLabel := shown,
                                    answeredAt := Some(at), note := note);
    UpdateKeeps(lib, t, h, id, row, t');
    assert (id, answer) in AnswersIn(t');
  }

  lemma PlainEnvelopeGood(lib: Library, t: Tables, h: History, id: string, env: Answering)
    requires PlainAsk(t, id) && env.id == id && env.answer.Some? && (id, env.answer.value) in h.answers
    ensures GoodEnvelope(lib, t, h, env)
  {
  }

  lemma RereadKeeps(lib: Library, t: Tables, h: History, p: Proc, p': Proc)
    requires TablesOk(lib, t, h) && ProcOk(lib, t, h, p) && p.AnswerRead?
    requires p'.Wake? && p'.env.id == p.id && p'.env.answer == Some(p.answer)
    ensures Kept(lib, t, h, t, p')
  {
    PlainEnvelopeGood(lib, t, Observe(h, t), p.id, p'.env);
    ReadKeeps(lib, t, h, p');
  }

  lemma AnswerCommitKeeps(lib: Library, t: Tables, h: History, p: Proc, op: Op, t': Tables, p': Proc)
    requires TablesOk(lib, t, h) && ProcOk(lib, t, h, p) && p.AnswerWrite? && op.AnswerCommit?
    requires AnswerHandler(t, Some(p), op) == Some((t', p'))
    ensures Kept(lib, t, h, t', p')
  {
    AnswerWritten(lib, t, h, p.id, p.answer, Some(AnswerLabel(p.answer, p.via)), p.note, op.at, t');
  }

  lemma AnswerKeeps(lib: Library, t: Tables, h: History, p: Option<Proc>, op: Op, t': Tables, p': Proc)
    requires Ready(lib, t, h, p) && AnswerHandler(t, p, op) == Some((t', p'))
    ensures Kept(lib, t, h, t', p')
  {
    if p.None? {
      ReadKeeps(lib, t, h, p');
    } else if op.AnswerCommit? {
      AnswerCommitKeeps(lib, t, h, p.value, op, t', p');
    } else {
      RereadKeeps(lib, t, h, p.value, p');
    }
  }

  /** One row updated, by a handler with nothing left to vouch for. */
  lemma WriteKeeps(lib: Library, t: Tables, h: History, id: string, row: Row, t': Tables, p': Proc)
    requires TablesOk(lib, t, h) && id in t.notifications && Allowed(t.notifications[id], row)
    requires t' == UpdateRow(t, id, row) && NoClaims(p')
    ensures Kept(lib, t, h, t', p')
  {
    UpdateKeeps(lib, t, h, id, row, t');
    NoClaimsOk(lib, t', Observe(h, t'), p');
    KeptFrom(lib, t, h, t', p');
  }

  /** Local state that says nothing about the tables. */
  predicate NoClaims(p: Proc) {
    (p.Wake? && p.env.answer.None?) || p == Finished(Done) || p == Finished(Refused) || (p.Finished? && p.r.Created?)
    || (p.Finished? && p.r.Waited? && p.r.envelope.answer.None? && p.r.envelope.id == p.r.ask)
  }

  lemma NoClaimsOk(lib: Library, t: Tables, h: History, p: Proc)
    requires NoClaims(p)
    ensures ProcOk(lib, t, h, p)
  {
  }

  lemma CancelKeeps(lib: Library, t: Tables, h: History, p: Option<Proc>, op: Op, t': Tables, p': Proc)
    requires Ready(lib, t, h, p) && CancelHandler(t, p, op) == Some((t', p'))
    ensures Kept(lib, t, h, t', p')
  {
    if p.None? {
      ReadKeeps(lib, t, h, p');
    } else {
      var id := p.value.id;
      WriteKeeps(lib, t, h, id, t.notifications[id].(status := "cancelled"), t', p');
    }
  }

  lemma DismissKeeps(lib: Library, t: Tables, h: History, p: Option<Proc>, op: Op, t': Tables, p': Proc)
    requires Ready(lib, t, h, p) && DismissHandler(t, p, op) == Some((t', p'))
    ensures Kept(lib, t, h, t', p')
  {
    if p.None? {
      ReadKeeps(lib, t, h, p');
    } else {
      var id := p.value.id;
      WriteKeeps(lib, t, h, id, t.notifications[id].(status := "dismissed", answeredAt := Some(op.at)), t', p');
    }
  }

  lemma SnoozedAllowed(lib: Library, t: Tables, h: History, id: string, until: int)
    requires TablesOk(lib, t, h) && id in t.notifications
    requires t.notifications[id].deadline.Some? ==> until <= t.notifications[id].deadline.value
    ensures Allowed(t.notifications[id], t.notifications[id].(snoozeUntil := Some(until)))
  {
    assert RowOk(lib, t, id);
  }

  lemma SnoozeKeeps(lib: Library, t: Tables, h: History, p: Option<Proc>, op: Op, t': Tables, p': Proc)
    requires Ready(lib, t, h, p) && SnoozeHandler(t, p, op) == Some((t', p'))
    ensures Kept(lib, t, h, t', p')
  {
    if p.None? || p.value.id !in t.notifications {
      ReadKeeps(lib, t, h, p');
    } else {
      var id := p.value.id;
      var until := SnoozeTime(t.notifications[id], p.value.minutes, op.now);
      SnoozedAllowed(lib, t, h, id, until);
      WriteKeeps(lib, t, h, id, t.notifications[id].(snoozeUntil := Some(until)), t', p');
    }
  }

  // ── Wait ───────────────────────────────────────────────────────────────

  lemma FoundAnswerOk(lib: Library, t: Tables, h: History, id: string, h': History)
    requires TablesOk(lib, t, h) && id in t.notifications && Later(h, h')
    requires ReadStatus(t.notifications[id].status) == Answered
    ensures ProcOk(lib, t, h', WaitFound(id, Load(t.notifications[id])))
  {
    var row := t.notifications[id];
    assert RowOk(lib, t, id);
    assert row.status == "answered";
    if row.questionType != Approval {
      assert (id, row.answer.value) in AnswersIn(t);
      PlainEnvelopeGood(lib, t, h', id, FoundAnswer(id, Load(row)));
    }
  }

  lemma WaitFoundOk(lib: Library, t: Tables, h: History, id: string, h': History)
    requires TablesOk(lib, t, h) && id in t.notifications && Later(h, h')
    ensures ProcOk(lib, t, h', WaitFound(id, Load(t.notifications[id])))
  {
    if ReadStatus(t.notifications[id].status) == Answered {
      FoundAnswerOk(lib, t, h, id, h');
    }
  }

  lemma PickedBacks(lib: Library, t: Tables, h: History, env: Answering, pick: string, gid: string)
    requires RivalsOk(t, h) && pick in t.grants && Names(t.grants[pick], env.id)
    requires gid in t.grants && Names(t.grants[gid], env.id)
    requires Matches(lib, t.grants[gid], env.answer, env.answerLabel, env.note)
    ensures BackedBy(lib, t, h, t.grants[pick].AttachTo(env), pick)
  {
    if gid != pick {
      assert Rivals(t, gid, pick, env.id);
    }
  }

  /** The grant a lookup picks backs the answer read from the row before. */
  lemma AttachedGood(lib: Library, t: Tables, h: History, env: Answering, pick: string)
    requires RivalsOk(t, h) && ProcOk(lib, t, h, WaitAttach(env)) && pick in t.grants && Names(t.grants[pick], env.id)
    ensures ProcOk(lib, t, h, Finished(Waited(env.id, t.grants[pick].AttachTo(env))))
  {
    var gid :| gid in t.grants && Names(t.grants[gid], env.id)
               && Matches(lib, t.grants[gid], env.answer, env.answerLabel, env.note);
    PickedBacks(lib, t, h, env, pick, gid);
  }

  lemma GrowsItself(t: Tables)
    ensures Grows(t, t)
  {
  }

  lemma LaterOk(lib: Library, t: Tables, h: History, h': History, p: Proc)
    requires ProcOk(lib, t, h, p) && Later(h, h')
    ensures ProcOk(lib, t, h', p)
  {
    GrowsItself(t);
    ProcOkGrows(lib, t, h, t, h', p);
  }

  lemma GrantIsThere(lib: Library, t: Tables, h: History, env: Answering)
    requires ProcOk(lib, t, h, WaitAttach(env))
    ensures !NoGrant(t, env.id)
  {
    var gid :| gid in t.grants && Names(t.grants[gid], env.id)
               && Matches(lib, t.grants[gid], env.answer, env.answerLabel, env.note);
  }

  lemma PickKeeps(lib: Library, t: Tables, h: History, env: Answering, pick: string)
    requires TablesOk(lib, t, h) && ProcOk(lib, t, h, WaitAttach(env)) && pick in t.grants
    requires Names(t.grants[pick], env.id)
    ensures Kept(lib, t, h, t, Finished(Waited(env.id, t.grants[pick].AttachTo(env))))
  {
    var p' := Finished(Waited(env.id, t.grants[pick].AttachTo(env)));
    AttachedGood(lib, t, h, env, pick);
    Observed(lib, t, h, t);
    LaterOk(lib, t, h, Observe(h, t), p');
    ReadKeeps(lib, t, h, p');
  }

  /** A lookup that fails leaves the answer as the row had it. */
  lemma FailedPickKeeps(lib: Library, t: Tables, h: History, env: Answering)
    requires TablesOk(lib, t, h) && ProcOk(lib, t, h, WaitAttach(env))
    ensures Kept(lib, t, h, t, Finished(Waited(env.id, env)))
  {
    assert FoundOk(lib, t, env);
    ReadKeeps(lib, t, h, Finished(Waited(env.id, env)));
  }

  lemma FindGrant(t: Tables, env: Answering, op: Op, t': Tables, p': Proc)
    requires op.WaitFindGrant? && !NoGrant(t, env.id) && WaitHandler(t, Some(WaitAttach(env)), op) == Some((t', p'))
    ensures t' == t
    ensures if op.readOk then op.pick in t.grants && Names(t.grants[op.pick], env.id)
                              && p' == Finished(Waited(env.id, t.grants[op.pick].AttachTo(env)))
            else p' == Finished(Waited(env.id, env))
  {
  }

  lemma FindGrantKeeps(lib: Library, t: Tables, h: History, env: Answering, op: Op, t': Tables, p': Proc)
    requires TablesOk(lib, t, h) && ProcOk(lib, t, h, WaitAttach(env)) && op.WaitFindGrant?
    requires WaitHandler(t, Some(WaitAttach(env)), op) == Some((t', p'))
    ensures Kept(lib, t, h, t', p')
  {
    GrantIsThere(lib, t, h, env);
    FindGrant(t, env, op, t', p');
    if op.readOk {
      PickKeeps(lib, t, h, env, op.pick);
    } else {
      FailedPickKeeps(lib, t, h, env);
    }
  }

  lemma TimeOutKeeps(lib: Library, t: Tables, h: History, id: string, reply: Answering, op: Op, t': Tables, p': Proc)
    requires Ready(lib, t, h, Some(WaitMark(id, reply))) && op.WaitTimeOut?
    requires WaitHandler(t, Some(WaitMark(id, reply)), op) == Some((t', p'))
    ensures Kept(lib, t, h, t', p')
  {
    if op.writeOk && id in t.notifications {
      WriteKeeps(lib, t, h, id, t.notifications[id].(status := "timedout"), t', p');
    } else {
      ReadKeeps(lib, t, h, p');
    }
  }

  lemma WaitBeginKeeps(lib: Library, t: Tables, h: History, op: Op, t': Tables, p': Proc)
    requires TablesOk(lib, t, h) && op.WaitBegin? && WaitHandler(t, None, op) == Some((t', p'))
    ensures Kept(lib, t, h, t', p')
  {
    if op.id in t.notifications && op.readOk {
      Observed(lib, t, h, t);
      WaitFoundOk(lib, t, h, op.id, Observe(h, t));
    }
    ReadKeeps(lib, t, h, p');
  }

  lemma WaitKeeps(lib: Library, t: Tables, h: History, p: Option<Proc>, op: Op, t': Tables, p': Proc)
    requires Ready(lib, t, h, p) && WaitHandler(t, p, op) == Some((t', p'))
    ensures Kept(lib, t, h, t', p')
  {
    if p.None? {
      WaitBeginKeeps(lib, t, h, op, t', p');
    } else if op.WaitFindGrant? {
      FindGrantKeeps(lib, t, h, p.value.env, op, t', p');
    } else if op.WaitTimeOut? {
      TimeOutKeeps(lib, t, h, p.value.id, p.value.reply, op, t', p');
    } else {
      ReadKeeps(lib, t, h, p');
    }
  }

  // ── Grants ─────────────────────────────────────────────────────────────

  lemma GrantEnvelopeBacked(lib: Library, t: Tables, h: History, v: Verified, record: GrantRecord, now: int, n: Loaded)
    requires ParseRecord(lib, v.envelope.record) == Ok(v.parsed) && v.parsed.record == Grant(record)
    requires v.envelope.alg == "es256"
    requires n.id == record.askId && n.id in t.notifications && t.notifications[n.id].questionType == Approval
    requires v.envelope.id in t.grants && t.grants[v.envelope.id] == FromVerified(v, now)
    ensures GoodEnvelope(lib, t, h, GrantAnswerEnvelope(n, record, v.envelope, now))
  {
    var g := FromVerified(v, now);
    assert g.ToEnvelope() == v.envelope;
    assert BackedBy(lib, t, h, GrantAnswerEnvelope(n, record, v.envelope, now), v.envelope.id);
  }

  lemma AnsweredKeeps(lib: Library, t: Tables, h: History, v: Verified, record: GrantRecord, now: int, n: Loaded,
                      g: StoredGrant, t': Tables)
    requires TablesOk(lib, t, h) && g == FromVerified(v, now) && Genuine(lib, g) && v.envelope.alg == "es256"
    requires ParseRecord(lib, v.envelope.record) == Ok(v.parsed) && v.parsed.record == Grant(record)
    requires InsertGrantAnswering(t, g, record, now) == (t', Ok(n))
    ensures Kept(lib, t, h, t', Wake(GrantAnswerEnvelope(n, record, v.envelope, now)))
  {
    assert g.id !in t.grants;
    AnsweringKeeps(lib, t, h, g, record, now, n, t');
    GrantEnvelopeBacked(lib, t', Observe(h, t'), v, record, now, n);
    KeptFrom(lib, t, h, t', Wake(GrantAnswerEnvelope(n, record, v.envelope, now)));
  }

  lemma PostGrantKeeps(lib: Library, t: Tables, h: History, v: Verified, record: GrantRecord, now: int,
                       g: StoredGrant, r: Result<Loaded, GrantError>, t': Tables, p': Proc)
    requires TablesOk(lib, t, h) && g == FromVerified(v, now) && Genuine(lib, g) && v.envelope.alg == "es256"
    requires ParseRecord(lib, v.envelope.record) == Ok(v.parsed) && v.parsed.record == Grant(record)
    requires InsertGrantAnswering(t, g, record, now) == (t', r)
    requires p' == if r.Ok? then Wake(GrantAnswerEnvelope(r.value, record, v.envelope, now)) else Finished(Refused)
    ensures Kept(lib, t, h, t', p')
  {
    if r.Ok? {
      AnsweredKeeps(lib, t, h, v, record, now, r.value, g, t');
    } else {
      RefusedStores(t, g, record, now);
      ReadKeeps(lib, t, h, p');
    }
  }

  lemma RefusedStores(t: Tables, g: StoredGrant, record: GrantRecord, now: int)
    requires InsertGrantAnswering(t, g, record, now).1.Err?
    ensures InsertGrantAnswering(t, g, record, now).0 == t
  {
  }

  lemma StoreGrant(t: Tables, v: Verified, record: GrantRecord, now: int, g: StoredGrant)
    requires v.parsed.record == Grant(record) && g == FromVerified(v, now)
    ensures StoreVerified(t, v, now).0 == InsertGrantAnswering(t, g, record, now).0
    ensures StoreVerified(t, v, now).1
            == if InsertGrantAnswering(t, g, record, now).1.Ok?
               then Wake(GrantAnswerEnvelope(InsertGrantAnswering(t, g, record, now).1.value, record, v.envelope, now))
               else Finished(Refused)
  {
  }

  lemma PostRevokeKeeps(lib: Library, t: Tables, h: History, g: StoredGrant, target: string,
                        r: Result<(), GrantError>, t': Tables, p': Proc)
    requires TablesOk(lib, t, h) && Genuine(lib, g) && RevokeTarget(lib, g, target)
    requires g.kind == "revoke" && g.revokedBy.None? && g.claimedBy.None? && g.claimedAt.None?
    requires InsertGrantRevoking(t, g, target) == (t', r)
    requires p' == Finished(if r.Ok? then Created(g.id) else Refused)
    ensures Kept(lib, t, h, t', p')
  {
    if r.Ok? {
      RevokingKeeps(lib, t, h, g, target, t');
      NoClaimsOk(lib, t', Observe(h, t'), p');
      KeptFrom(lib, t, h, t', p');
    } else {
      ReadKeeps(lib, t, h, p');
    }
  }

  lemma StoreRevoke(t: Tables, v: Verified, now: int, g: StoredGrant, target: string)
    requires v.parsed.record.Revoke? && v.parsed.record.target == target && g == FromVerified(v, now)
    ensures StoreVerified(t, v, now).0 == InsertGrantRevoking(t, g, target).0
    ensures StoreVerified(t, v, now).1
            == Finished(if InsertGrantRevoking(t, g, target).1.Ok? then Created(g.id) else Refused)
  {
  }

  lemma InsertedKeeps(lib: Library, t: Tables, h: History, g: StoredGrant, t': Tables)
    requires TablesOk(lib, t, h) && InsertGrantRow(t, g) == Some(t') && g.kind != "grant" && Genuine(lib, g)
    requires g.revokedBy.None? && g.claimedBy.None? && g.claimedAt.None?
    ensures Kept(lib, t, h, t', Finished(Created(g.id)))
  {
    InsertOnlyKeeps(lib, t, h, g, t');
    NoClaimsOk(lib, t', Observe(h, t'), Finished(Created(g.id)));
    KeptFrom(lib, t, h, t', Finished(Created(g.id)));
  }

  lemma EnrollKeeps(lib: Library, t: Tables, h: History, g: StoredGrant, t': Tables, p': Proc)
    requires TablesOk(lib, t, h) && Genuine(lib, g) && g.kind != "grant"
    requires g.revokedBy.None? && g.claimedBy.None? && g.claimedAt.None?
    requires if g.id in t.grants then t' == t && p' == Finished(Refused)
             else InsertGrantRow(t, g) == Some(t') && p' == Finished(Created(g.id))
    ensures Kept(lib, t, h, t', p')
  {
    if g.id in t.grants {
      ReadKeeps(lib, t, h, p');
    } else {
      InsertedKeeps(lib, t, h, g, t');
    }
  }

  lemma StoreEnroll(t: Tables, v: Verified, now: int, g: StoredGrant)
    requires v.parsed.record.Enroll? && g == FromVerified(v, now)
    ensures StoreVerified(t, v, now) == if g.id in t.grants then (t, Finished(Refused))
                                        else (t.(grants := t.grants[g.id := g]), Finished(Created(g.id)))
  {
  }

  lemma StoreKeeps(lib: Library, t: Tables, h: History, v: Verified, now: int, g: StoredGrant, t': Tables,
                   p': Proc)
    requires TablesOk(lib, t, h) && g == FromVerified(v, now) && Genuine(lib, g) && v.envelope.alg == "es256"
    requires ParseRecord(lib, v.envelope.record) == Ok(v.parsed) && StoreVerified(t, v, now) == (t', p')
    ensures Kept(lib, t, h, t', p')
  {
    match v.parsed.record
    case Grant(record) =>
      StoreGrant(t, v, record, now, g);
      PostGrantKeeps(lib, t, h, v, record, now, g, InsertGrantAnswering(t, g, record, now).1, t', p');
    case Revoke(_, target, _, _, _) =>
      StoreRevoke(t, v, now, g, target);
      PostRevokeKeeps(lib, t, h, g, target, InsertGrantRevoking(t, g, target).1, t', p');
    case Enroll(_, _, _, _, _, _, _) =>
      StoreEnroll(t, v, now, g);
      EnrollKeeps(lib, t, h, g, t', p');
  }

  lemma PostKeeps(lib: Library, t: Tables, h: History, p: Option<Proc>, op: Op, t': Tables, p': Proc)
    requires TablesOk(lib, t, h) && GrantHandler(lib, t, p, op) == Some((t', p'))
    ensures Kept(lib, t, h, t', p')
  {
    match VerifyEnvelope(lib, op.registry, op.raw)
    case Err(_) => ReadKeeps(lib, t, h, p');
    case Ok(v) =>
      FromVerifiedGenuine(lib, op.registry, op.raw, v, op.now);
      assert v.envelope.alg == "es256" by { GrantLaws.VerifyIffSound(lib, op.registry, op.raw, v); }
      StoreKeeps(lib, t, h, v, op.now, FromVerified(v, op.now), t', p');
  }

  lemma ClaimTakenKeeps(lib: Library, t: Tables, h: History, id: string, claimer: string, at: int, t': Tables)
    requires TablesOk(lib, t, h) && ClaimGrant(t, id, claimer, at) == (t', true) && id in t.grants
    requires t.grants[id].IsOnce()
    ensures Kept(lib, t, h, t', ClaimRead(id, claimer, at))
  {
    ClaimKeeps(lib, t, h, id, claimer, at, t');
    KeptFrom(lib, t, h, t', ClaimRead(id, claimer, at));
  }

  lemma ClaimCommitted(t: Tables, p: Proc, op: Op)
    requires p.ClaimWrite? && op.ClaimCommit?
    ensures ClaimHandler(t, Some(p), op) == Some((ClaimGrant(t, p.id, p.claimer, op.at).0,
              if ClaimGrant(t, p.id, p.claimer, op.at).1 then ClaimRead(p.id, p.claimer, op.at) else Finished(Refused)))
    ensures !ClaimGrant(t, p.id, p.claimer, op.at).1 ==> ClaimGrant(t, p.id, p.claimer, op.at).0 == t
  {
  }

  lemma ClaimCommitKeeps(lib: Library, t: Tables, h: History, id: string, claimer: string, at: int, t': Tables,
                         took: bool)
    requires TablesOk(lib, t, h) && id in t.grants && t.grants[id].IsOnce()
    requires ClaimGrant(t, id, claimer, at) == (t', took) && (!took ==> t' == t)
    ensures Kept(lib, t, h, t', if took then ClaimRead(id, claimer, at) else Finished(Refused))
  {
    if took {
      ClaimTakenKeeps(lib, t, h, id, claimer, at, t');
    } else {
      ReadKeeps(lib, t, h, Finished(Refused));
    }
  }

  lemma ClaimReadOk(lib: Library, t: Tables, h: History, id: string, claimer: string, at: int, h': History)
    requires TablesOk(lib, t, h) && ProcOk(lib, t, h, ClaimRead(id, claimer, at))
    ensures ProcOk(lib, t, h', Finished(Claimed(id, claimer, t.grants[id])))
  {
    assert GrantOk(lib, t, id);
  }

  lemma ClaimReread(t: Tables, p: Proc, op: Op)
    requires p.ClaimRead? && op.ClaimReread? && p.id in t.grants
    ensures ClaimHandler(t, Some(p), op) == Some((t, Finished(Claimed(p.id, p.claimer, t.grants[p.id]))))
  {
  }

  lemma ClaimRereadKeeps(lib: Library, t: Tables, h: History, id: string, claimer: string, at: int)
    requires TablesOk(lib, t, h) && ProcOk(lib, t, h, ClaimRead(id, claimer, at))
    ensures Kept(lib, t, h, t, Finished(Claimed(id, claimer, t.grants[id])))
  {
    ClaimReadOk(lib, t, h, id, claimer, at, Observe(h, t));
    ReadKeeps(lib, t, h, Finished(Claimed(id, claimer, t.grants[id])));
  }

  lemma ClaimBeginKeeps(lib: Library, t: Tables, h: History, p: Option<Proc>, op: Op, t': Tables, p': Proc)
    requires TablesOk(lib, t, h) && op.ClaimBegin? && ClaimHandler(t, p, op) == Some((t', p'))
    ensures Kept(lib, t, h, t', p')
  {
    ReadKeeps(lib, t, h, p');
  }

  lemma ClaimStoreKeeps(lib: Library, t: Tables, h: History, p: Proc, op: Op, t': Tables, p': Proc)
    requires TablesOk(lib, t, h) && ProcOk(lib, t, h, p) && op.ClaimCommit? && p.ClaimWrite?
    requires ClaimHandler(t, Some(p), op) == Some((t', p'))
    ensures Kept(lib, t, h, t', p')
  {
    ClaimCommitted(t, p, op);
    ClaimCommitKeeps(lib, t, h, p.id, p.claimer, op.at, t', ClaimGrant(t, p.id, p.claimer, op.at).1);
  }

  lemma ClaimLookKeeps(lib: Library, t: Tables, h: History, p: Proc, op: Op, t': Tables, p': Proc)
    requires TablesOk(lib, t, h) && ProcOk(lib, t, h, p) && op.ClaimReread? && p.ClaimRead?
    requires ClaimHandler(t, Some(p), op) == Some((t', p'))
    ensures Kept(lib, t, h, t', p')
  {
    ClaimReread(t, p, op);
    ClaimRereadKeeps(lib, t, h, p.id, p.claimer, p.at);
  }

  /** Where a claim is at each of its steps. */
  lemma ClaimIsAt(t: Tables, p: Option<Proc>, op: Op)
    requires ClaimHandler(t, p, op).Some?
    ensures op.ClaimBegin? || (p.Some? && p.value.ClaimWrite? && op.ClaimCommit?)
            || (p.Some? && p.value.ClaimRead? && op.ClaimReread?)
  {
  }

  lemma ClaimStepKeeps(lib: Library, t: Tables, h: History, p: Option<Proc>, op: Op, t': Tables, p': Proc)
    requires Ready(lib, t, h, p) && ClaimHandler(t, p, op) == Some((t', p'))
    ensures Kept(lib, t, h, t', p')
  {
    ClaimIsAt(t, p, op);
    if op.ClaimCommit? {
      ClaimStoreKeeps(lib, t, h, p.value, op, t', p');
    } else if op.ClaimReread? {
      ClaimLookKeeps(lib, t, h, p.value, op, t', p');
    } else {
      ClaimBeginKeeps(lib, t, h, p, op, t', p');
    }
  }

  /** Every step on the tables. */
  lemma TableStepKeeps(lib: Library, t: Tables, h: History, p: Option<Proc>, op: Op, t': Tables, p': Proc)
    requires Ready(lib, t, h, p) && TableStep(lib, t, p, op) == Some((t', p'))
    ensures Kept(lib, t, h, t', p')
  {
    if op.AskCheck? || op.AskStore? || op.AskAutoAnswer? {
      AskKeeps(lib, t, h, p, op, t', p');
    } else if op.AnswerBegin? || op.AnswerCommit? || op.AnswerReread? {
      AnswerKeeps(lib, t, h, p, op, t', p');
    } else if op.CancelBegin? || op.CancelCommit? {
      CancelKeeps(lib, t, h, p, op, t', p');
    } else if op.DismissBegin? || op.DismissCommit? {
      DismissKeeps(lib, t, h, p, op, t', p');
    } else if op.SnoozeBegin? || op.SnoozeCommit? {
      SnoozeKeeps(lib, t, h, p, op, t', p');
    } else if op.Post? {
      PostKeeps(lib, t, h, p, op, t', p');
    } else if op.ClaimBegin? || op.ClaimCommit? || op.ClaimReread? {
      ClaimStepKeeps(lib, t, h, p, op, t', p');
    } else {
      WaitKeeps(lib, t, h, p, op, t', p');
    }
  }
}
