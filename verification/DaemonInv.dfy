/** What every step of every handler keeps, whatever stale reads it acts on. */
module DaemonInv {
  import opened Prelude
  import opened Json
  import opened Models
  import opened Grants
  import opened Store
  import opened Daemon
  import GrantLaws

  /** What has happened so far: the asks whose row has held the text "timedout", and
      the answers rows have held while answered. */
  datatype History = History(timedOut: iset<string>, answers: iset<(string, string)>)

  const BEGINNING := History(iset{}, iset{})

  ghost function TimedOutIn(t: Tables): iset<string> {
    iset id | id in t.notifications && t.notifications[id].status == "timedout"
  }

  ghost function AnswersIn(t: Tables): iset<(string, string)> {
    iset id, answer | id in t.notifications && t.notifications[id].status == "answered"
      && t.notifications[id].answer == Some(answer)
      :: (id, answer)
  }

  ghost function Observe(h: History, t: Tables): History {
    History(h.timedOut + TimedOutIn(t), h.answers + AnswersIn(t))
  }

  ghost predicate Later(h: History, h': History) {
    h.timedOut <= h'.timedOut && h.answers <= h'.answers
  }

  // ── How tables grow ────────────────────────────────────────────────────

  /** The same ask, possibly answered, closed or snoozed: never reopened. */
  predicate SameAsk(r: Row, r': Row) {
    && r' == r.(status := r'.status, answeredAt := r'.answeredAt, answer := r'.answer, answerLabel := r'.answerLabel,
                note := r'.note, snoozeUntil := r'.snoozeUntil)
    && (r'.status == "open" ==> r.status == "open")
  }

  /** The same grant, possibly revoked or claimed: each at most once. */
  predicate SameGrant(g: StoredGrant, g': StoredGrant) {
    && g' == g.(revokedBy := g'.revokedBy, claimedBy := g'.claimedBy, claimedAt := g'.claimedAt)
    && (g.revokedBy.Some? ==> g'.revokedBy == g.revokedBy)
    && (g.claimedBy.Some? ==> g'.claimedBy == g.claimedBy && g'.claimedAt == g.claimedAt)
  }

  ghost predicate Grows(t: Tables, t': Tables) {
    && (forall id :: id in t.notifications ==>
          id in t'.notifications && SameAsk(t.notifications[id], t'.notifications[id]))
    && (forall id :: id in t.grants ==> id in t'.grants && SameGrant(t.grants[id], t'.grants[id]))
  }

  lemma GrowsTransitive(t: Tables, t': Tables, t'': Tables)
    requires Grows(t, t') && Grows(t', t'')
    ensures Grows(t, t'')
  {
  }

  // ── The tables ─────────────────────────────────────────────────────────

  /** Status texts that are ever stored; "timed_out" is not one of them. */
  predicate KnownText(text: string) {
    text in {"open", "answered", "cancelled", "muted", "timedout", "dismissed"}
  }

  /** The answer columns are those of the grant's signed record. */
  predicate Matches(lib: Library, g: StoredGrant, answer: Option<string>, shown: Option<string>, note: Option<string>) {
    match ParseRecord(lib, g.record)
    case Ok(ParsedRecord(Grant(record), _, _)) =>
      answer == Some(AnswerOf(record).answer) && shown == Some(AnswerOf(record).answerLabel)
      && note == AnswerOf(record).note
    case _ => false
  }

  ghost predicate AnsweredByGrant(lib: Library, t: Tables, id: string, answer: Option<string>, shown: Option<string>,
                                  note: Option<string>) {
    exists gid :: gid in t.grants && Names(t.grants[gid], id) && Matches(lib, t.grants[gid], answer, shown, note)
  }

  /** A snooze ends no later than the deadline. */
  predicate SnoozeCapped(row: Row) {
    row.snoozeUntil.Some? && row.deadline.Some? ==> row.snoozeUntil.value <= row.deadline.value
  }

  ghost predicate RowOk(lib: Library, t: Tables, id: string)
    requires id in t.notifications
  {
    var row := t.notifications[id];
    && row.id == id
    && KnownText(row.status) && SnoozeCapped(row)
    && (row.status == "answered" ==> row.answer.Some?)
    && (row.questionType == Approval && row.status == "answered" ==>
          AnsweredByGrant(lib, t, id, row.answer, row.answerLabel, row.note))
  }

  /** The stored columns are those of an envelope that verified. */
  ghost predicate Genuine(lib: Library, g: StoredGrant) {
    exists registry, v :: VerifiesAs(lib, registry, g, v)
  }

  ghost predicate VerifiesAs(lib: Library, registry: Registry, g: StoredGrant, v: Verified) {
    && VerifyEnvelope(lib, registry, EnvelopeJson(g.ToEnvelope())) == Ok(v)
    && g.(revokedBy := None, claimedBy := None, claimedAt := None) == FromVerified(v, g.createdAt)
  }

  /** A kind-grant names a stored approval ask that is no longer open. */
  predicate NamesAsk(t: Tables, g: StoredGrant) {
    g.kind == "grant" ==>
      && g.notificationId.Some? && g.notificationId.value in t.notifications
      && t.notifications[g.notificationId.value].questionType == Approval
      && t.notifications[g.notificationId.value].status != "open"
  }

  predicate RevokeTarget(lib: Library, r: StoredGrant, target: string) {
    match ParseRecord(lib, r.record)
    case Ok(ParsedRecord(Revoke(_, name, _, _, _), _, _)) => name == target
    case _ => false
  }

  /** revoked_by names another grant, a stored revoke of this one. */
  predicate RevokedOk(lib: Library, t: Tables, g: StoredGrant) {
    g.revokedBy.Some? ==>
      && g.revokedBy.value in t.grants && g.revokedBy.value != g.id
      && t.grants[g.revokedBy.value].kind == "revoke" && RevokeTarget(lib, t.grants[g.revokedBy.value], g.id)
  }

  ghost predicate GrantOk(lib: Library, t: Tables, id: string)
    requires id in t.grants
  {
    && t.grants[id].id == id
    && Genuine(lib, t.grants[id])
    && NamesAsk(t, t.grants[id])
    && RevokedOk(lib, t, t.grants[id])
    && (t.grants[id].claimedBy.Some? <==> t.grants[id].claimedAt.Some?)
    && (t.grants[id].claimedBy.Some? ==> t.grants[id].IsOnce())
  }

  predicate Rivals(t: Tables, a: string, b: string, ask: string) {
    a in t.grants && b in t.grants && a != b && Names(t.grants[a], ask) && Names(t.grants[b], ask)
  }

  /** Two kind-grants name the same ask only when its row has been "timedout",
      and then the row is not "answered". */
  ghost predicate RivalsOk(t: Tables, h: History) {
    forall a, b, ask :: Rivals(t, a, b, ask) ==>
      ask in h.timedOut && ask in t.notifications && t.notifications[ask].status != "answered"
  }

  /** The history includes what the tables now show. */
  ghost predicate Sees(h: History, t: Tables) {
    TimedOutIn(t) <= h.timedOut && AnswersIn(t) <= h.answers
  }

  ghost predicate RowsOk(lib: Library, t: Tables) {
    forall id :: id in t.notifications ==> RowOk(lib, t, id)
  }

  ghost predicate GrantsOk(lib: Library, t: Tables) {
    forall id :: id in t.grants ==> GrantOk(lib, t, id)
  }

  ghost predicate TablesOk(lib: Library, t: Tables, h: History) {
    && RowsOk(lib, t)
    && GrantsOk(lib, t)
    && RivalsOk(t, h)
    && Sees(h, t)
  }

  // ── Envelopes and handlers ─────────────────────────────────────────────

  /** The envelope carries a stored kind-grant for its ask, and its answer is that
      grant's unless the ask has been "timedout". */
  ghost predicate Backed(lib: Library, t: Tables, h: History, env: Answering) {
    exists gid :: BackedBy(lib, t, h, env, gid)
  }

  ghost predicate BackedBy(lib: Library, t: Tables, h: History, env: Answering, gid: string) {
    && gid in t.grants && Names(t.grants[gid], env.id)
    && env.grant == Some(t.grants[gid].ToEnvelope())
    && env.via == "ta:" + t.grants[gid].signer
    && (Matches(lib, t.grants[gid], env.answer, env.answerLabel, env.note) || env.id in h.timedOut)
  }

  /** An envelope with an answer: on an approval ask a stored grant stands behind
      it; on any other ask the row has held that answer. */
  ghost predicate GoodEnvelope(lib: Library, t: Tables, h: History, env: Answering) {
    env.answer.Some? ==>
      && env.id in t.notifications
      && (if t.notifications[env.id].questionType == Approval then Backed(lib, t, h, env)
          else (env.id, env.answer.value) in h.answers)
  }

  predicate PlainAsk(t: Tables, id: string) {
    id in t.notifications && t.notifications[id].questionType != Approval
  }

  /** An answer read from an approval row, before any grant is attached to it: it is
      that of a stored kind-grant for the ask. */
  ghost predicate FoundOk(lib: Library, t: Tables, env: Answering) {
    && env.answer.Some? && env.grant.None?
    && env.id in t.notifications && t.notifications[env.id].questionType == Approval
    && AnsweredByGrant(lib, t, env.id, env.answer, env.answerLabel, env.note)
  }

  predicate ClaimHeld(t: Tables, id: string, claimer: string) {
    id in t.grants && t.grants[id].claimedBy == Some(claimer)
  }

  ghost predicate ReplyOk(lib: Library, t: Tables, h: History, r: Reply) {
    match r
    case Sent(env) => GoodEnvelope(lib, t, h, env)
    case Waited(ask, env) => env.id == ask && (GoodEnvelope(lib, t, h, env) || FoundOk(lib, t, env))
    case Claimed(id, claimer, view) =>
      ClaimHeld(t, id, claimer) && view.claimedBy == Some(claimer) && view.id == id && view.IsOnce()
    case _ => true
  }

  ghost predicate ProcOk(lib: Library, t: Tables, h: History, p: Proc) {
    match p
    case AnswerWrite(id, _, _, _, _, _) => PlainAsk(t, id)
    case AnswerRead(id, answer, _, _, _) => PlainAsk(t, id) && (id, answer) in h.answers
    case CancelWrite(id) => id in t.notifications
    case DismissWrite(id, _, _) => id in t.notifications
    case Wake(env) => GoodEnvelope(lib, t, h, env)
    case WaitAttach(env) => FoundOk(lib, t, env)
    case WaitMark(id, reply) => reply.answer.None? && reply.id == id
    case ClaimWrite(id, _) => id in t.grants && t.grants[id].IsOnce()
    case ClaimRead(id, claimer, at) => ClaimHeld(t, id, claimer) && t.grants[id].claimedAt == Some(at)
    case Finished(r) => ReplyOk(lib, t, h, r)
    case _ => true
  }

  // ── Growth keeps what is known of envelopes and handlers ───────────────

  lemma AnsweredByGrantGrows(lib: Library, t: Tables, t': Tables, id: string, answer: Option<string>,
                             shown: Option<string>, note: Option<string>)
    requires Grows(t, t') && AnsweredByGrant(lib, t, id, answer, shown, note)
    ensures AnsweredByGrant(lib, t', id, answer, shown, note)
  {
    var gid :| gid in t.grants && Names(t.grants[gid], id) && Matches(lib, t.grants[gid], answer, shown, note);
    assert SameGrant(t.grants[gid], t'.grants[gid]);
  }

  lemma BackedGrows(lib: Library, t: Tables, h: History, t': Tables, h': History, env: Answering)
    requires Grows(t, t') && Later(h, h') && Backed(lib, t, h, env)
    ensures Backed(lib, t', h', env)
  {
    var gid :| BackedBy(lib, t, h, env, gid);
    assert SameGrant(t.grants[gid], t'.grants[gid]);
    assert BackedBy(lib, t', h', env, gid);
  }

  lemma GoodEnvelopeGrows(lib: Library, t: Tables, h: History, t': Tables, h': History, env: Answering)
    requires Grows(t, t') && Later(h, h') && GoodEnvelope(lib, t, h, env)
    ensures GoodEnvelope(lib, t', h', env)
  {
    if env.answer.Some? {
      assert SameAsk(t.notifications[env.id], t'.notifications[env.id]);
      if t.notifications[env.id].questionType == Approval {
        BackedGrows(lib, t, h, t', h', env);
      }
    }
  }

  lemma ClaimedGrows(t: Tables, t': Tables, id: string)
    requires Grows(t, t') && id in t.grants
    ensures id in t'.grants && SameGrant(t.grants[id], t'.grants[id]) && t'.grants[id].IsOnce() == t.grants[id].IsOnce()
  {
  }

  lemma FoundOkGrows(lib: Library, t: Tables, t': Tables, env: Answering)
    requires Grows(t, t') && FoundOk(lib, t, env)
    ensures FoundOk(lib, t', env)
  {
    assert SameAsk(t.notifications[env.id], t'.notifications[env.id]);
    AnsweredByGrantGrows(lib, t, t', env.id, env.answer, env.answerLabel, env.note);
  }

  lemma ReplyOkGrows(lib: Library, t: Tables, h: History, t': Tables, h': History, r: Reply)
    requires Grows(t, t') && Later(h, h') && ReplyOk(lib, t, h, r)
    ensures ReplyOk(lib, t', h', r)
  {
    match r
    case Sent(env) => GoodEnvelopeGrows(lib, t, h, t', h', env);
    case Waited(_, env) =>
      if FoundOk(lib, t, env) {
        FoundOkGrows(lib, t, t', env);
      } else {
        GoodEnvelopeGrows(lib, t, h, t', h', env);
      }
    case Claimed(id, _, _) => ClaimedGrows(t, t', id);
    case _ =>
  }

  lemma AskProcGrows(lib: Library, t: Tables, h: History, t': Tables, h': History, p: Proc)
    requires Grows(t, t') && Later(h, h') && ProcOk(lib, t, h, p)
    requires p.AnswerWrite? || p.AnswerRead? || p.CancelWrite? || p.DismissWrite?
    ensures ProcOk(lib, t', h', p)
  {
    assert SameAsk(t.notifications[p.id], t'.notifications[p.id]);
  }

  lemma ClaimProcGrows(lib: Library, t: Tables, h: History, t': Tables, h': History, p: Proc)
    requires Grows(t, t') && (p.ClaimWrite? || p.ClaimRead?) && ProcOk(lib, t, h, p)
    ensures ProcOk(lib, t', h', p)
  {
    ClaimedGrows(t, t', p.id);
  }

  lemma ProcOkGrows(lib: Library, t: Tables, h: History, t': Tables, h': History, p: Proc)
    requires Grows(t, t') && Later(h, h') && ProcOk(lib, t, h, p)
    ensures ProcOk(lib, t', h', p)
  {
    if p.AnswerWrite? || p.AnswerRead? || p.CancelWrite? || p.DismissWrite? {
      AskProcGrows(lib, t, h, t', h', p);
    } else if p.ClaimWrite? || p.ClaimRead? {
      ClaimProcGrows(lib, t, h, t', h', p);
    } else if p.Wake? {
      GoodEnvelopeGrows(lib, t, h, t', h', p.env);
    } else if p.WaitAttach? {
      FoundOkGrows(lib, t, t', p.env);
    } else if p.Finished? {
      ReplyOkGrows(lib, t, h, t', h', p.r);
    }
  }
}
