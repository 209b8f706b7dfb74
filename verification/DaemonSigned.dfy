/** Signed records in the daemon, member by member, over every run: what is stored was
    signed, and what it answered is what its record says. */
module DaemonSigned {
  import opened Prelude
  import opened Bytes
  import opened Json
  import opened Models
  import opened Grants
  import opened Store
  import opened Daemon
  import opened DaemonInv
  import opened DaemonGrants
  import opened DaemonSteps
  import opened DaemonRuns
  import opened DaemonLaws
  import opened DaemonRaces
  import opened DaemonAnswers
  import opened RecordLaws
  import opened HandlerLaws
  import Approval
  import Phone
  import GrantLaws

  // ── What is stored was signed ──────────────────────────────────────────

  /** The columns of a stored grant are what its record says. */
  ghost predicate Columns(lib: Library, g: StoredGrant) {
    && g.record.Obj?
    && Get(g.record.members, "kind") == Some(Str(g.kind)) && Get(g.record.members, "signer") == Some(Str(g.signer))
    && (if g.kind == "grant"
        then g.notificationId.Some? && Get(g.record.members, "ask_id") == Text(g.notificationId)
             && Get(g.record.members, "renews") == Text(g.renews)
        else g.notificationId.None? && g.renews.None?)
    && exists p :: IsRecord(lib, g.record, p) && g.issuedAt == p.issuedAt && g.expiresAt == p.expiresAt
  }

  lemma ColumnsOf(lib: Library, v: Verified, at: int)
    requires IsRecord(lib, v.envelope.record, v.parsed)
    ensures Columns(lib, FromVerified(v, at))
  {
    KindsDiffer();
    var g := FromVerified(v, at);
    assert IsRecord(lib, g.record, v.parsed) && g.issuedAt == v.parsed.issuedAt && g.expiresAt == v.parsed.expiresAt;
  }

  lemma SameColumns(lib: Library, g: StoredGrant, g': StoredGrant)
    requires Columns(lib, g)
    requires g'.record == g.record && g'.kind == g.kind && g'.signer == g.signer && g'.renews == g.renews
    requires g'.notificationId == g.notificationId && g'.issuedAt == g.issuedAt && g'.expiresAt == g.expiresAt
    ensures Columns(lib, g')
  {
    var p :| IsRecord(lib, g.record, p) && g.issuedAt == p.issuedAt && g.expiresAt == p.expiresAt;
  }

  lemma GenuineSigned(lib: Library, g: StoredGrant)
    requires Genuine(lib, g)
    ensures Columns(lib, g)
    ensures exists registry :: Signed(lib, registry, Envelope(g.id, g.record, g.recordSha256, "es256", g.sig))
  {
    var registry, v :| VerifiesAs(lib, registry, g, v);
    AcceptedIff(lib, registry, EnvelopeJson(g.ToEnvelope()), v);
    GrantLaws.ReadEnvelopeJson(g.ToEnvelope());
    ShapedIff(EnvelopeJson(g.ToEnvelope()), v.envelope);
    assert Signed(lib, registry, Envelope(g.id, g.record, g.recordSha256, "es256", g.sig));
    ColumnsOf(lib, v, g.createdAt);
    SameColumns(lib, FromVerified(v, g.createdAt), g);
  }

  /** In every run each stored grant stands under its own id, carries a record signed by
      the signer it names in some registry, and its columns are what that record says. */
  lemma StoredIsSigned(lib: Library, acts: seq<Action>, gid: string)
    requires gid in Run(lib, acts).tables.grants
    ensures var g := Run(lib, acts).tables.grants[gid];
            && g.id == gid && Columns(lib, g)
            && exists registry :: Signed(lib, registry, Envelope(gid, g.record, g.recordSha256, "es256", g.sig))
  {
    RunInv(lib, acts);
    assert GrantOk(lib, Run(lib, acts).tables, gid);
    GenuineSigned(lib, Run(lib, acts).tables.grants[gid]);
  }

  /** In every run a claimed grant is a kind-grant whose record says once. */
  lemma ClaimedSaysOnce(lib: Library, acts: seq<Action>, gid: string)
    requires gid in Run(lib, acts).tables.grants && Run(lib, acts).tables.grants[gid].claimedBy.Some?
    ensures var g := Run(lib, acts).tables.grants[gid];
            g.kind == "grant" && g.record.Obj? && Get(g.record.members, "once") == Some(Bool(true))
  {
    OnlyOnceClaimed(lib, acts, gid);
  }

  // ── What it answered is what it says ───────────────────────────────────

  /** The one kind-grant that names the ask, and its record has the answer, the label and
      the note of the row. */
  ghost predicate AnsweredAsSigned(t: Tables, id: string, gid: string)
    requires id in t.notifications
  {
    var row := t.notifications[id];
    && gid in t.grants && GrantFor(t.grants[gid], id)
    && (forall other :: other in t.grants && GrantFor(t.grants[other], id) ==> other == gid)
    && t.grants[gid].record.Obj?
    && Speaks(t.grants[gid].record.members, row.answer, row.answerLabel, row.note)
  }

  lemma MatchesAnswers(lib: Library, g: StoredGrant, answer: Option<string>, shown: Option<string>,
                       note: Option<string>)
    requires Matches(lib, g, answer, shown, note)
    ensures g.record.Obj? && Speaks(g.record.members, answer, shown, note)
  {
    AnswersOfRecord(lib, g.record, ParseRecord(lib, g.record).value);
  }

  /** In every run an approval row that says answered has the decision, the answer or
      else the decision, and the note that the record of its one grant has. */
  lemma AnswerIsSigned(lib: Library, acts: seq<Action>, id: string)
    requires RowIs(lib, acts, id, "answered") && Run(lib, acts).tables.notifications[id].questionType == Approval
    ensures exists gid :: AnsweredAsSigned(Run(lib, acts).tables, id, gid)
  {
    var t := Run(lib, acts).tables;
    AnsweredByExactlyOneGrant(lib, acts, id);
    var gid :| SoleGrant(lib, t, id, gid);
    var row := t.notifications[id];
    MatchesAnswers(lib, t.grants[gid], row.answer, row.answerLabel, row.note);
    forall other | other in t.grants && GrantFor(t.grants[other], id) ensures other == gid {
      assert Names(t.grants[other], id);
    }
    assert AnsweredAsSigned(t, id, gid);
  }

  /** The ask was so answered, and its row still has what that record says. */
  ghost predicate StillAsSigned(t: Tables, t': Tables, id: string, gid: string) {
    && id in t.notifications && AnsweredAsSigned(t, id, gid) && id in t'.notifications
    && Speaks(t.grants[gid].record.members, t'.notifications[id].answer, t'.notifications[id].answerLabel,
              t'.notifications[id].note)
  }

  /** And the row keeps them, whatever runs on. */
  lemma SignedAnswerStays(lib: Library, acts: seq<Action>, more: seq<Action>, id: string)
    requires RowIs(lib, acts, id, "answered") && Run(lib, acts).tables.notifications[id].questionType == Approval
    ensures exists gid :: StillAsSigned(Run(lib, acts).tables, Run(lib, acts + more).tables, id, gid)
  {
    var t, t' := Run(lib, acts).tables, Run(lib, acts + more).tables;
    AnswerIsSigned(lib, acts, id);
    var gid :| AnsweredAsSigned(t, id, gid);
    SettledAnswerStays(lib, acts, more, id);
    assert StillAsSigned(t, t', id, gid);
  }

  /** What a posted grant tells the waiters of its ask. */
  predicate TellsAsSigned(env: Answering, v: Verified, row: Row, now: int) {
    && v.envelope.record.Obj? && Get(v.envelope.record.members, "ask_id") == Some(Str(env.id)) && env.id == row.id
    && env.answer.Some? && env.answerLabel.Some?
    && Speaks(v.envelope.record.members, env.answer, env.answerLabel, env.note)
    && env.grant == Some(v.envelope) && env.answeredAt == Some(now) && env.once == row.once
    && |env.via| >= 3 && env.via[..3] == ['t', 'a', ':']
    && Get(v.envelope.record.members, "signer") == Some(Str(env.via[3..]))
  }

  /** The row of the ask after a grant: answered as the record says if its text was open,
      and as it was if it was timed out. */
  predicate AnsweredRow(row: Row, row': Row, v: Verified, now: int) {
    && v.envelope.record.Obj?
    && (if row.status == "open" then
          && row' == row.(status := "answered", answer := row'.answer, answerLabel := row'.answerLabel,
                          note := row'.note, answeredAt := Some(now))
          && Speaks(v.envelope.record.members, row'.answer, row'.answerLabel, row'.note)
        else row' == row)
  }

  /** The row of the grants table that an envelope becomes. */
  predicate FreshGrant(g: StoredGrant, v: Verified, now: int) {
    && g.id == v.envelope.id && g.record == v.envelope.record && g.recordSha256 == v.envelope.recordSha256
    && g.sig == v.envelope.sig && g.createdAt == now
    && g.revokedBy.None? && g.claimedBy.None? && g.claimedAt.None?
  }

  /** A posted grant that is not refused is stored and answers its ask as its record says. */
  ghost predicate GrantsAsSigned(t: Tables, t': Tables, p': Proc, v: Verified, now: int) {
    && p'.Wake? && p'.env.id in t.notifications && p'.env.id in t'.notifications
    && TellsAsSigned(p'.env, v, t.notifications[p'.env.id], now)
    && AnsweredRow(t.notifications[p'.env.id], t'.notifications[p'.env.id], v, now)
    && v.envelope.id !in t.grants && v.envelope.id in t'.grants && FreshGrant(t'.grants[v.envelope.id], v, now)
  }

  lemma GrantTells(t: Tables, v: Verified, record: GrantRecord, now: int, t': Tables, p': Proc)
    requires v.parsed.record == Grant(record) && v.envelope.record.Obj?
    requires SpellsGrant(v.envelope.record.members, record)
    requires record.askId in t.notifications ==> t.notifications[record.askId].id == record.askId
    requires StoreVerified(t, v, now) == (t', p') && p' != Finished(Refused)
    ensures GrantsAsSigned(t, t', p', v, now)
  {
    AnswersSpelled(v.envelope.record.members, record);
    var a := AnswerOf(record);
    var s :| IsText(Get(v.envelope.record.members, "signer"), s) && a.via == ['t', 'a', ':'] + s;
    assert a.via[..3] == ['t', 'a', ':'] && a.via[3..] == s;
    AcceptedTells(t, FromVerified(v, now), v, record, now, t', p');
  }

  lemma AcceptedTells(t: Tables, g: StoredGrant, v: Verified, record: GrantRecord, now: int, t': Tables, p': Proc)
    requires v.parsed.record == Grant(record) && g == FromVerified(v, now)
    requires record.askId in t.notifications ==> t.notifications[record.askId].id == record.askId
    requires StoreVerified(t, v, now) == (t', p') && p' != Finished(Refused)
    ensures p'.Wake? && p'.env.id == record.askId && record.askId in t.notifications
            && record.askId in t'.notifications
    ensures g.id !in t.grants && g.id in t'.grants && t'.grants[g.id] == g
    ensures var (row, row', a) := (t.notifications[record.askId], t'.notifications[record.askId], AnswerOf(record));
            && p'.env == AnswerEnvelope(record.askId, Some(a.answer), Some(a.answerLabel), Some(now), a.via, a.note,
                                        Some(v.envelope), row.once)
            && row' == if row.status == "open"
                       then row.(status := "answered", answer := Some(a.answer), answerLabel := Some(a.answerLabel),
                                 answeredAt := Some(now), note := a.note)
                       else row
  {
  }

  /** In every run, posting an envelope that verifies as a grant is refused or answers the
      ask its record names with what its record says. */
  lemma PostedAnswersAsSigned(lib: Library, acts: seq<Action>, pid: nat, raw: Json, registry: Registry, now: int,
                              v: Verified)
    requires pid !in Run(lib, acts).procs && VerifyEnvelope(lib, registry, raw) == Ok(v) && v.parsed.record.Grant?
    ensures var (s, s') := (Run(lib, acts), Step(lib, Run(lib, acts), Action(pid, Post(raw, registry, now))));
            && pid in s'.procs
            && (s'.procs[pid] == Finished(Refused) || GrantsAsSigned(s.tables, s'.tables, s'.procs[pid], v, now))
  {
    RunInv(lib, acts);
    var s, record := Run(lib, acts), v.parsed.record.grant;
    PostStep(lib, s, pid, raw, registry, now);
    AcceptedIff(lib, registry, raw, v);
    assert record.askId in s.tables.notifications ==> RowOk(lib, s.tables, record.askId);
    if StoreVerified(s.tables, v, now).1 != Finished(Refused) {
      GrantTells(s.tables, v, record, now, StoreVerified(s.tables, v, now).0, StoreVerified(s.tables, v, now).1);
    }
  }

  // ── From the phone ─────────────────────────────────────────────────────

  /** The user's choice: the decision, the answer if one is given, else the decision, and
      the note if one is given. */
  predicate Chosen(opts: Phone.Options, answer: Option<string>, shown: Option<string>, note: Option<string>) {
    && answer == Some(opts.decision)
    && shown == (if opts.answer == None || opts.answer == Some("") then Some(opts.decision) else opts.answer)
    && note == (if opts.note == None || opts.note == Some("") then None else opts.note)
  }

  lemma PhoneAnswers(lib: Library, ask: Phone.Ask, opts: Phone.Options, answer: Option<string>, shown: Option<string>,
                     note: Option<string>)
    requires Speaks(Phone.GrantRecordFor(lib, ask, opts).members, answer, shown, note)
    ensures Chosen(opts, answer, shown, note)
  {
    Phone.BuiltMembers(lib, ask, opts);
  }

  /** A grant signed on the phone for an open ask: the row, and the envelope that goes on
      to the waiters, have exactly what the user chose. */
  lemma PhoneChoiceAnswers(lib: Library, acts: seq<Action>, pid: nat, registry: Registry, ask: Phone.Ask,
                           opts: Phone.Options, decision: Decision, raw: seq<Byte>, now: int, v: Verified)
    requires Approval.SignedOnPhone(lib, registry, ask, opts, decision, raw)
    requires Approval.PhoneVerified(lib, ask, opts, decision, raw) == Some(v)
    requires pid !in Run(lib, acts).procs && Approval.Asks(Run(lib, acts).tables, ask)
    requires v.envelope.id !in Run(lib, acts).tables.grants
    ensures var s' := Step(lib, Run(lib, acts), Action(pid, Post(EnvelopeJson(v.envelope), registry, now)));
            && ask.id in s'.tables.notifications && pid in s'.procs && s'.procs[pid].Wake?
            && var (row, env) := (s'.tables.notifications[ask.id], s'.procs[pid].env);
            && row.status == "answered" && Chosen(opts, row.answer, row.answerLabel, row.note)
            && env.id == ask.id && Chosen(opts, env.answer, env.answerLabel, env.note)
            && env.via == ['t', 'a', ':'] + opts.signer && env.grant == Some(v.envelope)
  {
    var s := Run(lib, acts);
    Approval.PhoneGrantAnswers(lib, s, pid, registry, ask, opts, decision, raw, now, v);
    Approval.PhoneVerifies(lib, registry, ask, opts, decision, raw);
    PostedAnswersAsSigned(lib, acts, pid, EnvelopeJson(v.envelope), registry, now, v);
    var s' := Step(lib, s, Action(pid, Post(EnvelopeJson(v.envelope), registry, now)));
    var (row, env) := (s'.tables.notifications[ask.id], s'.procs[pid].env);
    PhoneAnswers(lib, ask, opts, row.answer, row.answerLabel, row.note);
    PhoneAnswers(lib, ask, opts, env.answer, env.answerLabel, env.note);
    Phone.BuiltMembers(lib, ask, opts);
    assert env.via == env.via[..3] + env.via[3..];
  }
}
