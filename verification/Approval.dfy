/** An approval from end to end: what the phone signs answers the ask in the
    daemon and reaches the agent that waits for it. */
module Approval {
  import opened Prelude
  import opened Bytes
  import opened Json
  import opened Models
  import opened Grants
  import opened Store
  import opened Daemon
  import opened DaemonInv
  import opened DaemonRuns
  import opened DaemonLaws
  import opened DaemonGrants
  import DaemonRaces
  import Phone

  /** The signer of the options is in the registry and has signed the record the
      phone builds for the ask; the ttl is at least a second. */
  ghost predicate SignedOnPhone(lib: Library, registry: Registry, ask: Phone.Ask, opts: Phone.Options,
                                decision: Decision, raw: seq<Byte>) {
    && Phone.Lawful(lib) && opts.decision == DecisionText(decision) && opts.signer != ""
    && opts.ttlSecs >= 1 && Phone.InRange(opts.now / 1000) && Phone.InRange(opts.now / 1000 + opts.ttlSecs)
    && Find(registry, opts.signer).Some?
    && Phone.SignedWith(lib, Find(registry, opts.signer).value, Phone.GrantRecordFor(lib, ask, opts), raw)
  }

  /** What the daemon verifies the phone's envelope to. */
  ghost function PhoneVerified(lib: Library, ask: Phone.Ask, opts: Phone.Options, decision: Decision,
                               raw: seq<Byte>): Option<Verified> {
    match Phone.SignRecord(lib, Phone.GrantRecordFor(lib, ask, opts), raw)
    case None => None
    case Some(env) => Some(Verified(env, Phone.BuiltParsed(lib, ask, opts, decision)))
  }

  lemma PhoneVerifies(lib: Library, registry: Registry, ask: Phone.Ask, opts: Phone.Options, decision: Decision,
                      raw: seq<Byte>)
    requires SignedOnPhone(lib, registry, ask, opts, decision, raw)
    ensures PhoneVerified(lib, ask, opts, decision, raw).Some?
    ensures var v := PhoneVerified(lib, ask, opts, decision, raw).value;
            && VerifyEnvelope(lib, registry, EnvelopeJson(v.envelope)) == Ok(v)
            && v.parsed.record == Grant(Phone.Built(lib, ask, opts, decision))
  {
    Phone.BuiltVerifies(lib, registry, ask, opts, decision, Phone.GrantRecordFor(lib, ask, opts), raw);
  }

  /** An open approval ask, as the phone sees it. */
  predicate Asks(t: Tables, ask: Phone.Ask) {
    && ask.id in t.notifications && t.notifications[ask.id].id == ask.id
    && t.notifications[ask.id].questionType == QuestionType.Approval
    && t.notifications[ask.id].status == "open" && t.notifications[ask.id].question == ask.question
  }

  /** The row after the grant: the answer, the label and the note the user chose. */
  function AnsweredRow(row: Row, record: GrantRecord, now: int): Row {
    row.(status := "answered", answer := Some(AnswerOf(record).answer),
         answerLabel := Some(AnswerOf(record).answerLabel),
         answeredAt := Some(now), note := AnswerOf(record).note)
  }

  /** The effect of posting v for an open ask. */
  ghost predicate Approves(t: Tables, t': Tables, p': Proc, v: Verified, record: GrantRecord, now: int)
    requires record.askId in t.notifications
  {
    && t'.grants == t.grants[v.envelope.id := FromVerified(v, now)]
    && t'.notifications == t.notifications[record.askId := AnsweredRow(t.notifications[record.askId], record, now)]
    && p'.Wake? && p'.env.id == record.askId && p'.env.grant == Some(v.envelope)
    && p'.env.answer == Some(AnswerOf(record).answer) && p'.env.answerLabel == Some(AnswerOf(record).answerLabel)
    && p'.env.note == AnswerOf(record).note && p'.env.via == "ta:" + record.signer
  }

  lemma VerifiedApproves(t: Tables, ask: Phone.Ask, v: Verified, record: GrantRecord, now: int)
    requires Asks(t, ask) && v.parsed.record == Grant(record) && record.askId == ask.id
             && record.question == ask.question
    requires v.envelope.id !in t.grants
    ensures Approves(t, StoreVerified(t, v, now).0, StoreVerified(t, v, now).1, v, record, now)
  {
  }

  /** A grant signed on the phone, for an ask that is open, is stored, answers the ask
      with the user's choice, and goes on to wake the waiters with the grant itself. */
  lemma PhoneGrantAnswers(lib: Library, s: Sys, pid: nat, registry: Registry, ask: Phone.Ask, opts: Phone.Options,
                          decision: Decision, raw: seq<Byte>, now: int, v: Verified)
    requires SignedOnPhone(lib, registry, ask, opts, decision, raw)
    requires PhoneVerified(lib, ask, opts, decision, raw) == Some(v)
    requires pid !in s.procs && Asks(s.tables, ask) && v.envelope.id !in s.tables.grants
    ensures var s' := Step(lib, s, Action(pid, Post(EnvelopeJson(v.envelope), registry, now)));
            && pid in s'.procs && s'.waiters == s.waiters && s'.sent == s.sent
            && Approves(s.tables, s'.tables, s'.procs[pid], v, Phone.Built(lib, ask, opts, decision), now)
  {
    PhoneVerifies(lib, registry, ask, opts, decision, raw);
    PostStep(lib, s, pid, EnvelopeJson(v.envelope), registry, now);
    VerifiedApproves(s.tables, ask, v, Phone.Built(lib, ask, opts, decision), now);
  }

  /** The next step of the handler puts that envelope, and nothing else, on the
      channel of the agent that waits for the ask. */
  lemma WaiterIsWoken(lib: Library, acts: seq<Action>, pid: nat, env: Answering)
    requires pid in Run(lib, acts).procs && Run(lib, acts).procs[pid] == Wake(env) && env.id in Run(lib, acts).waiters
    ensures var (s, s') := (Run(lib, acts), Step(lib, Run(lib, acts), Action(pid, Send)));
            && s.waiters[env.id] in s'.sent && s'.sent[s.waiters[env.id]] == [env] && env.id !in s'.waiters
            && s'.tables == s.tables
  {
    RunInv(lib, acts);
    var s := Run(lib, acts);
    assert s.sent[s.waiters[env.id]] == [];
  }

  /** The exception with the phone's own envelopes: an approval and a denial signed
      for the same ask are both stored once its wait has timed out. */
  lemma PhoneGrantsCollide(lib: Library, n: Loaded, now: int, registry: Registry, ask: Phone.Ask, yes: Phone.Options,
                           no: Phone.Options,
                           rawYes: seq<Byte>, rawNo: seq<Byte>, v1: Verified, v2: Verified)
    requires Fresh(n) && n.status == Open && n.questionType == QuestionType.Approval && ask.id == n.id
    requires ask.question == n.question
    requires SignedOnPhone(lib, registry, ask, yes, Approve, rawYes)
    requires PhoneVerified(lib, ask, yes, Approve, rawYes) == Some(v1)
    requires SignedOnPhone(lib, registry, ask, no, Deny, rawNo) && PhoneVerified(lib, ask, no, Deny, rawNo) == Some(v2)
    requires v1.envelope.id != v2.envelope.id
    ensures var acts := DaemonRaces.Registering(n, now) + DaemonRaces.RunningOut(now)
                        + [Action(2, Post(EnvelopeJson(v1.envelope), registry, now))]
                        + [Action(3, Post(EnvelopeJson(v2.envelope), registry, now))];
            Rivals(Run(lib, acts).tables, v1.envelope.id, v2.envelope.id, n.id)
  {
    PhoneVerifies(lib, registry, ask, yes, Approve, rawYes);
    PhoneVerifies(lib, registry, ask, no, Deny, rawNo);
    DaemonRaces.BothGrantsStored(lib, n, now, Action(2, Post(EnvelopeJson(v1.envelope), registry, now)),
                                 Action(3, Post(EnvelopeJson(v2.envelope), registry, now)), v1, v2);
  }
}
