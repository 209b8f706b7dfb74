/** The handlers of src/handlers.rs and src/grant_handlers.rs as programs that
    run interleaved. One step is one SQL statement, one committed transaction
    or one use of the waiters lock; between two steps of a handler any other
    handler may run. What a handler has read stays in its local state. */
module Daemon {
  import opened Prelude
  import opened Json
  import opened Models
  import opened Grants
  import opened Store

  type Answering = AnswerEnvelope<Envelope>

  /** A oneshot channel: a number of its own, and the ask it was made for. */
  datatype Chan = Chan(num: nat, ask: string)

  /** What a finished handler told its caller. */
  datatype Reply =
    | Done
    | Refused
    | Sent(answering: Answering)
    | Waited(ask: string, envelope: Answering)
    | Created(id: string)
    | Claimed(grantId: string, claimer: string, view: StoredGrant)

  /** A running handler: where it is, and its local variables. */
  datatype Proc =
    | AskPending(caller: Option<string>, checkedAt: int)
    | AnswerWrite(id: string, answer: string, via: Option<string>, note: Option<string>, now: int, loaded: Loaded)
    | AnswerRead(id: string, answer: string, via: Option<string>, now: int, loaded: Loaded)
    | CancelWrite(id: string)
    | DismissWrite(id: string, now: int, loaded: Loaded)
    | SnoozeWrite(id: string, minutes: int)
    | Wake(env: Answering)
    | WaitAttach(env: Answering)
    | WaitRegister(id: string)
    | Waiting(chan: Chan)
    | WaitRemove(id: string)
    | WaitLook(id: string)
    | WaitMark(id: string, reply: Answering)
    | ClaimWrite(id: string, claimer: string)
    | ClaimRead(id: string, claimer: string, at: int)
    | Finished(r: Reply)

  /** The steps. A read that may fail without ending its handler says whether it
      did; any other failure ends the handler, as Abort does. */
  datatype Op =
    | AskCheck(caller: Option<string>, now: int, readOk: bool)
    | AskStore(n: Loaded)
    | AskAutoAnswer(id: string, answer: string, at: int)
    | AnswerBegin(id: string, answer: string, via: Option<string>, note: Option<string>, now: int)
    | AnswerCommit(at: int)
    | AnswerReread(readOk: bool)
    | CancelBegin(id: string)
    | CancelCommit
    | DismissBegin(id: string, now: int)
    | DismissCommit(at: int)
    | SnoozeBegin(id: string, minutes: int, now: int)
    | SnoozeCommit(now: int)
    | WaitBegin(id: string, readOk: bool)
    | WaitFindGrant(pick: string, readOk: bool)
    | WaitInsert
    | WaitReceive
    | WaitClosed
    | WaitElapse
    | WaitUnregister
    | WaitReread(readOk: bool, now: int)
    | WaitTimeOut(writeOk: bool)
    | Post(raw: Json, registry: Registry, now: int)
    | ClaimBegin(id: string, claimer: string)
    | ClaimCommit(at: int)
    | ClaimReread
    | Send
    | Abort

  datatype Action = Action(pid: nat, op: Op)

  datatype Sys = Sys(
    tables: Tables,
    waiters: map<string, Chan>,
    sent: map<Chan, seq<Answering>>,
    procs: map<nat, Proc>,
    nextChan: nat)

  const START := Sys(Tables(map[], map[]), map[], map[], map[], 0)

  // ── POST /ask ──────────────────────────────────────────────────────────

  const DAY: int := 86400000

  /** get_notification_by_caller_id finds a row. */
  predicate SeenCaller(t: Tables, caller: string, since: int) {
    exists id :: id in t.notifications && t.notifications[id].callerId == Some(caller)
      && t.notifications[id].createdAt > since
  }

  /** A new notification: rules leave it open or muted, and nobody has touched it. */
  predicate Fresh(n: Loaded) {
    && (n.status == Open || n.status == Muted)
    && n.answer.None? && n.answeredAt.None? && n.answerLabel.None? && n.snoozeUntil.None? && n.note.None?
  }

  function AskHandler(t: Tables, p: Option<Proc>, op: Op): Option<(Tables, Proc)> {
    if op.AskCheck? && p.None? then
      if op.caller.Some? && op.readOk && SeenCaller(t, op.caller.value, op.now - DAY) then Some((t, Finished(Done)))
      else Some((t, AskPending(op.caller, op.now)))
    else if op.AskStore? && p.Some? && p.value.AskPending? then
      if !Fresh(op.n) || op.n.callerId != p.value.caller then None
      else
        match InsertNotification(t, op.n)
        case None => Some((t, Finished(Refused)))
        case Some(t') => Some((t', Finished(Done)))
    else if op.AskAutoAnswer? && p.Some? && p.value.AskPending? && op.id !in t.notifications then
      Some((AnswerNotification(t, op.id, op.answer, Some(op.answer), None, op.at), Finished(Done)))
    else None
  }

  // ── POST /answer, DELETE /cancel, POST /dismiss, POST /snooze ──────────

  /** check_plain_answer_allowed. */
  predicate PlainAnswerAllowed(n: Loaded) {
    n.status == Open && n.questionType != Approval
  }

  function AnswerLabel(answer: string, via: Option<string>): string {
    match via case Some(v) => v case None => answer
  }

  function PlainEnvelope(id: string, answer: string, via: Option<string>, now: int, updated: Loaded): Answering {
    AnswerEnvelope(id, Some(answer), updated.answerLabel, Some(now),
                   match via case Some(v) => v case None => "dashboard", updated.note, None, updated.once)
  }

  function AnswerBegun(t: Tables, id: string, answer: string, via: Option<string>, note: Option<string>, now: int)
    : Proc
  {
    match GetNotification(t, id)
    case None => Finished(Refused)
    case Some(n) => if PlainAnswerAllowed(n) then AnswerWrite(id, answer, via, note, now, n) else Finished(Refused)
  }

  /** The row read again, or else the row as it was read at first. */
  function Reread(t: Tables, id: string, n: Loaded, readOk: bool): Loaded {
    if readOk && id in t.notifications then Models.Load(t.notifications[id]) else n
  }

  function AnswerHandler(t: Tables, p: Option<Proc>, op: Op): Option<(Tables, Proc)> {
    if op.AnswerBegin? && p.None? then Some((t, AnswerBegun(t, op.id, op.answer, op.via, op.note, op.now)))
    else if op.AnswerCommit? && p.Some? && p.value.AnswerWrite? then
      var w := p.value;
      Some((AnswerNotification(t, w.id, w.answer, Some(AnswerLabel(w.answer, w.via)), w.note, op.at),
            AnswerRead(w.id, w.answer, w.via, w.now, w.loaded)))
    else if op.AnswerReread? && p.Some? && p.value.AnswerRead? then
      var r := p.value;
      Some((t, Wake(PlainEnvelope(r.id, r.answer, r.via, r.now, Reread(t, r.id, r.loaded, op.readOk)))))
    else None
  }

  function CancelBegun(t: Tables, id: string): Proc {
    match GetNotification(t, id)
    case None => Finished(Refused)
    case Some(n) => if n.status == Answered then Finished(Done) else CancelWrite(id)
  }

  function CancelHandler(t: Tables, p: Option<Proc>, op: Op): Option<(Tables, Proc)> {
    if op.CancelBegin? && p.None? then Some((t, CancelBegun(t, op.id)))
    else if op.CancelCommit? && p.Some? && p.value.CancelWrite? then
      Some((UpdateStatus(t, p.value.id, Cancelled), Finished(Done)))
    else None
  }

  /** The envelope of an ask that closed without an answer. */
  function EmptyEnvelope(id: string, answeredAt: Option<int>, via: string, once: Option<bool>): Answering {
    AnswerEnvelope(id, None, None, answeredAt, via, None, None, once)
  }

  function DismissBegun(t: Tables, id: string, now: int): Proc {
    match GetNotification(t, id)
    case None => Finished(Refused)
    case Some(n) => if n.status != Open then Finished(Refused) else DismissWrite(id, now, n)
  }

  function DismissHandler(t: Tables, p: Option<Proc>, op: Op): Option<(Tables, Proc)> {
    if op.DismissBegin? && p.None? then Some((t, DismissBegun(t, op.id, op.now)))
    else if op.DismissCommit? && p.Some? && p.value.DismissWrite? then
      Some((DismissNotification(t, p.value.id, op.at),
            Wake(EmptyEnvelope(p.value.id, Some(p.value.now), "dismissed", p.value.loaded.once))))
    else None
  }

  predicate PastDeadline(n: Loaded, minutes: int, now: int) {
    n.deadline.Some? && now + minutes * MINUTE > n.deadline.value
  }

  function SnoozeBegun(t: Tables, id: string, minutes: int, now: int): Proc {
    match GetNotification(t, id)
    case None => Finished(Refused)
    case Some(n) =>
      if n.status != Open || PastDeadline(n, minutes, now) then Finished(Refused) else SnoozeWrite(id, minutes)
  }

  function SnoozeHandler(t: Tables, p: Option<Proc>, op: Op): Option<(Tables, Proc)> {
    if op.SnoozeBegin? && p.None? then Some((t, SnoozeBegun(t, op.id, op.minutes, op.now)))
    else if op.SnoozeCommit? && p.Some? && p.value.SnoozeWrite? then
      Some((SnoozeNotification(t, p.value.id, p.value.minutes, op.now), Finished(Done)))
    else None
  }

  // ── GET /wait, on the tables ───────────────────────────────────────────

  /** The envelope of an ask found answered. */
  function FoundAnswer(id: string, n: Loaded): Answering {
    AnswerEnvelope(id, n.answer, n.answerLabel, n.answeredAt, "dashboard", n.note, None, n.once)
  }

  function WaitFound(id: string, n: Loaded): Proc {
    match n.status
    case Answered =>
      if n.questionType == Approval then WaitAttach(FoundAnswer(id, n)) else Finished(Waited(id, FoundAnswer(id, n)))
    case Dismissed => Finished(Waited(id, EmptyEnvelope(id, n.answeredAt, StatusText(n.status), n.once)))
    case Cancelled => Finished(Waited(id, EmptyEnvelope(id, n.answeredAt, StatusText(n.status), n.once)))
    case TimedOut => Finished(Waited(id, EmptyEnvelope(id, n.answeredAt, StatusText(n.status), n.once)))
    case _ => WaitRegister(id)
  }

  function TimeOutEnvelope(id: string, found: Option<Loaded>, now: int): Answering {
    EmptyEnvelope(id, Some(now), "timed_out", if found.Some? then found.value.once else None)
  }

  /** No kind-grant names the ask. */
  predicate NoGrant(t: Tables, ask: string) {
    forall id :: id in t.grants ==> !Names(t.grants[id], ask)
  }

  function WaitBegun(t: Tables, id: string, readOk: bool): Proc {
    if readOk && id in t.notifications then WaitFound(id, Models.Load(t.notifications[id])) else WaitRegister(id)
  }

  /** The last look of a wait that has run out of time. */
  function WaitLooked(id: string, found: Option<Loaded>, now: int): Proc {
    if found.Some? && found.value.status == Open then WaitMark(id, TimeOutEnvelope(id, found, now))
    else Finished(Waited(id, TimeOutEnvelope(id, found, now)))
  }

  ghost function WaitHandler(t: Tables, p: Option<Proc>, op: Op): Option<(Tables, Proc)> {
    if op.WaitBegin? && p.None? then Some((t, WaitBegun(t, op.id, op.readOk)))
    else if op.WaitFindGrant? && p.Some? && p.value.WaitAttach? then
      var env := p.value.env;
      if !op.readOk || NoGrant(t, env.id) then Some((t, Finished(Waited(env.id, env))))
      else if Latest(t, env.id, op.pick) then Some((t, Finished(Waited(env.id, t.grants[op.pick].AttachTo(env)))))
      else None
    else if op.WaitReread? && p.Some? && p.value.WaitLook? then
      Some((t, WaitLooked(p.value.id, if op.readOk then GetNotification(t, p.value.id) else None, op.now)))
    else if op.WaitTimeOut? && p.Some? && p.value.WaitMark? then
      Some((if op.writeOk then UpdateStatus(t, p.value.id, TimedOut) else t,
            Finished(Waited(p.value.id, p.value.reply))))
    else None
  }

  // ── POST /grants, POST /grants/{id}/claim ──────────────────────────────

  /** The transaction of a verified envelope, and where the handler goes next. */
  function StoreVerified(t: Tables, v: Verified, now: int): (Tables, Proc) {
    var g := FromVerified(v, now);
    match v.parsed.record
    case Grant(record) =>
      var (t', r) := InsertGrantAnswering(t, g, record, now);
      (match r
       case Err(_) => (t', Finished(Refused))
       case Ok(n) => (t', Wake(GrantAnswerEnvelope(n, record, v.envelope, now))))
    case Revoke(_, target, _, _, _) =>
      var (t', r) := InsertGrantRevoking(t, g, target);
      (t', if r.Ok? then Finished(Created(g.id)) else Finished(Refused))
    case Enroll(_, _, _, _, _, _, _) =>
      var (t', r) := InsertGrantOnly(t, g);
      (t', if r.Ok? then Finished(Created(g.id)) else Finished(Refused))
  }

  function GrantHandler(lib: Library, t: Tables, p: Option<Proc>, op: Op): Option<(Tables, Proc)> {
    if !op.Post? || p.Some? then None
    else
      match VerifyEnvelope(lib, op.registry, op.raw)
      case Err(_) => Some((t, Finished(Refused)))
      case Ok(v) => Some(StoreVerified(t, v, op.now))
  }

  function ClaimBegun(t: Tables, id: string, claimer: string): Proc {
    if id !in t.grants || CheckClaim(t.grants[id]).Some? then Finished(Refused) else ClaimWrite(id, claimer)
  }

  function ClaimHandler(t: Tables, p: Option<Proc>, op: Op): Option<(Tables, Proc)> {
    if op.ClaimBegin? && p.None? then Some((t, ClaimBegun(t, op.id, op.claimer)))
    else if op.ClaimCommit? && p.Some? && p.value.ClaimWrite? then
      var (t', ok) := ClaimGrant(t, p.value.id, p.value.claimer, op.at);
      Some((t', if ok then ClaimRead(p.value.id, p.value.claimer, op.at) else Finished(Refused)))
    else if op.ClaimReread? && p.Some? && p.value.ClaimRead? then
      Some((t, if p.value.id in t.grants then Finished(Claimed(p.value.id, p.value.claimer, t.grants[p.value.id]))
               else Finished(Refused)))
    else None
  }

  // ── One step ───────────────────────────────────────────────────────────

  /** A step on the tables: new tables and the handler's next state; None when
      the handler is not at such a step. */
  ghost function TableStep(lib: Library, t: Tables, p: Option<Proc>, op: Op): Option<(Tables, Proc)> {
    match op
    case AskCheck(_, _, _) => AskHandler(t, p, op)
    case AskStore(_) => AskHandler(t, p, op)
    case AskAutoAnswer(_, _, _) => AskHandler(t, p, op)
    case AnswerBegin(_, _, _, _, _) => AnswerHandler(t, p, op)
    case AnswerCommit(_) => AnswerHandler(t, p, op)
    case AnswerReread(_) => AnswerHandler(t, p, op)
    case CancelBegin(_) => CancelHandler(t, p, op)
    case CancelCommit => CancelHandler(t, p, op)
    case DismissBegin(_, _) => DismissHandler(t, p, op)
    case DismissCommit(_) => DismissHandler(t, p, op)
    case SnoozeBegin(_, _, _) => SnoozeHandler(t, p, op)
    case SnoozeCommit(_) => SnoozeHandler(t, p, op)
    case Post(_, _, _) => GrantHandler(lib, t, p, op)
    case ClaimBegin(_, _) => ClaimHandler(t, p, op)
    case ClaimCommit(_) => ClaimHandler(t, p, op)
    case ClaimReread => ClaimHandler(t, p, op)
    case _ => WaitHandler(t, p, op)
  }

  /** waiters.remove(id), then send on what was there. */
  function Deliver(s: Sys, env: Answering): Sys {
    if env.id !in s.waiters then s
    else
      var c := s.waiters[env.id];
      var before := if c in s.sent then s.sent[c] else [];
      s.(waiters := s.waiters - {env.id}, sent := s.sent[c := before + [env]])
  }

  /** A new channel, whose sender takes the ask's place in the waiters. */
  function Register(s: Sys, id: string): (Sys, Chan) {
    var c := Chan(s.nextChan, id);
    (s.(waiters := s.waiters[id := c], sent := s.sent[c := []], nextChan := s.nextChan + 1), c)
  }

  /** The steps of a wait on the waiters and on its channel. */
  function WaiterStep(s: Sys, q: Proc, op: Op): Option<(Sys, Proc)> {
    if q.WaitRegister? && op.WaitInsert? then
      var (s', c) := Register(s, q.id);
      Some((s', Waiting(c)))
    else if q.Waiting? && op.WaitReceive? && q.chan in s.sent && s.sent[q.chan] != [] then
      Some((s, Finished(Waited(q.chan.ask, s.sent[q.chan][0]))))
    else if q.Waiting? && op.WaitClosed? && Closed(s, q.chan) then Some((s, Finished(Refused)))
    else if q.Waiting? && op.WaitElapse? then Some((s, WaitRemove(q.chan.ask)))
    else if q.WaitRemove? && op.WaitUnregister? then Some((s.(waiters := s.waiters - {q.id}), WaitLook(q.id)))
    else None
  }

  /** The sender was dropped unused. */
  predicate Closed(s: Sys, c: Chan) {
    c in s.sent && s.sent[c] == [] && !(c.ask in s.waiters && s.waiters[c.ask] == c)
  }

  /** The steps that use the waiters lock or the handler's own channel, and the end
      of a handler that fails or is dropped. */
  function ChannelStep(s: Sys, p: Option<Proc>, op: Op): Option<(Sys, Proc)> {
    if p.None? then None
    else if op.Abort? then if p.value.Finished? then None else Some((s, Finished(Refused)))
    else if op.Send? then
      if p.value.Wake? then Some((Deliver(s, p.value.env), Finished(Sent(p.value.env)))) else None
    else WaiterStep(s, p.value, op)
  }

  predicate OnChannel(op: Op) {
    op.Send? || op.WaitInsert? || op.WaitReceive? || op.WaitClosed? || op.WaitElapse? || op.WaitUnregister? || op.Abort?
  }

  function At(s: Sys, pid: nat): Option<Proc> {
    if pid in s.procs then Some(s.procs[pid]) else None
  }

  /** One step of one handler; a step the handler is not at changes nothing. */
  ghost function Step(lib: Library, s: Sys, a: Action): Sys {
    if OnChannel(a.op) then
      match ChannelStep(s, At(s, a.pid), a.op)
      case None => s
      case Some((s', p')) => s'.(procs := s.procs[a.pid := p'])
    else
      match TableStep(lib, s.tables, At(s, a.pid), a.op)
      case None => s
      case Some((t', p')) => s.(tables := t', procs := s.procs[a.pid := p'])
  }

  /** A run: any steps of any handlers in any order. */
  ghost function Run(lib: Library, acts: seq<Action>): Sys {
    if acts == [] then START
    else Step(lib, Run(lib, acts[..|acts| - 1]), acts[|acts| - 1])
  }
}
