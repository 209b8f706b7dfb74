/** A handler from start to end, when nothing else runs between its statements:
    what it makes of the tables, what it replies and what it broadcasts. */
module Serving {
  import opened Prelude
  import opened Models
  import opened Grants
  import opened Store
  import opened Daemon
  import Rules
  import RuleLaws

  const NOBODY := Notification("", "", "", "", Ack, 0, None, Open, 0, None, None, None, None, None, None, [], None,
                               None)

  /** The notification that ask builds of a request: open, and nobody has touched it. */
  type NewAsk = n: Loaded | Fresh(n) && n.status == Open witness NOBODY

  // ── Handlers ───────────────────────────────────────────────────────────

  /** The caller's earlier ask, the answer of a rule, a new row, or an id that is taken. */
  datatype AskReply = Known | ByRule(answer: string) | Saved(n: Loaded) | Taken

  function Ask(x: Rules.Texts, rules: seq<Rules.Rule>, t: Tables, n: NewAsk, now: int): (Tables, AskReply) {
    if n.callerId.Some? && SeenCaller(t, n.callerId.value, now - DAY) then (t, Known)
    else
      var e := Rules.Evaluated(x, now, rules, n);
      if e.auto.Some? then (AnswerNotification(t, n.id, e.auto.value, e.auto, None, now), ByRule(e.auto.value))
      else
        match InsertNotification(t, e.n)
        case None => (t, Taken)
        case Some(t') => (t', Saved(e.n))
  }

  function Answer(t: Tables, id: string, answer: string, via: Option<string>, note: Option<string>, now: int)
    : (Tables, Option<Answering>)
  {
    match GetNotification(t, id)
    case None => (t, None)
    case Some(n) =>
      if !PlainAnswerAllowed(n) then (t, None)
      else
        var t' := AnswerNotification(t, id, answer, Some(AnswerLabel(answer, via)), note, now);
        (t', Some(PlainEnvelope(id, answer, via, now, Load(t'.notifications[id]))))
  }

  datatype CancelReply = Missing | AlreadyAnswered | Closed

  function Cancel(t: Tables, id: string): (Tables, CancelReply) {
    match GetNotification(t, id)
    case None => (t, Missing)
    case Some(n) => if n.status == Answered then (t, AlreadyAnswered) else (UpdateStatus(t, id, Cancelled), Closed)
  }

  function Dismiss(t: Tables, id: string, now: int): (Tables, Option<Answering>) {
    match GetNotification(t, id)
    case None => (t, None)
    case Some(n) =>
      if n.status != Open then (t, None)
      else (DismissNotification(t, id, now), Some(EmptyEnvelope(id, Some(now), "dismissed", n.once)))
  }

  function Snooze(t: Tables, id: string, minutes: int, now: int): (Tables, Option<Loaded>) {
    match GetNotification(t, id)
    case None => (t, None)
    case Some(n) =>
      if n.status != Open || PastDeadline(n, minutes, now) then (t, None)
      else
        var t' := SnoozeNotification(t, id, minutes, now);
        (t', Some(Load(t'.notifications[id])))
  }

  /** The end of a wait that has run out of time. */
  function TimeOut(t: Tables, id: string, writeOk: bool, now: int): (Tables, Answering) {
    var found := GetNotification(t, id);
    (if found.Some? && found.value.status == Open && writeOk then UpdateStatus(t, id, TimedOut) else t,
     TimeOutEnvelope(id, found, now))
  }

  function Claim(t: Tables, id: string, claimer: string, now: int): (Tables, Option<StoredGrant>) {
    if id !in t.grants || CheckClaim(t.grants[id]).Some? then (t, None)
    else
      var (t', ok) := ClaimGrant(t, id, claimer, now);
      (t', if ok then Some(t'.grants[id]) else None)
  }

  // ── Requests and events ────────────────────────────────────────────────

  /** What the server broadcasts, as far as a queue is concerned: an ask to show
      (created, updated) or to hide (answered, cancelled, dismissed). */
  datatype Event = Show(n: Loaded) | Hide(id: string)

  datatype Request =
    | ToAsk(x: Rules.Texts, rules: seq<Rules.Rule>, n: NewAsk)
    | ToAnswer(id: string, answer: string, via: Option<string>, note: Option<string>)
    | ToCancel(id: string)
    | ToDismiss(id: string)
    | ToSnooze(id: string, minutes: int)
    | ToTimeOut(id: string, writeOk: bool)
    | ToStore(v: Verified)
    | ToClaim(id: string, claimer: string)

  /** The event of an ask: created when it is stored open, answered when a rule did. */
  function AskEvent(id: string, reply: AskReply): Option<Event> {
    match reply
    case Saved(n) => if n.status == Open then Some(Show(n)) else None
    case ByRule(_) => Some(Hide(id))
    case _ => None
  }

  function Serve(t: Tables, r: Request, now: int): (Tables, Option<Event>) {
    match r
    case ToAsk(x, rules, n) =>
      var (t', reply) := Ask(x, rules, t, n, now);
      (t', AskEvent(n.id, reply))
    case ToAnswer(id, answer, via, note) =>
      var (t', env) := Answer(t, id, answer, via, note, now);
      (t', if env.Some? then Some(Hide(id)) else None)
    case ToCancel(id) =>
      var (t', reply) := Cancel(t, id);
      (t', if reply == Closed then Some(Hide(id)) else None)
    case ToDismiss(id) =>
      var (t', env) := Dismiss(t, id, now);
      (t', if env.Some? then Some(Hide(id)) else None)
    case ToSnooze(id, minutes) =>
      var (t', n) := Snooze(t, id, minutes, now);
      (t', if n.Some? then Some(Show(n.value)) else None)
    case ToTimeOut(id, writeOk) => (TimeOut(t, id, writeOk, now).0, Some(Hide(id)))
    case ToStore(v) =>
      var (t', p) := StoreVerified(t, v, now);
      (t', if p.Wake? then Some(Hide(p.env.id)) else None)
    case ToClaim(id, claimer) => (Claim(t, id, claimer, now).0, None)
  }

  // ── Asking ─────────────────────────────────────────────────────────────

  /** What the rules make of a new ask is fresh, and its caller and id are the same. */
  lemma EvaluatedIsFresh(x: Rules.Texts, rules: seq<Rules.Rule>, n: NewAsk, now: int)
    ensures Fresh(Rules.Evaluated(x, now, rules, n).n)
    ensures Rules.Evaluated(x, now, rules, n).n.callerId == n.callerId
    ensures Rules.Evaluated(x, now, rules, n).n.id == n.id
  {
    RuleLaws.ApprovalNeverAutoAnswered(x, now, rules, n);
  }

  /** A rule's automatic answer is told to the caller and stored nowhere, as long as
      the new id is not taken; an approval ask is always stored, open or muted. */
  lemma AutoAnswerStoresNothing(x: Rules.Texts, rules: seq<Rules.Rule>, t: Tables, n: NewAsk, now: int)
    requires n.id !in t.notifications
    requires n.callerId.Some? ==> !SeenCaller(t, n.callerId.value, now - DAY)
    ensures var t' := Ask(x, rules, t, n, now).0;
            && (n.id in t'.notifications <==> Rules.Evaluated(x, now, rules, n).auto.None?)
            && (n.id !in t'.notifications ==> t' == t)
            && (n.questionType == Approval ==>
                n.id in t'.notifications && t'.notifications[n.id].status in {"open", "muted"})
  {
    EvaluatedIsFresh(x, rules, n, now);
    RuleLaws.ApprovalNeverAutoAnswered(x, now, rules, n);
  }

  // ── An answer is final, one handler at a time ──────────────────────────

  /** Rows stand under their own ids. */
  ghost predicate RowsNamed(t: Tables) {
    forall id :: id in t.notifications ==> t.notifications[id].id == id
  }

  ghost predicate SameRow(t: Tables, t': Tables, id: string)
    requires id in t.notifications
  {
    id in t'.notifications && t'.notifications[id] == t.notifications[id]
  }

  lemma AskKeepsRow(x: Rules.Texts, rules: seq<Rules.Rule>, t: Tables, n: NewAsk, now: int, id: string)
    requires id in t.notifications && n.id != id
    ensures SameRow(t, Ask(x, rules, t, n, now).0, id)
  {
    EvaluatedIsFresh(x, rules, n, now);
  }

  lemma GrantKeepsRow(t: Tables, g: StoredGrant, record: GrantRecord, now: int, id: string)
    requires RowsNamed(t) && id in t.notifications && t.notifications[id].status == "answered"
    ensures SameRow(t, InsertGrantAnswering(t, g, record, now).0, id)
  {
  }

  lemma StoreKeepsRow(t: Tables, v: Verified, now: int, id: string)
    requires RowsNamed(t) && id in t.notifications && t.notifications[id].status == "answered"
    ensures SameRow(t, StoreVerified(t, v, now).0, id)
  {
    if v.parsed.record.Grant? {
      GrantKeepsRow(t, FromVerified(v, now), v.parsed.record.grant, now, id);
    }
  }

  /** When handlers run one at a time an answer is final: no request of any kind
      changes the row of an answered ask, a new ask having an id of its own. */
  lemma AnswerIsFinal(t: Tables, r: Request, now: int, id: string)
    requires RowsNamed(t) && id in t.notifications && t.notifications[id].status == "answered"
    requires r.ToAsk? ==> r.n.id != id
    ensures SameRow(t, Serve(t, r, now).0, id)
  {
    match r
    case ToAsk(x, rules, n) => AskKeepsRow(x, rules, t, n, now, id);
    case ToStore(v) => StoreKeepsRow(t, v, now, id);
    case _ =>
  }
}
