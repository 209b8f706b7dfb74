/** The two tables of src/db.rs. Each SQL statement, and each committed
    transaction, is a function from tables to tables; class Db runs them in
    place. */
module Store {
  import opened Prelude
  import opened Models
  import opened Grants

  datatype Tables = Tables(notifications: map<string, Row>, grants: map<string, StoredGrant>)

  // ── Notifications ──────────────────────────────────────────────────────

  /** INSERT: refused when the primary key is taken. snooze_until and note are
      not among the inserted columns. */
  function InsertNotification(t: Tables, n: Loaded): Option<Tables> {
    if n.id in t.notifications then None
    else
      var row := WithStatus(n, StatusText(n.status)).(snoozeUntil := None, note := None);
      Some(t.(notifications := t.notifications[n.id := row]))
  }

  function GetNotification(t: Tables, id: string): Option<Loaded> {
    if id in t.notifications then Some(Load(t.notifications[id])) else None
  }

  /** UPDATE one row by id; no row, no change. */
  function UpdateRow(t: Tables, id: string, row: Row): Tables {
    if id in t.notifications then t.(notifications := t.notifications[id := row]) else t
  }

  function UpdateStatus(t: Tables, id: string, status: NotificationStatus): Tables {
    if id !in t.notifications then t
    else UpdateRow(t, id, t.notifications[id].(status := StatusText(status)))
  }

  function AnswerNotification(t: Tables, id: string, answer: string, shown: Option<string>, note: Option<string>,
                              at: int): Tables {
    if id !in t.notifications then t
    else UpdateRow(t, id, t.notifications[id].(status := "answered", answer := Some(answer), answerLabel := shown,
                                               answeredAt := Some(at), note := note))
  }

  function DismissNotification(t: Tables, id: string, at: int): Tables {
    if id !in t.notifications then t
    else UpdateRow(t, id, t.notifications[id].(status := "dismissed", answeredAt := Some(at)))
  }

  const MINUTE: int := 60000

  /** LEAST(now + minutes, COALESCE(deadline, now + minutes)). */
  function SnoozeTime(row: Row, minutes: int, now: int): int {
    var proposed := now + minutes * MINUTE;
    match row.deadline
    case Some(d) => if d < proposed then d else proposed
    case None => proposed
  }

  function SnoozeNotification(t: Tables, id: string, minutes: int, now: int): Tables {
    if id !in t.notifications then t
    else UpdateRow(t, id, t.notifications[id].(snoozeUntil := Some(SnoozeTime(t.notifications[id], minutes, now))))
  }

  /** The WHERE clause of list_open_notifications. */
  predicate Listed(row: Row, now: int) {
    && row.status == "open"
    && (row.snoozeUntil.None? || row.snoozeUntil.value <= now)
    && (row.deadline.None? || row.deadline.value > now)
  }

  // ── Grants ─────────────────────────────────────────────────────────────

  /** INSERT ... ON CONFLICT (id) DO NOTHING; None when nothing was inserted. */
  function InsertGrantRow(t: Tables, g: StoredGrant): Option<Tables> {
    if g.id in t.grants then None else Some(t.(grants := t.grants[g.id := g]))
  }

  /** The UPDATE of the grant transaction, guarded by the text of the status. */
  function AnswerIfOpen(t: Tables, id: string, a: GrantAnswer, at: int): Tables {
    if id !in t.notifications || t.notifications[id].status != "open" then t
    else UpdateRow(t, id, t.notifications[id].(status := "answered", answer := Some(a.answer),
                          answerLabel := Some(a.answerLabel), answeredAt := Some(at), note := a.note))
  }

  /** The notification insert_grant_answering returns: answered, whatever the row says. */
  function AnsweredBy(n: Loaded, a: GrantAnswer, at: int): Loaded {
    n.(status := Answered, answer := Some(a.answer), answerLabel := Some(a.answerLabel), answeredAt := Some(at),
       note := a.note)
  }

  function InsertGrantAnswering(t: Tables, g: StoredGrant, record: GrantRecord, at: int)
    : (Tables, Result<Loaded, GrantError>)
  {
    match GetNotification(t, record.askId)
    case None => (t, Err(NotificationNotFound(record.askId)))
    case Some(n) =>
      match CheckGrantForNotification(record, n)
      case Some(e) => (t, Err(e))
      case None =>
        match InsertGrantRow(t, g)
        case None => (t, Err(IdCollision(g.id)))
        case Some(t') => (AnswerIfOpen(t', n.id, AnswerOf(record), at), Ok(AnsweredBy(n, AnswerOf(record), at)))
  }

  /** COALESCE(revoked_by, $1): the first revoke stays. */
  function MarkRevoked(t: Tables, target: string, revoker: string): Tables {
    if target !in t.grants || t.grants[target].revokedBy.Some? then t
    else t.(grants := t.grants[target := t.grants[target].(revokedBy := Some(revoker))])
  }

  function InsertGrantRevoking(t: Tables, g: StoredGrant, target: string): (Tables, Result<(), GrantError>) {
    if target !in t.grants then (t, Err(TargetNotFound(target)))
    else
      match InsertGrantRow(t, g)
      case None => (t, Err(IdCollision(g.id)))
      case Some(t') => (MarkRevoked(t', target, g.id), Ok(()))
  }

  function InsertGrantOnly(t: Tables, g: StoredGrant): (Tables, Result<(), GrantError>) {
    match InsertGrantRow(t, g)
    case None => (t, Err(IdCollision(g.id)))
    case Some(t') => (t', Ok(()))
  }

  /** UPDATE ... WHERE id = $3 AND claimed_by IS NULL; whether a row changed. */
  function ClaimGrant(t: Tables, id: string, claimer: string, at: int): (Tables, bool) {
    if id !in t.grants || t.grants[id].claimedBy.Some? then (t, false)
    else (t.(grants := t.grants[id := t.grants[id].(claimedBy := Some(claimer), claimedAt := Some(at))]), true)
  }

  /** The grant that attach_answering_grant picks among those answering an ask:
      the last kind-grant in the order of issue, then of arrival. Rows that tie
      in both come in any order. */
  ghost predicate Latest(t: Tables, ask: string, id: string) {
    && id in t.grants && Names(t.grants[id], ask)
    && forall other :: other in t.grants && Names(t.grants[other], ask) ==>
         || t.grants[other].issuedAt < t.grants[id].issuedAt
         || (t.grants[other].issuedAt == t.grants[id].issuedAt && t.grants[other].createdAt <= t.grants[id].createdAt)
  }

  /** A stored grant of kind grant that answers an ask. */
  predicate Names(g: StoredGrant, ask: string) {
    g.kind == "grant" && g.notificationId == Some(ask)
  }

  // ── The tables, in place ───────────────────────────────────────────────

  class Db {
    var notifications: map<string, Row>
    var grants: map<string, StoredGrant>

    ghost function Contents(): Tables
      reads this
    {
      Tables(notifications, grants)
    }

    constructor ()
      ensures Contents() == Tables(map[], map[])
    {
      notifications, grants := map[], map[];
    }

    method Insert(n: Loaded) returns (ok: bool)
      modifies this
      ensures ok == InsertNotification(old(Contents()), n).Some?
      ensures Contents() == if ok then InsertNotification(old(Contents()), n).value else old(Contents())
    {
      ok := n.id !in notifications;
      if ok {
        var row := WithStatus(n, StatusText(n.status));
        notifications := notifications[n.id := row.(snoozeUntil := None, note := None)];
      }
    }

    method Get(id: string) returns (n: Option<Loaded>)
      ensures n == GetNotification(Contents(), id)
    {
      if id in notifications {
        n := Some(Load(notifications[id]));
      } else {
        n := None;
      }
    }

    /** Whether the caller has a row created after a moment. */
    method SeenCaller(caller: string, since: int) returns (seen: bool)
      ensures seen <==> exists id :: (id in notifications && notifications[id].callerId == Some(caller)
                                      && notifications[id].createdAt > since)
    {
      seen := exists id :: (id in notifications && notifications[id].callerId == Some(caller)
                            && notifications[id].createdAt > since);
    }

    method SetStatus(id: string, status: NotificationStatus)
      modifies this`notifications
      ensures Contents() == UpdateStatus(old(Contents()), id, status)
    {
      if id in notifications {
        notifications := notifications[id := notifications[id].(status := StatusText(status))];
      }
    }

    method Answer(id: string, answer: string, shown: Option<string>, note: Option<string>, at: int)
      modifies this`notifications
      ensures Contents() == AnswerNotification(old(Contents()), id, answer, shown, note, at)
    {
      if id in notifications {
        var row := notifications[id];
        row := row.(status := "answered", answer := Some(answer));
        row := row.(answerLabel := shown, answeredAt := Some(at), note := note);
        notifications := notifications[id := row];
      }
    }

    method Dismiss(id: string, at: int)
      modifies this`notifications
      ensures Contents() == DismissNotification(old(Contents()), id, at)
    {
      if id in notifications {
        notifications := notifications[id := notifications[id].(status := "dismissed", answeredAt := Some(at))];
      }
    }

    method Snooze(id: string, minutes: int, now: int) returns (n: Option<Loaded>)
      modifies this`notifications
      ensures Contents() == SnoozeNotification(old(Contents()), id, minutes, now)
      ensures n == GetNotification(Contents(), id)
    {
      if id !in notifications {
        return None;
      }
      var row := notifications[id];
      var until := now + minutes * MINUTE;
      if row.deadline.Some? && row.deadline.value < until {
        until := row.deadline.value;
      }
      notifications := notifications[id := row.(snoozeUntil := Some(until))];
      n := Some(Load(notifications[id]));
    }

    method InsertGrant(g: StoredGrant) returns (inserted: bool)
      modifies this`grants
      ensures inserted == InsertGrantRow(old(Contents()), g).Some?
      ensures Contents() == if inserted then InsertGrantRow(old(Contents()), g).value else old(Contents())
    {
      inserted := g.id !in grants;
      if inserted {
        grants := grants[g.id := g];
      }
    }

    /** The transaction: checks on the loaded row, the insert, the guarded update. */
    method InsertAnswering(g: StoredGrant, record: GrantRecord, at: int) returns (r: Result<Loaded, GrantError>)
      modifies this
      ensures (Contents(), r) == InsertGrantAnswering(old(Contents()), g, record, at)
    {
      var loaded := Get(record.askId);
      if loaded.None? {
        return Err(NotificationNotFound(record.askId));
      }
      var notif := loaded.value;
      var refused := CheckGrantForNotification(record, notif);
      if refused.Some? {
        return Err(refused.value);
      }
      var inserted := InsertGrant(g);
      if !inserted {
        return Err(IdCollision(g.id));
      }
      var a := AnswerOf(record);
      if notif.id in notifications && notifications[notif.id].status == "open" {
        var row := notifications[notif.id];
        row := row.(status := "answered", answer := Some(a.answer), answerLabel := Some(a.answerLabel));
        row := row.(answeredAt := Some(at), note := a.note);
        notifications := notifications[notif.id := row];
      }
      notif := notif.(status := Answered, answer := Some(a.answer), answerLabel := Some(a.answerLabel));
      notif := notif.(answeredAt := Some(at), note := a.note);
      r := Ok(notif);
    }

    method InsertRevoking(g: StoredGrant, target: string) returns (r: Result<(), GrantError>)
      modifies this`grants
      ensures (Contents(), r) == InsertGrantRevoking(old(Contents()), g, target)
    {
      if target !in grants {
        return Err(TargetNotFound(target));
      }
      var inserted := InsertGrant(g);
      if !inserted {
        return Err(IdCollision(g.id));
      }
      if grants[target].revokedBy.None? {
        grants := grants[target := grants[target].(revokedBy := Some(g.id))];
      }
      r := Ok(());
    }

    method InsertOnly(g: StoredGrant) returns (r: Result<(), GrantError>)
      modifies this`grants
      ensures (Contents(), r) == InsertGrantOnly(old(Contents()), g)
    {
      var inserted := InsertGrant(g);
      r := if inserted then Ok(()) else Err(IdCollision(g.id));
    }

    method Claim(id: string, claimer: string, at: int) returns (ok: bool)
      modifies this`grants
      ensures (Contents(), ok) == ClaimGrant(old(Contents()), id, claimer, at)
    {
      ok := id in grants && grants[id].claimedBy.None?;
      if ok {
        grants := grants[id := grants[id].(claimedBy := Some(claimer), claimedAt := Some(at))];
      }
    }
  }
}
