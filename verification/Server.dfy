/** The handlers as they are written, on the tables and the waiters in place,
    when nothing else runs between their statements; and the proof that this
    is what their steps come to. */
module Server {
  import opened Prelude
  import opened Json
  import opened Models
  import opened Grants
  import opened Store
  import opened Daemon
  import opened DaemonRaces
  import Rules
  import opened Serving

  /** The state after a handler that may have an envelope for the waiters. */
  function Woken(s: Sys, out: (Tables, Option<Answering>)): (Sys, Option<Answering>) {
    (if out.1.Some? then Deliver(s.(tables := out.0), out.1.value) else s.(tables := out.0), out.1)
  }

  // ── The handlers, in place ─────────────────────────────────────────────

  class Server {
    const db: Db
    var waiters: map<string, Chan>
    var sent: map<Chan, seq<Answering>>
    var nextChan: nat

    ghost function State(): Sys
      reads this, db
    {
      Sys(db.Contents(), waiters, sent, map[], nextChan)
    }

    constructor ()
      ensures fresh(db) && State() == START
    {
      db := new Db();
      waiters, sent, nextChan := map[], map[], 0;
    }

    /** waiters.remove(id), and one send. */
    method Wake(env: Answering)
      modifies this
      ensures State() == Deliver(old(State()), env)
    {
      if env.id in waiters {
        var c := waiters[env.id];
        waiters := waiters - {env.id};
        sent := sent[c := (if c in sent then sent[c] else []) + [env]];
      }
    }

    method Ask(x: Rules.Texts, rules: seq<Rules.Rule>, n: NewAsk, now: int) returns (r: AskReply)
      modifies db
      ensures (db.Contents(), r) == Serving.Ask(x, rules, old(db.Contents()), n, now)
    {
      if n.callerId.Some? {
        var seen := db.SeenCaller(n.callerId.value, now - DAY);
        if seen {
          return Known;
        }
      }
      var notif, auto := Rules.Evaluate(x, now, rules, n);
      if auto.Some? {
        db.Answer(n.id, auto.value, auto, None, now);
        return ByRule(auto.value);
      }
      var ok := db.Insert(notif);
      r := if ok then Saved(notif) else Taken;
    }

    method Answer(id: string, answer: string, via: Option<string>, note: Option<string>,
                  now: int) returns (r: Option<Answering>)
      modifies this, db
      ensures (State(), r) == Woken(old(State()), Serving.Answer(old(db.Contents()), id, answer, via, note, now))
    {
      var notif := db.Get(id);
      if notif.None? || !PlainAnswerAllowed(notif.value) {
        return None;
      }
      db.Answer(id, answer, Some(AnswerLabel(answer, via)), note, now);
      var updated := db.Get(id);
      var env := PlainEnvelope(id, answer, via, now, updated.value);
      Wake(env);
      r := Some(env);
    }

    method Cancel(id: string) returns (r: CancelReply)
      modifies db
      ensures (db.Contents(), r) == Serving.Cancel(old(db.Contents()), id)
    {
      var notif := db.Get(id);
      if notif.None? {
        return Missing;
      }
      if notif.value.status == Answered {
        return AlreadyAnswered;
      }
      db.SetStatus(id, Cancelled);
      r := Serving.Closed;
    }

    method Dismiss(id: string, now: int) returns (r: Option<Answering>)
      modifies this, db
      ensures (State(), r) == Woken(old(State()), Serving.Dismiss(old(db.Contents()), id, now))
    {
      var notif := db.Get(id);
      if notif.None? || notif.value.status != Open {
        return None;
      }
      db.Dismiss(id, now);
      var env := EmptyEnvelope(id, Some(now), "dismissed", notif.value.once);
      Wake(env);
      r := Some(env);
    }

    method Snooze(id: string, minutes: int, now: int) returns (r: Option<Loaded>)
      modifies db
      ensures (db.Contents(), r) == Serving.Snooze(old(db.Contents()), id, minutes, now)
    {
      var notif := db.Get(id);
      if notif.None? || notif.value.status != Open || PastDeadline(notif.value, minutes, now) {
        return None;
      }
      r := db.Snooze(id, minutes, now);
    }

    method Post(v: Verified, now: int) returns (stored: bool)
      modifies this, db
      ensures var (t', p) := StoreVerified(old(db.Contents()), v, now);
              && State() == (if p.Wake? then Deliver(old(State()).(tables := t'), p.env)
                             else old(State()).(tables := t'))
              && stored == (p != Finished(Refused))
    {
      var g := FromVerified(v, now);
      match v.parsed.record
      case Grant(record) =>
        var r := db.InsertAnswering(g, record, now);
        if r.Ok? {
          Wake(GrantAnswerEnvelope(r.value, record, v.envelope, now));
        }
        stored := r.Ok?;
      case Revoke(_, target, _, _, _) =>
        var r := db.InsertRevoking(g, target);
        stored := r.Ok?;
      case Enroll(_, _, _, _, _, _, _) =>
        var r := db.InsertOnly(g);
        stored := r.Ok?;
    }

    method Claim(id: string, claimer: string, now: int) returns (r: Option<StoredGrant>)
      modifies db
      ensures (db.Contents(), r) == Serving.Claim(old(db.Contents()), id, claimer, now)
    {
      if id !in db.grants || CheckClaim(db.grants[id]).Some? {
        return None;
      }
      var ok := db.Claim(id, claimer, now);
      if !ok {
        return None;
      }
      r := Some(db.grants[id]);
    }
  }

  // ── Running alone is running the steps ─────────────────────────────────

  lemma TableMove(lib: Library, s: Sys, pid: nat, op: Op, t': Tables, p': Proc)
    requires !OnChannel(op) && TableStep(lib, s.tables, At(s, pid), op) == Some((t', p'))
    ensures Step(lib, s, Action(pid, op)) == s.(tables := t', procs := s.procs[pid := p'])
  {
  }

  lemma SendMove(lib: Library, s: Sys, pid: nat, env: Answering)
    requires pid in s.procs && s.procs[pid] == Daemon.Wake(env)
    ensures Step(lib, s, Action(pid, Send)) == Deliver(s, env).(procs := s.procs[pid := Finished(Sent(env))])
  {
  }

  lemma FinishedNoStep(lib: Library, t: Tables, r: Reply, op: Op)
    ensures TableStep(lib, t, Some(Finished(r)), op).None?
  {
  }

  /** A finished handler takes no more steps. */
  lemma FinishedIdle(lib: Library, s: Sys, pid: nat, op: Op)
    requires pid in s.procs && s.procs[pid].Finished?
    ensures Step(lib, s, Action(pid, op)) == s
  {
    FinishedNoStep(lib, s.tables, s.procs[pid].r, op);
  }

  lemma {:induction false} FinishedRun(lib: Library, s: Sys, pid: nat, acts: seq<Action>)
    requires pid in s.procs && s.procs[pid].Finished? && forall i :: 0 <= i < |acts| ==> acts[i].pid == pid
    ensures RunFrom(lib, s, acts) == s
    decreases |acts|
  {
    if acts != [] {
      FinishedIdle(lib, s, pid, acts[0].op);
      FinishedRun(lib, s, pid, acts[1..]);
    }
  }

  /** The handler of one process writes only that process's state. */
  lemma Overwrite(procs: map<nat, Proc>, pid: nat, p: Proc, q: Proc)
    ensures procs[pid := p][pid := q] == procs[pid := q]
  {
  }

  lemma RunFirst(lib: Library, s: Sys, a: Action, acts: seq<Action>, s1: Sys)
    requires Step(lib, s, a) == s1
    ensures RunFrom(lib, s, [a] + acts) == RunFrom(lib, s1, acts)
  {
    assert ([a] + acts)[1..] == acts;
  }

  /** A first step on the tables, and the rest from there. */
  lemma Begin(lib: Library, s: Sys, pid: nat, op: Op, t1: Tables, p1: Proc, rest: seq<Action>)
    requires !OnChannel(op) && TableStep(lib, s.tables, At(s, pid), op) == Some((t1, p1))
    requires forall i :: 0 <= i < |rest| ==> rest[i].pid == pid
    ensures var s1 := s.(tables := t1, procs := s.procs[pid := p1]);
            RunFrom(lib, s, [Action(pid, op)] + rest) == if p1.Finished? then s1 else RunFrom(lib, s1, rest)
  {
    var s1 := s.(tables := t1, procs := s.procs[pid := p1]);
    TableMove(lib, s, pid, op, t1, p1);
    RunFirst(lib, s, Action(pid, op), rest, s1);
    if p1.Finished? {
      FinishedRun(lib, s1, pid, rest);
    }
  }

  lemma End(lib: Library, s: Sys, pid: nat, env: Answering)
    requires pid in s.procs && s.procs[pid] == Daemon.Wake(env)
    ensures RunFrom(lib, s, [Action(pid, Send)]) == Deliver(s, env).(procs := s.procs[pid := Finished(Sent(env))])
  {
    SendMove(lib, s, pid, env);
    var acts := [Action(pid, Send)];
    assert acts[1..] == [];
  }

  /** The step that ends a handler. */
  lemma LastStep(lib: Library, s: Sys, pid: nat, p: Proc, s1: Sys, op: Op, t': Tables, r: Reply)
    requires s1 == s.(procs := s.procs[pid := p])
    requires !OnChannel(op) && TableStep(lib, s.tables, Some(p), op) == Some((t', Finished(r)))
    ensures RunFrom(lib, s1, [Action(pid, op)] + []) == s.(tables := t', procs := s.procs[pid := Finished(r)])
  {
    Begin(lib, s1, pid, op, t', Finished(r), []);
    Overwrite(s.procs, pid, p, Finished(r));
  }

  lemma CancelBegins(t: Tables, id: string, p1: Proc)
    requires CancelHandler(t, None, CancelBegin(id)) == Some((t, p1))
    ensures if p1.Finished? then Serving.Cancel(t, id) == (t, if p1 == Finished(Done) then AlreadyAnswered else Missing)
            else p1 == CancelWrite(id) && Serving.Cancel(t, id) == (UpdateStatus(t, id, Cancelled), Serving.Closed)
    ensures p1.Finished? ==> p1 == Finished(Done) || p1 == Finished(Refused)
  {
  }

  /** cancel */
  lemma CancelSteps(lib: Library, s: Sys, pid: nat, id: string)
    requires pid !in s.procs
    ensures var (t', r) := Serving.Cancel(s.tables, id);
            RunFrom(lib, s, [Action(pid, CancelBegin(id))] + ([Action(pid, CancelCommit)] + [])) ==
            s.(tables := t', procs := s.procs[pid := Finished(if r == Missing then Refused else Done)])
  {
    var p1 := CancelHandler(s.tables, None, CancelBegin(id)).value.1;
    CancelBegins(s.tables, id, p1);
    Begin(lib, s, pid, CancelBegin(id), s.tables, p1, [Action(pid, CancelCommit)] + []);
    if !p1.Finished? {
      CancelEnd(lib, s, pid, id, UpdateStatus(s.tables, id, Cancelled));
    }
  }

  lemma CancelEnd(lib: Library, s: Sys, pid: nat, id: string, t2: Tables)
    requires t2 == UpdateStatus(s.tables, id, Cancelled)
    ensures RunFrom(lib, s.(procs := s.procs[pid := CancelWrite(id)]), [Action(pid, CancelCommit)] + []) ==
            s.(tables := t2, procs := s.procs[pid := Finished(Done)])
  {
    var p := CancelWrite(id);
    LastStep(lib, s, pid, p, s.(procs := s.procs[pid := p]), CancelCommit, t2, Done);
  }

  lemma SnoozeBegins(t: Tables, id: string, minutes: int, now: int, p1: Proc)
    requires SnoozeHandler(t, None, SnoozeBegin(id, minutes, now)) == Some((t, p1))
    ensures if p1.Finished? then Serving.Snooze(t, id, minutes, now) == (t, None) && p1 == Finished(Refused)
            else p1 == SnoozeWrite(id, minutes) && Serving.Snooze(t, id, minutes, now).1.Some?
                 && Serving.Snooze(t, id, minutes, now).0 == SnoozeNotification(t, id, minutes, now)
  {
  }

  /** snooze */
  lemma SnoozeSteps(lib: Library, s: Sys, pid: nat, id: string, minutes: int, now: int)
    requires pid !in s.procs
    ensures var (t', r) := Serving.Snooze(s.tables, id, minutes, now);
            RunFrom(lib, s, [Action(pid, SnoozeBegin(id, minutes, now))] + ([Action(pid, SnoozeCommit(now))] + [])) ==
            s.(tables := t', procs := s.procs[pid := Finished(if r.Some? then Done else Refused)])
  {
    var p1 := SnoozeHandler(s.tables, None, SnoozeBegin(id, minutes, now)).value.1;
    SnoozeBegins(s.tables, id, minutes, now, p1);
    Begin(lib, s, pid, SnoozeBegin(id, minutes, now), s.tables, p1, [Action(pid, SnoozeCommit(now))] + []);
    if !p1.Finished? {
      SnoozeEnd(lib, s, pid, id, minutes, now, SnoozeNotification(s.tables, id, minutes, now));
    }
  }

  lemma SnoozeEnd(lib: Library, s: Sys, pid: nat, id: string, minutes: int, now: int, t2: Tables)
    requires t2 == SnoozeNotification(s.tables, id, minutes, now)
    ensures RunFrom(lib, s.(procs := s.procs[pid := SnoozeWrite(id, minutes)]),
                    [Action(pid, SnoozeCommit(now))] + []) ==
            s.(tables := t2, procs := s.procs[pid := Finished(Done)])
  {
    var p := SnoozeWrite(id, minutes);
    LastStep(lib, s, pid, p, s.(procs := s.procs[pid := p]), SnoozeCommit(now), t2, Done);
  }

  /** What a handler that answers leaves: the envelope delivered, or nothing changed. */
  function Told(s: Sys, out: (Tables, Option<Answering>), pid: nat): Sys {
    Woken(s, out).0.(procs := s.procs[pid := Finished(if out.1.Some? then Sent(out.1.value) else Refused)])
  }

  /** dismiss */
  lemma DismissSteps(lib: Library, s: Sys, pid: nat, id: string, now: int)
    requires pid !in s.procs
    ensures RunFrom(lib, s, [Action(pid, DismissBegin(id, now))]
                    + ([Action(pid, DismissCommit(now))] + [Action(pid, Send)])) ==
            Told(s, Serving.Dismiss(s.tables, id, now), pid)
  {
    var (t1, p1) := DismissHandler(s.tables, None, DismissBegin(id, now)).value;
    Begin(lib, s, pid, DismissBegin(id, now), t1, p1, [Action(pid, DismissCommit(now))] + [Action(pid, Send)]);
    if p1.DismissWrite? {
      DismissRest(lib, s, pid, p1, s.(procs := s.procs[pid := p1]));
    }
  }

  lemma DismissRest(lib: Library, s: Sys, pid: nat, p1: Proc, s1: Sys)
    requires p1.DismissWrite? && s1 == s.(procs := s.procs[pid := p1])
    ensures var env := EmptyEnvelope(p1.id, Some(p1.now), "dismissed", p1.loaded.once);
            RunFrom(lib, s1, [Action(pid, DismissCommit(p1.now))] + [Action(pid, Send)]) ==
            Deliver(s.(tables := DismissNotification(s.tables, p1.id, p1.now)), env)
              .(procs := s.procs[pid := Finished(Sent(env))])
  {
    var env := EmptyEnvelope(p1.id, Some(p1.now), "dismissed", p1.loaded.once);
    var t2 := DismissNotification(s.tables, p1.id, p1.now);
    Begin(lib, s1, pid, DismissCommit(p1.now), t2, Daemon.Wake(env), [Action(pid, Send)]);
    Overwrite(s.procs, pid, p1, Daemon.Wake(env));
    Overwrite(s.procs, pid, Daemon.Wake(env), Finished(Sent(env)));
    End(lib, s.(tables := t2, procs := s.procs[pid := Daemon.Wake(env)]), pid, env);
  }

  /** answer */
  lemma AnswerSteps(lib: Library, s: Sys, pid: nat, id: string, answer: string, via: Option<string>,
                    note: Option<string>, now: int)
    requires pid !in s.procs
    ensures RunFrom(lib, s, [Action(pid, AnswerBegin(id, answer, via, note, now))]
              + ([Action(pid, AnswerCommit(now))] + ([Action(pid, AnswerReread(true))] + [Action(pid, Send)]))) ==
            Told(s, Serving.Answer(s.tables, id, answer, via, note, now), pid)
  {
    var (t1, p1) := AnswerHandler(s.tables, None, AnswerBegin(id, answer, via, note, now)).value;
    Begin(lib, s, pid, AnswerBegin(id, answer, via, note, now), t1, p1,
          [Action(pid, AnswerCommit(now))] + ([Action(pid, AnswerReread(true))] + [Action(pid, Send)]));
    if p1.AnswerWrite? {
      AnswerRest(lib, s, pid, p1, s.(procs := s.procs[pid := p1]),
                 AnswerNotification(s.tables, id, answer, Some(AnswerLabel(answer, via)), note, now));
    }
  }

  lemma AnswerRest(lib: Library, s: Sys, pid: nat, p1: Proc, s1: Sys, t2: Tables)
    requires p1.AnswerWrite? && s1 == s.(procs := s.procs[pid := p1]) && p1.id in s.tables.notifications
    requires t2 == AnswerNotification(s.tables, p1.id, p1.answer, Some(AnswerLabel(p1.answer, p1.via)), p1.note, p1.now)
    ensures var env := PlainEnvelope(p1.id, p1.answer, p1.via, p1.now, Load(t2.notifications[p1.id]));
            RunFrom(lib, s1, [Action(pid, AnswerCommit(p1.now))]
                    + ([Action(pid, AnswerReread(true))] + [Action(pid, Send)])) ==
            Deliver(s.(tables := t2), env).(procs := s.procs[pid := Finished(Sent(env))])
  {
    var p2 := AnswerRead(p1.id, p1.answer, p1.via, p1.now, p1.loaded);
    Begin(lib, s1, pid, AnswerCommit(p1.now), t2, p2, [Action(pid, AnswerReread(true))] + [Action(pid, Send)]);
    Overwrite(s.procs, pid, p1, p2);
    RereadRest(lib, s.(tables := t2), pid, p2, s.(tables := t2, procs := s.procs[pid := p2]));
  }

  lemma RereadRest(lib: Library, s: Sys, pid: nat, p2: Proc, s2: Sys)
    requires p2.AnswerRead? && s2 == s.(procs := s.procs[pid := p2]) && p2.id in s.tables.notifications
    ensures var env := PlainEnvelope(p2.id, p2.answer, p2.via, p2.now, Load(s.tables.notifications[p2.id]));
            RunFrom(lib, s2, [Action(pid, AnswerReread(true))] + [Action(pid, Send)]) ==
            Deliver(s, env).(procs := s.procs[pid := Finished(Sent(env))])
  {
    var env := PlainEnvelope(p2.id, p2.answer, p2.via, p2.now, Load(s.tables.notifications[p2.id]));
    Begin(lib, s2, pid, AnswerReread(true), s.tables, Daemon.Wake(env), [Action(pid, Send)]);
    Overwrite(s.procs, pid, p2, Daemon.Wake(env));
    Overwrite(s.procs, pid, Daemon.Wake(env), Finished(Sent(env)));
    End(lib, s.(procs := s.procs[pid := Daemon.Wake(env)]), pid, env);
  }

  /** What storing leads to: the waiters, or an end. */
  lemma StoreOutcome(t: Tables, v: Verified, now: int)
    ensures var p := StoreVerified(t, v, now).1; p.Wake? || (p.Finished? && p.r.Created?) || p == Finished(Refused)
  {
  }

  lemma PostVerifies(lib: Library, t: Tables, raw: Json, registry: Registry, now: int, v: Verified)
    requires VerifyEnvelope(lib, registry, raw) == Ok(v)
    ensures GrantHandler(lib, t, None, Post(raw, registry, now)) == Some(StoreVerified(t, v, now))
  {
  }

  lemma PostMove(lib: Library, t: Tables, op: Op, out: Option<(Tables, Proc)>)
    requires op.Post? && GrantHandler(lib, t, None, op) == out
    ensures TableStep(lib, t, None, op) == out
  {
  }

  /** Waking the waiters, when there is something to wake them for. */
  lemma SendIfAny(lib: Library, s: Sys, pid: nat, p: Proc, s1: Sys)
    requires s1 == s.(procs := s.procs[pid := p]) && p.Wake?
    ensures RunFrom(lib, s1, [Action(pid, Send)]) == Deliver(s, p.env).(procs := s.procs[pid := Finished(Sent(p.env))])
  {
    End(lib, s1, pid, p.env);
    Overwrite(s.procs, pid, p, Finished(Sent(p.env)));
  }

  /** post_grant, when the envelope verifies */
  lemma PostSteps(lib: Library, s: Sys, pid: nat, raw: Json, registry: Registry, now: int, v: Verified)
    requires pid !in s.procs && VerifyEnvelope(lib, registry, raw) == Ok(v)
    ensures var (t1, p1) := StoreVerified(s.tables, v, now);
            RunFrom(lib, s, [Action(pid, Post(raw, registry, now))] + [Action(pid, Send)]) ==
            (if p1.Wake? then Deliver(s.(tables := t1), p1.env) else s.(tables := t1)).(procs :=
              s.procs[pid := if p1.Wake? then Finished(Sent(p1.env)) else p1])
  {
    StoreOutcome(s.tables, v, now);
    PostVerifies(lib, s.tables, raw, registry, now, v);
    PostMove(lib, s.tables, Post(raw, registry, now), Some(StoreVerified(s.tables, v, now)));
    PostFrom(lib, s, pid, Post(raw, registry, now), StoreVerified(s.tables, v, now).0,
             StoreVerified(s.tables, v, now).1);
  }

  lemma PostFrom(lib: Library, s: Sys, pid: nat, op: Op, t1: Tables, p1: Proc)
    requires op.Post? && TableStep(lib, s.tables, At(s, pid), op) == Some((t1, p1)) && (p1.Wake? || p1.Finished?)
    ensures RunFrom(lib, s, [Action(pid, op)] + [Action(pid, Send)]) ==
            (if p1.Wake? then Deliver(s.(tables := t1), p1.env) else s.(tables := t1)).(procs :=
              s.procs[pid := if p1.Wake? then Finished(Sent(p1.env)) else p1])
  {
    Begin(lib, s, pid, op, t1, p1, [Action(pid, Send)]);
    if p1.Wake? {
      SendIfAny(lib, s.(tables := t1), pid, p1, s.(tables := t1, procs := s.procs[pid := p1]));
    }
  }

  lemma ClaimOutcome(t: Tables, id: string, claimer: string, now: int)
    ensures ClaimHandler(t, None, ClaimBegin(id, claimer)) == Some((t, ClaimBegun(t, id, claimer)))
    ensures var (t', r) := Serving.Claim(t, id, claimer, now);
            if ClaimBegun(t, id, claimer) == ClaimWrite(id, claimer)
            then id in t.grants && t.grants[id].claimedBy.None? && t' == ClaimGrant(t, id, claimer, now).0
                 && id in t'.grants && r == Some(t'.grants[id])
            else ClaimBegun(t, id, claimer) == Finished(Refused) && t' == t && r.None?
  {
  }

  /** claim_grant */
  lemma ClaimSteps(lib: Library, s: Sys, pid: nat, id: string, claimer: string, now: int)
    requires pid !in s.procs
    ensures var (t', r) := Serving.Claim(s.tables, id, claimer, now);
            RunFrom(lib, s, [Action(pid, ClaimBegin(id, claimer))]
                    + ([Action(pid, ClaimCommit(now))] + ([Action(pid, ClaimReread)] + []))) ==
            s.(tables := t', procs := s.procs[pid := Finished(if r.Some? then Claimed(id, claimer, r.value)
                                                              else Refused)])
  {
    var p1 := ClaimBegun(s.tables, id, claimer);
    ClaimOutcome(s.tables, id, claimer, now);
    Begin(lib, s, pid, ClaimBegin(id, claimer), s.tables, p1, [Action(pid, ClaimCommit(now))]
          + ([Action(pid, ClaimReread)] + []));
    if p1.ClaimWrite? {
      ClaimRest(lib, s, pid, id, claimer, now, s.(procs := s.procs[pid := p1]));
    }
  }

  lemma ClaimTaken(t: Tables, id: string, claimer: string, now: int, t2: Tables)
    requires id in t.grants && t.grants[id].claimedBy.None? && t2 == ClaimGrant(t, id, claimer, now).0
    ensures ClaimHandler(t, Some(ClaimWrite(id, claimer)), ClaimCommit(now)) == Some((t2, ClaimRead(id, claimer, now)))
    ensures id in t2.grants
    ensures ClaimHandler(t2, Some(ClaimRead(id, claimer, now)), ClaimReread) ==
            Some((t2, Finished(Claimed(id, claimer, t2.grants[id]))))
  {
  }

  lemma ClaimRest(lib: Library, s: Sys, pid: nat, id: string, claimer: string, now: int, s1: Sys)
    requires s1 == s.(procs := s.procs[pid := ClaimWrite(id, claimer)]) && id in s.tables.grants
    requires s.tables.grants[id].claimedBy.None?
    ensures var t2 := ClaimGrant(s.tables, id, claimer, now).0;
            RunFrom(lib, s1, [Action(pid, ClaimCommit(now))] + ([Action(pid, ClaimReread)] + [])) ==
            s.(tables := t2, procs := s.procs[pid := Finished(Claimed(id, claimer, t2.grants[id]))])
  {
    var t2, p2 := ClaimGrant(s.tables, id, claimer, now).0, ClaimRead(id, claimer, now);
    ClaimTaken(s.tables, id, claimer, now, t2);
    Begin(lib, s1, pid, ClaimCommit(now), t2, p2, [Action(pid, ClaimReread)] + []);
    Overwrite(s.procs, pid, ClaimWrite(id, claimer), p2);
    ClaimEnd(lib, s.(tables := t2), pid, p2, Claimed(id, claimer, t2.grants[id]));
  }

  lemma ClaimEnd(lib: Library, s2: Sys, pid: nat, p2: Proc, r: Reply)
    requires ClaimHandler(s2.tables, Some(p2), ClaimReread) == Some((s2.tables, Finished(r)))
    ensures RunFrom(lib, s2.(procs := s2.procs[pid := p2]), [Action(pid, ClaimReread)] + []) ==
            s2.(procs := s2.procs[pid := Finished(r)])
  {
    LastStep(lib, s2, pid, p2, s2.(procs := s2.procs[pid := p2]), ClaimReread, s2.tables, r);
  }

  // ── Asking, and running out of time ────────────────────────────────────

  /** The second step of an ask: the automatic answer, or the insert. */
  function AskEnd(x: Rules.Texts, rules: seq<Rules.Rule>, n: NewAsk, now: int): Op {
    var e := Rules.Evaluated(x, now, rules, n);
    if e.auto.Some? then AskAutoAnswer(n.id, e.auto.value, now) else AskStore(e.n)
  }

  /** What the caller of ask is told of the row. */
  function AskOutcome(r: AskReply): Reply {
    if r == Taken then Refused else Done
  }

  lemma AskEnds(x: Rules.Texts, rules: seq<Rules.Rule>, t: Tables, n: NewAsk, now: int)
    requires n.callerId.Some? ==> !SeenCaller(t, n.callerId.value, now - DAY)
    requires Rules.Evaluated(x, now, rules, n).auto.Some? ==> n.id !in t.notifications
    ensures var (t', r) := Serving.Ask(x, rules, t, n, now);
            AskHandler(t, Some(AskPending(n.callerId, now)), AskEnd(x, rules, n, now)) ==
                Some((t', Finished(AskOutcome(r))))
  {
    EvaluatedIsFresh(x, rules, n, now);
  }

  lemma AskBegins(t: Tables, n: NewAsk, now: int)
    ensures AskHandler(t, None, AskCheck(n.callerId, now, true)) ==
            Some((t, if n.callerId.Some? && SeenCaller(t, n.callerId.value, now - DAY) then Finished(Done)
                     else AskPending(n.callerId, now)))
  {
  }

  /** ask: whatever the rules, its steps come to what the handler does in place; where
      a rule answers at once, with the new id not taken. */
  lemma AskSteps(lib: Library, x: Rules.Texts, rules: seq<Rules.Rule>, s: Sys, pid: nat, n: NewAsk, now: int)
    requires pid !in s.procs
    requires Rules.Evaluated(x, now, rules, n).auto.Some? ==> n.id !in s.tables.notifications
    ensures var (t', r) := Serving.Ask(x, rules, s.tables, n, now);
            RunFrom(lib, s, [Action(pid, AskCheck(n.callerId, now, true))]
                    + ([Action(pid, AskEnd(x, rules, n, now))] + [])) ==
            s.(tables := t', procs := s.procs[pid := Finished(AskOutcome(r))])
  {
    AskBegins(s.tables, n, now);
    var seen := n.callerId.Some? && SeenCaller(s.tables, n.callerId.value, now - DAY);
    var p1 := if seen then Finished(Done) else AskPending(n.callerId, now);
    Begin(lib, s, pid, AskCheck(n.callerId, now, true), s.tables, p1, [Action(pid, AskEnd(x, rules, n, now))] + []);
    if !seen {
      AskEnds(x, rules, s.tables, n, now);
      var (t', r) := Serving.Ask(x, rules, s.tables, n, now);
      AskRest(lib, s, pid, p1, AskEnd(x, rules, n, now), t', AskOutcome(r));
    }
  }

  lemma AskRest(lib: Library, s: Sys, pid: nat, p: Proc, op: Op, t': Tables, r: Reply)
    requires (op.AskStore? || op.AskAutoAnswer?) && AskHandler(s.tables, Some(p), op) == Some((t', Finished(r)))
    ensures RunFrom(lib, s.(procs := s.procs[pid := p]), [Action(pid, op)] + []) ==
            s.(tables := t', procs := s.procs[pid := Finished(r)])
  {
    LastStep(lib, s, pid, p, s.(procs := s.procs[pid := p]), op, t', r);
  }

  /** The last look of a wait finds the ask open, and its mark follows. */
  ghost predicate Marks(t: Tables, id: string, look: Op, mark: Op, t': Tables, reply: Answering) {
    && WaitHandler(t, Some(WaitLook(id)), look) == Some((t, WaitMark(id, reply)))
    && WaitHandler(t, Some(WaitMark(id, reply)), mark) == Some((t', Finished(Waited(id, reply))))
  }

  /** The last look of a wait ends it. */
  ghost predicate Ends(t: Tables, id: string, look: Op, t': Tables, reply: Answering) {
    WaitHandler(t, Some(WaitLook(id)), look) == Some((t, Finished(Waited(id, reply)))) && t' == t
  }

  lemma LookHandler(t: Tables, id: string, writeOk: bool, now: int)
    ensures var (t', reply) := Serving.TimeOut(t, id, writeOk, now);
            if GetNotification(t, id).Some? && GetNotification(t, id).value.status == Open
            then Marks(t, id, WaitReread(true, now), WaitTimeOut(writeOk), t', reply)
            else Ends(t, id, WaitReread(true, now), t', reply)
  {
  }

  /** The end of wait_for_answer, from where its time has run out and its place among
      the waiters is cleared. */
  lemma TimeOutSteps(lib: Library, s: Sys, pid: nat, id: string, writeOk: bool, now: int)
    ensures var (t', reply) := Serving.TimeOut(s.tables, id, writeOk, now);
            RunFrom(lib, s.(procs := s.procs[pid := WaitLook(id)]),
                    [Action(pid, WaitReread(true, now))] + ([Action(pid, WaitTimeOut(writeOk))] + [])) ==
            s.(tables := t', procs := s.procs[pid := Finished(Waited(id, reply))])
  {
    LookHandler(s.tables, id, writeOk, now);
    var (t', reply) := Serving.TimeOut(s.tables, id, writeOk, now);
    var open := GetNotification(s.tables, id).Some? && GetNotification(s.tables, id).value.status == Open;
    LookFrom(lib, s, pid, id, WaitReread(true, now), WaitTimeOut(writeOk), t', reply, open);
  }

  lemma LookFrom(lib: Library, s: Sys, pid: nat, id: string, look: Op, mark: Op, t': Tables, reply: Answering,
                 open: bool)
    requires look.WaitReread? && mark.WaitTimeOut?
    requires if open then Marks(s.tables, id, look, mark, t', reply) else Ends(s.tables, id, look, t', reply)
    ensures RunFrom(lib, s.(procs := s.procs[pid := WaitLook(id)]), [Action(pid, look)] + ([Action(pid, mark)] + [])) ==
            s.(tables := t', procs := s.procs[pid := Finished(Waited(id, reply))])
  {
    var s0 := s.(procs := s.procs[pid := WaitLook(id)]);
    var p1 := if open then WaitMark(id, reply) else Finished(Waited(id, reply));
    Begin(lib, s0, pid, look, s.tables, p1, [Action(pid, mark)] + []);
    Overwrite(s.procs, pid, WaitLook(id), p1);
    if open {
      LastStep(lib, s, pid, p1, s.(procs := s.procs[pid := p1]), mark, t', Waited(id, reply));
    }
  }
}
