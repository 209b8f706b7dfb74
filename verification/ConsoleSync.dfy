/** The console and the server together: requests are served one at a time, each
    event reaches the console before the next, and lists may be on their way
    meanwhile. Exactly when the queue agrees with the table. */
module ConsoleSync {
  import opened Prelude
  import opened Sorting
  import opened Models
  import opened Grants
  import opened Store
  import opened Daemon
  import opened Serving
  import opened Console
  import opened ConsoleLaws
  import opened ConsoleQueue
  import opened ConsoleFlight
  import Rules

  /** lastLoad is when the list was served that arrived last; replies are the asks of
      the console's own requests whose responses are on their way. */
  datatype World = World(t: Tables, v: View, lastLoad: int, now: int, flights: seq<Flight>, replies: multiset<string>)

  /** own: the request came from the console, which removes the ask itself when the
      response arrives. A list is served at one moment and arrives, if it does, at
      another; lists may overtake each other, and so may responses. */
  datatype Happening =
    | Served(r: Request, own: bool, at: int)
    | Responded(id: string, at: int)
    | ListServed(list: seq<Loaded>, at: int)
    | ListArrived(k: nat, at: int)
    | Ticked(at: int)
    | Pressed(key: Input, at: int)

  /** The console answers, dismisses, approves, and snoozes for a minute or more. */
  predicate FromConsole(r: Request) {
    r.ToAnswer? || r.ToDismiss? || r.ToStore? || (r.ToSnooze? && r.minutes >= 1)
  }

  /** An event about a row that has changed is noted for every list on its way. */
  function NotedAll(fs: seq<Flight>, e: Event): seq<Flight> {
    seq(|fs|, i requires 0 <= i < |fs| => Noted(fs[i], e))
  }

  function HeardBy(fs: seq<Flight>, e: Option<Event>, changed: bool): seq<Flight> {
    if e.Some? && changed then NotedAll(fs, e.value) else fs
  }

  function ServedNext(w: World, r: Request, own: bool, at: int): World {
    var (t', e) := Serve(w.t, r, at);
    World(t', Hear(w.v, e, at), w.lastLoad, at, HeardBy(w.flights, e, t'.notifications != w.t.notifications),
          if own && e.Some? then w.replies + multiset{Subject(e.value)} else w.replies)
  }

  predicate QueueKey(key: Input) {
    key.Arrow? || key.BackKey? || key.Pick? || key.Entered?
  }

  /** One thing happens; nothing happens in the past, and no other list is served. */
  ghost function Next(w: World, h: Happening): World {
    if h.at < w.now then w
    else
      match h
      case Served(r, own, at) => if own && !FromConsole(r) then w else ServedNext(w, r, own, at)
      case Responded(id, at) =>
        if id !in w.replies then w
        else w.(v := RemoveAsk(w.v, id), now := at, replies := w.replies - multiset{id})
      case ListServed(list, at) =>
        if IsList(w.t, at, list) then w.(now := at, flights := w.flights + [Flight(list, at, [])]) else w
      case ListArrived(k, at) =>
        if k >= |w.flights| then w
        else
          World(w.t, Refill(w.v, w.flights[k].list, at), w.flights[k].servedAt, at, w.flights[..k] + w.flights[k + 1..],
                w.replies)
      case Ticked(at) => w.(v := Normalize(w.v, at), now := at)
      case Pressed(key, at) => if QueueKey(key) then w.(v := Take(w.v, key).0, now := at) else w
  }

  ghost function RunWorld(start: int, hs: seq<Happening>): World {
    if hs == [] then World(Tables(map[], map[]), BLANK, start, start, [], multiset{})
    else Next(RunWorld(start, hs[..|hs| - 1]), hs[|hs| - 1])
  }

  ghost predicate Agree(w: World) {
    && RowsNamed(w.t) && w.lastLoad <= w.now && DistinctIds(w.v.queue)
    && ShownOk(w.t, w.v.queue) && MissingOk(w.t, w.v.queue, w.lastLoad, w.now)
  }

  // ── The condition ──────────────────────────────────────────────────────

  /** A snooze of less than a minute is served, and shows a live ask whose text is not "open". */
  predicate ShowsTimedOut(t: Tables, id: string, minutes: int, at: int) {
    && id in t.notifications && t.notifications[id].status != "open" && ReadStatus(t.notifications[id].status) == Open
    && minutes <= 0
    && (t.notifications[id].deadline.Some? ==> at < t.notifications[id].deadline.value)
  }

  /** The ask is open and has no reason to be missing from the queue. */
  predicate Due(w: World, id: string, at: int) {
    && id in w.t.notifications && w.t.notifications[id].status == "open"
    && !Excused(w.t.notifications[id], w.lastLoad, at)
  }

  /** What each happening must not do: a snooze show a timed-out ask; a failed timeout
      or a late response hide an ask that is due; a list arrive that does not fit what
      was heard. */
  ghost predicate Careful(w: World, h: Happening) {
    h.at >= w.now ==>
      match h
      case Served(ToSnooze(id, minutes), own, at) => (own ==> minutes >= 1) ==> !ShowsTimedOut(w.t, id, minutes, at)
      case Served(ToTimeOut(id, writeOk), own, at) => own || writeOk || !Due(w, id, at)
      case Responded(id, at) => id in w.replies ==> !Due(w, id, at)
      case ListArrived(k, at) => k < |w.flights| ==> Clean(w.flights[k], at)
      case _ => true
  }

  /** An agreement in which every list on its way is tracked. */
  ghost predicate Sound(w: World) {
    Agree(w) && forall k :: 0 <= k < |w.flights| ==> TrackOk(w.t, w.now, w.flights[k])
  }

  // ── What serving tells ─────────────────────────────────────────────────

  lemma SavedTold(t: Tables, m: Loaded, t': Tables, at: int)
    requires RowsNamed(t) && Fresh(m) && InsertNotification(t, m) == Some(t')
    ensures Told(t, t', if m.status == Open then Some(Show(m)) else None, at)
  {
  }

  lemma ByRuleTold(t: Tables, id: string, answer: string, at: int)
    requires RowsNamed(t)
    ensures Told(t, AnswerNotification(t, id, answer, Some(answer), None, at), Some(Hide(id)), at)
  {
  }

  lemma NothingTold(t: Tables, at: int)
    requires RowsNamed(t)
    ensures Told(t, t, None, at)
  {
  }

  lemma AskTold(x: Rules.Texts, rules: seq<Rules.Rule>, t: Tables, n: NewAsk, at: int)
    requires RowsNamed(t)
    ensures var (t', reply) := Serving.Ask(x, rules, t, n, at); Told(t, t', AskEvent(n.id, reply), at)
  {
    var (t', reply) := Serving.Ask(x, rules, t, n, at);
    EvaluatedIsFresh(x, rules, n, at);
    match reply
    case Known => NothingTold(t, at);
    case Taken => NothingTold(t, at);
    case ByRule(answer) => ByRuleTold(t, n.id, answer, at);
    case Saved(m) => SavedTold(t, m, t', at);
  }

  lemma SnoozeTold(t: Tables, id: string, minutes: int, at: int)
    requires RowsNamed(t) && !ShowsTimedOut(t, id, minutes, at)
    ensures Told(t, Serve(t, ToSnooze(id, minutes), at).0, Serve(t, ToSnooze(id, minutes), at).1, at)
  {
  }

  lemma GrantTold(t: Tables, g: StoredGrant, record: GrantRecord, at: int)
    requires RowsNamed(t)
    ensures var (t', r) := InsertGrantAnswering(t, g, record, at);
            if r.Ok? then Told(t, t', Some(Hide(r.value.id)), at) else t' == t
  {
  }

  lemma StoreTold(t: Tables, v: Verified, at: int)
    requires RowsNamed(t)
    ensures Told(t, Serve(t, ToStore(v), at).0, Serve(t, ToStore(v), at).1, at)
  {
    if v.parsed.record.Grant? {
      GrantTold(t, FromVerified(v, at), v.parsed.record.grant, at);
    }
  }

  lemma TimeOutTold(t: Tables, id: string, writeOk: bool, at: int)
    requires RowsNamed(t) && (writeOk || id !in t.notifications || t.notifications[id].status != "open")
    ensures Told(t, Serve(t, ToTimeOut(id, writeOk), at).0, Serve(t, ToTimeOut(id, writeOk), at).1, at)
  {
  }

  lemma AnswerTold(t: Tables, r: Request, at: int)
    requires RowsNamed(t) && r.ToAnswer?
    ensures Told(t, Serve(t, r, at).0, Serve(t, r, at).1, at)
  {
  }

  lemma CancelTold(t: Tables, r: Request, at: int)
    requires RowsNamed(t) && r.ToCancel?
    ensures Told(t, Serve(t, r, at).0, Serve(t, r, at).1, at)
  {
  }

  lemma DismissTold(t: Tables, r: Request, at: int)
    requires RowsNamed(t) && r.ToDismiss?
    ensures Told(t, Serve(t, r, at).0, Serve(t, r, at).1, at)
  {
  }

  lemma ClaimTold(t: Tables, r: Request, at: int)
    requires RowsNamed(t) && r.ToClaim?
    ensures Told(t, Serve(t, r, at).0, Serve(t, r, at).1, at)
  {
  }

  /** Every request but a timeout whose write fails tells the truth of its ask. */
  lemma ServeTold(t: Tables, r: Request, at: int)
    requires RowsNamed(t)
    requires r.ToSnooze? ==> !ShowsTimedOut(t, r.id, r.minutes, at)
    requires r.ToTimeOut? ==> r.writeOk || r.id !in t.notifications || t.notifications[r.id].status != "open"
    ensures Told(t, Serve(t, r, at).0, Serve(t, r, at).1, at)
  {
    match r
    case ToAsk(x, rules, n) => AskTold(x, rules, t, n, at);
    case ToSnooze(id, minutes) => SnoozeTold(t, id, minutes, at);
    case ToTimeOut(id, writeOk) => TimeOutTold(t, id, writeOk, at);
    case ToStore(v) => StoreTold(t, v, at);
    case ToAnswer(_, _, _, _) => AnswerTold(t, r, at);
    case ToCancel(_) => CancelTold(t, r, at);
    case ToDismiss(_) => DismissTold(t, r, at);
    case ToClaim(_, _) => ClaimTold(t, r, at);
  }

  // ── Each happening ─────────────────────────────────────────────────────

  lemma LaterMissing(t: Tables, queue: seq<Loaded>, lastLoad: int, now: int, at: int)
    requires MissingOk(t, queue, lastLoad, now) && now <= at
    ensures MissingOk(t, queue, lastLoad, at)
  {
  }

  lemma TracksLater(t: Tables, now: int, f: Flight, at: int)
    requires TrackOk(t, now, f) && now <= at
    ensures TrackOk(t, at, f)
  {
    forall id ensures Tracked(t, at, f, id) {
      assert Tracked(t, now, f, id);
      TrackedLater(t, now, f, id, at);
    }
  }

  lemma FlightsLater(w: World, w': World)
    requires Sound(w) && w.now <= w'.now && w'.t == w.t && w'.flights == w.flights
    ensures forall k :: 0 <= k < |w'.flights| ==> TrackOk(w'.t, w'.now, w'.flights[k])
  {
    forall k | 0 <= k < |w'.flights| ensures TrackOk(w'.t, w'.now, w'.flights[k]) {
      TracksLater(w.t, w.now, w.flights[k], w'.now);
    }
  }

  lemma TickSound(w: World, at: int)
    requires Sound(w) && w.now <= at
    ensures Sound(w.(v := Normalize(w.v, at), now := at))
  {
    LaterMissing(w.t, w.v.queue, w.lastLoad, w.now, at);
    TidyAgrees(w.t, w.v.queue, w.lastLoad, at);
    NormalizeQueue(w.v, at);
    FlightsLater(w, w.(v := Normalize(w.v, at), now := at));
  }

  lemma KeySound(w: World, key: Input, at: int)
    requires Sound(w) && w.now <= at && QueueKey(key)
    ensures Sound(w.(v := Take(w.v, key).0, now := at))
  {
    LaterMissing(w.t, w.v.queue, w.lastLoad, w.now, at);
    assert Take(w.v, key).0.queue == w.v.queue;
    FlightsLater(w, w.(v := Take(w.v, key).0, now := at));
  }

  lemma ListServedSound(w: World, list: seq<Loaded>, at: int)
    requires Sound(w) && w.now <= at && IsList(w.t, at, list)
    ensures Sound(w.(now := at, flights := w.flights + [Flight(list, at, [])]))
  {
    LaterMissing(w.t, w.v.queue, w.lastLoad, w.now, at);
    ServedTracks(w.t, list, at);
    FlightsLater(w, w.(now := at));
  }

  lemma ArrivedIff(w: World, k: nat, at: int)
    requires Sound(w) && w.now <= at && k < |w.flights|
    ensures Agree(Next(w, ListArrived(k, at))) <==> Clean(w.flights[k], at)
    ensures Clean(w.flights[k], at) ==> Sound(Next(w, ListArrived(k, at)))
  {
    var f, w' := w.flights[k], Next(w, ListArrived(k, at));
    ArrivalAgreesIff(w.t, f, w.now, at);
    NormalizeQueue(w.v.(queue := f.list), at);
    KeptDistinct(f.list, at);
    forall i | 0 <= i < |w'.flights| ensures TrackOk(w'.t, w'.now, w'.flights[i]) {
      var j := if i < k then i else i + 1;
      assert w'.flights[i] == w.flights[j];
      TracksLater(w.t, w.now, w.flights[j], at);
    }
  }

  lemma HearAgrees(w: World, t': Tables, e: Option<Event>, at: int)
    requires Agree(w) && w.now <= at && Told(w.t, t', e, at)
    ensures DistinctIds(Hear(w.v, e, at).queue) && ShownOk(t', Hear(w.v, e, at).queue)
    ensures MissingOk(t', Hear(w.v, e, at).queue, w.lastLoad, at)
  {
    var queue := w.v.queue;
    LaterMissing(w.t, queue, w.lastLoad, w.now, at);
    match e
    case None => SilentAgrees(w.t, t', queue, w.lastLoad, at);
    case Some(Hide(id)) =>
      RemoveMembers(w.v, id);
      HideAgrees(w.t, t', queue, RemoveAsk(w.v, id).queue, id, w.lastLoad, at);
    case Some(Show(n)) =>
      ShowAgrees(w.t, t', queue, n, w.lastLoad, at);
      NormalizeQueue(w.v.(queue := Filter(queue, Not(n.id)) + [n]), at);
  }

  lemma SameRowsSilent(t: Tables, t': Tables)
    requires t'.notifications == t.notifications
    ensures OthersSame(t, t', None)
  {
  }

  /** A list on its way, after an event that tells the truth. */
  lemma FlightTold(t: Tables, t': Tables, now: int, f: Flight, e: Option<Event>, at: int)
    requires TrackOk(t, now, f) && now <= at && Told(t, t', e, at)
    ensures TrackOk(t', at, if e.Some? && t'.notifications != t.notifications then Noted(f, e.value) else f)
  {
    if e.Some? && t'.notifications != t.notifications {
      TrackTold(t, t', now, f, e.value, at);
    } else {
      if e.Some? { SameRowsSilent(t, t'); }
      TrackSilent(t, t', now, f, at);
    }
  }

  lemma FlightsTold(w: World, t': Tables, e: Option<Event>, at: int)
    requires Sound(w) && w.now <= at && Told(w.t, t', e, at)
    ensures var fs := HeardBy(w.flights, e, t'.notifications != w.t.notifications);
            forall k :: 0 <= k < |fs| ==> TrackOk(t', at, fs[k])
  {
    var fs := HeardBy(w.flights, e, t'.notifications != w.t.notifications);
    forall k | 0 <= k < |fs| ensures TrackOk(t', at, fs[k]) {
      FlightTold(w.t, t', w.now, w.flights[k], e, at);
    }
  }

  /** A request that tells the truth. */
  lemma ServedSound(w: World, r: Request, own: bool, at: int)
    requires Sound(w) && w.now <= at
    requires Told(w.t, Serve(w.t, r, at).0, Serve(w.t, r, at).1, at)
    ensures Sound(ServedNext(w, r, own, at))
  {
    var (t', e) := Serve(w.t, r, at);
    HearAgrees(w, t', e, at);
    FlightsTold(w, t', e, at);
  }

  /** A snooze that shows a timed-out ask. */
  lemma TimedOutIsShown(w: World, id: string, minutes: int, at: int)
    requires Agree(w) && w.now <= at && ShowsTimedOut(w.t, id, minutes, at)
    ensures !Agree(ServedNext(w, ToSnooze(id, minutes), false, at))
  {
    var (t', e) := Serve(w.t, ToSnooze(id, minutes), at);
    var n := Models.Load(t'.notifications[id]);
    assert e == Some(Show(n)) && Live(n, at);
    var q := Filter(w.v.queue, Not(n.id)) + [n];
    NormalizeQueue(w.v.(queue := q), at);
    assert n in q by { assert q[|q| - 1] == n; }
    KeptMember(q, at, n);
    assert !Backing(t', n);
  }

  /** From any sound agreement, serving a snooze keeps it exactly when it is not one of
      less than a minute on a timed-out ask whose deadline has not passed. */
  lemma SnoozeIff(w: World, id: string, minutes: int, own: bool, at: int)
    requires Sound(w) && w.now <= at && (own ==> minutes >= 1)
    ensures Agree(ServedNext(w, ToSnooze(id, minutes), own, at)) <==> !ShowsTimedOut(w.t, id, minutes, at)
    ensures !ShowsTimedOut(w.t, id, minutes, at) ==> Sound(ServedNext(w, ToSnooze(id, minutes), own, at))
  {
    if ShowsTimedOut(w.t, id, minutes, at) {
      TimedOutIsShown(w, id, minutes, at);
    } else {
      SnoozeTold(w.t, id, minutes, at);
      ServedSound(w, ToSnooze(id, minutes), own, at);
    }
  }

  /** The console drops an ask whose row has not changed. */
  lemma DroppedIff(w: World, id: string, at: int, w': World)
    requires Sound(w) && w.now <= at && w'.t == w.t && w'.v == RemoveAsk(w.v, id) && w'.flights == w.flights
    requires w'.lastLoad == w.lastLoad && w'.now == at
    ensures Agree(w') <==> !Due(w, id, at)
    ensures Agree(w') ==> Sound(w')
  {
    LaterMissing(w.t, w.v.queue, w.lastLoad, w.now, at);
    RemoveMembers(w.v, id);
    if id in w.t.notifications && w.t.notifications[id].status == "open" {
      HideUnchanged(w.t, w.v.queue, w'.v.queue, id, w.lastLoad, at);
    } else {
      DropClosed(w.t, w.v.queue, w'.v.queue, id, w.lastLoad, at);
    }
    FlightsLater(w, w');
  }

  /** From any sound agreement, the removal that comes with the response to a request of
      the console keeps it exactly when the ask is not an open row or is excused from
      being shown by then. */
  lemma ResponseIff(w: World, id: string, at: int)
    requires Sound(w) && w.now <= at && id in w.replies
    ensures Agree(Next(w, Responded(id, at))) <==> !Due(w, id, at)
    ensures !Due(w, id, at) ==> Sound(Next(w, Responded(id, at)))
  {
    DroppedIff(w, id, at, Next(w, Responded(id, at)));
  }

  /** From any sound agreement, serving a timeout keeps it exactly when its write works,
      or the row is not open, or the ask is excused from being shown. */
  lemma TimeOutIff(w: World, id: string, writeOk: bool, at: int)
    requires Sound(w) && w.now <= at
    ensures Agree(ServedNext(w, ToTimeOut(id, writeOk), false, at)) <==> writeOk || !Due(w, id, at)
    ensures writeOk || !Due(w, id, at) ==> Sound(ServedNext(w, ToTimeOut(id, writeOk), false, at))
  {
    if writeOk || id !in w.t.notifications || w.t.notifications[id].status != "open" {
      TimeOutTold(w.t, id, writeOk, at);
      ServedSound(w, ToTimeOut(id, writeOk), false, at);
    } else {
      DroppedIff(w, id, at, ServedNext(w, ToTimeOut(id, writeOk), false, at));
    }
  }

  lemma ServedIff(w: World, r: Request, own: bool, at: int)
    requires Sound(w) && w.now <= at && (own ==> FromConsole(r))
    ensures Agree(ServedNext(w, r, own, at)) <==> Careful(w, Served(r, own, at))
    ensures Careful(w, Served(r, own, at)) ==> Sound(ServedNext(w, r, own, at))
  {
    match r
    case ToSnooze(id, minutes) => SnoozeIff(w, id, minutes, own, at);
    case ToTimeOut(id, writeOk) => TimeOutIff(w, id, writeOk, at);
    case _ =>
      ServeTold(w.t, r, at);
      ServedSound(w, r, own, at);
  }

  /** Whatever happens in a sound agreement, it leaves one exactly when it is careful. */
  lemma NextIff(w: World, h: Happening)
    requires Sound(w)
    ensures Agree(Next(w, h)) <==> Careful(w, h)
    ensures Careful(w, h) ==> Sound(Next(w, h))
  {
    if w.now <= h.at {
      match h
      case Served(r, own, at) => if own ==> FromConsole(r) { ServedIff(w, r, own, at); }
      case Responded(id, at) => if id in w.replies { ResponseIff(w, id, at); }
      case ListServed(list, at) => if IsList(w.t, at, list) { ListServedSound(w, list, at); }
      case ListArrived(k, at) => if k < |w.flights| { ArrivedIff(w, k, at); }
      case Ticked(at) => TickSound(w, at);
      case Pressed(key, at) => if QueueKey(key) { KeySound(w, key, at); }
    }
  }

  // ── Runs ───────────────────────────────────────────────────────────────

  ghost predicate CarefulAt(start: int, hs: seq<Happening>, i: nat)
    requires i < |hs|
  {
    Careful(RunWorld(start, hs[..i]), hs[i])
  }

  ghost predicate AgreeAt(start: int, hs: seq<Happening>, k: nat)
    requires k <= |hs|
  {
    Agree(RunWorld(start, hs[..k]))
  }

  lemma WorldStep(start: int, hs: seq<Happening>, i: nat)
    requires i < |hs|
    ensures RunWorld(start, hs[..i + 1]) == Next(RunWorld(start, hs[..i]), hs[i])
  {
    assert hs[..i + 1][..i] == hs[..i];
  }

  lemma {:induction false} SoundSoFar(start: int, hs: seq<Happening>, k: nat)
    requires k <= |hs| && forall i :: 0 <= i < k ==> CarefulAt(start, hs, i)
    ensures Sound(RunWorld(start, hs[..k]))
  {
    if k > 0 {
      SoundSoFar(start, hs, k - 1);
      WorldStep(start, hs, k - 1);
      assert CarefulAt(start, hs, k - 1);
      NextIff(RunWorld(start, hs[..k - 1]), hs[k - 1]);
    }
  }

  lemma {:induction false} AgreedIsSound(start: int, hs: seq<Happening>, k: nat)
    requires k <= |hs| && forall i :: 0 <= i <= k ==> AgreeAt(start, hs, i)
    ensures Sound(RunWorld(start, hs[..k]))
  {
    if k == 0 {
      SoundSoFar(start, hs, 0);
    } else {
      AgreedIsSound(start, hs, k - 1);
      AgreedStep(start, hs, k - 1);
    }
  }

  lemma AgreedStep(start: int, hs: seq<Happening>, i: nat)
    requires i < |hs| && Sound(RunWorld(start, hs[..i])) && AgreeAt(start, hs, i + 1)
    ensures CarefulAt(start, hs, i) && Sound(RunWorld(start, hs[..i + 1]))
  {
    WorldStep(start, hs, i);
    NextIff(RunWorld(start, hs[..i]), hs[i]);
  }

  /** The queue agrees with the table throughout a run exactly when no snooze of less
      than a minute shows a timed-out ask, no failed timeout and no late response hides
      an ask that is due, and every list that arrives fits what was heard since it was
      served. */
  lemma AgreesIff(start: int, hs: seq<Happening>)
    ensures (forall k :: 0 <= k <= |hs| ==> AgreeAt(start, hs, k)) <==>
            (forall i :: 0 <= i < |hs| ==> CarefulAt(start, hs, i))
  {
    if forall k :: 0 <= k <= |hs| ==> AgreeAt(start, hs, k) {
      forall i | 0 <= i < |hs| ensures CarefulAt(start, hs, i) {
        AgreedIsSound(start, hs, i);
        AgreedStep(start, hs, i);
      }
    }
    if forall i :: 0 <= i < |hs| ==> CarefulAt(start, hs, i) {
      forall k | 0 <= k <= |hs| ensures AgreeAt(start, hs, k) {
        SoundSoFar(start, hs, k);
      }
    }
  }

  /** A run in which every happening is careful. */
  ghost predicate CarefulRun(start: int, hs: seq<Happening>) {
    forall i :: 0 <= i < |hs| ==> CarefulAt(start, hs, i)
  }

  lemma CarefulIsSound(start: int, hs: seq<Happening>)
    requires CarefulRun(start, hs)
    ensures Sound(RunWorld(start, hs))
  {
    SoundSoFar(start, hs, |hs|);
    assert hs[..|hs|] == hs;
  }

  /** The queue never shows an ask the server would not list: an entry is its row as
      loaded, and is live exactly when the server would list it. */
  lemma ShowsOnlyListed(start: int, hs: seq<Happening>, n: Loaded)
    requires CarefulRun(start, hs) && n in RunWorld(start, hs).v.queue
    ensures var w := RunWorld(start, hs);
            && n.id in w.t.notifications && Models.Load(w.t.notifications[n.id]) == n
            && (Live(n, w.now) <==> Store.Listed(w.t.notifications[n.id], w.now))
  {
    CarefulIsSound(start, hs);
    assert Backing(RunWorld(start, hs).t, n);
  }

  // ── What the queue lacks ───────────────────────────────────────────────

  /** Nothing in the queue is snoozed beyond the moment its list was served. */
  ghost predicate Awake(w: World) {
    && (forall n :: n in w.v.queue ==> n.snoozeUntil.Some? ==> n.snoozeUntil.value <= w.lastLoad)
    && forall k :: 0 <= k < |w.flights| ==> WellServed(w.flights[k])
  }

  predicate SnoozesMinutes(h: Happening) {
    h.Served? && h.r.ToSnooze? ==> h.r.minutes >= 1
  }

  lemma NormalizeAwake(queue: seq<Loaded>, now: int, lastLoad: int)
    requires forall n :: n in queue && Live(n, now) ==> n.snoozeUntil.Some? ==> n.snoozeUntil.value <= lastLoad
    ensures forall n :: n in Kept(queue, now) ==> n.snoozeUntil.Some? ==> n.snoozeUntil.value <= lastLoad
  {
    KeptMembers(queue, now);
  }

  /** What a request shows live has never been snoozed, when snoozes last a minute. */
  lemma ShownIsAwake(t: Tables, r: Request, at: int)
    requires (r.ToSnooze? ==> r.minutes >= 1) && Serve(t, r, at).1.Some? && Serve(t, r, at).1.value.Show?
    ensures var n := Serve(t, r, at).1.value.n; Live(n, at) ==> n.snoozeUntil.None?
  {
    if r.ToAsk? {
      EvaluatedIsFresh(r.x, r.rules, r.n, at);
    }
  }

  lemma HearAwake(w: World, r: Request, at: int)
    requires Awake(w) && DistinctIds(w.v.queue) && (r.ToSnooze? ==> r.minutes >= 1)
    ensures var q := Hear(w.v, Serve(w.t, r, at).1, at).queue;
            forall n :: n in q ==> n.snoozeUntil.Some? ==> n.snoozeUntil.value <= w.lastLoad
  {
    var e := Serve(w.t, r, at).1;
    match e
    case None =>
    case Some(Hide(id)) => RemoveMembers(w.v, id);
    case Some(Show(n)) =>
      ShownIsAwake(w.t, r, at);
      var q := Filter(w.v.queue, Not(n.id)) + [n];
      NormalizeQueue(w.v.(queue := q), at);
      forall m | m in q && Live(m, at) ensures m.snoozeUntil.Some? ==> m.snoozeUntil.value <= w.lastLoad {
        OtherMember(w.v.queue, n.id, m);
        assert m == n || m in Filter(w.v.queue, Not(n.id));
      }
      NormalizeAwake(q, at, w.lastLoad);
  }

  lemma ArrivedAwake(w: World, k: nat, at: int)
    requires Awake(w) && w.now <= at && k < |w.flights|
    ensures Awake(Next(w, ListArrived(k, at)))
  {
    NormalizeQueue(w.v.(queue := w.flights[k].list), at);
    NormalizeAwake(w.flights[k].list, at, w.flights[k].servedAt);
  }

  lemma TickedAwake(w: World, at: int)
    requires Awake(w) && w.now <= at
    ensures Awake(Next(w, Ticked(at)))
  {
    NormalizeQueue(w.v, at);
    NormalizeAwake(w.v.queue, at, w.lastLoad);
  }

  lemma ListServedAwake(w: World, list: seq<Loaded>, at: int)
    requires Sound(w) && Awake(w) && w.now <= at
    ensures Awake(Next(w, ListServed(list, at)))
  {
    if IsList(w.t, at, list) { ServedTracks(w.t, list, at); }
  }

  lemma ServedAwake(w: World, r: Request, own: bool, at: int)
    requires Sound(w) && Awake(w) && (r.ToSnooze? ==> r.minutes >= 1)
    ensures Awake(ServedNext(w, r, own, at))
  {
    HearAwake(w, r, at);
  }

  lemma NextAwake(w: World, h: Happening)
    requires Sound(w) && Awake(w) && SnoozesMinutes(h)
    ensures Awake(Next(w, h))
  {
    if w.now <= h.at {
      match h
      case Served(r, own, at) => if own ==> FromConsole(r) { ServedAwake(w, r, own, at); }
      case Responded(id, at) => if id in w.replies { RemoveMembers(w.v, id); }
      case ListServed(list, at) => ListServedAwake(w, list, at);
      case ListArrived(k, at) => if k < |w.flights| { ArrivedAwake(w, k, at); }
      case Ticked(at) => TickedAwake(w, at);
      case Pressed(key, at) => if QueueKey(key) { assert Take(w.v, key).0.queue == w.v.queue; }
    }
  }

  lemma {:induction false} AwakeSoFar(start: int, hs: seq<Happening>, k: nat)
    requires k <= |hs| && CarefulRun(start, hs) && forall i :: 0 <= i < |hs| ==> SnoozesMinutes(hs[i])
    ensures Awake(RunWorld(start, hs[..k]))
  {
    if k > 0 {
      AwakeSoFar(start, hs, k - 1);
      SoundSoFar(start, hs, k - 1);
      WorldStep(start, hs, k - 1);
      NextAwake(RunWorld(start, hs[..k - 1]), hs[k - 1]);
    }
  }

  /** With snoozes of at least a minute, a listed ask is missing from the queue exactly
      when its snooze ended after the list was served that arrived last. */
  lemma LacksIffSnoozed(start: int, hs: seq<Happening>, id: string)
    requires CarefulRun(start, hs) && forall i :: 0 <= i < |hs| ==> SnoozesMinutes(hs[i])
    requires id in RunWorld(start, hs).t.notifications
    requires Store.Listed(RunWorld(start, hs).t.notifications[id], RunWorld(start, hs).now)
    ensures var w := RunWorld(start, hs);
            var row := w.t.notifications[id];
            !Member(w.v.queue, id) <==> row.snoozeUntil.Some? && row.snoozeUntil.value > w.lastLoad
  {
    CarefulIsSound(start, hs);
    AwakeSoFar(start, hs, |hs|);
    assert hs[..|hs|] == hs;
    var w := RunWorld(start, hs);
    if Member(w.v.queue, id) {
      MemberHas(w.v.queue, id);
      var n :| n in w.v.queue && n.id == id;
      assert Backing(w.t, n);
    }
  }

  // ── Responses ──────────────────────────────────────────────────────────

  predicate Shut(t: Tables, id: string) {
    id in t.notifications && t.notifications[id].status != "open"
  }

  lemma StoreKeepsShut(t: Tables, g: StoredGrant, record: GrantRecord, at: int, id: string)
    requires Shut(t, id)
    ensures Shut(InsertGrantAnswering(t, g, record, at).0, id)
  {
  }

  /** No request opens a row again. */
  lemma ServeKeepsShut(t: Tables, r: Request, at: int, id: string)
    requires Shut(t, id)
    ensures Shut(Serve(t, r, at).0, id)
  {
    if r.ToStore? && r.v.parsed.record.Grant? {
      StoreKeepsShut(t, FromVerified(r.v, at), r.v.parsed.record.grant, at, id);
    }
  }

  lemma NextKeepsShut(w: World, h: Happening, id: string)
    requires Shut(w.t, id)
    ensures Shut(Next(w, h).t, id)
  {
    if h.Served? { ServeKeepsShut(w.t, h.r, h.at, id); }
  }

  ghost predicate ShutAt(start: int, hs: seq<Happening>, k: nat, id: string)
    requires k <= |hs|
  {
    Shut(RunWorld(start, hs[..k]).t, id)
  }

  lemma ShutStep(start: int, hs: seq<Happening>, i: nat, id: string)
    requires i < |hs| && ShutAt(start, hs, i, id)
    ensures ShutAt(start, hs, i + 1, id)
  {
    WorldStep(start, hs, i);
    NextKeepsShut(RunWorld(start, hs[..i]), hs[i], id);
  }

  lemma {:induction false} StaysShut(start: int, hs: seq<Happening>, k: nat, m: nat, id: string)
    requires k <= m <= |hs| && ShutAt(start, hs, k, id)
    ensures ShutAt(start, hs, m, id)
    decreases m - k
  {
    if k < m {
      ShutStep(start, hs, k, id);
      StaysShut(start, hs, k + 1, m, id);
    }
  }

  /** An answer, a dismissal or a grant of the console is served as step k and tells of the ask. */
  ghost predicate Closes(start: int, hs: seq<Happening>, k: nat, id: string)
    requires k < |hs|
  {
    var w := RunWorld(start, hs[..k]);
    && hs[k].Served? && hs[k].own && FromConsole(hs[k].r) && !hs[k].r.ToSnooze? && w.now <= hs[k].at
    && Serve(w.t, hs[k].r, hs[k].at).1.Some? && Subject(Serve(w.t, hs[k].r, hs[k].at).1.value) == id
  }

  lemma ClosedIsShut(t: Tables, r: Request, at: int)
    requires RowsNamed(t) && FromConsole(r) && !r.ToSnooze? && Serve(t, r, at).1.Some?
    ensures Shut(Serve(t, r, at).0, Subject(Serve(t, r, at).1.value))
  {
    ServeTold(t, r, at);
  }

  /** The response to an answer, a dismissal or a grant is harmless however late it is:
      only the response to a snooze can hide an ask that is due. */
  lemma ClosingResponseIsCareful(start: int, hs: seq<Happening>, k: nat, id: string, at: int)
    requires k < |hs| && CarefulRun(start, hs) && Closes(start, hs, k, id)
    ensures Careful(RunWorld(start, hs), Responded(id, at))
  {
    SoundSoFar(start, hs, k);
    WorldStep(start, hs, k);
    ClosedIsShut(RunWorld(start, hs[..k]).t, hs[k].r, hs[k].at);
    StaysShut(start, hs, k + 1, |hs|, id);
    assert hs[..|hs|] == hs;
  }

  // ── A load ─────────────────────────────────────────────────────────────

  /** The server lists the ask at both moments. */
  predicate ListedAtBoth(t: Tables, id: string, a: int, b: int) {
    id in t.notifications && Store.Listed(t.notifications[id], a) && Store.Listed(t.notifications[id], b)
  }

  /** A list that arrives with nothing heard since it was served becomes the queue,
      oldest first: the asks the server lists, and did list then. */
  lemma QuietLoadShowsTheList(start: int, hs: seq<Happening>, k: nat, at: int)
    requires CarefulRun(start, hs) && RunWorld(start, hs).now <= at
    requires k < |RunWorld(start, hs).flights| && RunWorld(start, hs).flights[k].heard == []
    ensures var (w, w') := (RunWorld(start, hs), Next(RunWorld(start, hs), ListArrived(k, at)));
            && Agree(w') && Sorted(w'.v.queue, OlderFirst)
            && forall id :: Member(w'.v.queue, id) <==> ListedAtBoth(w.t, id, w.flights[k].servedAt, at)
  {
    CarefulIsSound(start, hs);
    QuietArrival(RunWorld(start, hs), k, at);
  }

  lemma QuietArrival(w: World, k: nat, at: int)
    requires Sound(w) && w.now <= at && k < |w.flights| && w.flights[k].heard == []
    ensures var w' := Next(w, ListArrived(k, at));
            && Agree(w') && Sorted(w'.v.queue, OlderFirst)
            && forall id :: Member(w'.v.queue, id) <==> ListedAtBoth(w.t, id, w.flights[k].servedAt, at)
  {
    var f := w.flights[k];
    forall id ensures Fits(f, id, at) {
      assert LastHeard(f.heard, id) == None;
    }
    ArrivedIff(w, k, at);
    NormalizeQueue(w.v.(queue := f.list), at);
    SortSorts(Filter(f.list, LiveAt(at)), OlderFirst);
    forall id ensures Member(Kept(f.list, at), id) <==> ListedAtBoth(w.t, id, f.servedAt, at) {
      QuietMember(w.t, f, id, w.now, at);
    }
  }

  lemma QuietMember(t: Tables, f: Flight, id: string, now: int, at: int)
    requires TrackOk(t, now, f) && f.heard == [] && now <= at
    ensures Member(Kept(f.list, at), id) <==> ListedAtBoth(t, id, f.servedAt, at)
  {
    KeptShows(f.list, at, id);
    assert LastHeard(f.heard, id) == None;
    assert Tracked(t, now, f, id);
    if ShowsLive(f.list, id, at) {
      var m :| m in f.list && m.id == id && Live(m, at);
      assert Backing(t, m);
    }
    if Member(f.list, id) {
      MemberHas(f.list, id);
      var m :| m in f.list && m.id == id;
      assert Backing(t, m);
    }
  }
}
