/** Lists on their way to the console: a list is served at one moment and takes
    the queue's place at a later one, over a connection of its own, while events
    go on arriving. What was heard in between decides whether it still fits. */
module ConsoleFlight {
  import opened Prelude
  import opened Sorting
  import opened Models
  import opened Store
  import opened Serving
  import opened Console
  import opened ConsoleLaws
  import opened ConsoleQueue

  /** A list, when it was served, and the events of changed rows heard since. */
  datatype Flight = Flight(list: seq<Loaded>, servedAt: int, heard: seq<Event>)

  /** What GET /list may return at a moment. */
  ghost predicate IsList(t: Tables, now: int, list: seq<Loaded>) {
    && DistinctIds(list)
    && (forall n :: n in list ==>
          n.id in t.notifications && Store.Listed(t.notifications[n.id], now)
          && Models.Load(t.notifications[n.id]) == n)
    && (forall id :: id in t.notifications && Store.Listed(t.notifications[id], now) ==> Member(list, id))
  }

  /** The last event about an ask. */
  function LastHeard(heard: seq<Event>, id: string): (e: Option<Event>)
    ensures e.Some? ==> Subject(e.value) == id
  {
    if heard == [] then None
    else if Subject(heard[|heard| - 1]) == id then Some(heard[|heard| - 1])
    else LastHeard(heard[..|heard| - 1], id)
  }

  lemma HeardSnoc(heard: seq<Event>, e: Event, id: string)
    ensures LastHeard(heard + [e], id) == if Subject(e) == id then Some(e) else LastHeard(heard, id)
  {
    assert (heard + [e])[..|heard + [e]| - 1] == heard;
  }

  /** The list shows the ask as live. */
  ghost predicate ShowsLive(list: seq<Loaded>, id: string, at: int) {
    exists m :: m in list && m.id == id && Live(m, at)
  }

  /** The list still fits for one ask: nothing was heard of it; or it was closed and
      the list does not show it live; or it was created or snoozed and either the list
      has just that copy, or shows none live and the ask need not be shown. */
  ghost predicate Fits(f: Flight, id: string, at: int) {
    match LastHeard(f.heard, id)
    case None => true
    case Some(Hide(_)) => !ShowsLive(f.list, id, at)
    case Some(Show(n)) => n in f.list || (!ShowsLive(f.list, id, at) && Excused(n, f.servedAt, at))
  }

  /** The list that arrives fits what was heard since it was served. */
  ghost predicate Clean(f: Flight, at: int) {
    forall id :: Fits(f, id, at)
  }

  // ── What is known of a list in flight ──────────────────────────────────

  predicate WellServed(f: Flight) {
    DistinctIds(f.list) && forall m :: m in f.list ==> (m.snoozeUntil.Some? ==> m.snoozeUntil.value <= f.servedAt)
  }

  /** One ask in flight, by the last event about it: an unheard one is as the list has
      it; a hidden one is not open; a shown one is as last shown. */
  ghost predicate Tracked(t: Tables, now: int, f: Flight, id: string) {
    match LastHeard(f.heard, id)
    case None =>
      && (forall m :: m in f.list && m.id == id ==> Backing(t, m))
      && (id in t.notifications && t.notifications[id].status == "open" && !Member(f.list, id) ==>
            Excused(t.notifications[id], f.servedAt, now))
    case Some(Hide(_)) => id in t.notifications ==> t.notifications[id].status != "open"
    case Some(Show(n)) =>
      && id in t.notifications && Models.Load(t.notifications[id]) == n
      && (t.notifications[id].status == "open" || Excused(n, f.servedAt, now))
  }

  ghost predicate TrackOk(t: Tables, now: int, f: Flight) {
    f.servedAt <= now && WellServed(f) && forall id :: Tracked(t, now, f, id)
  }

  /** A list just served. */
  lemma ServedTracks(t: Tables, list: seq<Loaded>, at: int)
    requires IsList(t, at, list)
    ensures TrackOk(t, at, Flight(list, at, []))
  {
    var f := Flight(list, at, []);
    forall id ensures Tracked(t, at, f, id) {
      assert LastHeard(f.heard, id) == None;
    }
  }

  lemma TrackedLater(t: Tables, now: int, f: Flight, id: string, at: int)
    requires Tracked(t, now, f, id) && now <= at
    ensures Tracked(t, at, f, id)
  {
  }

  /** Rows that no event is about. */
  lemma TrackedSilent(t: Tables, t': Tables, now: int, f: Flight, id: string, at: int)
    requires Tracked(t, now, f, id) && now <= at
    requires id in t.notifications ==> id in t'.notifications && t'.notifications[id] == t.notifications[id]
    requires id !in t.notifications && id in t'.notifications ==> t'.notifications[id].status != "open"
    ensures Tracked(t', at, f, id)
  {
    if LastHeard(f.heard, id).None? {
      forall m | m in f.list && m.id == id ensures Backing(t', m) {
        assert Backing(t, m);
      }
    }
  }

  lemma TrackSilent(t: Tables, t': Tables, now: int, f: Flight, at: int)
    requires TrackOk(t, now, f) && now <= at && OthersSame(t, t', None)
    requires forall id :: id in t.notifications ==> id in t'.notifications
    ensures TrackOk(t', at, f)
  {
    forall id ensures Tracked(t', at, f, id) {
      assert Tracked(t, now, f, id);
      TrackedSilent(t, t', now, f, id, at);
    }
  }

  function Noted(f: Flight, e: Event): Flight {
    f.(heard := f.heard + [e])
  }

  /** An event that tells the truth of its ask, noted. */
  lemma TrackTold(t: Tables, t': Tables, now: int, f: Flight, e: Event, at: int)
    requires TrackOk(t, now, f) && now <= at && Told(t, t', Some(e), at)
    ensures TrackOk(t', at, Noted(f, e))
  {
    forall id ensures Tracked(t', at, Noted(f, e), id) {
      HeardSnoc(f.heard, e, id);
      if Subject(e) == id {
        TrackedSubject(t, t', f, e, at);
      } else {
        assert Tracked(t, now, f, id);
        TrackedSilent(t, t', now, f, id, at);
        OtherTracked(t', at, f, Noted(f, e), id);
      }
    }
  }

  lemma OtherTracked(t: Tables, at: int, f: Flight, f': Flight, id: string)
    requires Tracked(t, at, f, id) && f'.list == f.list && f'.servedAt == f.servedAt
    requires LastHeard(f'.heard, id) == LastHeard(f.heard, id)
    ensures Tracked(t, at, f', id)
  {
  }

  lemma TrackedSubject(t: Tables, t': Tables, f: Flight, e: Event, at: int)
    requires f.servedAt <= at && Told(t, t', Some(e), at)
    ensures Tracked(t', at, Noted(f, e), Subject(e))
  {
    HeardSnoc(f.heard, e, Subject(e));
  }

  // ── The list arrives ───────────────────────────────────────────────────

  lemma FitsShown(t: Tables, f: Flight, m: Loaded, now: int, at: int)
    requires WellServed(f) && Tracked(t, now, f, m.id) && now <= at && Fits(f, m.id, at)
    requires m in f.list && Live(m, at)
    ensures Backing(t, m)
  {
    match LastHeard(f.heard, m.id)
    case None =>
    case Some(Hide(_)) => assert ShowsLive(f.list, m.id, at);
    case Some(Show(n)) =>
      assert ShowsLive(f.list, m.id, at);
      SameCopy(f.list, n, m);
  }

  lemma SameCopy(list: seq<Loaded>, n: Loaded, m: Loaded)
    requires DistinctIds(list) && n in list && m in list && n.id == m.id
    ensures n == m
  {
    var i :| 0 <= i < |list| && list[i] == n;
    var j :| 0 <= j < |list| && list[j] == m;
  }

  lemma FitsMissing(t: Tables, f: Flight, id: string, now: int, at: int)
    requires WellServed(f) && f.servedAt <= now <= at && Tracked(t, now, f, id) && Fits(f, id, at)
    requires id in t.notifications && t.notifications[id].status == "open" && !ShowsLive(f.list, id, at)
    ensures Excused(t.notifications[id], f.servedAt, at)
  {
    match LastHeard(f.heard, id)
    case None =>
      if Member(f.list, id) {
        MemberHas(f.list, id);
        var m :| m in f.list && m.id == id;
        NotLiveExcused(t, m, f.servedAt, at);
      }
    case Some(Hide(_)) =>
    case Some(Show(n)) =>
      if n in f.list {
        NotLiveExcused(t, n, f.servedAt, at);
      }
  }

  /** The queue that a list becomes shows an ask exactly when the list shows it live. */
  lemma KeptShows(list: seq<Loaded>, at: int, id: string)
    ensures Member(Kept(list, at), id) <==> ShowsLive(list, id, at)
  {
    if Member(Kept(list, at), id) {
      MemberHas(Kept(list, at), id);
      var m :| m in Kept(list, at) && m.id == id;
      KeptMember(list, at, m);
    }
    if ShowsLive(list, id, at) {
      var m :| m in list && m.id == id && Live(m, at);
      KeptMember(list, at, m);
      MemberIn(Kept(list, at), m);
    }
  }

  lemma CleanAgrees(t: Tables, f: Flight, now: int, at: int)
    requires TrackOk(t, now, f) && now <= at && Clean(f, at)
    ensures ShownOk(t, Kept(f.list, at)) && MissingOk(t, Kept(f.list, at), f.servedAt, at)
  {
    forall m | m in Kept(f.list, at) ensures Backing(t, m) {
      KeptMember(f.list, at, m);
      assert Tracked(t, now, f, m.id) && Fits(f, m.id, at);
      FitsShown(t, f, m, now, at);
    }
    forall id | id in t.notifications && t.notifications[id].status == "open" && !Member(Kept(f.list, at), id)
      ensures Excused(t.notifications[id], f.servedAt, at)
    {
      KeptShows(f.list, at, id);
      assert Tracked(t, now, f, id) && Fits(f, id, at);
      FitsMissing(t, f, id, now, at);
    }
  }

  lemma LiveIsBacked(t: Tables, f: Flight, id: string, at: int)
    requires ShownOk(t, Kept(f.list, at)) && ShowsLive(f.list, id, at)
    ensures exists m :: m in f.list && m.id == id && Live(m, at) && Backing(t, m)
  {
    var m :| m in f.list && m.id == id && Live(m, at);
    KeptMember(f.list, at, m);
    assert Backing(t, m);
  }

  lemma AgreesFits(t: Tables, f: Flight, id: string, now: int, at: int)
    requires WellServed(f) && f.servedAt <= now <= at && Tracked(t, now, f, id)
    requires ShownOk(t, Kept(f.list, at)) && MissingOk(t, Kept(f.list, at), f.servedAt, at)
    ensures Fits(f, id, at)
  {
    KeptShows(f.list, at, id);
    match LastHeard(f.heard, id)
    case None =>
    case Some(Hide(_)) =>
      if ShowsLive(f.list, id, at) { LiveIsBacked(t, f, id, at); }
    case Some(Show(n)) =>
      if ShowsLive(f.list, id, at) { LiveIsBacked(t, f, id, at); }
  }

  /** The list leaves an agreement exactly when it fits what was heard since. */
  lemma ArrivalAgreesIff(t: Tables, f: Flight, now: int, at: int)
    requires TrackOk(t, now, f) && now <= at
    ensures ShownOk(t, Kept(f.list, at)) && MissingOk(t, Kept(f.list, at), f.servedAt, at) <==> Clean(f, at)
  {
    if Clean(f, at) {
      CleanAgrees(t, f, now, at);
    }
    if ShownOk(t, Kept(f.list, at)) && MissingOk(t, Kept(f.list, at), f.servedAt, at) {
      forall id ensures Fits(f, id, at) {
        assert Tracked(t, now, f, id);
        AgreesFits(t, f, id, now, at);
      }
    }
  }
}
