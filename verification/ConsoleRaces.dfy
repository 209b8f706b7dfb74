/** Runs of the console and the server that show what its queue does not promise. */
module ConsoleRaces {
  import opened Prelude
  import opened Sorting
  import opened Models
  import opened Store
  import opened Daemon
  import opened Serving
  import opened Console
  import opened ConsoleLaws
  import opened ConsoleQueue
  import opened ConsoleFlight
  import opened ConsoleSync
  import Rules

  lemma WorldSnoc(start: int, hs: seq<Happening>, h: Happening)
    ensures RunWorld(start, hs + [h]) == Next(RunWorld(start, hs), h)
  {
    assert (hs + [h])[..|hs + [h]| - 1] == hs;
  }

  lemma EmptyKept(now: int)
    ensures Kept([], now) == []
  {
  }

  function StoredRow(n: NewAsk): Row {
    WithStatus(n, "open").(snoozeUntil := None, note := None)
  }

  /** An ask that no rule touches is stored as it is, open. */
  lemma PlainAsk(x: Rules.Texts, n: NewAsk, at: int)
    requires n.callerId.None?
    ensures Serve(Tables(map[], map[]), ToAsk(x, [], n), at) ==
            (Tables(map[n.id := StoredRow(n)], map[]), Some(Show(n)))
    ensures Models.Load(StoredRow(n)) == n
  {
  }

  /** The world after that ask, made first of all. */
  lemma AskedWorld(x: Rules.Texts, n: NewAsk)
    requires n.callerId.None?
    ensures var w := RunWorld(0, [] + [Served(ToAsk(x, [], n), false, 0)]);
            && w.t == Tables(map[n.id := StoredRow(n)], map[]) && w.v == Upsert(BLANK, n, 0)
            && w.now == 0 && w.lastLoad == 0 && w.flights == [] && w.replies == multiset{}
    ensures Models.Load(StoredRow(n)) == n
  {
    WorldSnoc(0, [], Served(ToAsk(x, [], n), false, 0));
    PlainAsk(x, n, 0);
  }

  lemma OneKept(n: Loaded, at: int)
    requires Live(n, at)
    ensures Kept([n], at) == [n]
  {
    assert [n][1..] == [];
    assert Filter([n], LiveAt(at)) == [n];
    assert StableSort([n], OlderFirst) == Insert(n, StableSort([n][1..], OlderFirst), OlderFirst);
  }

  /** The queue after the first ask of all is shown. */
  lemma ShowFirst(v: View, n: Loaded, at: int)
    requires v.queue == [] && Live(n, at)
    ensures Upsert(v, n, at).queue == [n]
  {
    OneKept(n, at);
    NormalizeQueue(v.(queue := [n]), at);
    assert Filter(v.queue, Not(n.id)) + [n] == [n];
  }

  lemma ListIsServed(w: World, list: seq<Loaded>, at: int)
    requires IsList(w.t, at, list) && w.now <= at && w.flights == []
    ensures Next(w, ListServed(list, at)) == w.(now := at, flights := [Flight(list, at, [])])
  {
  }

  // ── A list that is overtaken ───────────────────────────────────────────

  /** A list is served while there is no ask; an ask is made and shown; the list arrives. */
  function OvertakenByAsk(x: Rules.Texts, n: NewAsk): seq<Happening> {
    [] + [ListServed([], 0)] + [Served(ToAsk(x, [], n), false, 0)] + [ListArrived(0, 0)]
  }

  /** Then the queue lacks a listed ask that was never snoozed. */
  lemma StaleListLacks(x: Rules.Texts, n: NewAsk)
    requires n.callerId.None? && n.deadline.None?
    ensures var w := RunWorld(0, OvertakenByAsk(x, n));
            && n.id in w.t.notifications && Store.Listed(w.t.notifications[n.id], w.now)
            && w.t.notifications[n.id].snoozeUntil.None? && !Member(w.v.queue, n.id) && !Agree(w)
  {
    var h1, h2 := ListServed([], 0), Served(ToAsk(x, [], n), false, 0);
    WorldSnoc(0, [], h1);
    WorldSnoc(0, [] + [h1], h2);
    WorldSnoc(0, [] + [h1] + [h2], ListArrived(0, 0));
    AskInFlight(x, RunWorld(0, [] + [h1]), n);
    ArrivesEmpty(RunWorld(0, [] + [h1] + [h2]), n.id);
  }

  lemma AskInFlight(x: Rules.Texts, w: World, n: NewAsk)
    requires n.callerId.None? && w.t == Tables(map[], map[]) && w.flights == [Flight([], 0, [])] && w.now == 0
    ensures var w' := Next(w, Served(ToAsk(x, [], n), false, 0));
            && w'.t == Tables(map[n.id := StoredRow(n)], map[]) && w'.now == 0
            && |w'.flights| == 1 && w'.flights[0].list == [] && w'.flights[0].servedAt == 0
  {
    PlainAsk(x, n, 0);
  }

  lemma ArrivesEmpty(w: World, id: string)
    requires w.now == 0 && |w.flights| == 1 && w.flights[0].list == [] && w.flights[0].servedAt == 0
    requires id in w.t.notifications && w.t.notifications[id].status == "open"
    requires w.t.notifications[id].snoozeUntil.None? && w.t.notifications[id].deadline.None?
    ensures var w' := Next(w, ListArrived(0, 0));
            w'.t == w.t && w'.now == 0 && !Member(w'.v.queue, id) && !Agree(w')
  {
    NormalizeQueue(w.v.(queue := []), 0);
    EmptyKept(0);
  }

  /** An ask is made; a list with it is served; the ask is cancelled and hidden; the list arrives. */
  function OvertakenByCancel(x: Rules.Texts, n: NewAsk): seq<Happening> {
    [] + [Served(ToAsk(x, [], n), false, 0)] + [ListServed([n], 0)] + [Served(ToCancel(n.id), false, 0)]
        + [ListArrived(0, 0)]
  }

  /** Then the queue shows an ask that the server would not list. */
  lemma StaleListShows(x: Rules.Texts, n: NewAsk)
    requires n.callerId.None? && n.deadline.None?
    ensures var w := RunWorld(0, OvertakenByCancel(x, n));
            && Member(w.v.queue, n.id) && n.id in w.t.notifications
            && !Store.Listed(w.t.notifications[n.id], w.now) && !Agree(w)
  {
    var h1, h2, h3 := Served(ToAsk(x, [], n), false, 0), ListServed([n], 0), Served(ToCancel(n.id), false, 0);
    AskAndList(x, n);
    WorldSnoc(0, [] + [h1] + [h2], h3);
    WorldSnoc(0, [] + [h1] + [h2] + [h3], ListArrived(0, 0));
    CancelInFlight(RunWorld(0, [] + [h1] + [h2]), n);
    ArrivesStale(RunWorld(0, [] + [h1] + [h2] + [h3]), n);
  }

  lemma AskAndList(x: Rules.Texts, n: NewAsk)
    requires n.callerId.None? && n.deadline.None?
    ensures var w := RunWorld(0, [] + [Served(ToAsk(x, [], n), false, 0)] + [ListServed([n], 0)]);
            w.t == Tables(map[n.id := StoredRow(n)], map[]) && w.flights == [Flight([n], 0, [])] && w.now == 0
  {
    var h1 := Served(ToAsk(x, [], n), false, 0);
    AskedWorld(x, n);
    WorldSnoc(0, [] + [h1], ListServed([n], 0));
    Listing(RunWorld(0, [] + [h1]).t, n);
    ListIsServed(RunWorld(0, [] + [h1]), [n], 0);
  }

  lemma CancelInFlight(w: World, n: NewAsk)
    requires w.t == Tables(map[n.id := StoredRow(n)], map[]) && w.flights == [Flight([n], 0, [])] && w.now == 0
    ensures var w' := Next(w, Served(ToCancel(n.id), false, 0));
            && w'.now == 0 && |w'.flights| == 1 && w'.flights[0].list == [n]
            && n.id in w'.t.notifications && w'.t.notifications[n.id].status == "cancelled"
  {
  }

  lemma Listing(t: Tables, n: NewAsk)
    requires t == Tables(map[n.id := StoredRow(n)], map[]) && n.deadline.None?
    ensures IsList(t, 0, [n])
  {
    assert [n][0] == n;
  }

  lemma ArrivesStale(w: World, n: Loaded)
    requires w.now == 0 && |w.flights| == 1 && w.flights[0].list == [n]
    requires Live(n, 0) && n.id in w.t.notifications && w.t.notifications[n.id].status == "cancelled"
    ensures var w' := Next(w, ListArrived(0, 0));
            w'.t == w.t && w'.now == 0 && Member(w'.v.queue, n.id) && !Agree(w')
  {
    NormalizeQueue(w.v.(queue := [n]), 0);
    OneKept(n, 0);
    assert [n][0].id == n.id && n in [n];
    assert !Backing(w.t, n);
  }

  // ── A timeout whose write fails ────────────────────────────────────────

  /** An ask without a deadline is shown; its wait runs out and the write fails. */
  function FailedWrite(x: Rules.Texts, n: NewAsk): seq<Happening> {
    [] + [Served(ToAsk(x, [], n), false, 0)] + [Served(ToTimeOut(n.id, false), false, 0)]
  }

  /** Then the queue lacks the ask that the server goes on listing. */
  lemma FailedTimeOutLacks(x: Rules.Texts, n: NewAsk)
    requires n.callerId.None? && n.deadline.None?
    ensures var w := RunWorld(0, FailedWrite(x, n));
            && n.id in w.t.notifications && Store.Listed(w.t.notifications[n.id], w.now)
            && !Member(w.v.queue, n.id) && !Agree(w)
  {
    var h1, h2 := Served(ToAsk(x, [], n), false, 0), Served(ToTimeOut(n.id, false), false, 0);
    AskedWorld(x, n);
    WorldSnoc(0, [] + [h1], h2);
    ShowFirst(BLANK, n, 0);
    FailsToMark(RunWorld(0, [] + [h1]), n);
  }

  lemma FailsToMark(w: World, n: NewAsk)
    requires w.t == Tables(map[n.id := StoredRow(n)], map[]) && n.deadline.None? && w.v.queue == [n]
    requires w.now == 0 && w.lastLoad == 0
    ensures var w' := Next(w, Served(ToTimeOut(n.id, false), false, 0));
            w'.t == w.t && w'.now == 0 && !Member(w'.v.queue, n.id) && !Agree(w')
  {
    MarksNothing(w, n.id);
    Removed(w.v, n.id);
  }

  lemma MarksNothing(w: World, id: string)
    requires w.now == 0 && id in w.t.notifications && w.t.notifications[id].status == "open"
    ensures var w' := Next(w, Served(ToTimeOut(id, false), false, 0));
            w'.t == w.t && w'.v == RemoveAsk(w.v, id) && w'.now == 0 && w'.lastLoad == w.lastLoad
  {
  }

  lemma Removed(v: View, id: string)
    requires DistinctIds(v.queue)
    ensures !Member(RemoveAsk(v, id).queue, id)
  {
    RemoveMembers(v, id);
    if Member(RemoveAsk(v, id).queue, id) {
      MemberHas(RemoveAsk(v, id).queue, id);
    }
  }

  // ── A snooze older than the load ───────────────────────────────────────

  /** An ask is snoozed, a load comes while it sleeps, and then the snooze runs out. */
  function LapseRun(x: Rules.Texts, n: NewAsk): seq<Happening> {
    [] + [Served(ToAsk(x, [], n), false, 0)] + [Served(ToSnooze(n.id, 10), false, 0)]
       + [ListServed([], 5 * MINUTE)] + [ListArrived(0, 5 * MINUTE)] + [Ticked(11 * MINUTE)]
  }

  /** Then the queue lacks a listed ask that was not snoozed since the last load. */
  lemma SnoozedBeforeLoad(x: Rules.Texts, n: NewAsk)
    requires n.callerId.None? && n.deadline.None?
    ensures var w := RunWorld(0, LapseRun(x, n));
            && n.id in w.t.notifications && Store.Listed(w.t.notifications[n.id], w.now) && !Member(w.v.queue, n.id)
            && w.lastLoad == 5 * MINUTE && forall i :: 2 <= i < |LapseRun(x, n)| ==> !LapseRun(x, n)[i].Served?
  {
    var h1, h2 := Served(ToAsk(x, [], n), false, 0), Served(ToSnooze(n.id, 10), false, 0);
    AskedWorld(x, n);
    WorldSnoc(0, [] + [h1], h2);
    FallsAsleep(RunWorld(0, [] + [h1]), n, false);
    Lapses([] + [h1] + [h2], n);
  }

  lemma Asleep(t: Tables, n: NewAsk)
    requires t == Tables(map[n.id := StoredRow(n)], map[]) && n.deadline.None?
    ensures Serve(t, ToSnooze(n.id, 10), 0).0 ==
            Tables(map[n.id := StoredRow(n).(snoozeUntil := Some(10 * MINUTE))], map[])
  {
  }

  lemma FallsAsleep(w: World, n: NewAsk, own: bool)
    requires w.t == Tables(map[n.id := StoredRow(n)], map[]) && n.deadline.None?
    requires w.now == 0 && w.lastLoad == 0 && w.flights == [] && w.replies == multiset{}
    ensures var w' := Next(w, Served(ToSnooze(n.id, 10), own, 0));
            && w'.t == Tables(map[n.id := StoredRow(n).(snoozeUntil := Some(10 * MINUTE))], map[])
            && w'.now == 0 && w'.lastLoad == 0 && w'.flights == []
            && w'.replies == if own then multiset{n.id} else multiset{}
  {
    Asleep(w.t, n);
  }

  lemma Lapses(hs: seq<Happening>, n: NewAsk)
    requires RunWorld(0, hs).t == Tables(map[n.id := StoredRow(n).(snoozeUntil := Some(10 * MINUTE))], map[])
    requires n.deadline.None? && RunWorld(0, hs).now == 0 && RunWorld(0, hs).flights == []
    ensures var w := RunWorld(0, hs + [ListServed([], 5 * MINUTE)] + [ListArrived(0, 5 * MINUTE)]
                              + [Ticked(11 * MINUTE)]);
            && n.id in w.t.notifications && Store.Listed(w.t.notifications[n.id], w.now) && !Member(w.v.queue, n.id)
            && w.lastLoad == 5 * MINUTE
  {
    var h3, h4, h5 := ListServed([], 5 * MINUTE), ListArrived(0, 5 * MINUTE), Ticked(11 * MINUTE);
    WorldSnoc(0, hs, h3);
    WorldSnoc(0, hs + [h3], h4);
    WorldSnoc(0, hs + [h3] + [h4], h5);
    LapsesFrom(RunWorld(0, hs), n);
  }

  lemma LapsesFrom(w: World, n: NewAsk)
    requires w.t == Tables(map[n.id := StoredRow(n).(snoozeUntil := Some(10 * MINUTE))], map[])
    requires n.deadline.None? && w.now == 0 && w.flights == []
    ensures var w3 := Next(Next(Next(w, ListServed([], 5 * MINUTE)), ListArrived(0, 5 * MINUTE)), Ticked(11 * MINUTE));
            && w3.t == w.t && w3.now == 11 * MINUTE && w3.v.queue == [] && w3.lastLoad == 5 * MINUTE
            && Store.Listed(w3.t.notifications[n.id], w3.now)
  {
    var w1 := Next(w, ListServed([], 5 * MINUTE));
    var w2 := Next(w1, ListArrived(0, 5 * MINUTE));
    ListIsServed(w, [], 5 * MINUTE);
    EmptyLoad(w1, 5 * MINUTE);
    EmptyTick(w2, 11 * MINUTE);
  }

  lemma EmptyLoad(w: World, at: int)
    requires w.now == at && w.flights == [Flight([], at, [])]
    ensures var w' := Next(w, ListArrived(0, at)); w'.v.queue == [] && w'.t == w.t && w'.lastLoad == at && w'.now == at
  {
    NormalizeQueue(w.v.(queue := []), at);
    EmptyKept(at);
  }

  lemma EmptyTick(w: World, at: int)
    requires w.now <= at && w.v.queue == []
    ensures var w' := Next(w, Ticked(at)); w'.v.queue == [] && w'.t == w.t && w'.lastLoad == w.lastLoad && w'.now == at
  {
    NormalizeQueue(w.v, at);
    EmptyKept(at);
  }

  // ── A response that comes late ─────────────────────────────────────────

  /** The console snoozes an ask; a snooze of no minutes wakes it; a list with it is
      served and arrives; then the response to the console's snooze arrives. */
  function LateResponse(x: Rules.Texts, n: NewAsk, list: seq<Loaded>): seq<Happening> {
    [] + [Served(ToAsk(x, [], n), false, 0)] + [Served(ToSnooze(n.id, 10), true, 0)]
       + [Served(ToSnooze(n.id, 0), false, 1)] + [ListServed(list, 1)] + [ListArrived(0, 1)] + [Responded(n.id, 2)]
  }

  /** The row, woken at the moment the list is served. */
  function Woken(n: NewAsk): Row {
    StoredRow(n).(snoozeUntil := Some(1))
  }

  /** Then the queue lacks an ask that is listed, and was in the list. */
  lemma LateResponseLacks(x: Rules.Texts, n: NewAsk)
    requires n.callerId.None? && n.deadline.None?
    ensures var w := RunWorld(0, LateResponse(x, n, [Models.Load(Woken(n))]));
            && n.id in w.t.notifications && Store.Listed(w.t.notifications[n.id], w.now)
            && !Member(w.v.queue, n.id) && !Agree(w)
  {
    var h1, h2, h3 := Served(ToAsk(x, [], n), false, 0), Served(ToSnooze(n.id, 10), true, 0),
                      Served(ToSnooze(n.id, 0), false, 1);
    AskedWorld(x, n);
    WorldSnoc(0, [] + [h1], h2);
    WorldSnoc(0, [] + [h1] + [h2], h3);
    FallsAsleep(RunWorld(0, [] + [h1]), n, true);
    Wakes(RunWorld(0, [] + [h1] + [h2]), n);
    ResponseLacks([] + [h1] + [h2] + [h3], n);
  }

  lemma Wakes(w: World, n: NewAsk)
    requires w.t == Tables(map[n.id := StoredRow(n).(snoozeUntil := Some(10 * MINUTE))], map[]) && n.deadline.None?
    requires w.now == 0 && w.lastLoad == 0 && w.flights == [] && w.replies == multiset{n.id}
    ensures var w' := Next(w, Served(ToSnooze(n.id, 0), false, 1));
            && w'.t == Tables(map[n.id := Woken(n)], map[])
            && w'.now == 1 && w'.lastLoad == 0 && w'.flights == [] && w'.replies == multiset{n.id}
  {
  }

  lemma ResponseLacks(hs: seq<Happening>, n: NewAsk)
    requires RunWorld(0, hs).t == Tables(map[n.id := Woken(n)], map[]) && n.deadline.None?
    requires RunWorld(0, hs).now == 1 && RunWorld(0, hs).flights == [] && RunWorld(0, hs).replies == multiset{n.id}
    ensures var w := RunWorld(0, hs + [ListServed([Models.Load(Woken(n))], 1)] + [ListArrived(0, 1)]
                              + [Responded(n.id, 2)]);
            && w.t == RunWorld(0, hs).t && w.now == 2 && Store.Listed(w.t.notifications[n.id], w.now)
            && !Member(w.v.queue, n.id) && !Agree(w)
  {
    var h4, h5, h6 := ListServed([Models.Load(Woken(n))], 1), ListArrived(0, 1), Responded(n.id, 2);
    WorldSnoc(0, hs, h4);
    WorldSnoc(0, hs + [h4], h5);
    WorldSnoc(0, hs + [h4] + [h5], h6);
    ListsWoken(RunWorld(0, hs).t, n);
    ListIsServed(RunWorld(0, hs), [Models.Load(Woken(n))], 1);
    LoadsWoken(RunWorld(0, hs + [h4]), n);
    RespondsLate(RunWorld(0, hs + [h4] + [h5]), n);
  }

  lemma ListsWoken(t: Tables, n: NewAsk)
    requires t == Tables(map[n.id := Woken(n)], map[]) && n.deadline.None?
    ensures IsList(t, 1, [Models.Load(Woken(n))])
  {
    assert [Models.Load(Woken(n))][0].id == n.id;
  }

  lemma LoadsWoken(w: World, n: NewAsk)
    requires w.t == Tables(map[n.id := Woken(n)], map[]) && n.deadline.None? && w.now == 1
    requires w.flights == [Flight([Models.Load(Woken(n))], 1, [])] && w.replies == multiset{n.id}
    ensures var w' := Next(w, ListArrived(0, 1));
            && w'.t == w.t && w'.now == 1 && w'.lastLoad == 1 && w'.replies == w.replies
            && w'.v.queue == [Models.Load(Woken(n))]
  {
    NormalizeQueue(w.v.(queue := [Models.Load(Woken(n))]), 1);
    OneKept(Models.Load(Woken(n)), 1);
  }

  lemma RespondsLate(w: World, n: NewAsk)
    requires w.t == Tables(map[n.id := Woken(n)], map[]) && n.deadline.None? && w.now == 1 && w.lastLoad == 1
    requires w.v.queue == [Models.Load(Woken(n))] && w.replies == multiset{n.id}
    ensures var w' := Next(w, Responded(n.id, 2));
            w'.t == w.t && w'.now == 2 && !Member(w'.v.queue, n.id) && !Agree(w')
  {
    Removed(w.v, n.id);
  }
}
