/** The queue of the console against the rows of the server: what each operation
    on the queue, and each event that reaches it, does to their agreement. */
module ConsoleQueue {
  import opened Prelude
  import opened Sorting
  import opened Models
  import opened Store
  import opened Serving
  import opened Console
  import opened ConsoleLaws

  // ── Agreement ──────────────────────────────────────────────────────────

  /** An entry of the queue is the row of an open ask, as the server would load it. */
  predicate Backing(t: Tables, n: Loaded) {
    n.id in t.notifications && t.notifications[n.id].status == "open" && Models.Load(t.notifications[n.id]) == n
  }

  /** Why an open ask may be missing: snoozed beyond the last load, or past its deadline. */
  predicate Excused<S>(row: Notification<S>, lastLoad: int, now: int) {
    || (row.snoozeUntil.Some? && row.snoozeUntil.value > lastLoad)
    || (row.deadline.Some? && row.deadline.value <= now)
  }

  ghost predicate ShownOk(t: Tables, queue: seq<Loaded>) {
    forall n :: n in queue ==> Backing(t, n)
  }

  ghost predicate MissingOk(t: Tables, queue: seq<Loaded>, lastLoad: int, now: int) {
    forall id :: id in t.notifications && t.notifications[id].status == "open" && !Member(queue, id) ==>
      Excused(t.notifications[id], lastLoad, now)
  }

  /** What the console does with an event. */
  function Hear(v: View, e: Option<Event>, now: int): View {
    match e
    case None => v
    case Some(Show(n)) => Upsert(v, n, now)
    case Some(Hide(id)) => RemoveAsk(v, id)
  }

  function Subject(e: Event): string {
    match e case Show(n) => n.id case Hide(id) => id
  }

  // ── What each view operation does to the queue's members ───────────────

  lemma MemberIn(queue: seq<Loaded>, n: Loaded)
    requires n in queue
    ensures Member(queue, n.id)
  {
    var i :| 0 <= i < |queue| && queue[i] == n;
  }

  lemma {:induction false} FilterDistinct(queue: seq<Loaded>, p: Loaded -> bool)
    requires DistinctIds(queue)
    ensures DistinctIds(Filter(queue, p))
  {
    if queue != [] {
      var rest := Filter(queue[1..], p);
      FilterDistinct(queue[1..], p);
      forall j | 0 <= j < |rest| ensures rest[j].id != queue[0].id {
        FilterKeeps(queue[1..], p, rest[j]);
        var k :| 0 <= k < |queue[1..]| && queue[1..][k] == rest[j];
        assert queue[k + 1] == rest[j];
      }
    }
  }

  lemma FilterKeeps(queue: seq<Loaded>, p: Loaded -> bool, n: Loaded)
    ensures n in Filter(queue, p) <==> n in queue && p(n)
  {
    FilterMembers(queue, p);
  }

  lemma {:induction false} InsertDistinct(n: Loaded, queue: seq<Loaded>)
    requires DistinctIds(queue) && !Member(queue, n.id)
    ensures DistinctIds(Insert(n, queue, OlderFirst))
    ensures forall id :: Member(Insert(n, queue, OlderFirst), id) ==> id == n.id || Member(queue, id)
  {
    if queue != [] && !OlderFirst(n, queue[0]) {
      var rest, out := queue[1..], Insert(n, queue[1..], OlderFirst);
      forall id | Member(rest, id) ensures Member(queue, id) && id != queue[0].id {
        var k :| 0 <= k < |rest| && rest[k].id == id;
        assert queue[k + 1].id == id;
      }
      assert queue[0].id != n.id;
      InsertDistinct(n, rest);
      InsertFront(queue[0], out, rest, n);
    }
  }

  lemma InsertFront(first: Loaded, out: seq<Loaded>, rest: seq<Loaded>, n: Loaded)
    requires DistinctIds(out) && first.id != n.id && !Member(rest, first.id)
    requires forall id :: Member(out, id) ==> id == n.id || Member(rest, id)
    ensures DistinctIds([first] + out)
    ensures forall id :: Member([first] + out, id) ==> id == first.id || id == n.id || Member(rest, id)
  {
    forall j | 0 <= j < |out| ensures out[j].id != first.id {
      assert Member(out, out[j].id);
    }
    forall id | Member([first] + out, id) ensures id == first.id || id == n.id || Member(rest, id) {
      var k :| 0 <= k < |[first] + out| && ([first] + out)[k].id == id;
      if k > 0 { assert out[k - 1].id == id; }
    }
  }

  lemma SortNoNew(queue: seq<Loaded>)
    ensures forall id :: Member(StableSort(queue, OlderFirst), id) ==> Member(queue, id)
  {
    var sorted := StableSort(queue, OlderFirst);
    forall id | Member(sorted, id) ensures Member(queue, id) {
      var k :| 0 <= k < |sorted| && sorted[k].id == id;
      SortMembers(queue, sorted[k]);
      MemberIn(queue, sorted[k]);
    }
  }

  lemma {:induction false} SortDistinct(queue: seq<Loaded>)
    requires DistinctIds(queue)
    ensures DistinctIds(StableSort(queue, OlderFirst))
  {
    if queue != [] {
      SortDistinct(queue[1..]);
      SortNoNew(queue[1..]);
      assert !Member(queue[1..], queue[0].id);
      InsertDistinct(queue[0], StableSort(queue[1..], OlderFirst));
    }
  }

  lemma KeptDistinct(queue: seq<Loaded>, now: int)
    requires DistinctIds(queue)
    ensures DistinctIds(Kept(queue, now))
  {
    FilterDistinct(queue, LiveAt(now));
    SortDistinct(Filter(queue, LiveAt(now)));
  }

  /** An ask with its id in the queue but gone after the clean-up was not live. */
  lemma DroppedIsDead(queue: seq<Loaded>, now: int, id: string)
    requires Member(queue, id) && !Member(Kept(queue, now), id)
    ensures exists n :: n in queue && n.id == id && !Live(n, now)
  {
    var i :| 0 <= i < |queue| && queue[i].id == id;
    KeptMember(queue, now, queue[i]);
    if Live(queue[i], now) {
      MemberIn(Kept(queue, now), queue[i]);
    }
  }

  /** An open ask that is not live is excused. */
  lemma NotLiveExcused(t: Tables, n: Loaded, lastLoad: int, at: int)
    requires Backing(t, n) && lastLoad <= at && !Live(n, at)
    ensures Excused(t.notifications[n.id], lastLoad, at)
  {
  }

  /** Cleaning up keeps the agreement: every other entry, and whatever is dropped. */
  lemma TidyAgrees(t: Tables, queue: seq<Loaded>, lastLoad: int, now: int)
    requires DistinctIds(queue) && ShownOk(t, queue) && MissingOk(t, queue, lastLoad, now) && lastLoad <= now
    ensures DistinctIds(Kept(queue, now)) && ShownOk(t, Kept(queue, now))
            && MissingOk(t, Kept(queue, now), lastLoad, now)
  {
    KeptDistinct(queue, now);
    KeptMembers(queue, now);
    forall id | id in t.notifications && t.notifications[id].status == "open" && !Member(Kept(queue, now), id)
      ensures Excused(t.notifications[id], lastLoad, now)
    {
      if Member(queue, id) {
        DroppedIsDead(queue, now, id);
        var n :| n in queue && n.id == id && !Live(n, now);
        NotLiveExcused(t, n, lastLoad, now);
      }
    }
  }

  lemma NormalizeQueue(v: View, now: int)
    ensures Normalize(v, now).queue == Kept(v.queue, now)
  {
  }

  // ── What an event says ─────────────────────────────────────────────────

  /** What an event says of the tables: every other row is as before, a hidden ask is
      not open, and a shown one is open if it is live. */
  ghost predicate Told(t: Tables, t': Tables, e: Option<Event>, at: int) {
    && RowsNamed(t')
    && (forall id :: id in t.notifications ==> id in t'.notifications)
    && match e
       case None => OthersSame(t, t', None)
       case Some(Hide(id)) => OthersSame(t, t', Some(id))
         && (id in t'.notifications ==> t'.notifications[id].status != "open")
       case Some(Show(n)) =>
         && OthersSame(t, t', Some(n.id)) && n.id in t'.notifications && Models.Load(t'.notifications[n.id]) == n
         && n.status == Open && (Live(n, at) ==> t'.notifications[n.id].status == "open")
  }

  /** Apart from one ask, rows are unchanged, and new rows are not open. */
  ghost predicate OthersSame(t: Tables, t': Tables, but: Option<string>) {
    forall id :: id in t'.notifications && Some(id) != but ==>
      if id in t.notifications then t'.notifications[id] == t.notifications[id]
      else t'.notifications[id].status != "open"
  }

  lemma RemoveMembers(v: View, id: string)
    requires DistinctIds(v.queue)
    ensures DistinctIds(RemoveAsk(v, id).queue)
    ensures forall n :: n in RemoveAsk(v, id).queue <==> n in v.queue && n.id != id
  {
    var i, q := LastIndex(v.queue, Some(id)), RemoveAsk(v, id).queue;
    if i >= 0 {
      assert q == RemoveAt(v.queue, i);
      forall j, k | 0 <= j < k < |q| ensures q[j].id != q[k].id {
        assert q[j] == v.queue[if j < i then j else j + 1] && q[k] == v.queue[if k < i then k else k + 1];
      }
      forall n ensures n in q <==> n in v.queue && n.id != id {
        RemovedOne(v.queue, i, n);
      }
    }
  }

  lemma RemovedOne(queue: seq<Loaded>, i: nat, n: Loaded)
    requires i < |queue| && DistinctIds(queue)
    ensures n in RemoveAt(queue, i) <==> n in queue && n.id != queue[i].id
  {
    var q := RemoveAt(queue, i);
    if n in q {
      var j :| 0 <= j < |q| && q[j] == n;
      assert queue[if j < i then j else j + 1] == n;
    }
    if n in queue && n.id != queue[i].id {
      var j :| 0 <= j < |queue| && queue[j] == n;
      assert q[if j < i then j else j - 1] == n;
    }
  }

  lemma MemberHas(queue: seq<Loaded>, id: string)
    requires Member(queue, id)
    ensures exists n :: n in queue && n.id == id
  {
    var i :| 0 <= i < |queue| && queue[i].id == id;
    assert queue[i] in queue;
  }

  lemma OthersStay(queue: seq<Loaded>, q': seq<Loaded>, id: string)
    requires forall n :: n in q' <==> n in queue && n.id != id
    ensures forall other :: Member(queue, other) && other != id ==> Member(q', other)
  {
    forall other | Member(queue, other) && other != id ensures Member(q', other) {
      MemberHas(queue, other);
      var n :| n in queue && n.id == other;
      MemberIn(q', n);
    }
  }

  /** The queue without one id, against tables in which only that id may have changed and is not open. */
  lemma HideAgrees(t: Tables, t': Tables, queue: seq<Loaded>, q': seq<Loaded>, id: string, lastLoad: int, at: int)
    requires ShownOk(t, queue) && MissingOk(t, queue, lastLoad, at)
    requires Told(t, t', Some(Hide(id)), at)
    requires forall n :: n in q' <==> n in queue && n.id != id
    ensures ShownOk(t', q') && MissingOk(t', q', lastLoad, at)
  {
    OthersStay(queue, q', id);
    forall n | n in q' ensures Backing(t', n) {
      assert Backing(t, n);
    }
  }

  lemma AppendDistinct(queue: seq<Loaded>, n: Loaded)
    requires DistinctIds(queue)
    ensures DistinctIds(Filter(queue, Not(n.id)) + [n])
  {
    var others := Filter(queue, Not(n.id));
    FilterDistinct(queue, Not(n.id));
    forall i | 0 <= i < |others| ensures others[i].id != n.id {
      OtherMember(queue, n.id, others[i]);
    }
  }

  /** The queue after a shown ask, cleaned up. */
  lemma ShowAgrees(t: Tables, t': Tables, queue: seq<Loaded>, n: Loaded, lastLoad: int, at: int)
    requires DistinctIds(queue) && ShownOk(t, queue) && MissingOk(t, queue, lastLoad, at) && lastLoad <= at
    requires Told(t, t', Some(Show(n)), at)
    ensures var q' := Kept(Filter(queue, Not(n.id)) + [n], at);
            DistinctIds(q') && ShownOk(t', q') && MissingOk(t', q', lastLoad, at)
  {
    var others := Filter(queue, Not(n.id));
    AppendDistinct(queue, n);
    KeptDistinct(others + [n], at);
    ShowShown(t, t', queue, n, at);
    ShowMissing(t, t', queue, n, lastLoad, at);
  }

  lemma ShowShown(t: Tables, t': Tables, queue: seq<Loaded>, n: Loaded, at: int)
    requires ShownOk(t, queue) && Told(t, t', Some(Show(n)), at)
    ensures ShownOk(t', Kept(Filter(queue, Not(n.id)) + [n], at))
  {
    var others := Filter(queue, Not(n.id));
    forall m | m in Kept(others + [n], at) ensures Backing(t', m) {
      KeptMember(others + [n], at, m);
      if m in others {
        OtherMember(queue, n.id, m);
        assert Backing(t, m);
      } else {
        assert m == n;
      }
    }
  }

  lemma ShowMissing(t: Tables, t': Tables, queue: seq<Loaded>, n: Loaded, lastLoad: int, at: int)
    requires MissingOk(t, queue, lastLoad, at) && lastLoad <= at && ShownOk(t, queue) && Told(t, t', Some(Show(n)), at)
    ensures MissingOk(t', Kept(Filter(queue, Not(n.id)) + [n], at), lastLoad, at)
  {
    var q' := Kept(Filter(queue, Not(n.id)) + [n], at);
    forall id | id in t'.notifications && t'.notifications[id].status == "open" && !Member(q', id)
      ensures Excused(t'.notifications[id], lastLoad, at)
    {
      if id == n.id {
        ShownAgain(queue, n, at, n);
        NotLiveExcused(t', n, lastLoad, at);
      } else if Member(queue, id) {
        MemberHas(queue, id);
        var m :| m in queue && m.id == id;
        ShownAgain(queue, n, at, m);
        assert Backing(t, m);
        NotLiveExcused(t', m, lastLoad, at);
      }
    }
  }

  /** An ask that is live and was in the queue, or is the one shown, is in the new queue. */
  lemma ShownAgain(queue: seq<Loaded>, n: Loaded, at: int, m: Loaded)
    requires m == n || (m in queue && m.id != n.id)
    ensures Live(m, at) ==> Member(Kept(Filter(queue, Not(n.id)) + [n], at), m.id)
  {
    var q := Filter(queue, Not(n.id)) + [n];
    OtherMember(queue, n.id, m);
    assert m in q by { if m == n { assert q[|q| - 1] == n; } else { assert m in Filter(queue, Not(n.id)); } }
    KeptMember(q, at, m);
    if Live(m, at) {
      MemberIn(Kept(q, at), m);
    }
  }

  lemma SilentAgrees(t: Tables, t': Tables, queue: seq<Loaded>, lastLoad: int, at: int)
    requires ShownOk(t, queue) && MissingOk(t, queue, lastLoad, at) && Told(t, t', None, at)
    ensures ShownOk(t', queue) && MissingOk(t', queue, lastLoad, at)
  {
    forall n | n in queue ensures Backing(t', n) {
      assert Backing(t, n);
    }
  }

  /** The console hides an ask whose row has not changed. */
  lemma HideUnchanged(t: Tables, queue: seq<Loaded>, q': seq<Loaded>, id: string, lastLoad: int, at: int)
    requires ShownOk(t, queue) && MissingOk(t, queue, lastLoad, at)
    requires id in t.notifications && t.notifications[id].status == "open"
    requires forall n :: n in q' <==> n in queue && n.id != id
    ensures ShownOk(t, q')
    ensures MissingOk(t, q', lastLoad, at) <==> Excused(t.notifications[id], lastLoad, at)
  {
    OthersStay(queue, q', id);
    if Member(q', id) {
      MemberHas(q', id);
    }
  }

  /** The console hides an ask that has no open row. */
  lemma DropClosed(t: Tables, queue: seq<Loaded>, q': seq<Loaded>, id: string, lastLoad: int, at: int)
    requires ShownOk(t, queue) && MissingOk(t, queue, lastLoad, at)
    requires id !in t.notifications || t.notifications[id].status != "open"
    requires forall n :: n in q' <==> n in queue && n.id != id
    ensures ShownOk(t, q') && MissingOk(t, q', lastLoad, at)
  {
    OthersStay(queue, q', id);
  }
}
