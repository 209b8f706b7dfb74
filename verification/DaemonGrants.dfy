/** The grant transactions and the claim keep the invariant of the tables. */
module DaemonGrants {
  import opened Prelude
  import opened Json
  import opened Models
  import opened Grants
  import opened Store
  import opened Daemon
  import opened DaemonInv
  import opened DaemonTables

  /** A new kind-grant with its record. */
  ghost predicate NewGrant(lib: Library, t: Tables, g: StoredGrant, record: GrantRecord) {
    && g.id !in t.grants && Genuine(lib, g)
    && g.kind == "grant" && g.notificationId == Some(record.askId)
    && ParseRecord(lib, g.record).Ok? && ParseRecord(lib, g.record).value.record == Grant(record)
    && g.revokedBy.None? && g.claimedBy.None? && g.claimedAt.None?
  }

  /** Only an open row and a timed-out row load as open. */
  lemma ReadsOpen(text: string)
    requires KnownText(text) && ReadStatus(text) == Open
    ensures text == "open" || text == "timedout"
  {
  }

  /** What an accepted answering transaction does: one new grant, and the row of
      its ask answered when its text is "open". */
  ghost predicate Answers(t: Tables, g: StoredGrant, record: GrantRecord, at: int, n: Loaded, t': Tables) {
    && record.askId in t.notifications
    && var row := t.notifications[record.askId];
    && row.questionType == Approval && ReadStatus(row.status) == Open && row.question == record.question
    && row.id == record.askId
    && n.id == record.askId && n.once == row.once
    && t'.grants == t.grants[g.id := g]
    && t'.notifications == t.notifications[record.askId :=
         if row.status != "open" then row
         else row.(status := "answered", answer := Some(AnswerOf(record).answer),
                   answerLabel := Some(AnswerOf(record).answerLabel),
                   answeredAt := Some(at), note := AnswerOf(record).note)]
  }

  lemma AcceptedAnswers(t: Tables, g: StoredGrant, record: GrantRecord, at: int, n: Loaded, t': Tables)
    requires record.askId in t.notifications ==> t.notifications[record.askId].id == record.askId
    requires InsertGrantAnswering(t, g, record, at) == (t', Ok(n))
    ensures g.id !in t.grants && Answers(t, g, record, at, n, t')
  {
    var t1 := t.(grants := t.grants[g.id := g]);
    assert InsertGrantRow(t, g) == Some(t1);
    assert t1.notifications[record.askId := t1.notifications[record.askId]] == t1.notifications;
  }

  lemma AnsweringGrows(t: Tables, g: StoredGrant, record: GrantRecord, at: int, n: Loaded, t': Tables)
    requires g.id !in t.grants && Answers(t, g, record, at, n, t')
    ensures Grows(t, t')
  {
  }

  lemma AnsweringRowOk(lib: Library, t: Tables, g: StoredGrant, record: GrantRecord, at: int, n: Loaded, t': Tables,
                       id: string)
    requires NewGrant(lib, t, g, record) && Answers(t, g, record, at, n, t') && Grows(t, t')
    requires id in t.notifications && RowOk(lib, t, id)
    ensures RowOk(lib, t', id)
  {
    if id == record.askId && t.notifications[id].status == "open" {
      var r' := t'.notifications[id];
      assert g.id in t'.grants && Names(t'.grants[g.id], id)
             && Matches(lib, t'.grants[g.id], r'.answer, r'.answerLabel, r'.note);
    } else {
      RowOkWithGrants(lib, t, t', id);
    }
  }

  lemma AnsweringRowsOk(lib: Library, t: Tables, g: StoredGrant, record: GrantRecord, at: int, n: Loaded, t': Tables)
    requires NewGrant(lib, t, g, record) && Answers(t, g, record, at, n, t') && Grows(t, t') && RowsOk(lib, t)
    ensures RowsOk(lib, t')
  {
    forall id | id in t'.notifications ensures RowOk(lib, t', id) {
      assert RowOk(lib, t, id);
      AnsweringRowOk(lib, t, g, record, at, n, t', id);
    }
  }

  lemma AnsweringGrantsOk(lib: Library, t: Tables, g: StoredGrant, record: GrantRecord, at: int, n: Loaded, t': Tables)
    requires NewGrant(lib, t, g, record) && Answers(t, g, record, at, n, t') && Grows(t, t') && GrantsOk(lib, t)
    ensures GrantsOk(lib, t')
  {
    forall gid | gid in t'.grants ensures GrantOk(lib, t', gid) {
      if gid != g.id {
        assert GrantOk(lib, t, gid);
        GrantOkGrows(lib, t, t', gid);
      }
    }
  }

  /** A kind-grant that already names the ask of a new one: the row is "timedout". */
  lemma EarlierGrantTimedOut(lib: Library, t: Tables, h: History, g: StoredGrant, record: GrantRecord, at: int,
                             n: Loaded, t': Tables, other: string)
    requires TablesOk(lib, t, h) && Answers(t, g, record, at, n, t')
    requires other in t.grants && Names(t.grants[other], record.askId)
    ensures t.notifications[record.askId].status == "timedout" && record.askId in h.timedOut
    ensures t'.notifications[record.askId].status == "timedout"
  {
    assert GrantOk(lib, t, other);
    assert RowOk(lib, t, record.askId);
    ReadsOpen(t.notifications[record.askId].status);
    assert record.askId in TimedOutIn(t);
  }

  lemma AnsweringRivalsOk(lib: Library, t: Tables, h: History, g: StoredGrant, record: GrantRecord, at: int,
                          n: Loaded, t': Tables)
    requires TablesOk(lib, t, h) && NewGrant(lib, t, g, record) && Answers(t, g, record, at, n, t')
    ensures RivalsOk(t', h)
  {
    forall a, b, ask | Rivals(t', a, b, ask)
      ensures ask in h.timedOut && ask in t'.notifications && t'.notifications[ask].status != "answered"
    {
      if ask == record.askId {
        EarlierGrantTimedOut(lib, t, h, g, record, at, n, t', if a == g.id then b else a);
      } else {
        assert Rivals(t, a, b, ask);
      }
    }
  }

  /** The answering transaction keeps the invariant, and the envelope it hands to
      the waiters is backed by the grant it stored. */
  lemma AnsweringKeeps(lib: Library, t: Tables, h: History, g: StoredGrant, record: GrantRecord, at: int, n: Loaded,
                       t': Tables)
    requires TablesOk(lib, t, h) && NewGrant(lib, t, g, record) && InsertGrantAnswering(t, g, record, at) == (t', Ok(n))
    ensures Grows(t, t') && TablesOk(lib, t', Observe(h, t')) && n.id == record.askId && n.id in t'.notifications
    ensures t'.notifications[n.id].questionType == Approval && g.id in t'.grants && t'.grants[g.id] == g
  {
    assert record.askId in t.notifications ==> RowOk(lib, t, record.askId);
    AcceptedAnswers(t, g, record, at, n, t');
    AnsweringGrows(t, g, record, at, n, t');
    AnsweringRowsOk(lib, t, g, record, at, n, t');
    AnsweringGrantsOk(lib, t, g, record, at, n, t');
    AnsweringRivalsOk(lib, t, h, g, record, at, n, t');
    Observed(lib, t, h, t');
  }

  /** A new grant of another kind. */
  lemma InsertOnlyKeeps(lib: Library, t: Tables, h: History, g: StoredGrant, t': Tables)
    requires TablesOk(lib, t, h) && InsertGrantRow(t, g) == Some(t') && g.kind != "grant" && Genuine(lib, g)
    requires g.revokedBy.None? && g.claimedBy.None? && g.claimedAt.None?
    ensures Grows(t, t') && TablesOk(lib, t', Observe(h, t'))
  {
    GrantChangeKeeps(lib, t, h, g, t');
  }

  lemma MarkStorable(lib: Library, t: Tables, g: StoredGrant, revoker: string)
    requires g.id in t.grants && t.grants[g.id] == g && GrantOk(lib, t, g.id) && g.revokedBy.None?
    requires revoker in t.grants && revoker != g.id && t.grants[revoker].kind == "revoke"
    requires RevokeTarget(lib, t.grants[revoker], g.id)
    ensures Storable(lib, t, g.(revokedBy := Some(revoker)))
  {
    var g' := g.(revokedBy := Some(revoker));
    assert SameGrant(g, g') && g'.IsOnce() == g.IsOnce();
  }

  /** A step that writes nothing. */
  lemma NothingKeeps(lib: Library, t: Tables, h: History)
    requires TablesOk(lib, t, h)
    ensures Grows(t, t) && TablesOk(lib, t, Observe(h, t))
  {
    Observed(lib, t, h, t);
  }

  lemma FirstMarkKeeps(lib: Library, t: Tables, h: History, g: StoredGrant, revoker: string, t': Tables)
    requires TablesOk(lib, t, h) && g.id in t.grants && t.grants[g.id] == g && g.revokedBy.None?
    requires t' == t.(grants := t.grants[g.id := g.(revokedBy := Some(revoker))])
    requires revoker in t.grants && revoker != g.id && t.grants[revoker].kind == "revoke"
    requires RevokeTarget(lib, t.grants[revoker], g.id)
    ensures Grows(t, t') && TablesOk(lib, t', Observe(h, t'))
  {
    assert GrantOk(lib, t, g.id);
    MarkStorable(lib, t, g, revoker);
    GrantChangeKeeps(lib, t, h, g.(revokedBy := Some(revoker)), t');
  }

  lemma IdOf(lib: Library, t: Tables, h: History, id: string)
    requires TablesOk(lib, t, h) && id in t.grants
    ensures t.grants[id].id == id
  {
    assert GrantOk(lib, t, id);
  }

  lemma MarkKeeps(lib: Library, t: Tables, h: History, target: string, revoker: string, t': Tables)
    requires TablesOk(lib, t, h) && t' == MarkRevoked(t, target, revoker)
    requires revoker in t.grants && revoker != target && t.grants[revoker].kind == "revoke"
    requires RevokeTarget(lib, t.grants[revoker], target)
    ensures Grows(t, t') && TablesOk(lib, t', Observe(h, t'))
  {
    if target !in t.grants || t.grants[target].revokedBy.Some? {
      NothingKeeps(lib, t, h);
    } else {
      IdOf(lib, t, h, target);
      FirstMarkKeeps(lib, t, h, t.grants[target], revoker, t');
    }
  }

  /** Observing twice in one step is observing the end, when the middle adds nothing. */
  lemma ObserveThrough(h: History, t: Tables, t': Tables)
    requires t'.notifications == t.notifications
    ensures Observe(Observe(h, t), t') == Observe(h, t')
  {
    assert TimedOutIn(t') == TimedOutIn(t);
    assert AnswersIn(t') == AnswersIn(t);
  }

  lemma RevokingStores(t: Tables, g: StoredGrant, target: string, t': Tables)
    requires InsertGrantRevoking(t, g, target) == (t', Ok(()))
    ensures target in t.grants && g.id !in t.grants
            && t' == MarkRevoked(t.(grants := t.grants[g.id := g]), target, g.id)
  {
  }

  lemma MarkStores(t: Tables, target: string, revoker: string)
    ensures MarkRevoked(t, target, revoker).notifications == t.notifications
  {
  }

  lemma ThroughKeeps(lib: Library, t: Tables, h: History, g: StoredGrant, target: string, t1: Tables,
                     t': Tables)
    requires Grows(t, t1) && TablesOk(lib, t1, Observe(h, t1)) && t' == MarkRevoked(t1, target, g.id)
    requires g.id in t1.grants && t1.grants[g.id] == g && g.id != target && g.kind == "revoke"
    requires RevokeTarget(lib, g, target)
    ensures Grows(t, t') && TablesOk(lib, t', Observe(h, t'))
  {
    MarkKeeps(lib, t1, Observe(h, t1), target, g.id, t');
    GrowsTransitive(t, t1, t');
    MarkStores(t1, target, g.id);
    ObserveThrough(h, t1, t');
  }

  lemma RevokingKeeps(lib: Library, t: Tables, h: History, g: StoredGrant, target: string, t': Tables)
    requires TablesOk(lib, t, h) && InsertGrantRevoking(t, g, target) == (t', Ok(()))
    requires Genuine(lib, g) && g.kind == "revoke" && RevokeTarget(lib, g, target)
    requires g.revokedBy.None? && g.claimedBy.None? && g.claimedAt.None?
    ensures Grows(t, t') && TablesOk(lib, t', Observe(h, t'))
    ensures target in t.grants && g.id !in t.grants
            && t' == MarkRevoked(t.(grants := t.grants[g.id := g]), target, g.id)
  {
    var t1 := t.(grants := t.grants[g.id := g]);
    RevokingStores(t, g, target, t');
    InsertOnlyKeeps(lib, t, h, g, t1);
    ThroughKeeps(lib, t, h, g, target, t1, t');
  }

  lemma ClaimKeeps(lib: Library, t: Tables, h: History, id: string, claimer: string, at: int, t': Tables)
    requires TablesOk(lib, t, h) && ClaimGrant(t, id, claimer, at) == (t', true)
    requires id in t.grants && t.grants[id].IsOnce()
    ensures Grows(t, t') && TablesOk(lib, t', Observe(h, t'))
  {
    assert GrantOk(lib, t, id);
    GrantChangeKeeps(lib, t, h, t.grants[id].(claimedBy := Some(claimer), claimedAt := Some(at)), t');
  }
}
