/** Each statement of the store keeps the invariant of the tables. */
module DaemonTables {
  import opened Prelude
  import opened Json
  import opened Models
  import opened Grants
  import opened Store
  import opened Daemon
  import opened DaemonInv
  import GrantLaws

  // ── Notifications ──────────────────────────────────────────────────────

  /** A row whose update may be stored: an approval row does not become answered here. */
  predicate Allowed(r: Row, r': Row) {
    && SameAsk(r, r') && KnownText(r'.status) && (SnoozeCapped(r) ==> SnoozeCapped(r'))
    && (r'.status == "answered" ==>
          || (r'.questionType != Approval && r'.answer.Some?)
          || (r.status == "answered" && r'.answer == r.answer && r'.answerLabel == r.answerLabel && r'.note == r.note))
  }

  lemma UpdateGrows(t: Tables, id: string, row: Row)
    requires id in t.notifications && SameAsk(t.notifications[id], row)
    ensures Grows(t, UpdateRow(t, id, row))
  {
  }

  lemma UpdatedRowOk(lib: Library, t: Tables, id: string, row: Row, t': Tables, other: string)
    requires id in t.notifications && Allowed(t.notifications[id], row) && t' == UpdateRow(t, id, row)
    requires other in t.notifications && RowOk(lib, t, other)
    ensures RowOk(lib, t', other)
  {
    var r' := t'.notifications[other];
    if r'.questionType == Approval && r'.status == "answered" {
      assert AnsweredByGrant(lib, t, other, r'.answer, r'.answerLabel, r'.note);
      var gid :| gid in t.grants && Names(t.grants[gid], other)
                 && Matches(lib, t.grants[gid], r'.answer, r'.answerLabel, r'.note);
      assert gid in t'.grants && t'.grants[gid] == t.grants[gid];
    }
  }

  lemma UpdatedGrantOk(lib: Library, t: Tables, id: string, row: Row, t': Tables, gid: string)
    requires id in t.notifications && SameAsk(t.notifications[id], row) && t' == UpdateRow(t, id, row)
    requires gid in t.grants && GrantOk(lib, t, gid)
    ensures GrantOk(lib, t', gid)
  {
    assert t'.grants == t.grants;
  }

  lemma UpdatedRivalsOk(lib: Library, t: Tables, h: History, id: string, row: Row, t': Tables)
    requires id in t.notifications && Allowed(t.notifications[id], row) && t' == UpdateRow(t, id, row)
    requires GrantsOk(lib, t) && RivalsOk(t, h)
    ensures RivalsOk(t', h)
  {
    forall a, b, ask | Rivals(t', a, b, ask)
      ensures ask in h.timedOut && ask in t'.notifications && t'.notifications[ask].status != "answered"
    {
      assert Rivals(t, a, b, ask);
      assert GrantOk(lib, t, a);
    }
  }

  /** History observes the new tables. */
  lemma Observed(lib: Library, t: Tables, h: History, t': Tables)
    requires RowsOk(lib, t') && GrantsOk(lib, t') && RivalsOk(t', h)
    ensures TablesOk(lib, t', Observe(h, t')) && Later(h, Observe(h, t'))
  {
  }

  lemma UpdateKeeps(lib: Library, t: Tables, h: History, id: string, row: Row, t': Tables)
    requires TablesOk(lib, t, h) && id in t.notifications && Allowed(t.notifications[id], row)
    requires t' == UpdateRow(t, id, row)
    ensures Grows(t, t') && TablesOk(lib, t', Observe(h, t'))
  {
    UpdateGrows(t, id, row);
    assert RowsOk(lib, t') by {
      forall other | other in t'.notifications ensures RowOk(lib, t', other) {
        UpdatedRowOk(lib, t, id, row, t', other);
      }
    }
    assert GrantsOk(lib, t') by {
      forall gid | gid in t'.grants ensures GrantOk(lib, t', gid) {
        UpdatedGrantOk(lib, t, id, row, t', gid);
      }
    }
    UpdatedRivalsOk(lib, t, h, id, row, t');
    Observed(lib, t, h, t');
  }

  lemma InsertedRowOk(lib: Library, t: Tables, n: Loaded, t': Tables, id: string)
    requires Fresh(n) && InsertNotification(t, n) == Some(t') && id in t'.notifications
    requires id in t.notifications ==> RowOk(lib, t, id)
    ensures RowOk(lib, t', id)
  {
    if id in t.notifications {
      RowOkWithGrants(lib, t, t', id);
    }
  }

  lemma InsertedGrantOk(lib: Library, t: Tables, n: Loaded, t': Tables, gid: string)
    requires InsertNotification(t, n) == Some(t') && gid in t.grants && GrantOk(lib, t, gid)
    ensures GrantOk(lib, t', gid)
  {
    assert t'.grants == t.grants;
  }

  /** With the same grants and no row newly answered, rivals stay as they were. */
  lemma SameRivals(t: Tables, h: History, t': Tables)
    requires RivalsOk(t, h) && Grows(t, t')
    requires forall gid :: gid in t'.grants ==> gid in t.grants || t'.grants[gid].kind != "grant"
    requires forall id :: id in t.notifications ==> t'.notifications[id].status == t.notifications[id].status
    ensures RivalsOk(t', h)
  {
    forall a, b, ask | Rivals(t', a, b, ask)
      ensures ask in h.timedOut && ask in t'.notifications && t'.notifications[ask].status != "answered"
    {
      assert SameGrant(t.grants[a], t'.grants[a]) && SameGrant(t.grants[b], t'.grants[b]);
      assert Rivals(t, a, b, ask);
    }
  }

  lemma InsertedRowsOk(lib: Library, t: Tables, n: Loaded, t': Tables)
    requires Fresh(n) && InsertNotification(t, n) == Some(t') && RowsOk(lib, t)
    ensures RowsOk(lib, t')
  {
    forall id | id in t'.notifications ensures RowOk(lib, t', id) {
      InsertedRowOk(lib, t, n, t', id);
    }
  }

  lemma InsertedGrantsOk(lib: Library, t: Tables, n: Loaded, t': Tables)
    requires InsertNotification(t, n) == Some(t') && GrantsOk(lib, t)
    ensures GrantsOk(lib, t')
  {
    forall gid | gid in t'.grants ensures GrantOk(lib, t', gid) {
      InsertedGrantOk(lib, t, n, t', gid);
    }
  }

  lemma InsertGrows(t: Tables, n: Loaded, t': Tables)
    requires InsertNotification(t, n) == Some(t')
    ensures Grows(t, t')
  {
  }

  lemma InsertNotificationKeeps(lib: Library, t: Tables, h: History, n: Loaded, t': Tables)
    requires TablesOk(lib, t, h) && Fresh(n) && InsertNotification(t, n) == Some(t')
    ensures Grows(t, t') && TablesOk(lib, t', Observe(h, t'))
  {
    InsertGrows(t, n, t');
    InsertedRowsOk(lib, t, n, t');
    InsertedGrantsOk(lib, t, n, t');
    SameRivals(t, h, t');
    Observed(lib, t, h, t');
  }

  // ── Grants ─────────────────────────────────────────────────────────────

  lemma FromVerifiedGenuine(lib: Library, registry: Registry, raw: Json, v: Verified, now: int)
    requires VerifyEnvelope(lib, registry, raw) == Ok(v)
    ensures Genuine(lib, FromVerified(v, now)) && ParseRecord(lib, v.envelope.record) == Ok(v.parsed)
    ensures FromVerified(v, now).ToEnvelope() == v.envelope
  {
    GrantLaws.StoreRoundTrip(lib, registry, raw, v, now);
    GrantLaws.VerifyIffSound(lib, registry, raw, v);
    assert VerifiesAs(lib, registry, FromVerified(v, now), v);
  }

  lemma GenuineSame(lib: Library, g: StoredGrant, g': StoredGrant)
    requires Genuine(lib, g) && SameGrant(g, g')
    ensures Genuine(lib, g') && g'.IsOnce() == g.IsOnce()
  {
    var registry, v :| VerifiesAs(lib, registry, g, v);
    assert g'.ToEnvelope() == g.ToEnvelope();
    assert VerifiesAs(lib, registry, g', v);
  }

  lemma RowOkWithGrants(lib: Library, t: Tables, t': Tables, id: string)
    requires Grows(t, t') && id in t.notifications && RowOk(lib, t, id) && t'.notifications[id] == t.notifications[id]
    ensures RowOk(lib, t', id)
  {
    var r := t.notifications[id];
    if r.questionType == Approval && r.status == "answered" {
      AnsweredByGrantGrows(lib, t, t', id, r.answer, r.answerLabel, r.note);
    }
  }

  lemma RevokedOkGrows(lib: Library, t: Tables, t': Tables, g: StoredGrant)
    requires Grows(t, t') && RevokedOk(lib, t, g)
    ensures RevokedOk(lib, t', g)
  {
    if g.revokedBy.Some? {
      assert SameGrant(t.grants[g.revokedBy.value], t'.grants[g.revokedBy.value]);
    }
  }

  /** A grant that may be stored: a marked one, or a new one that is not a kind-grant. */
  ghost predicate Storable(lib: Library, t: Tables, g: StoredGrant) {
    && (if g.id in t.grants then SameGrant(t.grants[g.id], g) else g.kind != "grant" && Genuine(lib, g))
    && RevokedOk(lib, t, g)
    && (g.claimedBy.Some? <==> g.claimedAt.Some?) && (g.claimedBy.Some? ==> g.IsOnce())
  }

  lemma StoredGrows(lib: Library, t: Tables, g: StoredGrant, t': Tables)
    requires Storable(lib, t, g) && t' == t.(grants := t.grants[g.id := g])
    ensures Grows(t, t')
  {
  }

  lemma NamesAskGrows(t: Tables, t': Tables, g: StoredGrant)
    requires Grows(t, t') && NamesAsk(t, g)
    ensures NamesAsk(t', g)
  {
    if g.kind == "grant" {
      assert SameAsk(t.notifications[g.notificationId.value], t'.notifications[g.notificationId.value]);
    }
  }

  lemma StoredGrantOk(lib: Library, t: Tables, g: StoredGrant, t': Tables)
    requires Storable(lib, t, g) && t' == t.(grants := t.grants[g.id := g]) && Grows(t, t')
    requires g.id in t.grants ==> GrantOk(lib, t, g.id)
    ensures GrantOk(lib, t', g.id)
  {
    if g.id in t.grants {
      GenuineSame(lib, t.grants[g.id], g);
      NamesAskGrows(t, t', t.grants[g.id]);
    }
    RevokedOkGrows(lib, t, t', g);
  }

  lemma GrantOkGrows(lib: Library, t: Tables, t': Tables, gid: string)
    requires Grows(t, t') && gid in t.grants && GrantOk(lib, t, gid) && t'.grants[gid] == t.grants[gid]
    ensures GrantOk(lib, t', gid)
  {
    NamesAskGrows(t, t', t.grants[gid]);
    RevokedOkGrows(lib, t, t', t.grants[gid]);
  }

  lemma StoredGrantsOk(lib: Library, t: Tables, g: StoredGrant, t': Tables)
    requires Storable(lib, t, g) && t' == t.(grants := t.grants[g.id := g]) && Grows(t, t') && GrantsOk(lib, t)
    ensures GrantsOk(lib, t')
  {
    forall gid | gid in t'.grants ensures GrantOk(lib, t', gid) {
      if gid == g.id {
        StoredGrantOk(lib, t, g, t');
      } else {
        GrantOkGrows(lib, t, t', gid);
      }
    }
  }

  lemma SameRowsOk(lib: Library, t: Tables, t': Tables)
    requires RowsOk(lib, t) && t'.notifications == t.notifications && Grows(t, t')
    ensures RowsOk(lib, t')
  {
    forall id | id in t'.notifications ensures RowOk(lib, t', id) {
      RowOkWithGrants(lib, t, t', id);
    }
  }

  /** A grant that is not a kind-grant, added or marked: nothing else changes. */
  lemma GrantChangeKeeps(lib: Library, t: Tables, h: History, g: StoredGrant, t': Tables)
    requires TablesOk(lib, t, h) && t' == t.(grants := t.grants[g.id := g]) && Storable(lib, t, g)
    ensures Grows(t, t') && TablesOk(lib, t', Observe(h, t'))
  {
    StoredGrows(lib, t, g, t');
    SameRowsOk(lib, t, t');
    StoredGrantsOk(lib, t, g, t');
    SameRivals(t, h, t');
    Observed(lib, t, h, t');
  }
}
