/** jcs is canonical and injective. */
module JsonCanonical {
  import opened Prelude
  import opened Sorting
  import opened Utf16
  import opened Json
  import opened JsonPrint
  import opened JsonParse

  lemma MemberLeTotalPreorder()
    ensures TotalPreorder(MemberLe)
  {
    forall x: Member, y: Member ensures MemberLe(x, y) || MemberLe(y, x) {
      UnitsLeTotal(Encode(x.key), Encode(y.key));
    }
    forall x: Member, y: Member, z: Member | MemberLe(x, y) && MemberLe(y, z) ensures MemberLe(x, z) {
      UnitsLeTransitive(Encode(x.key), Encode(y.key), Encode(z.key));
    }
  }

  ghost predicate DistinctKeys(ms: seq<Member>) {
    forall i, j :: 0 <= i < j < |ms| ==> ms[i].key != ms[j].key
  }

  ghost predicate DefinedAt(ms: seq<Member>, i: int) {
    0 <= i < |ms| && ms[i].value != Undefined
  }

  /** The members of a normal form are the defined members, normalised. */
  lemma {:induction false} NormMembersAre(ms: seq<Member>)
    requires DistinctKeys(ms)
    ensures forall i :: DefinedAt(ms, i) ==> Member(ms[i].key, Norm(ms[i].value)) in NormMembers(ms)
    ensures forall m :: m in NormMembers(ms) ==>
              exists i :: DefinedAt(ms, i) && m == Member(ms[i].key, Norm(ms[i].value))
    ensures DistinctKeys(NormMembers(ms))
  {
    if ms != [] {
      var tail, rest := ms[1..], NormMembers(ms[1..]);
      NormMembersAre(tail);
      forall i | DefinedAt(ms, i) ensures Member(ms[i].key, Norm(ms[i].value)) in NormMembers(ms) {
        if i > 0 { assert DefinedAt(tail, i - 1); }
      }
      forall m | m in NormMembers(ms)
        ensures exists i :: DefinedAt(ms, i) && m == Member(ms[i].key, Norm(ms[i].value))
      {
        if m in rest {
          var j :| DefinedAt(tail, j) && m == Member(tail[j].key, Norm(tail[j].value));
          assert DefinedAt(ms, j + 1);
        } else {
          assert DefinedAt(ms, 0);
        }
      }
      forall i, j | 0 <= i < j < |NormMembers(ms)|
        ensures NormMembers(ms)[i].key != NormMembers(ms)[j].key
      {
        if ms[0].value != Undefined && i == 0 {
          assert NormMembers(ms)[j] in rest;
          var k :| DefinedAt(tail, k) && rest[j - 1] == Member(tail[k].key, Norm(tail[k].value));
          assert ms[k + 1].key == tail[k].key;
        }
      }
    }
  }

  lemma DistinctMultiset(ms: seq<Member>, m: Member)
    requires DistinctKeys(ms)
    ensures multiset(ms)[m] == if m in ms then 1 else 0
  {
    if ms != [] {
      assert ms == [ms[0]] + ms[1..];
      DistinctMultiset(ms[1..], m);
    }
  }

  /** Sorting by name forgets nothing but the order. */
  lemma SortedMembersEqual(xs: seq<Member>, ys: seq<Member>)
    requires DistinctKeys(xs) && DistinctKeys(ys)
    ensures StableSort(xs, MemberLe) == StableSort(ys, MemberLe) <==> forall m :: m in xs <==> m in ys
  {
    var sx, sy := StableSort(xs, MemberLe), StableSort(ys, MemberLe);
    SortPermutes(xs, MemberLe);
    SortPermutes(ys, MemberLe);
    if sx == sy {
      forall m ensures m in xs <==> m in ys {
        assert m in xs <==> m in multiset(xs);
        assert m in ys <==> m in multiset(ys);
      }
    }
    if forall m :: m in xs <==> m in ys {
      forall m ensures multiset(xs)[m] == multiset(ys)[m] {
        DistinctMultiset(xs, m);
        DistinctMultiset(ys, m);
      }
      MemberLeTotalPreorder();
      SortSorts(xs, MemberLe);
      SortSorts(ys, MemberLe);
      forall a, b | a in sx && b in sx && MemberLe(a, b) && MemberLe(b, a) ensures a == b {
        KeyLeAntisymmetric(a.key, b.key);
        assert a in multiset(sx) && b in multiset(sx);
        assert a in xs && b in xs;
      }
      SortedUnique(sx, sy, MemberLe);
    }
  }

  /** Two values have the same normal form exactly when they are the same. */
  lemma {:induction false} NormSame(a: Json, b: Json)
    requires WellFormed(a) && WellFormed(b)
    ensures Norm(a) == Norm(b) <==> Same(a, b)
  {
    match (a, b)
    case (Arr(xs), Arr(ys)) => NormItemsSame(xs, ys);
    case (Obj(ms), Obj(ns)) =>
      NormMembersAre(ms);
      NormMembersAre(ns);
      SortedMembersEqual(NormMembers(ms), NormMembers(ns));
      forall i, j | DefinedAt(ms, i) && DefinedAt(ns, j)
        ensures Norm(ms[i].value) == Norm(ns[j].value) <==> Same(ms[i].value, ns[j].value)
      {
        NormSame(ms[i].value, ns[j].value);
      }
      if Same(a, b) { SameMembers(ms, ns); SameMembers(ns, ms); }
      if Norm(a) == Norm(b) { MembersSame(ms, ns); }
    case _ =>
  }

  lemma {:induction false} NormItemsSame(xs: seq<Json>, ys: seq<Json>)
    requires forall i :: 0 <= i < |xs| ==> WellFormed(xs[i])
    requires forall i :: 0 <= i < |ys| ==> WellFormed(ys[i])
    ensures NormItems(xs) == NormItems(ys) <==> |xs| == |ys| && forall i :: 0 <= i < |xs| ==> Same(xs[i], ys[i])
  {
    if xs != [] && ys != [] {
      NormSame(xs[0], ys[0]);
      NormItemsSame(xs[1..], ys[1..]);
      var nx, ny := NormItems(xs), NormItems(ys);
      if nx == ny {
        assert nx[0] == ny[0] && nx[1..] == ny[1..];
        forall i | 0 <= i < |xs| ensures Same(xs[i], ys[i]) {
          if i > 0 { assert xs[i] == xs[1..][i - 1] && ys[i] == ys[1..][i - 1]; }
        }
      }
    }
  }

  lemma SameMembers(ms: seq<Member>, ns: seq<Member>)
    requires DistinctKeys(ms) && DistinctKeys(ns)
    requires DefinedKeys(ms) == DefinedKeys(ns)
    requires forall i, j :: DefinedAt(ms, i) && DefinedAt(ns, j) && ms[i].key == ns[j].key
               ==> Norm(ms[i].value) == Norm(ns[j].value)
    ensures forall m :: m in NormMembers(ms) ==> m in NormMembers(ns)
  {
    NormMembersAre(ms);
    NormMembersAre(ns);
    forall m | m in NormMembers(ms) ensures m in NormMembers(ns) {
      var i :| DefinedAt(ms, i) && m == Member(ms[i].key, Norm(ms[i].value));
      assert ms[i].key in DefinedKeys(ns);
      var j :| DefinedAt(ns, j) && ns[j].key == ms[i].key;
    }
  }

  lemma MembersSame(ms: seq<Member>, ns: seq<Member>)
    requires DistinctKeys(ms) && DistinctKeys(ns)
    requires forall m :: m in NormMembers(ms) <==> m in NormMembers(ns)
    ensures DefinedKeys(ms) == DefinedKeys(ns)
    ensures forall i, j :: DefinedAt(ms, i) && DefinedAt(ns, j) && ms[i].key == ns[j].key
               ==> Norm(ms[i].value) == Norm(ns[j].value)
  {
    NormMembersAre(ms);
    NormMembersAre(ns);
    forall i | DefinedAt(ms, i) ensures ms[i].key in DefinedKeys(ns) {
      var m := Member(ms[i].key, Norm(ms[i].value));
      assert m in NormMembers(ns);
    }
    forall j | DefinedAt(ns, j) ensures ns[j].key in DefinedKeys(ms) {
      var m := Member(ns[j].key, Norm(ns[j].value));
      assert m in NormMembers(ms);
    }
    forall i, j | DefinedAt(ms, i) && DefinedAt(ns, j) && ms[i].key == ns[j].key
      ensures Norm(ms[i].value) == Norm(ns[j].value)
    {
      var m := Member(ms[i].key, Norm(ms[i].value));
      assert m in NormMembers(ns);
      var k :| DefinedAt(ns, k) && m == Member(ns[k].key, Norm(ns[k].value));
      assert k == j;
    }
  }

  /** Canonical and injective: two printable values print the same exactly when
      they are equal up to member order and undefined members. */
  lemma JcsCanonical(a: Json, b: Json)
    requires WellFormed(a) && WellFormed(b) && Printable(a) && Printable(b)
    ensures Jcs(a) == Jcs(b) <==> Same(a, b)
  {
    JcsPrintsNorm(a);
    JcsPrintsNorm(b);
    JcsParses(a);
    JcsParses(b);
    NormSame(a, b);
  }

  /** Printing what a canonical form parses to gives the canonical form again. */
  lemma JcsIdempotent(v: Json)
    requires WellFormed(v) && Printable(v)
    ensures Printable(Norm(v)) && Jcs(Norm(v)) == Jcs(v)
  {
    JcsPrintsNorm(v);
    PlainIsPrintable(Norm(v));
    NormNorm(v);
    JcsPrintsNorm(Norm(v));
  }

  lemma PlainIsPrintable(v: Json)
    requires Plain(v)
    ensures Printable(v)
  {
  }

  lemma {:induction false} NormNorm(v: Json)
    requires WellFormed(v) && Printable(v)
    ensures WellFormed(Norm(v)) && Norm(Norm(v)) == Norm(v)
  {
    match v
    case Arr(items) => NormNormItems(items);
    case Obj(ms) =>
      var ns := NormMembers(ms);
      var sorted := StableSort(ns, MemberLe);
      NormMembersAre(ms);
      SortPermutes(ns, MemberLe);
      SortKeepsDistinct(ns);
      forall i | 0 <= i < |sorted| ensures WellFormed(sorted[i].value) && Norm(sorted[i].value) == sorted[i].value
          && sorted[i].value != Undefined {
        assert sorted[i] in multiset(sorted);
        assert sorted[i] in ns;
        var k :| DefinedAt(ms, k) && sorted[i] == Member(ms[k].key, Norm(ms[k].value));
        NormNorm(ms[k].value);
        JcsPrintsNorm(ms[k].value);
      }
      NormMembersFixed(sorted);
      MemberLeTotalPreorder();
      SortSorts(ns, MemberLe);
      SortPermutes(sorted, MemberLe);
      SortedMembersEqual(sorted, ns);
      forall m ensures m in sorted <==> m in ns {
        assert m in sorted <==> m in multiset(sorted);
        assert m in ns <==> m in multiset(ns);
      }
    case _ =>
  }

  lemma {:induction false} NormNormItems(items: seq<Json>)
    requires forall i :: 0 <= i < |items| ==> WellFormed(items[i]) && Printable(items[i])
    ensures forall i :: 0 <= i < |items| ==> WellFormed(NormItems(items)[i])
    ensures NormItems(NormItems(items)) == NormItems(items)
  {
    if items != [] {
      NormNorm(items[0]);
      NormNormItems(items[1..]);
      assert NormItems(items)[1..] == NormItems(items[1..]);
    }
  }

  lemma NormMembersFixed(ms: seq<Member>)
    requires forall i :: 0 <= i < |ms| ==> ms[i].value != Undefined && Norm(ms[i].value) == ms[i].value
    ensures NormMembers(ms) == ms
  {
    if ms != [] {
      NormMembersFixed(ms[1..]);
      assert ms == [ms[0]] + ms[1..];
    }
  }

  lemma CountTwo(ms: seq<Member>, i: int, j: int)
    requires 0 <= i < j < |ms| && ms[i] == ms[j]
    ensures multiset(ms)[ms[i]] >= 2
  {
    assert ms == ms[..j] + [ms[j]] + ms[j + 1..];
    assert ms[i] in ms[..j];
    assert multiset(ms[..j])[ms[i]] >= 1;
  }

  lemma SortKeepsDistinct(ms: seq<Member>)
    requires DistinctKeys(ms)
    ensures DistinctKeys(StableSort(ms, MemberLe))
  {
    var sorted := StableSort(ms, MemberLe);
    SortPermutes(ms, MemberLe);
    forall i, j | 0 <= i < j < |sorted| ensures sorted[i].key != sorted[j].key {
      if sorted[i].key == sorted[j].key {
        assert sorted[i] in multiset(sorted) && sorted[j] in multiset(sorted);
        assert sorted[i] in ms && sorted[j] in ms;
        CountTwo(sorted, i, j);
        DistinctMultiset(ms, sorted[i]);
        assert false;
      }
    }
  }

  // ── The text is the one of RFC 8785 ────────────────────────────────────

  /** The property names of every object in the value ascend by UTF-16 code unit. */
  ghost predicate Ascends(v: Json) {
    match v
    case Arr(items) => forall i :: 0 <= i < |items| ==> Ascends(items[i])
    case Obj(ms) =>
      && (forall i, j :: 0 <= i < j < |ms| ==> Precedes(Encode(ms[i].key), Encode(ms[j].key)))
      && (forall i :: 0 <= i < |ms| ==> Ascends(ms[i].value))
    case _ => true
  }

  lemma {:induction false} NormAscends(v: Json)
    ensures Ascends(Norm(v))
  {
    match v
    case Arr(items) => NormItemsAscend(items);
    case Obj(ms) =>
      var ns, xs := NormMembers(ms), StableSort(NormMembers(ms), MemberLe);
      MemberLeTotalPreorder();
      SortSorts(ns, MemberLe);
      SortPermutes(ns, MemberLe);
      NormMembersAscend(ms);
      forall i, j | 0 <= i < j < |xs| ensures Precedes(Encode(xs[i].key), Encode(xs[j].key)) {
        assert MemberLe(xs[i], xs[j]);
        UnitsLePrecedes(Encode(xs[i].key), Encode(xs[j].key));
      }
      forall i | 0 <= i < |xs| ensures Ascends(xs[i].value) {
        assert xs[i] in multiset(xs);
        assert xs[i] in ns;
      }
    case _ =>
  }

  lemma {:induction false} NormItemsAscend(items: seq<Json>)
    ensures forall i :: 0 <= i < |items| ==> Ascends(NormItems(items)[i])
  {
    if items != [] {
      NormAscends(items[0]);
      NormItemsAscend(items[1..]);
    }
  }

  lemma {:induction false} NormMembersAscend(ms: seq<Member>)
    ensures forall m :: m in NormMembers(ms) ==> Ascends(m.value)
  {
    if ms != [] {
      NormAscends(ms[0].value);
      NormMembersAscend(ms[1..]);
    }
  }

  /** What jcs prints parses, with nothing left over, to the same value with the names
      of every object in ascending order. */
  lemma JcsAscends(v: Json)
    requires WellFormed(v) && Printable(v)
    ensures Jcs(v).Some? && Parse(Jcs(v).value).Some? && Parse(Jcs(v).value).value.1 == ""
    ensures Ascends(Parse(Jcs(v).value).value.0) && Same(v, Parse(Jcs(v).value).value.0)
  {
    JcsPrintsNorm(v);
    JcsParses(v);
    NormAscends(v);
    NormNorm(v);
    NormSame(v, Norm(v));
  }

  /** A character is printed as it is, or as a two-character escape where JSON has one,
      or, for the other controls, as \u00 and two lower-case hex digits. */
  lemma EscapesAreShort(c: char)
    ensures var e := EscapeChar(c);
            if c == '\"' || c == '\\' || c as int in {8, 9, 10, 12, 13} then |e| == 2
            else if (c as int) < 32 then
              |e| == 6 && e[..4] == "\\u00" && HexValue(e[4]).Some? && HexValue(e[5]).Some?
            else e == [c]
  {
    if (c as int) < 32 {
      HexValueOfDigit(c as int / 16);
      HexValueOfDigit(c as int % 16);
    }
  }

  /** A number has no leading zero. */
  lemma {:induction false} DecimalIsShort(n: nat)
    ensures Decimal(n)[0] == '0' <==> n == 0
    ensures n == 0 ==> Decimal(n) == "0"
  {
    if n >= 10 {
      DecimalIsShort(n / 10);
    }
  }
}
