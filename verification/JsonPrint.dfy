/** What jcs prints, as a plain printer applied to a normal form. */
module JsonPrint {
  import opened Prelude
  import opened Sorting
  import opened Utf16
  import opened Json

  // ── Printing a value whose members are already in order ────────────────

  /** No undefined members, no fractions. */
  predicate Plain(v: Json) {
    match v
    case Undefined => false
    case Fraction(_) => false
    case Arr(items) => forall i :: 0 <= i < |items| ==> Plain(items[i])
    case Obj(ms) => forall i :: 0 <= i < |ms| ==> Plain(ms[i].value)
    case _ => true
  }

  function Print(v: Json): string
    requires Plain(v)
  {
    match v
    case Null => "null"
    case Bool(b) => if b then "true" else "false"
    case Int(n) => PrintInt(n)
    case Str(s) => Quote(s)
    case Arr(items) => "[" + PrintItems(items) + "]"
    case Obj(ms) => "{" + PrintMembers(ms) + "}"
  }

  function PrintItems(items: seq<Json>): string
    requires forall i :: 0 <= i < |items| ==> Plain(items[i])
  {
    if items == [] then ""
    else if |items| == 1 then Print(items[0])
    else Print(items[0]) + "," + PrintItems(items[1..])
  }

  function PrintMember(m: Member): string
    requires Plain(m.value)
  {
    Quote(m.key) + ":" + Print(m.value)
  }

  function PrintMembers(ms: seq<Member>): string
    requires forall i :: 0 <= i < |ms| ==> Plain(ms[i].value)
  {
    if ms == [] then ""
    else if |ms| == 1 then PrintMember(ms[0])
    else PrintMember(ms[0]) + "," + PrintMembers(ms[1..])
  }

  // ── jcs prints the normal form ─────────────────────────────────────────

  lemma {:induction false} NormPlain(v: Json)
    requires Printable(v)
    ensures Plain(Norm(v))
  {
    match v
    case Arr(items) => NormItemsPlain(items);
    case Obj(ms) =>
      NormMembersPlain(ms);
      SortPermutes(NormMembers(ms), MemberLe);
      var sorted := StableSort(NormMembers(ms), MemberLe);
      forall i | 0 <= i < |sorted| ensures Plain(sorted[i].value) {
        assert sorted[i] in multiset(sorted);
        assert sorted[i] in NormMembers(ms);
      }
    case _ =>
  }

  lemma {:induction false} NormItemsPlain(items: seq<Json>)
    requires forall i :: 0 <= i < |items| ==> Printable(items[i])
    ensures forall i :: 0 <= i < |items| ==> Plain(NormItems(items)[i])
  {
    if items != [] {
      NormPlain(items[0]);
      NormItemsPlain(items[1..]);
    }
  }

  lemma {:induction false} NormMembersPlain(ms: seq<Member>)
    requires forall i :: 0 <= i < |ms| ==> ms[i].value == Undefined || Printable(ms[i].value)
    ensures forall m :: m in NormMembers(ms) ==> Plain(m.value)
  {
    if ms != [] {
      NormMembersPlain(ms[1..]);
      if ms[0].value != Undefined {
        NormPlain(ms[0].value);
      }
    }
  }

  function ToEntry(m: Member): Entry
    requires Plain(m.value)
  {
    Entry(m.key, PrintMember(m))
  }

  function ToEntries(ms: seq<Member>): (es: seq<Entry>)
    requires forall m :: m in ms ==> Plain(m.value)
  {
    if ms == [] then [] else [ToEntry(ms[0])] + ToEntries(ms[1..])
  }

  lemma {:induction false} InsertEntries(m: Member, ms: seq<Member>)
    requires Plain(m.value) && forall x :: x in ms ==> Plain(x.value)
    ensures forall x :: x in Insert(m, ms, MemberLe) ==> Plain(x.value)
    ensures ToEntries(Insert(m, ms, MemberLe)) == Insert(ToEntry(m), ToEntries(ms), EntryLe)
  {
    if ms == [] {
    } else if MemberLe(m, ms[0]) {
      assert ([m] + ms)[1..] == ms;
    } else {
      InsertEntries(m, ms[1..]);
      var rest := Insert(m, ms[1..], MemberLe);
      assert ([ms[0]] + rest)[1..] == rest;
      assert ([ToEntry(ms[0])] + ToEntries(ms[1..]))[1..] == ToEntries(ms[1..]);
    }
  }

  lemma {:induction false} SortEntries(ms: seq<Member>)
    requires forall m :: m in ms ==> Plain(m.value)
    ensures forall m :: m in StableSort(ms, MemberLe) ==> Plain(m.value)
    ensures ToEntries(StableSort(ms, MemberLe)) == StableSort(ToEntries(ms), EntryLe)
  {
    if ms != [] {
      SortEntries(ms[1..]);
      InsertEntries(ms[0], StableSort(ms[1..], MemberLe));
      assert ([ToEntry(ms[0])] + ToEntries(ms[1..]))[1..] == ToEntries(ms[1..]);
    }
  }

  lemma {:induction false} JoinMembers(ms: seq<Member>)
    requires forall m :: m in ms ==> Plain(m.value)
    ensures Join(EntryTexts(ToEntries(ms))) == PrintMembers(ms)
  {
    if |ms| > 1 {
      JoinMembers(ms[1..]);
      assert ([ToEntry(ms[0])] + ToEntries(ms[1..]))[1..] == ToEntries(ms[1..]);
      var texts := EntryTexts(ToEntries(ms[1..]));
      assert ([PrintMember(ms[0])] + texts)[1..] == texts;
    }
  }

  /** jcs throws exactly on the values that are not printable; on the others it
      prints the normal form: members sorted by name, undefined members gone. */
  lemma {:induction false} JcsPrintsNorm(v: Json)
    ensures Jcs(v).Some? <==> Printable(v)
    ensures Printable(v) ==> Plain(Norm(v)) && Jcs(v) == Some(Print(Norm(v)))
  {
    match v
    case Arr(items) =>
      JcsItemsPrintNorm(items);
      if Printable(v) { NormPlain(v); }
    case Obj(ms) =>
      JcsEntriesPrintNorm(ms);
      if Printable(v) {
        NormPlain(v);
        NormMembersPlain(ms);
        SortEntries(NormMembers(ms));
        JoinMembers(StableSort(NormMembers(ms), MemberLe));
      }
    case _ =>
  }

  lemma {:induction false} JcsItemsPrintNorm(items: seq<Json>)
    ensures JcsItems(items).Some? <==> forall i :: 0 <= i < |items| ==> Printable(items[i])
    ensures JcsItems(items).Some? ==>
      (forall i :: 0 <= i < |items| ==> Plain(NormItems(items)[i])) &&
      Join(JcsItems(items).value) == PrintItems(NormItems(items)) &&
      |JcsItems(items).value| == |items|
  {
    if items != [] {
      JcsPrintsNorm(items[0]);
      JcsItemsPrintNorm(items[1..]);
      if JcsItems(items).Some? {
        assert JcsItems(items).value[1..] == JcsItems(items[1..]).value;
        assert NormItems(items)[1..] == NormItems(items[1..]);
      }
    }
  }

  lemma {:induction false} JcsEntriesPrintNorm(ms: seq<Member>)
    ensures JcsEntries(ms).Some? <==>
            forall i :: 0 <= i < |ms| ==> ms[i].value == Undefined || Printable(ms[i].value)
    ensures JcsEntries(ms).Some? ==>
      (forall m :: m in NormMembers(ms) ==> Plain(m.value)) &&
      JcsEntries(ms).value == ToEntries(NormMembers(ms))
  {
    if ms != [] {
      JcsPrintsNorm(ms[0].value);
      JcsEntriesPrintNorm(ms[1..]);
      if JcsEntries(ms).Some? {
        NormMembersPlain(ms);
        if ms[0].value != Undefined {
          var m := Member(ms[0].key, Norm(ms[0].value));
          assert ([m] + NormMembers(ms[1..]))[1..] == NormMembers(ms[1..]);
        }
      }
    }
  }
}
