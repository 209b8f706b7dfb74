/** What verification guarantees, and that storing a verified envelope loses
    nothing: the stored row gives the envelope back and it verifies again. */
module GrantLaws {
  import opened Prelude
  import opened Bytes
  import opened Json
  import opened Models
  import opened Grants
  import JsonPrint
  import JsonParse
  import JsonCanonical
  import Base32

  /** An envelope that verified: its record parses to the typed record, and its
      hash, its id and its signature are those of the canonical bytes. */
  ghost predicate Sound(lib: Library, registry: Registry, v: Verified) {
    && v.envelope.alg == "es256"
    && ParseRecord(lib, v.envelope.record) == Ok(v.parsed)
    && Jcs(v.envelope.record).Some?
    && var canonical := Jcs(v.envelope.record).value;
    && v.envelope.recordSha256 == LowerHex(lib.sha256(canonical))
    && v.envelope.id == GrantId(lib, canonical)
    && Find(registry, v.parsed.record.Signer()).Some?
    && SignatureOk(lib, Find(registry, v.parsed.record.Signer()).value.key, canonical, v.envelope.sig)
  }

  /** Verification accepts exactly the envelopes that are well-shaped and sound. */
  lemma VerifyIffSound(lib: Library, registry: Registry, raw: Json, v: Verified)
    ensures VerifyEnvelope(lib, registry, raw) == Ok(v) <==>
            ReadEnvelope(raw) == Some(v.envelope) && Sound(lib, registry, v)
  {
  }

  /** A member is found under its name, when no earlier member has that name. */
  lemma {:induction false} GetAt(ms: seq<Member>, i: nat)
    requires i < |ms| && forall j :: 0 <= j < i ==> ms[j].key != ms[i].key
    ensures Get(ms, ms[i].key) == Some(ms[i].value)
  {
    if i > 0 {
      GetAt(ms[1..], i - 1);
    }
  }

  lemma ReadEnvelopeJson(e: Envelope)
    ensures ReadEnvelope(EnvelopeJson(e)) == Some(e)
  {
    var ms := EnvelopeJson(e).members;
    assert ms[3].key[0] == 'a' && ms[4].key[0] == 's';
    GetAt(ms, 0);
    GetAt(ms, 1);
    GetAt(ms, 2);
    GetAt(ms, 3);
    GetAt(ms, 4);
  }

  /** Storage is the inverse of verification: the row made from a verified
      envelope gives that envelope back, and verifying what it serves under the
      same registry gives the same result. */
  lemma StoreRoundTrip(lib: Library, registry: Registry, raw: Json, v: Verified, createdAt: int)
    requires VerifyEnvelope(lib, registry, raw) == Ok(v)
    ensures FromVerified(v, createdAt).ToEnvelope() == v.envelope
    ensures VerifyEnvelope(lib, registry, EnvelopeJson(FromVerified(v, createdAt).ToEnvelope())) == Ok(v)
  {
    VerifyIffSound(lib, registry, raw, v);
    ReadEnvelopeJson(v.envelope);
    VerifyIffSound(lib, registry, EnvelopeJson(v.envelope), v);
  }

  // ── Member order does not matter ───────────────────────────────────────

  ghost predicate SameLookup(ms: seq<Member>, ns: seq<Member>, key: string) {
    match (Get(ms, key), Get(ns, key))
    case (None, None) => true
    case (Some(x), Some(y)) => Same(x, y)
    case _ => false
  }

  lemma {:induction false} GetIs(ms: seq<Member>, key: string)
    ensures Get(ms, key).Some? <==> exists i :: 0 <= i < |ms| && ms[i].key == key
    ensures Get(ms, key).Some? ==> exists i :: 0 <= i < |ms| && ms[i] == Member(key, Get(ms, key).value)
  {
    if ms != [] && ms[0].key != key {
      GetIs(ms[1..], key);
      forall i | 0 <= i < |ms[1..]| ensures ms[1..][i] == ms[i + 1] {}
      if i :| 0 <= i < |ms| && ms[i].key == key { assert ms[1..][i - 1].key == key; }
      if Get(ms, key).Some? {
        var i :| 0 <= i < |ms[1..]| && ms[1..][i] == Member(key, Get(ms, key).value);
        assert ms[i + 1] == Member(key, Get(ms, key).value);
      }
    }
  }

  lemma SameGet(ms: seq<Member>, ns: seq<Member>, key: string)
    requires JsonPrint.Plain(Obj(ms)) && JsonPrint.Plain(Obj(ns)) && Same(Obj(ms), Obj(ns))
    ensures SameLookup(ms, ns, key)
  {
    GetIs(ms, key);
    GetIs(ns, key);
    if i :| 0 <= i < |ms| && ms[i].key == key {
      assert JsonPrint.Plain(ms[i].value);
      assert ms[i].key in DefinedKeys(ms);
      assert key in DefinedKeys(ns);
    }
    if i :| 0 <= i < |ns| && ns[i].key == key {
      assert JsonPrint.Plain(ns[i].value);
      assert ns[i].key in DefinedKeys(ns);
      assert key in DefinedKeys(ms);
    }
  }

  lemma SameGetters(ms: seq<Member>, ns: seq<Member>, key: string)
    requires JsonPrint.Plain(Obj(ms)) && JsonPrint.Plain(Obj(ns)) && Same(Obj(ms), Obj(ns))
    ensures GetStr(ms, key) == GetStr(ns, key) && GetNat(ms, key) == GetNat(ns, key)
    ensures GetOptStr(ms, key) == GetOptStr(ns, key) && GetOptBool(ms, key) == GetOptBool(ns, key)
  {
    SameGet(ms, ns, key);
  }

  lemma SameOnlyKeys(ms: seq<Member>, ns: seq<Member>, keys: set<string>)
    requires JsonPrint.Plain(Obj(ms)) && JsonPrint.Plain(Obj(ns)) && Same(Obj(ms), Obj(ns))
    ensures OnlyKeys(ms, keys) == OnlyKeys(ns, keys)
  {
    forall i | 0 <= i < |ms| ensures exists j :: 0 <= j < |ns| && ns[j].key == ms[i].key {
      assert JsonPrint.Plain(ms[i].value);
      assert ms[i].key in DefinedKeys(ms);
      assert ms[i].key in DefinedKeys(ns);
    }
    forall i | 0 <= i < |ns| ensures exists j :: 0 <= j < |ms| && ms[j].key == ns[i].key {
      assert JsonPrint.Plain(ns[i].value);
      assert ns[i].key in DefinedKeys(ns);
      assert ns[i].key in DefinedKeys(ms);
    }
  }

  lemma SameReadGrant(ms: seq<Member>, ns: seq<Member>)
    requires JsonPrint.Plain(Obj(ms)) && JsonPrint.Plain(Obj(ns)) && Same(Obj(ms), Obj(ns))
    ensures ReadGrant(ms) == ReadGrant(ns)
  {
    SameOnlyKeys(ms, ns, Keys(GrantForm));
    SameGetters(ms, ns, "v");
    SameGetters(ms, ns, "ask_id");
    SameGetters(ms, ns, "asked_by");
    SameGetters(ms, ns, "question");
    SameGetters(ms, ns, "decision");
    SameGetters(ms, ns, "answer");
    SameGetters(ms, ns, "note");
    SameGetters(ms, ns, "issued_at");
    SameGetters(ms, ns, "expires_at");
    SameGetters(ms, ns, "once");
    SameGetters(ms, ns, "renews");
    SameGetters(ms, ns, "signer");
  }

  lemma SameReadOthers(ms: seq<Member>, ns: seq<Member>)
    requires JsonPrint.Plain(Obj(ms)) && JsonPrint.Plain(Obj(ns)) && Same(Obj(ms), Obj(ns))
    ensures ReadRevoke(ms) == ReadRevoke(ns) && ReadEnroll(ms) == ReadEnroll(ns)
  {
    SameOnlyKeys(ms, ns, Keys(RevokeForm));
    SameOnlyKeys(ms, ns, Keys(EnrollForm));
    SameGetters(ms, ns, "v");
    SameGetters(ms, ns, "target");
    SameGetters(ms, ns, "reason");
    SameGetters(ms, ns, "signer_id");
    SameGetters(ms, ns, "method");
    SameGetters(ms, ns, "device");
    SameGetters(ms, ns, "pubkey");
    SameGetters(ms, ns, "issued_at");
    SameGetters(ms, ns, "signer");
  }

  lemma SameReadRecord(ms: seq<Member>, ns: seq<Member>)
    requires JsonPrint.Plain(Obj(ms)) && JsonPrint.Plain(Obj(ns)) && Same(Obj(ms), Obj(ns))
    ensures ReadRecord(ms) == ReadRecord(ns)
  {
    SameGetters(ms, ns, "kind");
    SameReadGrant(ms, ns);
    SameReadOthers(ms, ns);
  }

  lemma {:induction false} SameHasNull(a: Json, b: Json)
    requires JsonPrint.Plain(a) && JsonPrint.Plain(b) && Same(a, b) && HasNull(a)
    ensures HasNull(b)
  {
    match (a, b)
    case (Arr(xs), Arr(ys)) =>
      var i :| 0 <= i < |xs| && HasNull(xs[i]);
      SameHasNull(xs[i], ys[i]);
    case (Obj(ms), Obj(ns)) =>
      var i :| 0 <= i < |ms| && HasNull(ms[i].value);
      assert JsonPrint.Plain(ms[i].value);
      assert ms[i].key in DefinedKeys(ms);
      assert ms[i].key in DefinedKeys(ns);
      var j :| 0 <= j < |ns| && ns[j].key == ms[i].key && ns[j].value != Undefined;
      SameHasNull(ms[i].value, ns[j].value);
    case _ =>
  }

  lemma {:induction false} SameSymmetric(a: Json, b: Json)
    requires Same(a, b)
    ensures Same(b, a)
  {
    match (a, b)
    case (Arr(xs), Arr(ys)) =>
      forall i | 0 <= i < |xs| ensures Same(ys[i], xs[i]) { SameSymmetric(xs[i], ys[i]); }
    case (Obj(ms), Obj(ns)) =>
      forall i, j | 0 <= i < |ns| && 0 <= j < |ms| && ns[i].key == ms[j].key
          && ns[i].value != Undefined && ms[j].value != Undefined
        ensures Same(ns[i].value, ms[j].value)
      {
        SameSymmetric(ms[j].value, ns[i].value);
      }
    case _ =>
  }

  lemma SameParseRecord(lib: Library, a: Json, b: Json)
    requires JsonPrint.Plain(a) && JsonPrint.Plain(b) && Same(a, b)
    ensures ParseRecord(lib, a) == ParseRecord(lib, b)
  {
    SameSymmetric(a, b);
    if HasNull(a) { SameHasNull(a, b); }
    if HasNull(b) { SameHasNull(b, a); }
    if a.Obj? {
      SameReadRecord(a.members, b.members);
    }
  }

  /** A text, a number or a boolean: what members of records hold. */
  predicate Scalar(v: Json) {
    v.Str? || v.Int? || v.Bool?
  }

  lemma GrantIsScalar(ms: seq<Member>, key: string)
    requires ReadGrant(ms).Some? && GetStr(ms, "kind").Some? && key in Keys(GrantForm) && Get(ms, key).Some?
    ensures Scalar(Get(ms, key).value)
  {
  }

  lemma RevokeIsScalar(ms: seq<Member>, key: string)
    requires ReadRevoke(ms).Some? && GetStr(ms, "kind").Some? && key in Keys(RevokeForm) && Get(ms, key).Some?
    ensures Scalar(Get(ms, key).value)
  {
  }

  lemma EnrollIsScalar(ms: seq<Member>, key: string)
    requires ReadEnroll(ms).Some? && GetStr(ms, "kind").Some? && key in Keys(EnrollForm) && Get(ms, key).Some?
    ensures Scalar(Get(ms, key).value)
  {
  }

  lemma MemberIsScalar(ms: seq<Member>, i: nat)
    requires ReadRecord(ms).Some? && WellFormed(Obj(ms)) && i < |ms|
    ensures Scalar(ms[i].value)
  {
    GetAt(ms, i);
    if ReadRecord(ms).value.Grant? {
      GrantIsScalar(ms, ms[i].key);
    } else if ReadRecord(ms).value.Revoke? {
      RevokeIsScalar(ms, ms[i].key);
    } else {
      EnrollIsScalar(ms, ms[i].key);
    }
  }

  /** A record that parses has nothing in it that jcs would drop or refuse. */
  lemma ParsedIsPlain(lib: Library, record: Json)
    requires ParseRecord(lib, record).Ok? && WellFormed(record)
    ensures JsonPrint.Plain(record)
  {
    forall i | 0 <= i < |record.members| ensures JsonPrint.Plain(record.members[i].value) {
      MemberIsScalar(record.members, i);
    }
  }

  /** The signature covers the value, not its layout: an envelope whose record
      lists its members in another order verifies with the same outcome. */
  lemma ReorderedVerifies(lib: Library, registry: Registry, raw: Json, v: Verified, reordered: Json)
    requires VerifyEnvelope(lib, registry, raw) == Ok(v) && WellFormed(v.envelope.record)
    requires JsonPrint.Plain(reordered) && WellFormed(reordered) && Same(v.envelope.record, reordered)
    ensures VerifyEnvelope(lib, registry, EnvelopeJson(v.envelope.(record := reordered)))
            == Ok(Verified(v.envelope.(record := reordered), v.parsed))
  {
    VerifyIffSound(lib, registry, raw, v);
    ParsedIsPlain(lib, v.envelope.record);
    SameParseRecord(lib, v.envelope.record, reordered);
    JsonCanonical.PlainIsPrintable(v.envelope.record);
    JsonCanonical.PlainIsPrintable(reordered);
    JsonCanonical.JcsCanonical(v.envelope.record, reordered);
    var w := Verified(v.envelope.(record := reordered), v.parsed);
    ReadEnvelopeJson(w.envelope);
    VerifyIffSound(lib, registry, EnvelopeJson(w.envelope), w);
  }

  lemma {:induction false} LowerHexInjective(a: seq<Byte>, b: seq<Byte>)
    requires LowerHex(a) == LowerHex(b)
    ensures a == b
  {
    if a != [] && b != [] {
      var x, y := LowerHex(a), LowerHex(b);
      assert x[0] == HexDigit(a[0] / 16) && x[1] == HexDigit(a[0] % 16);
      assert y[0] == HexDigit(b[0] / 16) && y[1] == HexDigit(b[0] % 16);
      JsonParse.HexValueOfDigit(a[0] / 16);
      JsonParse.HexValueOfDigit(b[0] / 16);
      JsonParse.HexValueOfDigit(a[0] % 16);
      JsonParse.HexValueOfDigit(b[0] % 16);
      assert x[2..] == LowerHex(a[1..]) && y[2..] == LowerHex(b[1..]);
      LowerHexInjective(a[1..], b[1..]);
      assert a == [a[0]] + a[1..] && b == [b[0]] + b[1..];
    }
  }

  /** Each byte is two lower-case hex digits, the high one first. */
  predicate HexOf(s: string, bytes: seq<Byte>) {
    && |s| == 2 * |bytes|
    && forall i :: 0 <= i < |bytes| ==>
         JsonParse.HexValue(s[2 * i]) == Some(bytes[i] / 16) && JsonParse.HexValue(s[2 * i + 1]) == Some(bytes[i] % 16)
  }

  lemma {:induction false} LowerHexReads(bytes: seq<Byte>)
    ensures HexOf(LowerHex(bytes), bytes)
  {
    if bytes != [] {
      LowerHexReads(bytes[1..]);
      JsonParse.HexValueOfDigit(bytes[0] / 16);
      JsonParse.HexValueOfDigit(bytes[0] % 16);
      var s := LowerHex(bytes);
      assert s[2..] == LowerHex(bytes[1..]);
      forall i | 0 <= i < |bytes|
        ensures JsonParse.HexValue(s[2 * i]) == Some(bytes[i] / 16)
                && JsonParse.HexValue(s[2 * i + 1]) == Some(bytes[i] % 16)
      {
        if i > 0 {
          assert s[2 * i] == s[2..][2 * (i - 1)] && s[2 * i + 1] == s[2..][2 * (i - 1) + 1];
          assert bytes[i] == bytes[1..][i - 1];
        }
      }
    }
  }

  lemma HexValueInjective(c: char, d: char)
    requires JsonParse.HexValue(c) == JsonParse.HexValue(d) && JsonParse.HexValue(c).Some?
    ensures c == d
  {
  }

  /** There is one such text. */
  lemma HexOfUnique(s: string, bytes: seq<Byte>)
    requires HexOf(s, bytes)
    ensures s == LowerHex(bytes)
  {
    var h := LowerHex(bytes);
    LowerHexReads(bytes);
    forall j | 0 <= j < |s| ensures s[j] == h[j] {
      var i := j / 2;
      assert j == 2 * i || j == 2 * i + 1;
      HexValueInjective(s[2 * i], h[2 * i]);
      HexValueInjective(s[2 * i + 1], h[2 * i + 1]);
    }
  }

  /** Two different canonical texts with the same digest. */
  predicate Collide(lib: Library, a: Json, b: Json) {
    && Jcs(a).Some? && Jcs(b).Some? && Jcs(a) != Jcs(b)
    && lib.sha256(Jcs(a).value) == lib.sha256(Jcs(b).value)
  }

  /** Two verified envelopes with the same record_sha256 carry the same record and
      id, unless their records are a SHA-256 collision. */
  lemma HashNamesRecord(lib: Library, registry: Registry, raw1: Json, raw2: Json, v1: Verified, v2: Verified)
    requires VerifyEnvelope(lib, registry, raw1) == Ok(v1) && VerifyEnvelope(lib, registry, raw2) == Ok(v2)
    requires WellFormed(v1.envelope.record) && WellFormed(v2.envelope.record)
    requires v1.envelope.recordSha256 == v2.envelope.recordSha256
    ensures || Collide(lib, v1.envelope.record, v2.envelope.record)
            || (Same(v1.envelope.record, v2.envelope.record) && v1.envelope.id == v2.envelope.id)
  {
    VerifyIffSound(lib, registry, raw1, v1);
    VerifyIffSound(lib, registry, raw2, v2);
    LowerHexInjective(lib.sha256(Jcs(v1.envelope.record).value), lib.sha256(Jcs(v2.envelope.record).value));
    JsonPrint.JcsPrintsNorm(v1.envelope.record);
    JsonPrint.JcsPrintsNorm(v2.envelope.record);
    JsonCanonical.JcsCanonical(v1.envelope.record, v2.envelope.record);
  }

  lemma PadPrefix(bits: seq<bool>, n: nat)
    requires n <= |bits|
    ensures Base32.Pad(bits)[..n] == bits[..n]
  {
  }

  /** Two records get the same grant id exactly when the first 30 bits of their
      digests agree. */
  lemma IdIsThirtyBits(lib: Library, a: string, b: string)
    requires |lib.sha256(a)| == 32 && |lib.sha256(b)| == 32
    ensures GrantId(lib, a) == GrantId(lib, b) <==>
            Bits(lib.sha256(a))[..30] == Bits(lib.sha256(b))[..30]
  {
    var x, y := Bits(lib.sha256(a)), Bits(lib.sha256(b));
    Base32.Length(lib.sha256(a));
    Base32.Length(lib.sha256(b));
    PadPrefix(x, 30);
    PadPrefix(y, 30);
    Base32.PrefixOfLetters(Base32.Pad(x), Base32.Pad(y), 6);
    Base32.SameParts("ta-", FirstSix(Base32.Rfc4648(lib.sha256(a))), "ta-", FirstSix(Base32.Rfc4648(lib.sha256(b))));
  }
}
