/** What is signed, member by member: which JSON is a record, which envelopes are
    accepted and why others are refused, and what a grant answers. */
module RecordLaws {
  import opened Prelude
  import opened Bytes
  import opened Json
  import opened Models
  import opened Grants
  import opened GrantLaws
  import Base32
  import Der

  // ── Records ────────────────────────────────────────────────────────────

  function Text(s: Option<string>): Option<Json> {
    match s case None => None case Some(t) => Some(Str(t))
  }

  predicate NamedAmong(ms: seq<Member>, names: set<string>) {
    forall i :: 0 <= i < |ms| ==> ms[i].key in names
  }

  /** The members of an object that is the grant record g. */
  predicate SpellsGrant(ms: seq<Member>, g: GrantRecord) {
    && NamedAmong(ms, {"v", "kind", "ask_id", "asked_by", "question", "decision", "answer", "note", "issued_at",
                       "expires_at", "once", "renews", "signer"})
    && Get(ms, "kind") == Some(Str("grant"))
    && g.v <= MAX_SAFE && Get(ms, "v") == Some(Int(g.v))
    && Get(ms, "ask_id") == Some(Str(g.askId)) && Get(ms, "asked_by") == Some(Str(g.askedBy))
    && Get(ms, "question") == Some(Str(g.question))
    && Get(ms, "decision") == Some(Str(if g.decision.Approve? then "approve" else "deny"))
    && Get(ms, "answer") == Text(g.answer) && Get(ms, "note") == Text(g.note)
    && Get(ms, "issued_at") == Some(Str(g.issuedAt)) && Get(ms, "expires_at") == Some(Str(g.expiresAt))
    && Get(ms, "once") == (match g.once case None => None case Some(b) => Some(Bool(b)))
    && Get(ms, "renews") == Text(g.renews) && Get(ms, "signer") == Some(Str(g.signer))
  }

  predicate SpellsRevoke(ms: seq<Member>, v: nat, target: string, reason: Option<string>, issued: string,
                         signer: string) {
    && NamedAmong(ms, {"v", "kind", "target", "reason", "issued_at", "signer"})
    && Get(ms, "kind") == Some(Str("revoke")) && v <= MAX_SAFE && Get(ms, "v") == Some(Int(v))
    && Get(ms, "target") == Some(Str(target)) && Get(ms, "reason") == Text(reason)
    && Get(ms, "issued_at") == Some(Str(issued)) && Get(ms, "signer") == Some(Str(signer))
  }

  predicate SpellsEnroll(ms: seq<Member>, v: nat, id: string, how: string, device: Option<string>, pubkey: string,
                         issued: string, signer: string) {
    && NamedAmong(ms, {"v", "kind", "signer_id", "method", "device", "pubkey", "issued_at", "signer"})
    && Get(ms, "kind") == Some(Str("enroll")) && v <= MAX_SAFE && Get(ms, "v") == Some(Int(v))
    && Get(ms, "signer_id") == Some(Str(id)) && Get(ms, "method") == Some(Str(how))
    && Get(ms, "device") == Text(device) && Get(ms, "pubkey") == Some(Str(pubkey))
    && Get(ms, "issued_at") == Some(Str(issued)) && Get(ms, "signer") == Some(Str(signer))
  }

  predicate Spells(ms: seq<Member>, r: Record) {
    match r
    case Grant(g) => SpellsGrant(ms, g)
    case Revoke(v, target, reason, issued, signer) => SpellsRevoke(ms, v, target, reason, issued, signer)
    case Enroll(v, id, how, device, pubkey, issued, signer) =>
      SpellsEnroll(ms, v, id, how, device, pubkey, issued, signer)
  }

  lemma DecisionIff(ms: seq<Member>, d: Decision)
    ensures ReadDecision(ms) == Some(d) <==> Get(ms, "decision") == Some(Str(if d.Approve? then "approve" else "deny"))
  {
    assert "approve"[0] == 'a' && "deny"[0] == 'd';
  }

  lemma ReadIsSpelled(ms: seq<Member>, g: GrantRecord)
    requires Get(ms, "kind") == Some(Str("grant")) && ReadGrant(ms) == Some(g)
    ensures SpellsGrant(ms, g)
  {
    DecisionIff(ms, g.decision);
  }

  lemma SpelledIsRead(ms: seq<Member>, g: GrantRecord)
    requires SpellsGrant(ms, g)
    ensures ReadGrant(ms) == Some(g)
  {
    DecisionIff(ms, g.decision);
  }

  lemma RevokeIff(ms: seq<Member>, r: Record)
    requires Get(ms, "kind") == Some(Str("revoke"))
    ensures ReadRevoke(ms) == Some(r) <==> r.Revoke? && Spells(ms, r)
  {
  }

  lemma EnrollIff(ms: seq<Member>, r: Record)
    requires Get(ms, "kind") == Some(Str("enroll"))
    ensures ReadEnroll(ms) == Some(r) <==> r.Enroll? && Spells(ms, r)
  {
  }

  lemma KindsDiffer()
    ensures "grant" != "revoke" && "grant" != "enroll" && "revoke" != "enroll"
  {
    assert "grant"[0] == 'g' && "revoke"[0] == 'r' && "enroll"[0] == 'e';
  }

  /** The reader takes an object as a typed record exactly when its members spell it. */
  lemma ReadIff(ms: seq<Member>, r: Record)
    ensures ReadRecord(ms) == Some(r) <==> Spells(ms, r)
  {
    KindsDiffer();
    if Get(ms, "kind") == Some(Str("grant")) {
      if ReadGrant(ms).Some? { ReadIsSpelled(ms, ReadGrant(ms).value); }
      if r.Grant? && SpellsGrant(ms, r.grant) { SpelledIsRead(ms, r.grant); }
    } else if Get(ms, "kind") == Some(Str("revoke")) {
      RevokeIff(ms, r);
    } else if Get(ms, "kind") == Some(Str("enroll")) {
      EnrollIff(ms, r);
    }
  }

  /** The text is the canonical timestamp of the second. */
  predicate Stamps(lib: Library, text: string, at: int) {
    lib.parseNaiveTime(text) == Some(at) && lib.formatTime(at) == text
  }

  predicate IsText(v: Option<Json>, s: string) {
    v == Some(Str(s))
  }

  /** A value that is structurally a record: version 1, a signer, canonical times, an
      expiry after the issue of a grant, a key of an enrolment. */
  ghost predicate IsRecord(lib: Library, value: Json, p: ParsedRecord) {
    && value.Obj? && !HasNull(value) && Spells(value.members, p.record)
    && Get(value.members, "v") == Some(Int(1)) && Get(value.members, "signer") != Some(Str(""))
    && (exists s :: IsText(Get(value.members, "issued_at"), s) && Stamps(lib, s, p.issuedAt))
    && (if p.record.Grant? then
          exists s :: (IsText(Get(value.members, "expires_at"), s) && p.expiresAt.Some?
                       && Stamps(lib, s, p.expiresAt.value) && p.issuedAt < p.expiresAt.value)
        else p.expiresAt.None?)
    && (p.record.Enroll? ==>
          exists s, key :: IsText(Get(value.members, "pubkey"), s) && Spells65(lib, s, key))
  }

  lemma StampIff(lib: Library, text: string, at: int)
    ensures ParseTimestamp(lib, text) == Some(at) <==> Stamps(lib, text, at)
  {
  }

  lemma ExpiryIff(lib: Library, value: Json, r: Record, issued: int, p: ParsedRecord)
    requires value.Obj? && Spells(value.members, r)
    ensures ParseExpiry(lib, r, issued) == Ok(p) <==>
            && p.record == r && p.issuedAt == issued
            && (if r.Grant? then
                  exists s :: (IsText(Get(value.members, "expires_at"), s) && p.expiresAt.Some?
                               && Stamps(lib, s, p.expiresAt.value) && issued < p.expiresAt.value)
                else p.expiresAt.None?)
            && (r.Enroll? ==> exists s, key :: IsText(Get(value.members, "pubkey"), s) && Spells65(lib, s, key))
  {
    match r
    case Grant(g) =>
      assert IsText(Get(value.members, "expires_at"), g.expiresAt);
      if ParseTimestamp(lib, g.expiresAt).Some? {
        StampIff(lib, g.expiresAt, ParseTimestamp(lib, g.expiresAt).value);
      }
      if p.expiresAt.Some? { StampIff(lib, g.expiresAt, p.expiresAt.value); }
    case Enroll(_, _, _, _, pubkey, _, _) =>
      assert IsText(Get(value.members, "pubkey"), pubkey);
      if DecodePubkey(lib, pubkey).Some? {
        assert Spells65(lib, pubkey, DecodePubkey(lib, pubkey).value);
      }
    case Revoke(_, _, _, _, _) =>
  }

  /** The structure check accepts exactly the records. */
  lemma ParseIff(lib: Library, value: Json, p: ParsedRecord)
    ensures ParseRecord(lib, value) == Ok(p) <==> IsRecord(lib, value, p)
  {
    if value.Obj? && !HasNull(value) {
      ReadIff(value.members, p.record);
      if Spells(value.members, p.record) {
        assert IsText(Get(value.members, "issued_at"), p.record.IssuedAt());
        StampIff(lib, p.record.IssuedAt(), p.issuedAt);
        ExpiryIff(lib, value, p.record, p.issuedAt, p);
      }
    }
  }

  // ── Envelopes ──────────────────────────────────────────────────────────

  /** The JSON has the five members of an envelope, as an object or in order. */
  predicate Shaped(raw: Json, e: Envelope) {
    || (raw.Obj? && NamedAmong(raw.members, {"id", "record", "record_sha256", "alg", "sig"})
        && Get(raw.members, "id") == Some(Str(e.id)) && Get(raw.members, "record") == Some(e.record)
        && Get(raw.members, "record_sha256") == Some(Str(e.recordSha256))
        && Get(raw.members, "alg") == Some(Str(e.alg)) && Get(raw.members, "sig") == Some(Str(e.sig)))
    || raw == Arr([Str(e.id), e.record, Str(e.recordSha256), Str(e.alg), Str(e.sig)])
  }

  lemma ShapedIff(raw: Json, e: Envelope)
    ensures ReadEnvelope(raw) == Some(e) <==> Shaped(raw, e)
  {
    if raw.Arr? && |raw.items| == 5 {
      assert raw.items == [raw.items[0], raw.items[1], raw.items[2], raw.items[3], raw.items[4]];
    }
  }

  /** Entry i of the registry holds the name, and no earlier one does. */
  predicate Holds(registry: Registry, i: int, name: string) {
    && 0 <= i < |registry| && registry[i].signer.id == name
    && forall j :: 0 <= j < i ==> registry[j].signer.id != name
  }

  lemma {:induction false} FindIff(registry: Registry, name: string)
    ensures Find(registry, name).Some? ==>
              exists i :: Holds(registry, i, name) && Find(registry, name).value == registry[i]
    ensures forall i :: Holds(registry, i, name) ==> Find(registry, name) == Some(registry[i])
  {
    if registry != [] {
      if registry[0].signer.id == name {
        assert Holds(registry, 0, name);
      } else {
        FindIff(registry[1..], name);
        if Find(registry[1..], name).Some? {
          var i :| Holds(registry[1..], i, name) && Find(registry[1..], name).value == registry[1..][i];
          assert Holds(registry, i + 1, name);
        }
        forall i | Holds(registry, i, name) ensures Find(registry, name) == Some(registry[i]) {
          assert Holds(registry[1..], i - 1, name);
        }
      }
    }
  }

  /** The text is base64 of the strict DER form of a signature that verifies. */
  predicate SignsWith(lib: Library, key: Key, canonical: string, sig: string, der: seq<Byte>, raw: seq<Byte>) {
    lib.decodeBase64(sig) == Some(der) && Der.StrictSig(der) == Some(raw) && lib.ecdsaVerify(key, canonical, raw)
  }

  ghost predicate Signs(lib: Library, key: Key, canonical: string, sig: string) {
    exists der, raw :: SignsWith(lib, key, canonical, sig, der, raw)
  }

  lemma SignsIff(lib: Library, key: Key, canonical: string, sig: string)
    ensures SignatureOk(lib, key, canonical, sig) <==> Signs(lib, key, canonical, sig)
  {
    if SignatureOk(lib, key, canonical, sig) {
      var der := lib.decodeBase64(sig).value;
      assert SignsWith(lib, key, canonical, sig, der, Der.StrictSig(der).value);
    }
  }

  /** The hash is the lower-case hex digest of the canonical text, and the id is "ta-" and
      the first six letters of its base32. */
  predicate NamedAfter(lib: Library, canonical: string, sha: string, id: string) {
    var letters := Base32.Rfc4648(lib.sha256(canonical));
    && HexOf(sha, lib.sha256(canonical))
    && id == ['t', 'a', '-'] + (if |letters| < 6 then letters else letters[..6])
  }

  lemma NamedIff(lib: Library, canonical: string, sha: string, id: string)
    ensures NamedAfter(lib, canonical, sha, id) <==>
            sha == LowerHex(lib.sha256(canonical)) && id == GrantId(lib, canonical)
  {
    LowerHexReads(lib.sha256(canonical));
    if HexOf(sha, lib.sha256(canonical)) { HexOfUnique(sha, lib.sha256(canonical)); }
  }

  /** The record is signed by the entry that the registry has first for the signer it
      names, and carries the hash and the id of its canonical text. */
  predicate SignedBy(lib: Library, registry: Registry, e: Envelope, i: int, canonical: string, der: seq<Byte>,
                     raw: seq<Byte>) {
    && e.record.Obj? && Jcs(e.record) == Some(canonical) && NamedAfter(lib, canonical, e.recordSha256, e.id)
    && 0 <= i < |registry| && Get(e.record.members, "signer") == Some(Str(registry[i].signer.id))
    && Holds(registry, i, registry[i].signer.id)
    && SignsWith(lib, registry[i].key, canonical, e.sig, der, raw)
  }

  ghost predicate Signed(lib: Library, registry: Registry, e: Envelope) {
    exists i, canonical, der, raw :: SignedBy(lib, registry, e, i, canonical, der, raw)
  }

  lemma SignerIs(lib: Library, v: Verified)
    requires ParseRecord(lib, v.envelope.record) == Ok(v.parsed)
    ensures v.envelope.record.Obj?
    ensures Get(v.envelope.record.members, "signer") == Some(Str(v.parsed.record.Signer()))
  {
    ParseIff(lib, v.envelope.record, v.parsed);
  }

  lemma SoundIsSigned(lib: Library, registry: Registry, v: Verified)
    requires Sound(lib, registry, v)
    ensures Signed(lib, registry, v.envelope)
  {
    var canonical, name := Jcs(v.envelope.record).value, v.parsed.record.Signer();
    SignerIs(lib, v);
    FindIff(registry, name);
    var i :| Holds(registry, i, name) && Find(registry, name).value == registry[i];
    NamedIff(lib, canonical, v.envelope.recordSha256, v.envelope.id);
    SignsIff(lib, registry[i].key, canonical, v.envelope.sig);
    var der, raw :| SignsWith(lib, registry[i].key, canonical, v.envelope.sig, der, raw);
    assert SignedBy(lib, registry, v.envelope, i, canonical, der, raw);
  }

  lemma SignedIsSound(lib: Library, registry: Registry, v: Verified)
    requires v.envelope.alg == "es256" && ParseRecord(lib, v.envelope.record) == Ok(v.parsed)
    requires Signed(lib, registry, v.envelope)
    ensures Sound(lib, registry, v)
  {
    var i, canonical, der, raw :| SignedBy(lib, registry, v.envelope, i, canonical, der, raw);
    SignerIs(lib, v);
    FindIff(registry, v.parsed.record.Signer());
    NamedIff(lib, canonical, v.envelope.recordSha256, v.envelope.id);
    SignsIff(lib, registry[i].key, canonical, v.envelope.sig);
  }

  /** An envelope is accepted exactly when it has the shape and the algorithm, its record
      is a record, and that record is signed by the signer it names. */
  lemma AcceptedIff(lib: Library, registry: Registry, raw: Json, v: Verified)
    ensures VerifyEnvelope(lib, registry, raw) == Ok(v) <==>
            && Shaped(raw, v.envelope) && v.envelope.alg == "es256"
            && IsRecord(lib, v.envelope.record, v.parsed) && Signed(lib, registry, v.envelope)
  {
    VerifyIffSound(lib, registry, raw, v);
    ShapedIff(raw, v.envelope);
    ParseIff(lib, v.envelope.record, v.parsed);
    if Sound(lib, registry, v) { SoundIsSigned(lib, registry, v); }
    if v.envelope.alg == "es256" && ParseRecord(lib, v.envelope.record) == Ok(v.parsed)
       && Signed(lib, registry, v.envelope) {
      SignedIsSound(lib, registry, v);
    }
  }

  // ── What a grant answers ───────────────────────────────────────────────

  /** The answer columns that the members of a grant record give: the decision, the
      answer or else the decision, and the note. */
  predicate Speaks(ms: seq<Member>, answer: Option<string>, shown: Option<string>, note: Option<string>) {
    && (Get(ms, "decision") == Some(Str("approve")) || Get(ms, "decision") == Some(Str("deny")))
    && Get(ms, "decision") == Text(answer)
    && (if Get(ms, "answer").Some? then Get(ms, "answer") == Text(shown) else shown == answer)
    && Get(ms, "note") == Text(note)
  }

  lemma AnswersSpelled(ms: seq<Member>, g: GrantRecord)
    requires SpellsGrant(ms, g)
    ensures Speaks(ms, Some(AnswerOf(g).answer), Some(AnswerOf(g).answerLabel), AnswerOf(g).note)
    ensures exists s :: IsText(Get(ms, "signer"), s) && AnswerOf(g).via == ['t', 'a', ':'] + s
  {
    assert IsText(Get(ms, "signer"), g.signer);
  }

  /** What a verified grant answers is what the members of its record say. */
  lemma AnswersOfRecord(lib: Library, record: Json, p: ParsedRecord)
    requires ParseRecord(lib, record) == Ok(p) && p.record.Grant?
    ensures record.Obj?
    ensures var a := AnswerOf(p.record.grant);
            Speaks(record.members, Some(a.answer), Some(a.answerLabel), a.note)
  {
    ParseIff(lib, record, p);
    AnswersSpelled(record.members, p.record.grant);
  }

  // ── Refusals ───────────────────────────────────────────────────────────

  ghost predicate Readable(raw: Json) {
    exists e :: Shaped(raw, e)
  }

  ghost predicate Recordlike(lib: Library, value: Json) {
    exists p :: IsRecord(lib, value, p)
  }

  /** The first check that fails gives the reason. */
  ghost predicate RefusedFor(lib: Library, registry: Registry, raw: Json, e: Envelope, why: GrantError) {
    match why
    case UnsupportedAlg(alg) => e.alg == alg && alg != "es256"
    case Malformed => e.alg == "es256" && (!Recordlike(lib, e.record) || Jcs(e.record).None?)
    case HashMismatch =>
      && e.alg == "es256" && Recordlike(lib, e.record) && Jcs(e.record).Some?
      && !HexOf(e.recordSha256, lib.sha256(Jcs(e.record).value))
    case IdMismatch(expected, got) =>
      && e.alg == "es256" && Recordlike(lib, e.record) && Jcs(e.record).Some? && got == e.id && expected != e.id
      && NamedAfter(lib, Jcs(e.record).value, e.recordSha256, expected)
    case UnknownSigner(name) =>
      && e.alg == "es256" && Recordlike(lib, e.record) && Jcs(e.record).Some?
      && NamedAfter(lib, Jcs(e.record).value, e.recordSha256, e.id)
      && Get(e.record.members, "signer") == Some(Str(name)) && forall i :: !Holds(registry, i, name)
    case BadSignature =>
      && e.alg == "es256" && Recordlike(lib, e.record) && Jcs(e.record).Some?
      && NamedAfter(lib, Jcs(e.record).value, e.recordSha256, e.id)
      && exists i :: (Held(registry, e.record, i)
                      && !Signs(lib, registry[i].key, Jcs(e.record).value, e.sig))
    case _ => false
  }

  predicate Held(registry: Registry, record: Json, i: int) {
    && record.Obj? && 0 <= i < |registry| && Get(record.members, "signer") == Some(Str(registry[i].signer.id))
    && Holds(registry, i, registry[i].signer.id)
  }

  lemma RecordlikeIff(lib: Library, value: Json)
    ensures ParseRecord(lib, value).Ok? <==> Recordlike(lib, value)
  {
    if ParseRecord(lib, value).Ok? {
      ParseIff(lib, value, ParseRecord(lib, value).value);
    }
    if Recordlike(lib, value) {
      var p :| IsRecord(lib, value, p);
      ParseIff(lib, value, p);
    }
  }

  lemma ParsedRefusal(lib: Library, registry: Registry, raw: Json, e: Envelope, p: ParsedRecord)
    requires e.alg == "es256" && ParseRecord(lib, e.record) == Ok(p) && VerifyParsed(lib, registry, e, p).Err?
    ensures RefusedFor(lib, registry, raw, e, VerifyParsed(lib, registry, e, p).error)
  {
    RecordlikeIff(lib, e.record);
    if Jcs(e.record).Some? {
      var canonical, name := Jcs(e.record).value, p.record.Signer();
      SignerIs(lib, Verified(e, p));
      NamedIff(lib, canonical, e.recordSha256, e.id);
      NamedIff(lib, canonical, e.recordSha256, GrantId(lib, canonical));
      LowerHexReads(lib.sha256(canonical));
      if HexOf(e.recordSha256, lib.sha256(canonical)) { HexOfUnique(e.recordSha256, lib.sha256(canonical)); }
      SignerRefusal(lib, registry, e, canonical, name);
    }
  }

  lemma SignerRefusal(lib: Library, registry: Registry, e: Envelope, canonical: string, name: string)
    requires e.record.Obj? && Get(e.record.members, "signer") == Some(Str(name))
    ensures Find(registry, name).None? ==> forall i :: !Holds(registry, i, name)
    ensures Find(registry, name).Some? && !SignatureOk(lib, Find(registry, name).value.key, canonical, e.sig) ==>
              exists i :: Held(registry, e.record, i) && !Signs(lib, registry[i].key, canonical, e.sig)
  {
    FindIff(registry, name);
    if Find(registry, name).Some? {
      var i :| Holds(registry, i, name) && Find(registry, name).value == registry[i];
      SignsIff(lib, registry[i].key, canonical, e.sig);
      assert Held(registry, e.record, i);
    }
  }

  /** Every refusal names the first check that failed. */
  lemma RefusalIsFirst(lib: Library, registry: Registry, raw: Json)
    requires VerifyEnvelope(lib, registry, raw).Err?
    ensures var why := VerifyEnvelope(lib, registry, raw).error;
            if Readable(raw) then exists e :: Shaped(raw, e) && RefusedFor(lib, registry, raw, e, why)
            else why == Malformed
  {
    if Readable(raw) {
      var e :| Shaped(raw, e);
      ShapedIff(raw, e);
      RecordlikeIff(lib, e.record);
      if e.alg == "es256" && ParseRecord(lib, e.record).Ok? {
        ParsedRefusal(lib, registry, raw, e, ParseRecord(lib, e.record).value);
      }
      assert RefusedFor(lib, registry, raw, e, VerifyEnvelope(lib, registry, raw).error);
    } else if ReadEnvelope(raw).Some? {
      ShapedIff(raw, ReadEnvelope(raw).value);
    }
  }
}
