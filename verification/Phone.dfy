/** The signing side (static/phone-crypto.js): building a grant record, signing
    it, checking an envelope. Whatever it builds, src/grants.rs accepts. */
module Phone {
  import opened Prelude
  import opened Bytes
  import opened Json
  import opened Grants
  import opened GrantLaws
  import opened RecordLaws
  import JsonPrint
  import JsonCanonical
  import Base32
  import Der

  /** The first and last second of the years 0000 to 9999. */
  const FIRST_SECOND: int := -62167219200
  const LAST_SECOND: int := 253402300799

  predicate InRange(s: int) {
    FIRST_SECOND <= s <= LAST_SECOND
  }

  /** What is asked of library code: digests of 32 bytes, base64 that decodes,
      and a timestamp format that its parser undoes. */
  ghost predicate Lawful(lib: Library) {
    && (forall t :: |lib.sha256(t)| == 32)
    && (forall b :: lib.decodeBase64(lib.encodeBase64(b)) == Some(b))
    && (forall b :: lib.atob(lib.encodeBase64(b)) == Some(b))
    && (forall s :: InRange(s) ==> lib.parseNaiveTime(lib.formatTime(s)) == Some(s))
  }

  datatype Ask = Ask(id: string, agentName: Option<string>, question: string, renews: Option<string>)

  /** Times are milliseconds since the epoch; a missing option is None. */
  datatype Options = Options(
    now: int, decision: string, ttlSecs: int, signer: string,
    answer: Option<string>, note: Option<string>, once: bool)

  /** toISOString without its milliseconds: the second is rounded down. */
  function Iso(lib: Library, ms: int): string {
    lib.formatTime(ms / 1000)
  }

  /** A text that JavaScript takes as true: there, and not empty. */
  predicate Truthy(s: Option<string>) {
    s.Some? && s.value != ""
  }

  function Optional(name: string, present: bool, value: Json): seq<Member> {
    if present then [Member(name, value)] else []
  }

  function BaseMembers(lib: Library, ask: Ask, opts: Options): seq<Member> {
    [Member("v", Int(1)),
     Member("kind", Str("grant")),
     Member("ask_id", Str(ask.id)),
     Member("asked_by", Str(if Truthy(ask.agentName) then ask.agentName.value else "")),
     Member("question", Str(ask.question)),
     Member("decision", Str(opts.decision)),
     Member("issued_at", Str(Iso(lib, opts.now))),
     Member("expires_at", Str(Iso(lib, opts.now + opts.ttlSecs * 1000))),
     Member("signer", Str(opts.signer))]
  }

  function OptionalMembers(ask: Ask, opts: Options): seq<Member> {
    Optional("answer", Truthy(opts.answer), Str(if opts.answer.Some? then opts.answer.value else ""))
    + (Optional("note", Truthy(opts.note), Str(if opts.note.Some? then opts.note.value else ""))
    + (Optional("once", opts.once, Bool(true))
    + Optional("renews", Truthy(ask.renews), Str(if ask.renews.Some? then ask.renews.value else ""))))
  }

  /** grantRecord: the unsigned record of an ask. */
  function GrantRecordFor(lib: Library, ask: Ask, opts: Options): Json {
    Obj(BaseMembers(lib, ask, opts) + OptionalMembers(ask, opts))
  }

  /** The loop of hex. */
  method Hex(bytes: seq<Byte>) returns (s: string)
    ensures s == LowerHex(bytes)
  {
    s := "";
    for i := 0 to |bytes|
      invariant s == LowerHex(bytes[..i])
    {
      LowerHexSnoc(bytes[..i], bytes[i]);
      assert bytes[..i + 1] == bytes[..i] + [bytes[i]];
      s := s + (if bytes[i] < 16 then "0" else [HexDigit(bytes[i] / 16)]) + [HexDigit(bytes[i] % 16)];
    }
    assert bytes[..|bytes|] == bytes;
  }

  lemma {:induction false} LowerHexSnoc(bytes: seq<Byte>, b: Byte)
    ensures LowerHex(bytes + [b]) == LowerHex(bytes) + [HexDigit(b / 16), HexDigit(b % 16)]
  {
    if bytes == [] {
      assert [b][1..] == [];
    } else {
      assert (bytes + [b])[1..] == bytes[1..] + [b];
      LowerHexSnoc(bytes[1..], b);
    }
  }

  /** signRecord, given the raw signature WebCrypto returned. None where it throws. */
  function SignRecord(lib: Library, record: Json, raw: seq<Byte>): Option<Envelope> {
    match (Jcs(record), Der.DerSig(raw))
    case (Some(canonical), Some(der)) =>
      Some(Envelope("ta-" + FirstSix(Base32.Rfc4648(lib.sha256(canonical))), record,
                    LowerHex(lib.sha256(canonical)), "es256", lib.encodeBase64(der)))
    case _ => None
  }

  datatype Verdict = Valid | HashDiffers | IdDiffers | SignatureBad | Throws

  /** verifyEnvelope. */
  function CheckEnvelope(lib: Library, env: Envelope, pubkey: string): Verdict {
    match Jcs(env.record)
    case None => Throws
    case Some(canonical) =>
      if LowerHex(lib.sha256(canonical)) != env.recordSha256 then HashDiffers
      else if "ta-" + FirstSix(Base32.Rfc4648(lib.sha256(canonical))) != env.id then IdDiffers
      else
        match (lib.atob(pubkey), lib.atob(env.sig))
        case (Some(key), Some(der)) =>
          (match Der.RawSig(der)
           case Err(_) => Throws
           case Ok(raw) =>
             if |key| != 65 || !lib.onCurve(key) then Throws
             else if lib.ecdsaVerify(key, canonical, raw) then Valid else SignatureBad)
        case _ => Throws
  }

  // ── What the verifier reads back ───────────────────────────────────────

  lemma {:induction false} GetOver(xs: seq<Member>, ys: seq<Member>, key: string)
    ensures Get(xs + ys, key) == if Get(xs, key).Some? then Get(xs, key) else Get(ys, key)
  {
    if xs == [] {
      assert xs + ys == ys;
    } else {
      assert (xs + ys)[1..] == xs[1..] + ys;
      GetOver(xs[1..], ys, key);
    }
  }

  lemma {:induction false} GetNone(ms: seq<Member>, key: string)
    requires forall i :: 0 <= i < |ms| ==> ms[i].key != key
    ensures Get(ms, key) == None
  {
    if ms != [] {
      GetNone(ms[1..], key);
    }
  }

  lemma BaseGets(lib: Library, ask: Ask, opts: Options, rest: seq<Member>, i: nat)
    requires i < 9
    ensures Get(BaseMembers(lib, ask, opts) + rest, BaseMembers(lib, ask, opts)[i].key)
            == Some(BaseMembers(lib, ask, opts)[i].value)
  {
    var ms := BaseMembers(lib, ask, opts);
    BaseDistinct(lib, ask, opts);
    GetAt(ms, i);
    GetOver(ms, rest, ms[i].key);
  }

  lemma BaseDistinct(lib: Library, ask: Ask, opts: Options)
    ensures forall i, j :: 0 <= i < j < 9 ==> BaseMembers(lib, ask, opts)[i].key != BaseMembers(lib, ask, opts)[j].key
  {
    var ms := BaseMembers(lib, ask, opts);
    assert ms[4].key[0] == 'q' && ms[5].key[0] == 'd' && ms[3].key[0] == 'a';
    assert ms[2].key[0] == 'a' && ms[8].key[0] == 's';
    forall i, j | 0 <= i < j < 9 ensures ms[i].key != ms[j].key {
      assert |ms[i].key| == |ms[j].key| ==> ms[i].key[0] != ms[j].key[0];
    }
  }

  lemma OptionalGets(name: string, present: bool, value: Json, rest: seq<Member>, key: string)
    ensures Get(Optional(name, present, value) + rest, key) ==
            if present && name == key then Some(value) else Get(rest, key)
  {
    GetOver(Optional(name, present, value), rest, key);
  }

  lemma OptionalGet(ask: Ask, opts: Options, key: string)
    ensures Get(OptionalMembers(ask, opts), key) ==
      if Truthy(opts.answer) && "answer" == key then Some(Str(opts.answer.value))
      else if Truthy(opts.note) && "note" == key then Some(Str(opts.note.value))
      else if opts.once && "once" == key then Some(Bool(true))
      else if Truthy(ask.renews) && "renews" == key then Some(Str(ask.renews.value))
      else None
  {
    var answer := Str(if opts.answer.Some? then opts.answer.value else "");
    var note := Str(if opts.note.Some? then opts.note.value else "");
    var renews := Str(if ask.renews.Some? then ask.renews.value else "");
    var last := Optional("renews", Truthy(ask.renews), renews);
    var once := Optional("once", opts.once, Bool(true)) + last;
    var notes := Optional("note", Truthy(opts.note), note) + once;
    assert last + [] == last;
    OptionalGets("answer", Truthy(opts.answer), answer, notes, key);
    OptionalGets("note", Truthy(opts.note), note, once, key);
    OptionalGets("once", opts.once, Bool(true), last, key);
    OptionalGets("renews", Truthy(ask.renews), renews, [], key);
  }

  lemma OptionalLookup(ask: Ask, opts: Options)
    ensures
      var ms := OptionalMembers(ask, opts);
      && Get(ms, "answer") == (if Truthy(opts.answer) then Some(Str(opts.answer.value)) else None)
      && Get(ms, "note") == (if Truthy(opts.note) then Some(Str(opts.note.value)) else None)
      && Get(ms, "once") == (if opts.once then Some(Bool(true)) else None)
      && Get(ms, "renews") == (if Truthy(ask.renews) then Some(Str(ask.renews.value)) else None)
  {
    OptionalGet(ask, opts, "answer");
    OptionalGet(ask, opts, "note");
    OptionalGet(ask, opts, "once");
    OptionalGet(ask, opts, "renews");
    assert "note"[0] == 'n' && "once"[0] == 'o';
    assert "answer"[0] == 'a' && "renews"[0] == 'r';
  }

  lemma OptionalInRecord(lib: Library, ask: Ask, opts: Options, key: string)
    requires key in {"answer", "note", "once", "renews"}
    ensures Get(GrantRecordFor(lib, ask, opts).members, key) == Get(OptionalMembers(ask, opts), key)
  {
    var ms := BaseMembers(lib, ask, opts);
    assert "answer"[0] == 'a' && "renews"[0] == 'r' && "signer"[0] == 's';
    assert "note"[0] == 'n' && "once"[0] == 'o' && "kind"[0] == 'k' && "ask_id"[1] == 's' && "answer"[1] == 'n';
    forall i | 0 <= i < 9 ensures ms[i].key != key {
    }
    GetNone(ms, key);
    GetOver(ms, OptionalMembers(ask, opts), key);
  }

  /** The typed record that grantRecord builds. */
  function Built(lib: Library, ask: Ask, opts: Options, decision: Decision): GrantRecord {
    GrantRecord(1, ask.id, if Truthy(ask.agentName) then ask.agentName.value else "", ask.question, decision,
                if Truthy(opts.answer) then opts.answer else None,
                if Truthy(opts.note) then opts.note else None,
                Iso(lib, opts.now), Iso(lib, opts.now + opts.ttlSecs * 1000),
                if opts.once then Some(true) else None,
                if Truthy(ask.renews) then ask.renews else None,
                opts.signer)
  }

  lemma RecordNames(lib: Library, ask: Ask, opts: Options)
    ensures NamedAmong(GrantRecordFor(lib, ask, opts).members,
                       {"v", "kind", "ask_id", "asked_by", "question", "decision", "answer", "note", "issued_at",
                        "expires_at", "once", "renews", "signer"})
  {
    var names := {"v", "kind", "ask_id", "asked_by", "question", "decision", "answer", "note", "issued_at",
                  "expires_at", "once", "renews", "signer"};
    forall i | 0 <= i < |OptionalMembers(ask, opts)| ensures OptionalMembers(ask, opts)[i].key in names {}
    forall i | 0 <= i < 9 ensures BaseMembers(lib, ask, opts)[i].key in names {}
  }

  /** A member that is there exactly when its text is not empty. */
  predicate Given(ms: seq<Member>, key: string, s: Option<string>) {
    Get(ms, key) == if s == None || s == Some("") then None else Some(Str(s.value))
  }

  /** The members of the record: the ask, the choice, the times to the second, and of
      the optional ones those that are given. */
  lemma BuiltMembers(lib: Library, ask: Ask, opts: Options)
    ensures var ms := GrantRecordFor(lib, ask, opts).members;
            && Get(ms, "v") == Some(Int(1)) && Get(ms, "kind") == Some(Str("grant"))
            && Get(ms, "ask_id") == Some(Str(ask.id)) && Get(ms, "question") == Some(Str(ask.question))
            && Get(ms, "asked_by") == Some(Str(if ask.agentName.Some? then ask.agentName.value else ""))
            && Get(ms, "decision") == Some(Str(opts.decision)) && Get(ms, "signer") == Some(Str(opts.signer))
            && Get(ms, "issued_at") == Some(Str(lib.formatTime(opts.now / 1000)))
            && Get(ms, "expires_at") == Some(Str(lib.formatTime((opts.now + opts.ttlSecs * 1000) / 1000)))
            && Given(ms, "answer", opts.answer) && Given(ms, "note", opts.note) && Given(ms, "renews", ask.renews)
            && Get(ms, "once") == (if opts.once then Some(Bool(true)) else None)
  {
    var rest := OptionalMembers(ask, opts);
    BaseGets(lib, ask, opts, rest, 0);
    BaseGets(lib, ask, opts, rest, 1);
    BaseGets(lib, ask, opts, rest, 2);
    BaseGets(lib, ask, opts, rest, 3);
    BaseGets(lib, ask, opts, rest, 4);
    BaseGets(lib, ask, opts, rest, 5);
    BaseGets(lib, ask, opts, rest, 6);
    BaseGets(lib, ask, opts, rest, 7);
    BaseGets(lib, ask, opts, rest, 8);
    OptionalInRecord(lib, ask, opts, "answer");
    OptionalInRecord(lib, ask, opts, "note");
    OptionalInRecord(lib, ask, opts, "once");
    OptionalInRecord(lib, ask, opts, "renews");
    OptionalLookup(ask, opts);
  }

  lemma BuiltSpells(lib: Library, ask: Ask, opts: Options, decision: Decision)
    requires opts.decision == DecisionText(decision)
    ensures SpellsGrant(GrantRecordFor(lib, ask, opts).members, Built(lib, ask, opts, decision))
  {
    RecordNames(lib, ask, opts);
    BuiltMembers(lib, ask, opts);
  }

  /** The verifier reads back exactly what was put in. */
  lemma ReadsBuilt(lib: Library, ask: Ask, opts: Options, decision: Decision)
    requires opts.decision == DecisionText(decision)
    ensures ReadRecord(GrantRecordFor(lib, ask, opts).members) == Some(Grant(Built(lib, ask, opts, decision)))
  {
    BuiltSpells(lib, ask, opts, decision);
    ReadIff(GrantRecordFor(lib, ask, opts).members, Grant(Built(lib, ask, opts, decision)));
  }

  lemma BuiltPlain(lib: Library, ask: Ask, opts: Options)
    ensures JsonPrint.Plain(GrantRecordFor(lib, ask, opts)) && !HasNull(GrantRecordFor(lib, ask, opts))
    ensures Printable(GrantRecordFor(lib, ask, opts))
  {
    var rest, ms := OptionalMembers(ask, opts), GrantRecordFor(lib, ask, opts).members;
    forall i | 0 <= i < |rest| ensures rest[i].value.Str? || rest[i].value.Bool? {}
    forall i | 0 <= i < |ms| ensures ms[i].value.Str? || ms[i].value.Bool? || ms[i].value.Int? {
      if i >= 9 { assert ms[i] == rest[i - 9]; }
    }
    JsonCanonical.PlainIsPrintable(GrantRecordFor(lib, ask, opts));
  }

  lemma TruncatedExpiry(ms: int, ttlSecs: int)
    ensures (ms + ttlSecs * 1000) / 1000 == ms / 1000 + ttlSecs
  {
  }

  lemma TimestampBack(lib: Library, ms: int)
    requires Lawful(lib) && InRange(ms / 1000)
    ensures ParseTimestamp(lib, Iso(lib, ms)) == Some(ms / 1000)
  {
  }

  /** What the structure check makes of the record. */
  function BuiltParsed(lib: Library, ask: Ask, opts: Options, decision: Decision): ParsedRecord {
    ParsedRecord(Grant(Built(lib, ask, opts, decision)), opts.now / 1000, Some(opts.now / 1000 + opts.ttlSecs))
  }

  /** The structure check passes exactly when the ttl is at least one second; the
      expiry is then exactly ttl seconds after the issue time, whatever
      milliseconds were dropped. */
  lemma BuiltParses(lib: Library, ask: Ask, opts: Options, decision: Decision)
    requires Lawful(lib) && opts.decision == DecisionText(decision) && opts.signer != ""
    requires InRange(opts.now / 1000) && InRange(opts.now / 1000 + opts.ttlSecs)
    ensures ParseRecord(lib, GrantRecordFor(lib, ask, opts)) ==
            if opts.ttlSecs >= 1 then Ok(BuiltParsed(lib, ask, opts, decision)) else Err(Malformed)
  {
    ReadsBuilt(lib, ask, opts, decision);
    BuiltPlain(lib, ask, opts);
    TruncatedExpiry(opts.now, opts.ttlSecs);
    TimestampBack(lib, opts.now);
    TimestampBack(lib, opts.now + opts.ttlSecs * 1000);
  }

  /** raw is the signature of the record by the registry's key for the signer. */
  ghost predicate SignedWith(lib: Library, entry: RegistryEntry, record: Json, raw: seq<Byte>) {
    && DecodePubkey(lib, entry.signer.pubkey) == Some(entry.key)
    && lib.atob(entry.signer.pubkey) == Some(entry.key)
    && |raw| == 64
    && Jcs(record).Some? && lib.ecdsaVerify(entry.key, Jcs(record).value, raw)
  }

  lemma SignedIsAccepted(lib: Library, entry: RegistryEntry, record: Json, raw: seq<Byte>)
    requires Lawful(lib) && SignedWith(lib, entry, record, raw)
    ensures SignRecord(lib, record, raw).Some?
    ensures SignatureOk(lib, entry.key, Jcs(record).value, SignRecord(lib, record, raw).value.sig)
    ensures CheckEnvelope(lib, SignRecord(lib, record, raw).value, entry.signer.pubkey) == Valid
  {
    Der.StrictReadsSig(raw);
    Der.RawSigUndoes(raw);
  }

  /** What the phone's verifier looks for: the hash and the id of the record, a key on
      the curve, and what that key says of a signature in the lenient reading. */
  ghost predicate Checks(lib: Library, env: Envelope, pubkey: string, key: Key, der: seq<Byte>, raw: seq<Byte>,
                         ok: bool) {
    && Jcs(env.record).Some? && NamedAfter(lib, Jcs(env.record).value, env.recordSha256, env.id)
    && lib.atob(pubkey) == Some(key) && |key| == 65 && lib.onCurve(key)
    && lib.atob(env.sig) == Some(der) && Der.RawSig(der) == Ok(raw)
    && lib.ecdsaVerify(key, Jcs(env.record).value, raw) == ok
  }

  ghost predicate Checked(lib: Library, env: Envelope, pubkey: string, ok: bool) {
    exists key, der, raw :: Checks(lib, env, pubkey, key, der, raw, ok)
  }

  /** The phone's verifier says valid exactly of an envelope whose signature verifies,
      and otherwise names the hash before the id before the signature. */
  lemma CheckIff(lib: Library, env: Envelope, pubkey: string)
    ensures CheckEnvelope(lib, env, pubkey) == Valid <==> Checked(lib, env, pubkey, true)
    ensures CheckEnvelope(lib, env, pubkey) == SignatureBad <==> Checked(lib, env, pubkey, false)
    ensures CheckEnvelope(lib, env, pubkey) == HashDiffers <==>
            Jcs(env.record).Some? && !HexOf(env.recordSha256, lib.sha256(Jcs(env.record).value))
    ensures CheckEnvelope(lib, env, pubkey) == IdDiffers <==>
            && Jcs(env.record).Some? && HexOf(env.recordSha256, lib.sha256(Jcs(env.record).value))
            && !NamedAfter(lib, Jcs(env.record).value, env.recordSha256, env.id)
  {
    if Jcs(env.record).Some? {
      var canonical := Jcs(env.record).value;
      NamedIff(lib, canonical, env.recordSha256, env.id);
      LowerHexReads(lib.sha256(canonical));
      if HexOf(env.recordSha256, lib.sha256(canonical)) { HexOfUnique(env.recordSha256, lib.sha256(canonical)); }
      if CheckEnvelope(lib, env, pubkey) == Valid || CheckEnvelope(lib, env, pubkey) == SignatureBad {
        KeySpeaks(lib, env, pubkey);
      }
    }
  }

  lemma KeySpeaks(lib: Library, env: Envelope, pubkey: string)
    requires CheckEnvelope(lib, env, pubkey) == Valid || CheckEnvelope(lib, env, pubkey) == SignatureBad
    ensures Checked(lib, env, pubkey, CheckEnvelope(lib, env, pubkey) == Valid)
  {
    var key, der := lib.atob(pubkey).value, lib.atob(env.sig).value;
    NamedIff(lib, Jcs(env.record).value, env.recordSha256, env.id);
    assert Checks(lib, env, pubkey, key, der, Der.RawSig(der).value, CheckEnvelope(lib, env, pubkey) == Valid);
  }

  /** The daemon takes env as the verified record, and so does the phone. */
  ghost predicate Accepted(lib: Library, registry: Registry, env: Envelope, parsed: ParsedRecord, pubkey: string) {
    && VerifyEnvelope(lib, registry, EnvelopeJson(env)) == Ok(Verified(env, parsed))
    && CheckEnvelope(lib, env, pubkey) == Valid
  }

  /** Any record that passes the structure check verifies once it is signed. */
  lemma SignedVerifies(lib: Library, registry: Registry, record: Json, parsed: ParsedRecord, raw: seq<Byte>,
                       signer: string)
    requires Lawful(lib) && ParseRecord(lib, record) == Ok(parsed) && parsed.record.Signer() == signer
    requires Find(registry, signer).Some?
    requires SignedWith(lib, Find(registry, signer).value, record, raw)
    ensures SignRecord(lib, record, raw).Some?
    ensures Accepted(lib, registry, SignRecord(lib, record, raw).value, parsed,
                     Find(registry, signer).value.signer.pubkey)
  {
    SignedIsAccepted(lib, Find(registry, signer).value, record, raw);
    var env := SignRecord(lib, record, raw).value;
    ReadEnvelopeJson(env);
    VerifyIffSound(lib, registry, EnvelopeJson(env), Verified(env, parsed));
  }

  /** Producer and verifiers agree. An envelope built and signed on the phone by a
      signer the registry holds passes every check of the daemon and of the
      phone's own verifier, and carries exactly the record that was built. */
  lemma BuiltVerifies(lib: Library, registry: Registry, ask: Ask, opts: Options, decision: Decision,
                      record: Json, raw: seq<Byte>)
    requires Lawful(lib) && opts.decision == DecisionText(decision) && opts.signer != ""
    requires opts.ttlSecs >= 1 && InRange(opts.now / 1000) && InRange(opts.now / 1000 + opts.ttlSecs)
    requires record == GrantRecordFor(lib, ask, opts)
    requires Find(registry, opts.signer).Some?
    requires SignedWith(lib, Find(registry, opts.signer).value, record, raw)
    ensures SignRecord(lib, record, raw).Some?
    ensures Accepted(lib, registry, SignRecord(lib, record, raw).value,
                     BuiltParsed(lib, ask, opts, decision), Find(registry, opts.signer).value.signer.pubkey)
  {
    BuiltParses(lib, ask, opts, decision);
    SignedVerifies(lib, registry, record, BuiltParsed(lib, ask, opts, decision), raw, opts.signer);
  }
}
