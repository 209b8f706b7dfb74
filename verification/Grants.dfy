/** Grant envelopes (src/grants.rs): the signer registry, the structure of a
    record, verification, and what is stored of a verified envelope. */
module Grants {
  import opened Prelude
  import opened Bytes
  import opened Json
  import opened Models
  import Base32
  import Der

  /** A P-256 public key, as its 65-byte uncompressed point. */
  type Key = seq<Byte>

  /** Library code the verifier calls. Texts stand for their UTF-8 bytes. */
  datatype Library = Library(
    sha256: string -> seq<Byte>,
    ecdsaVerify: (Key, string, seq<Byte>) -> bool,
    encodeBase64: seq<Byte> -> string,
    decodeBase64: string -> Option<seq<Byte>>,
    atob: string -> Option<seq<Byte>>,
    onCurve: Key -> bool,
    formatTime: int -> string,
    parseNaiveTime: string -> Option<int>)

  datatype GrantError =
    | Malformed
    | UnsupportedAlg(alg: string)
    | HashMismatch
    | IdMismatch(expected: string, got: string)
    | UnknownSigner(signer: string)
    | BadSignature
    | NotificationNotFound(id: string)
    | TargetNotFound(id: string)
    | GrantNotFound(id: string)
    | NotApproval(id: string)
    | NotOpen(id: string)
    | QuestionMismatch
    | IdCollision(id: string)
    | NotOnce(id: string)
    | AlreadyClaimed(id: string)

  // ── Signer registry ────────────────────────────────────────────────────

  datatype Signer = Signer(id: string, pubkey: string)
  datatype RegistryEntry = RegistryEntry(signer: Signer, key: Key)
  type Registry = seq<RegistryEntry>

  /** Standard base64 of exactly 65 bytes 0x04 || x || y on the curve. */
  function DecodePubkey(lib: Library, b64: string): Option<Key> {
    match lib.decodeBase64(b64)
    case None => None
    case Some(bytes) =>
      if |bytes| != 65 || bytes[0] != 0x04 || !lib.onCurve(bytes) then None else Some(bytes)
  }

  datatype RegistryError = EmptyId | DuplicateId(id: string) | BadKey(id: string)

  /** The text is standard base64 of an uncompressed point on the curve. */
  predicate Spells65(lib: Library, pubkey: string, key: Key) {
    lib.decodeBase64(pubkey) == Some(key) && |key| == 65 && key[0] == 0x04 && lib.onCurve(key)
  }

  /** Signer i of the file spoils it: an empty id, an id seen before, or a bad key. */
  ghost predicate Spoils(lib: Library, file: seq<Signer>, i: nat)
    requires i < |file|
  {
    || file[i].id == ""
    || (exists j :: 0 <= j < i && file[j].id == file[i].id)
    || !(exists key :: Spells65(lib, file[i].pubkey, key))
  }

  /** The reason the parser gives for refusing signer i. */
  function Why(lib: Library, file: seq<Signer>, i: nat): RegistryError
    requires i < |file|
  {
    if file[i].id == "" then EmptyId
    else if exists j :: 0 <= j < i && file[j].id == file[i].id then DuplicateId(file[i].id)
    else BadKey(file[i].id)
  }

  /** Registry::parse, after the TOML reader: all signers in file order with
      their keys, or what is wrong with the first signer that spoils the file. */
  method ParseRegistry(lib: Library, file: seq<Signer>) returns (r: Result<Registry, RegistryError>)
    ensures r.Ok? ==> |r.value| == |file| && forall i :: 0 <= i < |file| ==>
      !Spoils(lib, file, i) && r.value[i].signer == file[i] && Spells65(lib, file[i].pubkey, r.value[i].key)
    ensures r.Err? ==> exists i :: (0 <= i < |file| && Spoils(lib, file, i) && r.error == Why(lib, file, i)
                                    && forall k :: 0 <= k < i ==> !Spoils(lib, file, k))
  {
    var entries: Registry := [];
    for i := 0 to |file|
      invariant |entries| == i
      invariant forall k :: 0 <= k < i ==> !Spoils(lib, file, k)
      invariant forall k :: 0 <= k < i ==>
        entries[k].signer == file[k] && Spells65(lib, file[k].pubkey, entries[k].key)
    {
      var signer := file[i];
      if signer.id == "" {
        assert Spoils(lib, file, i);
        return Err(EmptyId);
      }
      if exists e :: e in entries && e.signer.id == signer.id {
        assert exists k :: 0 <= k < i && entries[k].signer.id == signer.id;
        assert Spoils(lib, file, i);
        return Err(DuplicateId(signer.id));
      }
      assert forall k :: 0 <= k < i ==> entries[k] in entries;
      var key := DecodePubkey(lib, signer.pubkey);
      if key.None? {
        assert Spoils(lib, file, i);
        return Err(BadKey(signer.id));
      }
      assert Spells65(lib, signer.pubkey, key.value);
      entries := entries + [RegistryEntry(signer, key.value)];
    }
    r := Ok(entries);
  }

  /** The entry of a signer: the first with that id. */
  function Find(registry: Registry, id: string): Option<RegistryEntry> {
    if registry == [] then None
    else if registry[0].signer.id == id then Some(registry[0])
    else Find(registry[1..], id)
  }

  // ── Records ────────────────────────────────────────────────────────────

  datatype Decision = Approve | Deny

  function DecisionText(d: Decision): string {
    match d case Approve => "approve" case Deny => "deny"
  }

  datatype GrantRecord = GrantRecord(
    v: nat, askId: string, askedBy: string, question: string, decision: Decision,
    answer: Option<string>, note: Option<string>, issuedAt: string, expiresAt: string,
    once: Option<bool>, renews: Option<string>, signer: string)

  datatype Record =
    | Grant(grant: GrantRecord)
    | Revoke(rv: nat, target: string, reason: Option<string>, rIssuedAt: string, rSigner: string)
    | Enroll(ev: nat, signerId: string, means: string, device: Option<string>, pubkey: string,
             eIssuedAt: string, eSigner: string)
  {
    function Kind(): string {
      match this
      case Grant(_) => "grant"
      case Revoke(_, _, _, _, _) => "revoke"
      case Enroll(_, _, _, _, _, _, _) => "enroll"
    }
    function Signer(): string {
      match this case Grant(g) => g.signer case Revoke(_, _, _, _, s) => s case Enroll(_, _, _, _, _, _, s) => s
    }
    function Version(): nat {
      match this case Grant(g) => g.v case Revoke(v, _, _, _, _) => v case Enroll(v, _, _, _, _, _, _) => v
    }
    function IssuedAt(): string {
      match this case Grant(g) => g.issuedAt case Revoke(_, _, _, t, _) => t case Enroll(_, _, _, _, _, t, _) => t
    }
    function NotificationId(): Option<string> {
      if Grant? then Some(grant.askId) else None
    }
    function Renews(): Option<string> {
      if Grant? then grant.renews else None
    }
  }

  /** A member's value, if the object has the member. */
  function Get(ms: seq<Member>, key: string): Option<Json> {
    if ms == [] then None
    else if ms[0].key == key then Some(ms[0].value)
    else Get(ms[1..], key)
  }

  function GetStr(ms: seq<Member>, key: string): Option<string> {
    match Get(ms, key) case Some(Str(s)) => Some(s) case _ => None
  }

  /** An optional text: None when the member is there with another type. */
  function GetOptStr(ms: seq<Member>, key: string): Option<Option<string>> {
    match Get(ms, key) case None => Some(None) case Some(Str(s)) => Some(Some(s)) case _ => None
  }

  function GetOptBool(ms: seq<Member>, key: string): Option<Option<bool>> {
    match Get(ms, key) case None => Some(None) case Some(Bool(b)) => Some(Some(b)) case _ => None
  }

  function GetNat(ms: seq<Member>, key: string): Option<nat> {
    match Get(ms, key) case Some(Int(n)) => if n >= 0 then Some(n as nat) else None case _ => None
  }

  predicate OnlyKeys(ms: seq<Member>, keys: set<string>) {
    forall i :: 0 <= i < |ms| ==> ms[i].key in keys
  }

  /** What an object may be read as. */
  datatype Form = GrantForm | RevokeForm | EnrollForm | EnvelopeForm

  /** The members a form may have. */
  function Keys(form: Form): set<string> {
    match form
    case GrantForm => {"v", "kind", "ask_id", "asked_by", "question", "decision", "answer", "note",
                       "issued_at", "expires_at", "once", "renews", "signer"}
    case RevokeForm => {"v", "kind", "target", "reason", "issued_at", "signer"}
    case EnrollForm => {"v", "kind", "signer_id", "method", "device", "pubkey", "issued_at", "signer"}
    case EnvelopeForm => {"id", "record", "record_sha256", "alg", "sig"}
  }

  function ReadDecision(ms: seq<Member>): Option<Decision> {
    match GetStr(ms, "decision")
    case Some(d) => if d == "approve" then Some(Approve) else if d == "deny" then Some(Deny) else None
    case None => None
  }

  function ReadGrant(ms: seq<Member>): Option<GrantRecord> {
    var v, ask, asker := GetNat(ms, "v"), GetStr(ms, "ask_id"), GetStr(ms, "asked_by");
    var question, decision := GetStr(ms, "question"), ReadDecision(ms);
    var answer, note := GetOptStr(ms, "answer"), GetOptStr(ms, "note");
    var issued, expires, signer := GetStr(ms, "issued_at"), GetStr(ms, "expires_at"), GetStr(ms, "signer");
    var once, renews := GetOptBool(ms, "once"), GetOptStr(ms, "renews");
    if !OnlyKeys(ms, Keys(GrantForm)) || v.None? || ask.None? || asker.None? || question.None? || decision.None?
       || answer.None? || note.None? || issued.None? || expires.None? || once.None? || renews.None? || signer.None?
    then None
    else
      Some(GrantRecord(v.value, ask.value, asker.value, question.value, decision.value, answer.value, note.value,
                       issued.value, expires.value, once.value, renews.value, signer.value))
  }

  function ReadRevoke(ms: seq<Member>): Option<Record> {
    var v, target, reason := GetNat(ms, "v"), GetStr(ms, "target"), GetOptStr(ms, "reason");
    var issued, signer := GetStr(ms, "issued_at"), GetStr(ms, "signer");
    if !OnlyKeys(ms, Keys(RevokeForm)) || v.None? || target.None? || reason.None? || issued.None? || signer.None?
    then None
    else Some(Revoke(v.value, target.value, reason.value, issued.value, signer.value))
  }

  function ReadEnroll(ms: seq<Member>): Option<Record> {
    var v, id, how, device := GetNat(ms, "v"), GetStr(ms, "signer_id"), GetStr(ms, "method"), GetOptStr(ms, "device");
    var pubkey, issued, signer := GetStr(ms, "pubkey"), GetStr(ms, "issued_at"), GetStr(ms, "signer");
    if !OnlyKeys(ms, Keys(EnrollForm)) || v.None? || id.None? || how.None? || device.None? || pubkey.None?
       || issued.None? || signer.None?
    then None
    else Some(Enroll(v.value, id.value, how.value, device.value, pubkey.value, issued.value, signer.value))
  }

  /** The typed record: unknown members, missing members and wrong types are refused. */
  function ReadRecord(ms: seq<Member>): Option<Record> {
    match GetStr(ms, "kind")
    case None => None
    case Some(kind) =>
      if kind == "grant" then
        (match ReadGrant(ms) case Some(g) => Some(Grant(g)) case None => None)
      else if kind == "revoke" then ReadRevoke(ms)
      else if kind == "enroll" then ReadEnroll(ms)
      else None
  }

  /** A null anywhere in the value. */
  predicate HasNull(v: Json) {
    match v
    case Null => true
    case Arr(items) => exists i :: 0 <= i < |items| && HasNull(items[i])
    case Obj(ms) => exists i :: 0 <= i < |ms| && HasNull(ms[i].value)
    case _ => false
  }

  /** YYYY-MM-DDTHH:MM:SSZ, in exactly the form the formatter prints. */
  function ParseTimestamp(lib: Library, s: string): Option<int> {
    match lib.parseNaiveTime(s)
    case None => None
    case Some(t) => if lib.formatTime(t) == s then Some(t) else None
  }

  datatype ParsedRecord = ParsedRecord(record: Record, issuedAt: int, expiresAt: Option<int>)

  function ParseRecord(lib: Library, value: Json): Result<ParsedRecord, GrantError> {
    if !value.Obj? || HasNull(value) then Err(Malformed)
    else
      match ReadRecord(value.members)
      case None => Err(Malformed)
      case Some(record) =>
        if record.Version() != 1 || record.Signer() == "" then Err(Malformed)
        else
          match ParseTimestamp(lib, record.IssuedAt())
          case None => Err(Malformed)
          case Some(issued) => ParseExpiry(lib, record, issued)
  }

  function ParseExpiry(lib: Library, record: Record, issued: int): Result<ParsedRecord, GrantError> {
    match record
    case Grant(g) =>
      (match ParseTimestamp(lib, g.expiresAt)
       case None => Err(Malformed)
       case Some(exp) => if exp <= issued then Err(Malformed) else Ok(ParsedRecord(record, issued, Some(exp))))
    case Enroll(_, _, _, _, pubkey, _, _) =>
      if DecodePubkey(lib, pubkey).None? then Err(Malformed) else Ok(ParsedRecord(record, issued, None))
    case Revoke(_, _, _, _, _) => Ok(ParsedRecord(record, issued, None))
  }

  // ── Envelopes ──────────────────────────────────────────────────────────

  datatype Envelope = Envelope(id: string, record: Json, recordSha256: string, alg: string, sig: string)

  /** Deserialisation of the envelope struct. serde reads a struct from an object
      and also from an array of its fields in order. */
  function ReadEnvelope(raw: Json): Option<Envelope> {
    match raw
    case Obj(ms) =>
      var id, record, sha := GetStr(ms, "id"), Get(ms, "record"), GetStr(ms, "record_sha256");
      var alg, sig := GetStr(ms, "alg"), GetStr(ms, "sig");
      if !OnlyKeys(ms, Keys(EnvelopeForm)) || id.None? || record.None? || sha.None? || alg.None? || sig.None? then None
      else Some(Envelope(id.value, record.value, sha.value, alg.value, sig.value))
    case Arr(items) =>
      if |items| != 5 || !items[0].Str? || !items[2].Str? || !items[3].Str? || !items[4].Str? then None
      else Some(Envelope(items[0].s, items[1], items[2].s, items[3].s, items[4].s))
    case _ => None
  }

  /** The JSON object an envelope is served as. */
  function EnvelopeJson(e: Envelope): Json {
    Obj([Member("id", Str(e.id)), Member("record", e.record), Member("record_sha256", Str(e.recordSha256)),
         Member("alg", Str(e.alg)), Member("sig", Str(e.sig))])
  }

  function LowerHex(bytes: seq<Byte>): string {
    if bytes == [] then ""
    else [HexDigit(bytes[0] / 16), HexDigit(bytes[0] % 16)] + LowerHex(bytes[1..])
  }

  /** The first six letters, as slice(0, 6) takes them. */
  function FirstSix(s: string): string {
    if |s| < 6 then s else s[..6]
  }

  function GrantId(lib: Library, canonical: string): string {
    "ta-" + FirstSix(Base32.Rfc4648(lib.sha256(canonical)))
  }

  datatype Verified = Verified(envelope: Envelope, parsed: ParsedRecord)

  /** verify_envelope: shape, algorithm, record, hash, id, signer, signature, in that order. */
  function VerifyEnvelope(lib: Library, registry: Registry, raw: Json): Result<Verified, GrantError> {
    match ReadEnvelope(raw)
    case None => Err(Malformed)
    case Some(env) =>
      if env.alg != "es256" then Err(UnsupportedAlg(env.alg))
      else
        match ParseRecord(lib, env.record)
        case Err(e) => Err(e)
        case Ok(parsed) => VerifyParsed(lib, registry, env, parsed)
  }

  function VerifyParsed(lib: Library, registry: Registry, env: Envelope, parsed: ParsedRecord)
    : Result<Verified, GrantError>
  {
    match Jcs(env.record)
    case None => Err(Malformed)
    case Some(canonical) =>
      if LowerHex(lib.sha256(canonical)) != env.recordSha256 then Err(HashMismatch)
      else if GrantId(lib, canonical) != env.id then Err(IdMismatch(GrantId(lib, canonical), env.id))
      else
        match Find(registry, parsed.record.Signer())
        case None => Err(UnknownSigner(parsed.record.Signer()))
        case Some(entry) =>
          if SignatureOk(lib, entry.key, canonical, env.sig) then Ok(Verified(env, parsed)) else Err(BadSignature)
  }

  /** Standard base64 of a strict DER signature that verifies. */
  predicate SignatureOk(lib: Library, key: Key, canonical: string, sig: string) {
    match lib.decodeBase64(sig)
    case None => false
    case Some(der) =>
      match Der.StrictSig(der)
      case None => false
      case Some(raw) => lib.ecdsaVerify(key, canonical, raw)
  }

  // ── From a grant to an answer ──────────────────────────────────────────

  function CheckGrantForNotification(g: GrantRecord, n: Loaded): Option<GrantError> {
    if g.askId != n.id then Some(NotificationNotFound(g.askId))
    else if n.questionType != Approval then Some(NotApproval(n.id))
    else if n.status != Open then Some(NotOpen(n.id))
    else if g.question != n.question then Some(QuestionMismatch)
    else None
  }

  datatype GrantAnswer = GrantAnswer(answer: string, answerLabel: string, note: Option<string>, via: string)

  function AnswerOf(g: GrantRecord): GrantAnswer {
    GrantAnswer(
      DecisionText(g.decision),
      if g.answer.Some? then g.answer.value else DecisionText(g.decision),
      g.note,
      "ta:" + g.signer)
  }

  function GrantAnswerEnvelope(n: Loaded, g: GrantRecord, e: Envelope, at: int): AnswerEnvelope<Envelope> {
    var a := AnswerOf(g);
    AnswerEnvelope(n.id, Some(a.answer), Some(a.answerLabel), Some(at), a.via, a.note, Some(e), n.once)
  }

  // ── Stored grants ──────────────────────────────────────────────────────

  /** A row of the grants table. */
  datatype StoredGrant = StoredGrant(
    id: string, kind: string, notificationId: Option<string>, record: Json, recordSha256: string,
    sig: string, signer: string, issuedAt: int, expiresAt: Option<int>, renews: Option<string>,
    revokedBy: Option<string>, claimedBy: Option<string>, claimedAt: Option<int>, createdAt: int)
  {
    function ToEnvelope(): Envelope {
      Envelope(id, record, recordSha256, "es256", sig)
    }

    predicate IsOnce() {
      kind == "grant" && record.Obj? && Get(record.members, "once") == Some(Bool(true))
    }

    function AttachTo(e: AnswerEnvelope<Envelope>): AnswerEnvelope<Envelope> {
      e.(via := "ta:" + signer, grant := Some(ToEnvelope()))
    }
  }

  function FromVerified(v: Verified, createdAt: int): StoredGrant {
    var r := v.parsed.record;
    StoredGrant(v.envelope.id, r.Kind(), r.NotificationId(), v.envelope.record, v.envelope.recordSha256,
                v.envelope.sig, r.Signer(), v.parsed.issuedAt, v.parsed.expiresAt, r.Renews(),
                None, None, None, createdAt)
  }

  function CheckClaim(g: StoredGrant): Option<GrantError> {
    if !g.IsOnce() then Some(NotOnce(g.id))
    else if g.claimedBy.Some? then Some(AlreadyClaimed(g.id))
    else None
  }
}
