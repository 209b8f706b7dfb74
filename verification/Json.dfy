/** JSON values as static/phone-crypto.js prints them and src/grants.rs reads
    them, and the printer jcs: the canonical form of section 3.2 of RFC 8785
    for strings, booleans, null, safe integers, arrays and objects. */
module Json {
  import opened Prelude
  import opened Sorting
  import opened Utf16

  const MAX_SAFE: int := 0x1F_FFFF_FFFF_FFFF

  /** An integer that a JavaScript number holds exactly. */
  type SafeInt = n: int | -MAX_SAFE <= n <= MAX_SAFE

  /** Undefined and Fraction are the values jcs meets and does not print: a
      member whose value is undefined, and a number that is not an integer. */
  datatype Json =
    | Undefined
    | Null
    | Bool(b: bool)
    | Int(n: SafeInt)
    | Fraction(r: real)
    | Str(s: string)
    | Arr(items: seq<Json>)
    | Obj(members: seq<Member>)

  datatype Member = Member(key: string, value: Json)

  /** A property name occurs once in an object, at every depth. */
  predicate WellFormed(v: Json) {
    match v
    case Arr(items) => forall i :: 0 <= i < |items| ==> WellFormed(items[i])
    case Obj(ms) =>
      && (forall i, j :: 0 <= i < j < |ms| ==> ms[i].key != ms[j].key)
      && (forall i :: 0 <= i < |ms| ==> WellFormed(ms[i].value))
    case _ => true
  }

  /** The values jcs prints: everywhere else it throws. */
  predicate Printable(v: Json) {
    match v
    case Undefined => false
    case Fraction(_) => false
    case Arr(items) => forall i :: 0 <= i < |items| ==> Printable(items[i])
    case Obj(ms) => forall i :: 0 <= i < |ms| ==> ms[i].value == Undefined || Printable(ms[i].value)
    case _ => true
  }

  // ── Printing ───────────────────────────────────────────────────────────

  function HexDigit(n: int): char
    requires 0 <= n < 16
  {
    "0123456789abcdef"[n]
  }

  /** JSON.stringify's escapes. */
  function EscapeChar(c: char): string {
    if c == '\"' then "\\\""
    else if c == '\\' then "\\\\"
    else if c as int == 8 then "\\b"
    else if c as int == 9 then "\\t"
    else if c as int == 10 then "\\n"
    else if c as int == 12 then "\\f"
    else if c as int == 13 then "\\r"
    else if (c as int) < 32 then "\\u00" + [HexDigit(c as int / 16), HexDigit(c as int % 16)]
    else [c]
  }

  function Escape(s: string): string {
    if s == "" then "" else EscapeChar(s[0]) + Escape(s[1..])
  }

  function Quote(s: string): string {
    "\"" + Escape(s) + "\""
  }

  function Decimal(n: nat): (d: string)
    ensures |d| > 0 && forall i :: 0 <= i < |d| ==> '0' <= d[i] <= '9'
  {
    if n < 10 then ["0123456789"[n]] else Decimal(n / 10) + ["0123456789"[n % 10]]
  }

  function PrintInt(n: int): string {
    if n < 0 then "-" + Decimal(-n) else Decimal(n)
  }

  /** Elements separated by commas. */
  function Join(parts: seq<string>): string {
    if parts == [] then ""
    else if |parts| == 1 then parts[0]
    else parts[0] + "," + Join(parts[1..])
  }

  /** What jcs returns, or None where it throws. */
  function Jcs(v: Json): Option<string> {
    match v
    case Undefined => None
    case Null => Some("null")
    case Bool(b) => Some(if b then "true" else "false")
    case Int(n) => Some(PrintInt(n))
    case Fraction(_) => None
    case Str(s) => Some(Quote(s))
    case Arr(items) =>
      (match JcsItems(items)
       case None => None
       case Some(parts) => Some("[" + Join(parts) + "]"))
    case Obj(ms) =>
      (match JcsEntries(ms)
       case None => None
       case Some(es) => Some("{" + Join(EntryTexts(StableSort(es, EntryLe))) + "}"))
  }

  function JcsItems(items: seq<Json>): Option<seq<string>> {
    if items == [] then Some([])
    else
      match (Jcs(items[0]), JcsItems(items[1..]))
      case (Some(first), Some(rest)) => Some([first] + rest)
      case _ => None
  }

  /** A printed member, still carrying the property name it is sorted by. */
  datatype Entry = Entry(key: string, text: string)

  predicate EntryLe(a: Entry, b: Entry) {
    KeyLe(a.key, b.key)
  }

  /** The members jcs keeps, printed; those with an undefined value are dropped. */
  function JcsEntries(ms: seq<Member>): Option<seq<Entry>> {
    if ms == [] then Some([])
    else if ms[0].value == Undefined then JcsEntries(ms[1..])
    else
      match (Jcs(ms[0].value), JcsEntries(ms[1..]))
      case (Some(text), Some(rest)) =>
        Some([Entry(ms[0].key, Quote(ms[0].key) + ":" + text)] + rest)
      case _ => None
  }

  function EntryTexts(es: seq<Entry>): seq<string> {
    if es == [] then [] else [es[0].text] + EntryTexts(es[1..])
  }

  // ── Equality up to member order and undefined members ──────────────────

  function DefinedKeys(ms: seq<Member>): set<string> {
    set i | 0 <= i < |ms| && ms[i].value != Undefined :: ms[i].key
  }

  /** Same value: objects may list their members in any order, and may have
      members that are undefined. */
  predicate Same(a: Json, b: Json) {
    match (a, b)
    case (Arr(xs), Arr(ys)) =>
      |xs| == |ys| && forall i :: 0 <= i < |xs| ==> Same(xs[i], ys[i])
    case (Obj(ms), Obj(ns)) =>
      && DefinedKeys(ms) == DefinedKeys(ns)
      && (forall i, j :: 0 <= i < |ms| && 0 <= j < |ns| && ms[i].key == ns[j].key
            && ms[i].value != Undefined && ns[j].value != Undefined
            ==> Same(ms[i].value, ns[j].value))
    case _ => a == b
  }

  // ── Normal form ────────────────────────────────────────────────────────

  predicate MemberLe(a: Member, b: Member) {
    KeyLe(a.key, b.key)
  }

  /** Members sorted by name, undefined members gone, at every depth. */
  function Norm(v: Json): Json {
    match v
    case Arr(items) => Arr(NormItems(items))
    case Obj(ms) => Obj(StableSort(NormMembers(ms), MemberLe))
    case _ => v
  }

  function NormItems(items: seq<Json>): (r: seq<Json>)
    ensures |r| == |items|
  {
    if items == [] then [] else [Norm(items[0])] + NormItems(items[1..])
  }

  function NormMembers(ms: seq<Member>): seq<Member> {
    if ms == [] then []
    else if ms[0].value == Undefined then NormMembers(ms[1..])
    else [Member(ms[0].key, Norm(ms[0].value))] + NormMembers(ms[1..])
  }
}
