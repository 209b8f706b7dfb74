/** DER of an ECDSA signature (static/phone-crypto.js derInt, derSig, rawSig):
    a SEQUENCE of two INTEGERs built from 64 raw bytes r || s, and back. */
module Der {
  import opened Prelude
  import opened Bytes

  /** Big-endian value of a byte string. */
  function BigEndian(b: seq<Byte>): nat {
    if b == [] then 0 else 256 * BigEndian(b[..|b| - 1]) + b[|b| - 1]
  }

  // ── The encoder ────────────────────────────────────────────────────────

  /** Leading zeros go, down to a single byte. */
  function StripZeros(b: seq<Byte>): (r: seq<Byte>)
    ensures |r| <= |b|
  {
    if |b| > 1 && b[0] == 0 then StripZeros(b[1..]) else b
  }

  /** The content bytes derInt writes: a zero in front of a high first bit. */
  function Content(b: seq<Byte>): (r: seq<Byte>)
    ensures |r| <= |b| + 1
  {
    var s := StripZeros(b);
    if s != [] && s[0] >= 128 then [0] + s else s
  }

  /** Tag 2, the length in one byte, the content. A Uint8Array keeps the low
      eight bits of the length. */
  function DerInt(b: seq<Byte>): seq<Byte> {
    [0x02, |Content(b)| % 256] + Content(b)
  }

  /** Tag 0x30, the length in one byte, the two integers. */
  function Sequence(r: seq<Byte>, s: seq<Byte>): seq<Byte> {
    [0x30, (|r| + |s|) % 256] + (r + s)
  }

  function DerSig(raw: seq<Byte>): Option<seq<Byte>> {
    if |raw| != 64 then None else Some(Sequence(DerInt(raw[..32]), DerInt(raw[32..])))
  }

  /** derInt, with its scan and its buffers. */
  method EncodeInt(b: seq<Byte>) returns (out: array<Byte>)
    ensures fresh(out) && out[..] == DerInt(b)
  {
    var i := 0;
    while i < |b| - 1 && b[i] == 0
      invariant 0 <= i <= |b|
      invariant StripZeros(b[i..]) == StripZeros(b)
    {
      assert b[i..][1..] == b[i + 1..];
      i := i + 1;
    }
    var body := b[i..];
    assert StripZeros(body) == body;
    if body != [] && body[0] >= 128 {
      var p := new Byte[|body| + 1](_ => 0);
      forall j | 0 <= j < |body| { p[j + 1] := body[j]; }
      assert p[..] == [0] + body;
      body := p[..];
    }
    out := new Byte[2 + |body|](_ => 0);
    out[0], out[1] := 0x02, |body| % 256;
    forall j | 0 <= j < |body| { out[j + 2] := body[j]; }
    assert out[..] == [0x02, |body| % 256] + body;
  }

  /** The SEQUENCE buffer, filled in place. */
  method Assemble(r: seq<Byte>, s: seq<Byte>) returns (out: array<Byte>)
    ensures fresh(out) && out[..] == Sequence(r, s)
  {
    out := new Byte[2 + |r| + |s|](_ => 0);
    out[0], out[1] := 0x30, (|r| + |s|) % 256;
    forall j | 0 <= j < |r| { out[j + 2] := r[j]; }
    forall j | 0 <= j < |s| { out[j + 2 + |r|] := s[j]; }
    assert out[..] == [0x30, (|r| + |s|) % 256] + (r + s);
  }

  /** derSig. None where it throws. */
  method EncodeSig(raw: seq<Byte>) returns (out: Option<array<Byte>>)
    ensures out.None? <==> DerSig(raw).None?
    ensures out.Some? ==> fresh(out.value) && Some(out.value[..]) == DerSig(raw)
  {
    if |raw| != 64 {
      return None;
    }
    var r := EncodeInt(raw[..32]);
    var s := EncodeInt(raw[32..]);
    var buffer := Assemble(r[..], s[..]);
    out := Some(buffer);
  }

  // ── What X.690 asks of an INTEGER ──────────────────────────────────────

  /** Section 8.3.2 of X.690, for a value that is not negative: at least one
      byte, the sign bit clear, and no leading zero that could be left out. */
  predicate MinimalNonNegative(c: seq<Byte>) {
    && c != [] && c[0] < 128
    && (|c| > 1 ==> !(c[0] == 0 && c[1] < 128))
  }

  lemma {:induction false} BigEndianZero(b: seq<Byte>)
    ensures BigEndian([0] + b) == BigEndian(b)
  {
    if b == [] {
      assert BigEndian([0]) == 256 * BigEndian([]) + 0;
    } else {
      assert ([0] + b)[..|b|] == [0] + b[..|b| - 1];
      BigEndianZero(b[..|b| - 1]);
    }
  }

  lemma {:induction false} StripKeepsValue(b: seq<Byte>)
    ensures BigEndian(StripZeros(b)) == BigEndian(b)
    ensures b != [] ==> StripZeros(b) != []
    ensures |StripZeros(b)| > 1 ==> StripZeros(b)[0] != 0
  {
    if |b| > 1 && b[0] == 0 {
      StripKeepsValue(b[1..]);
      assert b == [0] + b[1..];
      BigEndianZero(b[1..]);
    }
  }

  /** What derInt writes is the one DER content with the value of its input:
      minimal, not negative, at most one byte longer. */
  lemma ContentIsDer(b: seq<Byte>)
    requires b != []
    ensures MinimalNonNegative(Content(b))
    ensures BigEndian(Content(b)) == BigEndian(b)
  {
    StripKeepsValue(b);
    BigEndianZero(StripZeros(b));
  }

  /** n bytes, big-endian, filled with zeros on the left. */
  function Fixed(c: seq<Byte>, n: nat): seq<Byte>
    requires |c| <= n
  {
    seq(n - |c|, _ => 0) + c
  }

  lemma {:induction false} StripFixed(b: seq<Byte>, n: nat)
    requires |b| == n
    ensures Fixed(StripZeros(b), n) == b
  {
    if |b| > 1 && b[0] == 0 {
      StripFixed(b[1..], n - 1);
      assert b == [0] + b[1..];
      assert seq(n - |StripZeros(b)|, _ => 0) == [0] + seq(n - 1 - |StripZeros(b)|, _ => 0);
    }
  }

  // ── The lax reader, rawSig ─────────────────────────────────────────────

  datatype DerError = NotSequence | NotInteger | OutOfRange

  /** Array.prototype.slice: bounds past the end are cut back. */
  function Slice(b: seq<Byte>, from: nat, to: nat): seq<Byte> {
    if from >= |b| || from >= to then [] else if to >= |b| then b[from..] else b[from..to]
  }

  /** Leading zeros go while more than 32 bytes are left. */
  function Trim(v: seq<Byte>): (r: seq<Byte>)
    ensures |r| <= |v|
  {
    if |v| > 32 && v[0] == 0 then Trim(v[1..]) else v
  }

  /** out.set(v, at), or the error it throws. */
  function Set(out: seq<Byte>, v: seq<Byte>, at: int): Result<seq<Byte>, DerError> {
    if at < 0 || at + |v| > |out| then Err(OutOfRange)
    else Ok(out[..at] + v + out[at + |v|..])
  }

  /** The INTEGER at i: its bytes without the zeros that do not fit, and the
      position after it. A position of None is the NaN that a missing length byte
      leaves behind. */
  function IntAt(der: seq<Byte>, i: Option<nat>): Option<(seq<Byte>, Option<nat>)> {
    if i.None? || i.value >= |der| || der[i.value] != 0x02 then None
    else if i.value + 1 >= |der| then Some((Trim([]), None))
    else
      var start, len := i.value + 2, der[i.value + 1];
      Some((Trim(Slice(der, start, start + len)), Some(start + len)))
  }

  /** One turn of rawSig's loop: read the INTEGER at i into half k. */
  function ReadInt(der: seq<Byte>, i: Option<nat>, k: nat, out: seq<Byte>)
    : Result<(Option<nat>, seq<Byte>), DerError>
  {
    match IntAt(der, i)
    case None => Err(NotInteger)
    case Some((v, next)) =>
      match Set(out, v, k * 32 + (32 - |v|))
      case Err(e) => Err(e)
      case Ok(out') => Ok((next, out'))
  }

  function RawSig(der: seq<Byte>): Result<seq<Byte>, DerError> {
    if der == [] || der[0] != 0x30 then Err(NotSequence)
    else
      match ReadInt(der, Some(2), 0, seq(64, _ => 0))
      case Err(e) => Err(e)
      case Ok((i, out)) =>
        match ReadInt(der, i, 1, out)
        case Err(e) => Err(e)
        case Ok((_, out')) => Ok(out')
  }

  /** out.set(v, at), in place. */
  method SetInto(out: array<Byte>, v: seq<Byte>, at: int) returns (r: Result<(), DerError>)
    modifies out
    ensures match Set(old(out[..]), v, at)
            case Err(e) => r == Err(e) && out[..] == old(out[..])
            case Ok(out') => r.Ok? && out[..] == out'
  {
    if at < 0 || at + |v| > out.Length {
      return Err(OutOfRange);
    }
    forall j | 0 <= j < |v| { out[at + j] := v[j]; }
    assert out[..] == old(out[..at]) + v + old(out[at + |v|..]);
    r := Ok(());
  }

  /** The inner loop: drop leading zeros while more than 32 bytes are left. */
  method TrimZeros(whole: seq<Byte>) returns (v: seq<Byte>)
    ensures v == Trim(whole)
  {
    v := whole;
    while |v| > 32 && v[0] == 0
      invariant Trim(v) == Trim(whole)
    {
      v := v[1..];
    }
  }

  method FindInt(der: seq<Byte>, i: Option<nat>) returns (r: Option<(seq<Byte>, Option<nat>)>)
    ensures r == IntAt(der, i)
  {
    if i.None? || i.value >= |der| || der[i.value] != 0x02 {
      return None;
    }
    var start := i.value + 2;
    var len := if i.value + 1 < |der| then Some(der[i.value + 1]) else None;
    var v := TrimZeros(if len.None? then [] else Slice(der, start, start + len.value));
    r := Some((v, if len.None? then None else Some(start + len.value)));
  }

  /** One turn of the loop, writing into the buffer in place. */
  method ReadIntInto(der: seq<Byte>, i: Option<nat>, k: nat, out: array<Byte>)
    returns (r: Result<Option<nat>, DerError>)
    modifies out
    ensures match ReadInt(der, i, k, old(out[..]))
            case Err(e) => r == Err(e)
            case Ok((i', out')) => r == Ok(i') && out[..] == out'
  {
    var found := FindInt(der, i);
    if found.None? {
      return Err(NotInteger);
    }
    var (v, next) := found.value;
    var done := SetInto(out, v, k * 32 + (32 - |v|));
    r := if done.Err? then Err(done.error) else Ok(next);
  }

  /** rawSig, with its loop and its buffer. */
  method DecodeSig(der: seq<Byte>) returns (r: Result<seq<Byte>, DerError>)
    ensures r == RawSig(der)
  {
    if der == [] || der[0] != 0x30 {
      return Err(NotSequence);
    }
    var i: Option<nat> := Some(2);
    var out := new Byte[64](_ => 0);
    assert out[..] == seq(64, _ => 0);
    for k := 0 to 2
      invariant k == 0 ==> i == Some(2) && out[..] == seq(64, _ => 0)
      invariant k == 1 ==> ReadInt(der, Some(2), 0, seq(64, _ => 0)) == Ok((i, out[..]))
      invariant k == 2 ==> RawSig(der) == Ok(out[..])
    {
      var next := ReadIntInto(der, i, k, out);
      if next.Err? {
        return Err(next.error);
      }
      i := next.value;
    }
    r := Ok(out[..]);
  }

  // ── A strict reader ────────────────────────────────────────────────────

  /** An INTEGER at the front of d, as DER requires it: tag, a short-form
      length that fits, a minimal non-negative content of at most 256 bits. */
  function StrictInt(d: seq<Byte>): (r: Option<(seq<Byte>, seq<Byte>)>)
    ensures r.Some? ==> |r.value.0| == 32
  {
    if |d| < 2 || d[0] != 0x02 || d[1] >= 128 || 2 + d[1] > |d| then None
    else
      var c := d[2..2 + d[1]];
      if !MinimalNonNegative(c) then None
      else
        var magnitude := if |c| > 1 && c[0] == 0 then c[1..] else c;
        if |magnitude| > 32 then None
        else Some((Fixed(magnitude, 32), d[2 + d[1]..]))
  }

  /** A SEQUENCE of exactly two such integers, with nothing left over: the 64
      raw bytes it stands for. */
  function StrictSig(der: seq<Byte>): (r: Option<seq<Byte>>)
    ensures r.Some? ==> |r.value| == 64
  {
    if |der| < 2 || der[0] != 0x30 || der[1] >= 128 || 2 + der[1] != |der| then None
    else
      match StrictInt(der[2..])
      case None => None
      case Some((r, rest)) =>
        match StrictInt(rest)
        case None => None
        case Some((s, end)) => if end == [] then Some(r + s) else None
  }

  lemma DerIntShape(b: seq<Byte>)
    requires |b| == 32
    ensures 1 <= |Content(b)| <= 33
    ensures MinimalNonNegative(Content(b))
    ensures Fixed(if |Content(b)| > 1 && Content(b)[0] == 0 then Content(b)[1..] else Content(b), 32) == b
  {
    ContentIsDer(b);
    StripKeepsValue(b);
    StripFixed(b, 32);
    var s := StripZeros(b);
    if s[0] >= 128 {
      assert Content(b)[1..] == s;
    }
  }

  lemma StrictReadsInt(b: seq<Byte>, rest: seq<Byte>)
    requires |b| == 32
    ensures StrictInt(DerInt(b) + rest) == Some((b, rest))
  {
    DerIntShape(b);
    var d := DerInt(b) + rest;
    assert d[2..2 + d[1]] == Content(b);
    assert d[2 + d[1]..] == rest;
  }

  lemma StrictReadsPair(r: seq<Byte>, s: seq<Byte>, a: seq<Byte>, b: seq<Byte>)
    requires |r| + |s| < 128
    requires StrictInt(r + s) == Some((a, s)) && StrictInt(s) == Some((b, []))
    ensures StrictSig(Sequence(r, s)) == Some(a + b)
  {
    assert Sequence(r, s)[2..] == r + s;
  }

  lemma StrictReadsHalves(a: seq<Byte>, b: seq<Byte>)
    requires |a| == 32 && |b| == 32
    ensures StrictSig(Sequence(DerInt(a), DerInt(b))) == Some(a + b)
    ensures |Sequence(DerInt(a), DerInt(b))| <= 72
  {
    var r, s := DerInt(a), DerInt(b);
    DerIntShape(a);
    DerIntShape(b);
    StrictReadsInt(a, s);
    StrictReadsInt(b, []);
    assert s + [] == s;
    StrictReadsPair(r, s, a, b);
  }

  /** Every length derSig writes fits the short form, and a strict DER reader
      accepts the result and gives the raw bytes back. */
  lemma StrictReadsSig(raw: seq<Byte>)
    requires |raw| == 64
    ensures DerSig(raw).Some? && StrictSig(DerSig(raw).value) == Some(raw)
    ensures |DerSig(raw).value| <= 72
  {
    StrictReadsHalves(raw[..32], raw[32..]);
    assert raw == raw[..32] + raw[32..];
  }

  lemma {:induction false} StripOfFixed(c: seq<Byte>, n: nat)
    requires c != [] && |c| <= n && (|c| > 1 ==> c[0] != 0)
    ensures StripZeros(Fixed(c, n)) == c
  {
    if |c| < n {
      assert Fixed(c, n)[1..] == Fixed(c, n - 1);
      StripOfFixed(c, n - 1);
    } else {
      assert Fixed(c, n) == c;
    }
  }

  /** The magnitude of a minimal content, and the content that is written for it. */
  lemma ContentOfMagnitude(c: seq<Byte>, magnitude: seq<Byte>)
    requires MinimalNonNegative(c) && magnitude == (if |c| > 1 && c[0] == 0 then c[1..] else c) && |magnitude| <= 32
    ensures Content(Fixed(magnitude, 32)) == c
  {
    StripOfFixed(magnitude, 32);
    if |c| > 1 && c[0] == 0 {
      assert c == [c[0]] + c[1..];
    }
  }

  lemma SplitInt(d: seq<Byte>, n: nat)
    requires 2 + n <= |d|
    ensures d == ([d[0], d[1]] + d[2..2 + n]) + d[2 + n..]
  {
  }

  lemma StrictIntIsDerInt(d: seq<Byte>)
    requires StrictInt(d).Some?
    ensures d == DerInt(StrictInt(d).value.0) + StrictInt(d).value.1
  {
    var c := d[2..2 + d[1]];
    ContentOfMagnitude(c, if |c| > 1 && c[0] == 0 then c[1..] else c);
    SplitInt(d, d[1]);
  }

  lemma SplitSequence(der: seq<Byte>, r: seq<Byte>, s: seq<Byte>)
    requires |der| >= 2 && der[0] == 0x30 && der[1] < 128 && 2 + der[1] == |der|
    requires der[2..] == r + s
    ensures der == Sequence(r, s)
  {
    assert der == [der[0], der[1]] + der[2..];
  }

  /** DER is canonical: derSig's results are exactly what a strict reader accepts. */
  lemma StrictSigIsDerSig(der: seq<Byte>)
    requires StrictSig(der).Some?
    ensures DerSig(StrictSig(der).value) == Some(der)
  {
    var (a, rest) := StrictInt(der[2..]).value;
    var (b, end) := StrictInt(rest).value;
    StrictIntIsDerInt(der[2..]);
    StrictIntIsDerInt(rest);
    assert rest == DerInt(b) + [] == DerInt(b);
    SplitSequence(der, DerInt(a), DerInt(b));
    assert (a + b)[..32] == a && (a + b)[32..] == b;
  }

  // ── The lax reader on DER ──────────────────────────────────────────────

  lemma {:induction false} TrimContent(b: seq<Byte>)
    requires |b| == 32
    ensures |Trim(Content(b))| <= 32 && Fixed(Trim(Content(b)), 32) == b
  {
    DerIntShape(b);
    StripFixed(b, 32);
    var c := Content(b);
    if |c| == 33 {
      assert c[0] == 0;
      assert Trim(c) == Trim(c[1..]) == c[1..];
    } else {
      assert Trim(c) == c;
      if c != StripZeros(b) {
        StripKeepsValue(b);
        FixedZero(StripZeros(b), 32);
      }
    }
  }

  lemma FixedZero(c: seq<Byte>, n: nat)
    requires |c| < n
    ensures Fixed([0] + c, n) == Fixed(c, n)
  {
  }

  lemma ReadsContent(der: seq<Byte>, i: nat, c: seq<Byte>, k: nat, out: seq<Byte>)
    requires i + 2 + |c| <= |der| && der[i] == 0x02 && der[i + 1] == |c| && der[i + 2..i + 2 + |c|] == c
    ensures ReadInt(der, Some(i), k, out) ==
            match Set(out, Trim(c), k * 32 + (32 - |Trim(c)|))
            case Err(e) => Err(e)
            case Ok(out') => Ok((Some(i + 2 + |c|), out'))
  {
    if c == [] {
      assert Slice(der, i + 2, i + 2 + |c|) == [];
    } else {
      assert Slice(der, i + 2, i + 2 + |c|) == c;
    }
  }

  lemma SetFixed(out: seq<Byte>, v: seq<Byte>, k: nat)
    requires |v| <= 32 && |out| == 64 && k < 2
    requires forall j :: k * 32 <= j < k * 32 + 32 ==> out[j] == 0
    ensures Set(out, v, k * 32 + (32 - |v|)) == Ok(out[..k * 32] + Fixed(v, 32) + out[k * 32 + 32..])
  {
    var at := k * 32 + (32 - |v|);
    assert at + |v| == k * 32 + 32;
    assert out[..at] == out[..k * 32] + seq(32 - |v|, _ => 0);
    assert out[..k * 32] + seq(32 - |v|, _ => 0) + v == out[..k * 32] + Fixed(v, 32);
  }

  lemma InnerSlice(der: seq<Byte>, i: nat, d: seq<Byte>)
    requires |d| >= 2 && i + |d| <= |der| && der[i..i + |d|] == d
    ensures der[i] == d[0] && der[i + 1] == d[1] && der[i + 2..i + |d|] == d[2..]
  {
    assert der[i] == der[i..i + |d|][0];
    assert der[i + 1] == der[i..i + |d|][1];
    assert der[i + 2..i + |d|] == der[i..i + |d|][2..];
  }

  /** d is the INTEGER that carries the 32-byte number b. */
  ghost predicate Carries(d: seq<Byte>, b: seq<Byte>) {
    && |b| == 32 && |d| >= 2
    && d[0] == 0x02 && d[1] == |d| - 2
    && |Trim(d[2..])| <= 32 && Fixed(Trim(d[2..]), 32) == b
  }

  lemma DerIntCarries(b: seq<Byte>)
    requires |b| == 32
    ensures Carries(DerInt(b), b)
  {
    DerIntShape(b);
    TrimContent(b);
    assert DerInt(b)[2..] == Content(b);
  }

  lemma ReadsInt(der: seq<Byte>, i: nat, d: seq<Byte>, b: seq<Byte>, k: nat, out: seq<Byte>)
    requires Carries(d, b) && i + |d| <= |der| && der[i..i + |d|] == d
    requires |out| == 64 && k < 2 && forall j :: k * 32 <= j < k * 32 + 32 ==> out[j] == 0
    ensures ReadInt(der, Some(i), k, out) ==
            Ok((Some(i + |d|), out[..k * 32] + b + out[k * 32 + 32..]))
  {
    InnerSlice(der, i, d);
    ReadsContent(der, i, d[2..], k, out);
    SetFixed(out, Trim(d[2..]), k);
  }

  lemma SequenceParts(r: seq<Byte>, s: seq<Byte>)
    ensures Sequence(r, s)[2..2 + |r|] == r
    ensures Sequence(r, s)[2 + |r|..2 + |r| + |s|] == s
  {
  }

  lemma Halves(a: seq<Byte>, b: seq<Byte>, zeros: seq<Byte>)
    requires |a| == 32 && |b| == 32 && |zeros| == 64
    ensures (zeros[..0] + a + zeros[32..])[..32] + b + (zeros[..0] + a + zeros[32..])[64..] == a + b
    ensures forall j :: 32 <= j < 64 ==> (zeros[..0] + a + zeros[32..])[j] == zeros[j]
  {
  }

  lemma RawSigReadsPair(r: seq<Byte>, s: seq<Byte>, a: seq<Byte>, b: seq<Byte>)
    requires Carries(r, a) && Carries(s, b)
    ensures RawSig(Sequence(r, s)) == Ok(a + b)
  {
    var der, zeros := Sequence(r, s), seq<Byte>(64, _ => 0);
    SequenceParts(r, s);
    ReadsInt(der, 2, r, a, 0, zeros);
    var half := zeros[..0 * 32] + a + zeros[0 * 32 + 32..];
    Halves(a, b, zeros);
    ReadsInt(der, 2 + |r|, s, b, 1, half);
  }

  /** rawSig undoes derSig, for every 64-byte input. */
  lemma RawSigUndoes(raw: seq<Byte>)
    requires |raw| == 64
    ensures DerSig(raw).Some? && RawSig(DerSig(raw).value) == Ok(raw)
  {
    DerIntCarries(raw[..32]);
    DerIntCarries(raw[32..]);
    RawSigReadsPair(DerInt(raw[..32]), DerInt(raw[32..]), raw[..32], raw[32..]);
    assert raw == raw[..32] + raw[32..];
  }

  /** On strict DER the lax reader agrees with the strict one. */
  lemma RawSigIsStrict(der: seq<Byte>)
    requires StrictSig(der).Some?
    ensures RawSig(der) == Ok(StrictSig(der).value)
  {
    StrictSigIsDerSig(der);
    RawSigUndoes(StrictSig(der).value);
  }
}
