/** The base32 loop of static/phone-crypto.js: a 32-bit accumulator that is
    shifted and never masked. It is proved against the bit groups of section 6
    of RFC 4648, without padding, and undone by a decoder. */
module Base32 {
  import opened Prelude
  import opened Bytes

  const ALPHABET: string := "abcdefghijklmnopqrstuvwxyz234567"

  // ── Section 6 of RFC 4648 ──────────────────────────────────────────────

  /** The letter of a group of five bits. */
  function Letter(g: seq<bool>): char
    requires |g| == 5
  {
    FiveBits(g);
    ALPHABET[Value(g)]
  }

  lemma FiveBits(g: seq<bool>)
    requires |g| == 5
    ensures Value(g) < 32
  {
    Pow2Is();
  }

  type Groups = bits: seq<bool> | |bits| % 5 == 0

  /** Five bits a letter. */
  function Letters(bits: Groups): (s: string)
    ensures |s| == |bits| / 5
    decreases |bits|
  {
    if bits == [] then "" else [Letter(bits[..5])] + Letters(bits[5..])
  }

  /** How many zeros fill the last group of n bits. */
  function Padding(n: nat): nat {
    (5 - n % 5) % 5
  }

  function Pad(bits: seq<bool>): Groups {
    bits + Zeros(Padding(|bits|))
  }

  function Rfc4648(bytes: seq<Byte>): string {
    Letters(Pad(Bits(bytes)))
  }

  lemma {:induction false} LettersSnoc(taken: Groups, five: seq<bool>)
    requires |five| == 5
    ensures Letters(taken + five) == Letters(taken) + [Letter(five)]
    decreases |taken|
  {
    if taken == [] {
      assert taken + five == five && five[..5] == five && five[5..] == [];
    } else {
      assert (taken + five)[..5] == taken[..5];
      assert (taken + five)[5..] == taken[5..] + five;
      LettersSnoc(taken[5..], five);
    }
  }

  lemma ValueOfFive(w: nat)
    ensures Value(LowBits(w, 5)) == w % 32
  {
    Pow2Is();
    LowBitsAgree(w % 32, w / 32, 5);
    ValueOfLowBits(w % 32, 5);
  }

  // ── The loop ───────────────────────────────────────────────────────────

  /** `all` has been turned into letters up to the lowest `bits` bits of `value`. */
  ghost predicate Pending(all: seq<bool>, taken: seq<bool>, value: nat, bits: nat, out: string) {
    && |taken| % 5 == 0
    && all == taken + LowBits(value, bits)
    && out == Letters(taken)
  }

  lemma BitsOfPrefix(bytes: seq<Byte>, i: nat)
    requires i < |bytes|
    ensures Bits(bytes[..i + 1]) == Bits(bytes[..i]) + LowBits(bytes[i], 8)
  {
    BitsAppend(bytes[..i], [bytes[i]]);
    assert bytes[..i + 1] == bytes[..i] + [bytes[i]];
    assert Bits([bytes[i]]) == LowBits(bytes[i], 8) + Bits([]);
  }

  lemma ByteIn(all: seq<bool>, taken: seq<bool>, value: nat, bits: nat, out: string, byte: seq<bool>, next: nat)
    requires Pending(all, taken, value, bits, out) && |byte| == 8
    requires LowBits(next, bits + 8) == LowBits(value, bits) + byte
    ensures Pending(all + byte, taken, next, bits + 8, out)
  {
    assert taken + LowBits(value, bits) + byte == taken + (LowBits(value, bits) + byte);
  }

  lemma NextByte(bytes: seq<Byte>, i: nat, taken: seq<bool>, value: Word, bits: nat, out: string)
    requires i < |bytes| && bits < 5 && Pending(Bits(bytes[..i]), taken, value, bits, out)
    ensures Shl(value, 8) + bytes[i] < 0x1_0000_0000
    ensures Pending(Bits(bytes[..i + 1]), taken, Shl(value, 8) + bytes[i], bits + 8, out)
  {
    BitsOfPrefix(bytes, i);
    ShiftByteIn(value, bytes[i], bits);
    ByteIn(Bits(bytes[..i]), taken, value, bits, out, LowBits(bytes[i], 8), Shl(value, 8) + bytes[i]);
  }

  /** Five bits that are taken make one more letter. */
  lemma PendingSplit(all: seq<bool>, taken: seq<bool>, five: seq<bool>, rest: seq<bool>, out: string, letter: char)
    requires |taken| % 5 == 0 && |five| == 5 && all == taken + (five + rest)
    requires out == Letters(taken) && letter == Letter(five)
    ensures |taken + five| % 5 == 0 && all == (taken + five) + rest && out + [letter] == Letters(taken + five)
  {
    LettersSnoc(taken, five);
  }

  lemma FiveOut(all: seq<bool>, taken: seq<bool>, value: nat, bits: nat, out: string)
    requires bits >= 5 && Pending(all, taken, value, bits, out)
    ensures Pending(all, taken + LowBits(UShr(value, bits - 5), 5), value, bits - 5,
                    out + [ALPHABET[UShr(value, bits - 5) % 32]])
  {
    var five, rest := LowBits(UShr(value, bits - 5), 5), LowBits(value, bits - 5);
    LowBitsSplit(value, bits, bits - 5);
    LetterOf(UShr(value, bits - 5), five);
    PendingSplit(all, taken, five, rest, out, ALPHABET[UShr(value, bits - 5) % 32]);
  }

  lemma LetterOf(w: nat, g: seq<bool>)
    requires g == LowBits(w, 5)
    ensures Letter(g) == ALPHABET[w % 32]
  {
    ValueOfFive(w);
  }

  lemma ShiftedOut(value: Word, bits: nat)
    requires 0 < bits < 5
    ensures LowBits(Shl(value, 5 - bits), 5) == LowBits(value, bits) + Zeros(5 - bits)
  {
    ShlBits(value, bits, 5 - bits);
  }

  lemma PadPending(taken: Groups, rest: seq<bool>)
    requires |rest| < 5
    ensures Pad(taken + rest) == if rest == [] then taken else taken + (rest + Zeros(5 - |rest|))
  {
    assert |taken + rest| % 5 == |rest|;
    if rest == [] {
      assert taken + rest + Zeros(0) == taken;
    }
  }

  /** The last letter, of a word w that holds the pending bits and zeros after them. */
  lemma LastOut(all: seq<bool>, taken: seq<bool>, value: Word, bits: nat, out: string, w: nat)
    requires bits < 5 && Pending(all, taken, value, bits, out)
    requires bits > 0 ==> LowBits(w, 5) == LowBits(value, bits) + Zeros(5 - bits)
    ensures Letters(Pad(all)) == if bits == 0 then out else out + [ALPHABET[w % 32]]
  {
    PadPending(taken, LowBits(value, bits));
    if bits > 0 {
      LettersSnoc(taken, LowBits(w, 5));
      LetterOf(w, LowBits(w, 5));
    }
  }

  method Base32(bytes: seq<Byte>) returns (out: string)
    ensures out == Rfc4648(bytes)
  {
    out := "";
    var bits: nat, value: Word := 0, 0;
    ghost var taken: seq<bool> := [];
    for i := 0 to |bytes|
      invariant bits < 5
      invariant Pending(Bits(bytes[..i]), taken, value, bits, out)
    {
      NextByte(bytes, i, taken, value, bits, out);
      value, bits := Shl(value, 8) + bytes[i], bits + 8;
      ghost var all := Bits(bytes[..i + 1]);
      while bits >= 5
        invariant Pending(all, taken, value, bits, out)
      {
        FiveOut(all, taken, value, bits, out);
        out := out + [ALPHABET[UShr(value, bits - 5) % 32]];
        taken := taken + LowBits(UShr(value, bits - 5), 5);
        bits := bits - 5;
      }
    }
    assert bytes[..|bytes|] == bytes;
    if bits > 0 {
      ShiftedOut(value, bits);
    }
    LastOut(Bits(bytes), taken, value, bits, out, if bits > 0 then Shl(value, 5 - bits) else 0);
    if bits > 0 {
      out := out + [ALPHABET[Shl(value, 5 - bits) % 32]];
    }
  }

  // ── Undone by a decoder ────────────────────────────────────────────────

  function LetterIndex(c: char): Option<nat> {
    if 'a' <= c <= 'z' then Some(c as int - 'a' as int)
    else if '2' <= c <= '7' then Some(c as int - '2' as int + 26)
    else None
  }

  /** Five bits a letter. */
  function LetterBits(s: string): Option<seq<bool>> {
    if s == "" then Some([])
    else
      match (LetterIndex(s[0]), LetterBits(s[1..]))
      case (Some(n), Some(rest)) => Some(LowBits(n, 5) + rest)
      case _ => None
  }

  lemma EightBits(bits: seq<bool>)
    requires |bits| == 8
    ensures Value(bits) < 256
  {
    Pow2Is();
  }

  /** The whole bytes at the front of a bit string. */
  function WholeBytes(bits: seq<bool>): seq<Byte>
    decreases |bits|
  {
    if |bits| < 8 then []
    else
      EightBits(bits[..8]);
      [Value(bits[..8])] + WholeBytes(bits[8..])
  }

  function Decode(s: string): Option<seq<Byte>> {
    match LetterBits(s)
    case None => None
    case Some(bits) => Some(WholeBytes(bits))
  }

  lemma FirstLetters(v: nat)
    requires v < 13
    ensures LetterIndex(ALPHABET[v]) == Some(v)
  {
  }

  lemma MiddleLetters(v: nat)
    requires 13 <= v < 26
    ensures LetterIndex(ALPHABET[v]) == Some(v)
  {
  }

  lemma LastLetters(v: nat)
    requires 26 <= v < 32
    ensures LetterIndex(ALPHABET[v]) == Some(v)
  {
  }

  /** A letter stands at its own index. */
  lemma IndexOfLetter(v: nat)
    requires v < 32
    ensures LetterIndex(ALPHABET[v]) == Some(v)
  {
    if v < 13 {
      FirstLetters(v);
    } else if v < 26 {
      MiddleLetters(v);
    } else {
      LastLetters(v);
    }
  }

  lemma LetterBitsOfLetter(g: seq<bool>)
    requires |g| == 5
    ensures LetterIndex(Letter(g)).Some? && LowBits(LetterIndex(Letter(g)).value, 5) == g
  {
    FiveBits(g);
    IndexOfLetter(Value(g));
    LowBitsOfValue(g);
  }

  lemma LetterBitsCons(g: seq<bool>, s: string, rest: seq<bool>)
    requires |g| == 5 && LetterBits(s) == Some(rest)
    ensures LetterBits([Letter(g)] + s) == Some(g + rest)
  {
    LetterBitsOfLetter(g);
    assert ([Letter(g)] + s)[1..] == s;
  }

  lemma {:induction false} LetterBitsOfLetters(bits: Groups)
    ensures LetterBits(Letters(bits)) == Some(bits)
    decreases |bits|
  {
    if bits != [] {
      LetterBitsOfLetters(bits[5..]);
      LetterBitsCons(bits[..5], Letters(bits[5..]), bits[5..]);
      assert bits == bits[..5] + bits[5..];
    }
  }

  lemma {:induction false} WholeBytesOfBits(bytes: seq<Byte>, tail: seq<bool>)
    requires |tail| < 8
    ensures WholeBytes(Bits(bytes) + tail) == bytes
  {
    if bytes == [] {
      assert Bits(bytes) + tail == tail;
    } else {
      var all := Bits(bytes) + tail;
      assert all[..8] == LowBits(bytes[0], 8);
      assert all[8..] == Bits(bytes[1..]) + tail;
      Pow2Is();
      ValueOfLowBits(bytes[0], 8);
      WholeBytesOfBits(bytes[1..], tail);
      assert bytes == [bytes[0]] + bytes[1..];
    }
  }

  /** Decoding undoes encoding, for every byte string. */
  lemma DecodeUndoes(bytes: seq<Byte>)
    ensures Decode(Rfc4648(bytes)) == Some(bytes)
  {
    LetterBitsOfLetters(Pad(Bits(bytes)));
    WholeBytesOfBits(bytes, Zeros(Padding(|Bits(bytes)|)));
  }

  /** n bytes take ceil(8n / 5) letters. */
  lemma Length(bytes: seq<Byte>)
    ensures |Rfc4648(bytes)| == (8 * |bytes| + 4) / 5
  {
    var n := |Bits(bytes)|;
    assert |Pad(Bits(bytes))| == n + Padding(n);
    assert (n + Padding(n)) / 5 == (n + 4) / 5;
  }

  /** The first k letters depend on the first 5k bits only, and fix them: for
      two long enough bit strings they agree exactly when those bits do. */
  lemma {:induction false} PrefixOfLetters(x: Groups, y: Groups, k: nat)
    requires 5 * k <= |x| && 5 * k <= |y|
    ensures Letters(x)[..k] == Letters(y)[..k] <==> x[..5 * k] == y[..5 * k]
    decreases k
  {
    if k > 0 {
      PrefixOfLetters(x[5..], y[5..], k - 1);
      LetterInjective(x[..5], y[..5]);
      PrefixStep(x, k);
      PrefixStep(y, k);
      SameParts([Letter(x[..5])], Letters(x[5..])[..k - 1], [Letter(y[..5])], Letters(y[5..])[..k - 1]);
      SameParts(x[..5], x[5..][..5 * k - 5], y[..5], y[5..][..5 * k - 5]);
    }
  }

  lemma FirstGroup(x: Groups)
    requires x != []
    ensures 5 <= |x| && |x[5..]| % 5 == 0 && Letters(x) == [Letter(x[..5])] + Letters(x[5..])
  {
  }

  lemma LettersEnough(x: Groups, k: nat)
    requires 0 < k && 5 * k <= |x|
    ensures x != [] && 5 <= |x| && |x[5..]| % 5 == 0 && k - 1 <= |Letters(x[5..])|
  {
    FirstGroup(x);
  }

  lemma PrefixStep(x: Groups, k: nat)
    requires 0 < k && 5 * k <= |x|
    ensures |x[5..]| % 5 == 0 && k - 1 <= |Letters(x[5..])| && k <= |Letters(x)|
    ensures Letters(x)[..k] == [Letter(x[..5])] + Letters(x[5..])[..k - 1]
    ensures x[..5 * k] == x[..5] + x[5..][..5 * k - 5]
  {
    LettersEnough(x, k);
    FirstGroup(x);
    TakeOver([Letter(x[..5])], Letters(x[5..]), k);
    PrefixOfBits(x, 5 * k);
  }

  lemma PrefixOfBits(x: seq<bool>, n: nat)
    requires 5 <= n <= |x|
    ensures x[..n] == x[..5] + x[5..][..n - 5]
  {
  }

  lemma TakeOver<T>(a: seq<T>, b: seq<T>, n: nat)
    requires |a| <= n <= |a| + |b|
    ensures (a + b)[..n] == a + b[..n - |a|]
  {
  }

  lemma SameParts<T>(a: seq<T>, b: seq<T>, c: seq<T>, d: seq<T>)
    requires |a| == |c|
    ensures a + b == c + d <==> a == c && b == d
  {
    if a + b == c + d {
      assert a == (a + b)[..|a|] && b == (a + b)[|a|..];
      assert c == (c + d)[..|c|] && d == (c + d)[|c|..];
    }
  }

  lemma LetterInjective(g: seq<bool>, h: seq<bool>)
    requires |g| == 5 && |h| == 5
    ensures Letter(g) == Letter(h) <==> g == h
  {
    LetterBitsOfLetter(g);
    LetterBitsOfLetter(h);
  }
}
