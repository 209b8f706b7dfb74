/** UTF-16 code units of a string of Unicode scalar values, and the order of
    property names that section 3.2.3 of RFC 8785 asks for: code unit by code
    unit, which differs from code point order above U+FFFF. */
module Utf16 {

  function Units(c: char): (u: seq<int>)
    ensures |u| == 1 || |u| == 2
    ensures |u| == 1 <==> (c as int) < 0x10000
    ensures |u| == 1 ==> u[0] == c as int && !(0xD800 <= u[0] < 0xE000)
    ensures |u| == 2 ==> 0xD800 <= u[0] < 0xDC00 && 0xDC00 <= u[1] < 0xE000
  {
    if (c as int) < 0x10000 then [c as int]
    else [0xD800 + (c as int - 0x10000) / 0x400, 0xDC00 + (c as int - 0x10000) % 0x400]
  }

  function Encode(s: string): seq<int> {
    if s == "" then [] else Units(s[0]) + Encode(s[1..])
  }

  /** Lexicographic order on code units; a proper prefix comes first. */
  predicate UnitsLe(a: seq<int>, b: seq<int>) {
    a == [] || (b != [] && (a[0] < b[0] || (a[0] == b[0] && UnitsLe(a[1..], b[1..]))))
  }

  predicate KeyLe(a: string, b: string) {
    UnitsLe(Encode(a), Encode(b))
  }

  /** x comes before y, or is y: at the first place where they differ x has the smaller
      unit, or has ended. */
  ghost predicate Precedes(x: seq<int>, y: seq<int>) {
    exists k :: PrecedesAt(x, y, k)
  }

  predicate PrecedesAt(x: seq<int>, y: seq<int>, k: int) {
    0 <= k <= |x| && k <= |y| && x[..k] == y[..k] && (k == |x| || (k < |y| && x[k] < y[k]))
  }

  lemma {:induction false} UnitsLePrecedes(a: seq<int>, b: seq<int>)
    requires UnitsLe(a, b)
    ensures Precedes(a, b)
  {
    if a == [] {
      assert PrecedesAt(a, b, 0);
    } else if a[0] < b[0] {
      assert PrecedesAt(a, b, 0);
    } else {
      UnitsLePrecedes(a[1..], b[1..]);
      var k :| PrecedesAt(a[1..], b[1..], k);
      assert a[..k + 1] == [a[0]] + a[1..][..k] && b[..k + 1] == [b[0]] + b[1..][..k];
      assert PrecedesAt(a, b, k + 1);
    }
  }

  /** A surrogate pair stands for the scalar value it was made of. */
  lemma UnitsDecode(c: char)
    ensures c as int == if |Units(c)| == 1 then Units(c)[0]
                        else 0x10000 + (Units(c)[0] - 0xD800) * 0x400 + (Units(c)[1] - 0xDC00)
  {
    if |Units(c)| == 2 {
      var x := c as int - 0x10000;
      assert x == x / 0x400 * 0x400 + x % 0x400;
    }
  }

  lemma {:induction false} UnitsLeTotal(a: seq<int>, b: seq<int>)
    ensures UnitsLe(a, b) || UnitsLe(b, a)
  {
    if a != [] && b != [] && a[0] == b[0] {
      UnitsLeTotal(a[1..], b[1..]);
    }
  }

  lemma {:induction false} UnitsLeTransitive(a: seq<int>, b: seq<int>, c: seq<int>)
    requires UnitsLe(a, b) && UnitsLe(b, c)
    ensures UnitsLe(a, c)
  {
    if a != [] && a[0] == b[0] == c[0] {
      UnitsLeTransitive(a[1..], b[1..], c[1..]);
    }
  }

  lemma {:induction false} UnitsLeAntisymmetric(a: seq<int>, b: seq<int>)
    requires UnitsLe(a, b) && UnitsLe(b, a)
    ensures a == b
  {
    if a != [] {
      UnitsLeAntisymmetric(a[1..], b[1..]);
      assert a == [a[0]] + a[1..] && b == [b[0]] + b[1..];
    }
  }

  lemma UnitsInjective(c: char, d: char)
    requires Units(c) == Units(d)
    ensures c == d
  {
    if |Units(c)| == 2 {
      var x, y := c as int - 0x10000, d as int - 0x10000;
      assert x == x / 0x400 * 0x400 + x % 0x400;
      assert y == y / 0x400 * 0x400 + y % 0x400;
    }
  }

  /** Different strings have different code units: the encoding is a prefix code. */
  lemma {:induction false} EncodeInjective(a: string, b: string)
    requires Encode(a) == Encode(b)
    ensures a == b
  {
    if a == "" || b == "" {
    } else {
      var ua, ub := Units(a[0]), Units(b[0]);
      var ea, eb := Encode(a[1..]), Encode(b[1..]);
      assert (ua + ea)[0] == ua[0] && (ub + eb)[0] == ub[0];
      assert |ua| == |ub|;
      assert ua == (ua + ea)[..|ua|] && ub == (ub + eb)[..|ub|];
      assert ea == (ua + ea)[|ua|..] && eb == (ub + eb)[|ub|..];
      UnitsInjective(a[0], b[0]);
      EncodeInjective(a[1..], b[1..]);
      assert a == [a[0]] + a[1..] && b == [b[0]] + b[1..];
    }
  }

  lemma KeyLeAntisymmetric(a: string, b: string)
    requires KeyLe(a, b) && KeyLe(b, a)
    ensures a == b
  {
    UnitsLeAntisymmetric(Encode(a), Encode(b));
    EncodeInjective(a, b);
  }
}
