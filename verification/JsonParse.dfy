/** A JSON parser that undoes the printer, and what follows from it: jcs prints
    two values the same exactly when they are the same value. */
module JsonParse {
  import opened Prelude
  import opened Sorting
  import opened Utf16
  import opened Json
  import opened JsonPrint

  // ── The parser ─────────────────────────────────────────────────────────

  function HexValue(c: char): Option<int> {
    if '0' <= c <= '9' then Some(c as int - '0' as int)
    else if 'a' <= c <= 'f' then Some(c as int - 'a' as int + 10)
    else None
  }

  /** One character of a string body, after any escape, and what follows it. */
  function ParseChar(s: string): (r: Option<(char, string)>)
    ensures r.Some? ==> |r.value.1| < |s|
  {
    if s == "" || s[0] == '\"' || (s[0] as int) < 32 then None
    else if s[0] != '\\' then Some((s[0], s[1..]))
    else if |s| < 2 then None
    else if s[1] == '\"' || s[1] == '\\' then Some((s[1], s[2..]))
    else if s[1] == 'b' then Some((8 as char, s[2..]))
    else if s[1] == 't' then Some((9 as char, s[2..]))
    else if s[1] == 'n' then Some((10 as char, s[2..]))
    else if s[1] == 'f' then Some((12 as char, s[2..]))
    else if s[1] == 'r' then Some((13 as char, s[2..]))
    else if s[1] == 'u' && |s| >= 6 && s[2] == '0' && s[3] == '0' then
      match (HexValue(s[4]), HexValue(s[5]))
      case (Some(h), Some(l)) => Some(((16 * h + l) as char, s[6..]))
      case _ => None
    else None
  }

  /** The rest of a string literal, after its opening quote. */
  function ParseStr(s: string): (r: Option<(string, string)>)
    ensures r.Some? ==> |r.value.1| < |s|
    decreases |s|
  {
    if s != "" && s[0] == '\"' then Some(("", s[1..]))
    else
      match ParseChar(s)
      case None => None
      case Some((c, rest)) =>
        match ParseStr(rest)
        case None => None
        case Some((body, end)) => Some(([c] + body, end))
  }

  predicate IsDigit(c: char) {
    '0' <= c <= '9'
  }

  /** How many digits s starts with. */
  function DigitRun(s: string): (k: nat)
    ensures k <= |s|
  {
    if s == "" || !IsDigit(s[0]) then 0 else 1 + DigitRun(s[1..])
  }

  function DigitValue(c: char): nat
    requires IsDigit(c)
  {
    c as int - '0' as int
  }

  function DigitsValue(d: string): nat
    requires forall i :: 0 <= i < |d| ==> IsDigit(d[i])
  {
    if d == "" then 0
    else DigitsValue(d[..|d| - 1]) * 10 + DigitValue(d[|d| - 1])
  }

  lemma {:induction false} DigitRunDigits(s: string)
    ensures forall i :: 0 <= i < DigitRun(s) ==> IsDigit(s[i])
  {
    if s != "" && IsDigit(s[0]) {
      DigitRunDigits(s[1..]);
    }
  }

  /** A run of digits that a JavaScript number holds exactly. */
  function ParseNat(s: string): (r: Option<(int, string)>)
    ensures r.Some? ==> |r.value.1| < |s| && 0 <= r.value.0 <= MAX_SAFE
  {
    var k := DigitRun(s);
    DigitRunDigits(s);
    if k == 0 || DigitsValue(s[..k]) > MAX_SAFE then None
    else Some((DigitsValue(s[..k]), s[k..]))
  }

  function ParseInt(s: string): (r: Option<(SafeInt, string)>)
    ensures r.Some? ==> |r.value.1| < |s|
  {
    if s != "" && s[0] == '-' then
      match ParseNat(s[1..])
      case None => None
      case Some((n, rest)) => Some((-n, rest))
    else
      match ParseNat(s)
      case None => None
      case Some((n, rest)) => Some((n, rest))
  }

  function ParseWord(s: string, word: string, v: Json): (r: Option<(Json, string)>)
    requires word != ""
    ensures r.Some? ==> |r.value.1| < |s|
  {
    if word <= s then Some((v, s[|word|..])) else None
  }

  function Parse(s: string): (r: Option<(Json, string)>)
    ensures r.Some? ==> |r.value.1| < |s|
    decreases |s|, 1
  {
    if s == "" then None
    else if s[0] == 'n' then ParseWord(s, "null", Null)
    else if s[0] == 't' then ParseWord(s, "true", Bool(true))
    else if s[0] == 'f' then ParseWord(s, "false", Bool(false))
    else if s[0] == '\"' then
      (match ParseStr(s[1..])
       case None => None
       case Some((body, rest)) => Some((Str(body), rest)))
    else if s[0] == '[' then ParseArr(s[1..])
    else if s[0] == '{' then ParseObj(s[1..])
    else
      match ParseInt(s)
      case None => None
      case Some((n, rest)) => Some((Int(n), rest))
  }

  /** The rest of an array, after its opening bracket. */
  function ParseArr(s: string): (r: Option<(Json, string)>)
    ensures r.Some? ==> |r.value.1| < |s|
    decreases |s|, 3
  {
    if s != "" && s[0] == ']' then Some((Arr([]), s[1..]))
    else
      match ParseItems(s)
      case None => None
      case Some((items, rest)) => Some((Arr(items), rest))
  }

  /** The rest of an object, after its opening brace. */
  function ParseObj(s: string): (r: Option<(Json, string)>)
    ensures r.Some? ==> |r.value.1| < |s|
    decreases |s|, 4
  {
    if s != "" && s[0] == '}' then Some((Obj([]), s[1..]))
    else
      match ParseMembers(s)
      case None => None
      case Some((ms, rest)) => Some((Obj(ms), rest))
  }

  /** One or more values separated by commas, and the closing bracket. */
  function ParseItems(s: string): (r: Option<(seq<Json>, string)>)
    ensures r.Some? ==> |r.value.1| < |s|
    decreases |s|, 2
  {
    match Parse(s)
    case None => None
    case Some((v, rest)) =>
      if rest == "" then None
      else if rest[0] == ']' then Some(([v], rest[1..]))
      else if rest[0] == ',' then
        match ParseItems(rest[1..])
        case None => None
        case Some((vs, end)) => Some(([v] + vs, end))
      else None
  }

  function ParseMember(s: string): (r: Option<(Member, string)>)
    ensures r.Some? ==> |r.value.1| < |s|
    decreases |s|, 2
  {
    if s == "" || s[0] != '\"' then None
    else
      match ParseStr(s[1..])
      case None => None
      case Some((key, rest)) =>
        if rest == "" || rest[0] != ':' then None
        else
          match Parse(rest[1..])
          case None => None
          case Some((v, end)) => Some((Member(key, v), end))
  }

  function ParseMembers(s: string): (r: Option<(seq<Member>, string)>)
    ensures r.Some? ==> |r.value.1| < |s|
    decreases |s|, 3
  {
    match ParseMember(s)
    case None => None
    case Some((m, rest)) =>
      if rest == "" then None
      else if rest[0] == '}' then Some(([m], rest[1..]))
      else if rest[0] == ',' then
        match ParseMembers(rest[1..])
        case None => None
        case Some((ms, end)) => Some(([m] + ms, end))
      else None
  }

  // ── It undoes the printer ──────────────────────────────────────────────

  lemma ParseEscapedChar(c: char, t: string)
    ensures ParseChar(EscapeChar(c) + t) == Some((c, t))
    ensures EscapeChar(c) != "" && EscapeChar(c)[0] != '\"'
  {
    var e := EscapeChar(c);
    var s := e + t;
    assert s[|e|..] == t;
    if |e| == 6 {
      assert s[4] == HexDigit(c as int / 16) && s[5] == HexDigit(c as int % 16);
      HexValueOfDigit(c as int / 16);
      HexValueOfDigit(c as int % 16);
    }
  }

  lemma HexValueOfDigit(n: int)
    requires 0 <= n < 16
    ensures HexValue(HexDigit(n)) == Some(n)
  {
  }

  lemma {:induction false} ParseEscaped(body: string, t: string)
    ensures ParseStr(Escape(body) + "\"" + t) == Some((body, t))
  {
    var s := Escape(body) + "\"" + t;
    if body == "" {
      assert s[1..] == t;
    } else {
      var rest := Escape(body[1..]) + "\"" + t;
      assert s == EscapeChar(body[0]) + rest;
      ParseEscapedChar(body[0], rest);
      ParseEscaped(body[1..], t);
      assert s[0] == EscapeChar(body[0])[0];
      assert body == [body[0]] + body[1..];
    }
  }

  lemma ParseQuoted(body: string, t: string)
    ensures Quote(body) + t != "" && (Quote(body) + t)[0] == '\"'
    ensures ParseStr((Quote(body) + t)[1..]) == Some((body, t))
  {
    ParseEscaped(body, t);
    assert (Quote(body) + t)[1..] == Escape(body) + "\"" + t;
  }

  lemma {:induction false} DigitsOfDecimal(n: nat)
    ensures DigitsValue(Decimal(n)) == n
  {
    if n >= 10 {
      DigitsOfDecimal(n / 10);
      var d := Decimal(n);
      assert d[..|d| - 1] == Decimal(n / 10);
    }
  }

  lemma {:induction false} DigitRunSplits(d: string, t: string)
    requires forall i :: 0 <= i < |d| ==> IsDigit(d[i])
    requires t == "" || !IsDigit(t[0])
    ensures DigitRun(d + t) == |d|
  {
    if d == "" {
      assert d + t == t;
    } else {
      DigitRunSplits(d[1..], t);
      assert (d + t)[1..] == d[1..] + t;
    }
  }

  lemma ParseDecimal(n: nat, t: string)
    requires n <= MAX_SAFE
    requires t == "" || !IsDigit(t[0])
    ensures ParseNat(Decimal(n) + t) == Some((n, t))
  {
    var d := Decimal(n);
    DigitRunSplits(d, t);
    DigitsOfDecimal(n);
    assert (d + t)[..|d|] == d && (d + t)[|d|..] == t;
  }

  lemma ParseSigned(s: string, n: SafeInt, t: string)
    requires n >= 0 ==> s != "" && s[0] != '-' && ParseNat(s) == Some((n, t))
    requires n < 0 ==> s != "" && s[0] == '-' && ParseNat(s[1..]) == Some((-n, t))
    ensures ParseInt(s) == Some((n, t))
  {
  }

  lemma ParsePrintedInt(n: SafeInt, t: string)
    requires t == "" || !IsDigit(t[0])
    ensures ParseInt(PrintInt(n) + t) == Some((n, t))
  {
    var text, d := PrintInt(n), Decimal(if n < 0 then -n else n);
    ParseDecimal(if n < 0 then -n else n, t);
    assert (text + t)[0] == text[0];
    if n < 0 {
      assert text + t == "-" + (d + t);
      ParseSigned("-" + (d + t), n, t);
    } else {
      ParseSigned(d + t, n, t);
    }
  }

  /** What may follow a printed value: the end, or a delimiter. */
  predicate Follows(t: string) {
    t == "" || t[0] in ",]}"
  }

  /** The first character of a printed value tells its kind. */
  predicate Starts(v: Json, c: char) {
    match v
    case Null => c == 'n'
    case Bool(b) => c == if b then 't' else 'f'
    case Int(n) => c == '-' || IsDigit(c)
    case Str(_) => c == '\"'
    case Arr(_) => c == '['
    case Obj(_) => c == '{'
    case _ => false
  }

  lemma PrintStarts(v: Json)
    requires Plain(v)
    ensures Print(v) != "" && Starts(v, Print(v)[0])
  {
  }

  /** Parsing a printed value gives the value back and stops right after it. */
  lemma {:induction false} ParsePrint(v: Json, t: string)
    requires Plain(v) && Follows(t)
    ensures Parse(Print(v) + t) == Some((v, t))
    decreases v, 1
  {
    match v
    case Null => ParsePrintWord("null", t, v);
    case Bool(b) => ParsePrintWord(if b then "true" else "false", t, v);
    case Int(n) =>
      PrintStarts(v);
      ParsePrintedInt(n, t);
    case Str(body) => ParseQuoted(body, t);
    case Arr(items) => ParsePrintArr(items, t);
    case Obj(ms) => ParsePrintObj(ms, t);
  }

  lemma ParsePrintWord(word: string, t: string, v: Json)
    requires word != ""
    ensures ParseWord(word + t, word, v) == Some((v, t))
  {
    assert (word + t)[|word|..] == t;
  }

  lemma ParseBracketed(body: string, items: seq<Json>, t: string)
    requires if items == [] then body == "]" + t
             else body != "" && body[0] != ']' && ParseItems(body) == Some((items, t))
    ensures Parse("[" + body) == Some((Arr(items), t))
  {
    assert ("[" + body)[1..] == body;
    if items == [] {
      assert body[0] == ']' && body[1..] == t;
    }
  }

  lemma ParseBraced(body: string, ms: seq<Member>, t: string)
    requires if ms == [] then body == "}" + t
             else body != "" && body[0] != '}' && ParseMembers(body) == Some((ms, t))
    ensures Parse("{" + body) == Some((Obj(ms), t))
  {
    assert ("{" + body)[1..] == body;
    if ms == [] {
      assert body[0] == '}' && body[1..] == t;
    }
  }

  lemma Regroup(a: string, b: string, c: string, d: string)
    ensures a + b + c + d == a + (b + c + d)
    ensures a + b + c + d == a + (b + (c + d))
  {
  }

  lemma {:induction false} ParsePrintArr(items: seq<Json>, t: string)
    requires Plain(Arr(items)) && Follows(t)
    ensures Parse(Print(Arr(items)) + t) == Some((Arr(items), t))
    decreases items, 1
  {
    var body := PrintItems(items) + "]" + t;
    if items == [] {
      assert PrintItems(items) == "";
      assert body == "]" + t;
    } else {
      ParsePrintItems(items, t);
    }
    ParseBracketed(body, items, t);
    Regroup("[", PrintItems(items), "]", t);
  }

  lemma {:induction false} ParsePrintObj(ms: seq<Member>, t: string)
    requires Plain(Obj(ms)) && Follows(t)
    ensures Parse(Print(Obj(ms)) + t) == Some((Obj(ms), t))
    decreases ms, 1
  {
    var body := PrintMembers(ms) + "}" + t;
    if ms == [] {
      assert PrintMembers(ms) == "";
      assert body == "}" + t;
    } else {
      ParsePrintMembers(ms, t);
    }
    ParseBraced(body, ms, t);
    Regroup("{", PrintMembers(ms), "}", t);
  }

  lemma ParseItemsStep(first: string, v: Json, more: string, vs: seq<Json>, t: string)
    requires Parse(first + ("," + more)) == Some((v, "," + more))
    requires ParseItems(more) == Some((vs, t))
    ensures ParseItems(first + "," + more) == Some(([v] + vs, t))
  {
    assert first + ("," + more) == first + "," + more;
    assert ("," + more)[1..] == more;
  }

  lemma ParseMembersStep(first: string, m: Member, more: string, ms: seq<Member>, t: string)
    requires ParseMember(first + ("," + more)) == Some((m, "," + more))
    requires ParseMembers(more) == Some((ms, t))
    ensures ParseMembers(first + "," + more) == Some(([m] + ms, t))
  {
    assert first + ("," + more) == first + "," + more;
    assert ("," + more)[1..] == more;
  }

  lemma ParseLastItem(first: string, v: Json, t: string)
    requires Parse(first + ("]" + t)) == Some((v, "]" + t))
    ensures ParseItems(first + "]" + t) == Some(([v], t))
  {
    assert first + ("]" + t) == first + "]" + t;
    assert ("]" + t)[1..] == t;
  }

  lemma {:induction false} ParsePrintItems(items: seq<Json>, t: string)
    requires items != [] && forall i :: 0 <= i < |items| ==> Plain(items[i])
    ensures PrintItems(items) + "]" + t != "" && (PrintItems(items) + "]" + t)[0] != ']'
    ensures ParseItems(PrintItems(items) + "]" + t) == Some((items, t))
    decreases items, 0
  {
    var first := Print(items[0]);
    PrintStarts(items[0]);
    assert PrintItems(items)[0] == first[0];
    if |items| == 1 {
      ParsePrint(items[0], "]" + t);
      ParseLastItem(first, items[0], t);
      assert items == [items[0]];
    } else {
      var tail := PrintItems(items[1..]);
      var more := tail + "]" + t;
      ParsePrint(items[0], "," + more);
      ParsePrintItems(items[1..], t);
      ParseItemsStep(first, items[0], more, items[1..], t);
      RegroupList(first, tail, "]", t);
      assert items == [items[0]] + items[1..];
    }
  }

  lemma ParseNamed(key: string, text: string, v: Json, t: string)
    requires Parse(text) == Some((v, t))
    ensures ParseMember(Quote(key) + (":" + text)) == Some((Member(key, v), t))
  {
    ParseQuoted(key, ":" + text);
    assert (":" + text)[1..] == text;
  }

  lemma {:induction false} ParsePrintMember(m: Member, t: string)
    requires Plain(m.value) && Follows(t)
    ensures ParseMember(PrintMember(m) + t) == Some((m, t))
    decreases m, 0
  {
    ParsePrint(m.value, t);
    ParseNamed(m.key, Print(m.value) + t, m.value, t);
    Regroup(Quote(m.key), ":", Print(m.value), t);
  }

  lemma {:induction false} ParsePrintMembers(ms: seq<Member>, t: string)
    requires ms != [] && forall i :: 0 <= i < |ms| ==> Plain(ms[i].value)
    ensures PrintMembers(ms) + "}" + t != "" && (PrintMembers(ms) + "}" + t)[0] == '\"'
    ensures ParseMembers(PrintMembers(ms) + "}" + t) == Some((ms, t))
    decreases ms, 0
  {
    var first := PrintMember(ms[0]);
    if |ms| == 1 {
      ParsePrintMember(ms[0], "}" + t);
      ParseLastMember(first, ms[0], t);
      assert ms == [ms[0]];
    } else {
      var tail := PrintMembers(ms[1..]);
      var more := tail + "}" + t;
      ParsePrintMember(ms[0], "," + more);
      ParsePrintMembers(ms[1..], t);
      ParseMembersStep(first, ms[0], more, ms[1..], t);
      RegroupList(first, tail, "}", t);
      assert ms == [ms[0]] + ms[1..];
    }
  }

  lemma RegroupList(first: string, tail: string, close: string, t: string)
    ensures first + "," + (tail + close + t) == first + "," + tail + close + t
  {
  }

  lemma ParseLastMember(first: string, m: Member, t: string)
    requires ParseMember(first + ("}" + t)) == Some((m, "}" + t))
    ensures ParseMembers(first + "}" + t) == Some(([m], t))
  {
    assert first + ("}" + t) == first + "}" + t;
    assert ("}" + t)[1..] == t;
  }

  /** The canonical form parses back to the normal form of the value. */
  lemma JcsParses(v: Json)
    requires Printable(v)
    ensures Jcs(v).Some? && Parse(Jcs(v).value) == Some((Norm(v), ""))
  {
    JcsPrintsNorm(v);
    ParsePrint(Norm(v), "");
    assert Print(Norm(v)) + "" == Print(Norm(v));
  }
}
