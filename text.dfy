/**
  The pieces of Rust's `str` API that the parsers use, restated over `seq<char>`:
  trimming, `lines()`, `join`, counting, ASCII lower-casing, the integer and float
  literal grammars of `str::parse`, decimal formatting of `usize`, and the UTF-8
  length that `str::len` returns.
*/
module Text {
  import opened Wrappers

  type Byte = b: int | 0 <= b < 256

  // ---------------------------------------------------------------- characters

  /** `char::is_whitespace`, restricted to ASCII: U+0009..U+000D and the space. */
  predicate IsWhitespace(c: char) {
    c == ' ' || ('\t' <= c <= '\r')
  }

  /** `char::is_ascii_digit`. */
  predicate IsAsciiDigit(c: char) {
    '0' <= c <= '9'
  }

  /** The `[A-Z]` class of a regular expression. */
  predicate IsAsciiUpper(c: char) {
    'A' <= c <= 'Z'
  }

  predicate AllDigits(s: string) {
    forall i :: 0 <= i < |s| ==> IsAsciiDigit(s[i])
  }

  predicate IsAscii(s: string) {
    forall i :: 0 <= i < |s| ==> s[i] < 128 as char
  }

  // ---------------------------------------------------------------- trimming

  /** `str::trim_start`: drops the leading whitespace. */
  function TrimStart(s: string): (r: string)
    ensures |r| <= |s|
  {
    if s != [] && IsWhitespace(s[0]) then TrimStart(s[1..]) else s
  }

  /** It drops whitespace and nothing else, and all of the leading whitespace. */
  lemma {:induction false} TrimStartShape(s: string)
    ensures var r := TrimStart(s); |r| <= |s| && r == s[|s| - |r|..]
    ensures var r := TrimStart(s); r == [] || !IsWhitespace(r[0])
    ensures var r := TrimStart(s); forall i :: 0 <= i < |s| - |r| ==> IsWhitespace(s[i])
    decreases |s|
  {
    if s != [] && IsWhitespace(s[0]) {
      TrimStartShape(s[1..]);
    }
  }

  /** `str::trim_end`: drops the trailing whitespace. */
  function TrimEnd(s: string): string {
    if s != [] && IsWhitespace(s[|s| - 1]) then TrimEnd(s[..|s| - 1]) else s
  }

  /** It drops whitespace and nothing else, and all of the trailing whitespace. */
  lemma {:induction false} TrimEndShape(s: string)
    ensures var r := TrimEnd(s); |r| <= |s| && r == s[..|r|]
    ensures var r := TrimEnd(s); r == [] || !IsWhitespace(r[|r| - 1])
    ensures var r := TrimEnd(s); forall i :: |r| <= i < |s| ==> IsWhitespace(s[i])
    decreases |s|
  {
    if s != [] && IsWhitespace(s[|s| - 1]) {
      TrimEndShape(s[..|s| - 1]);
    }
  }

  /** `str::trim`. */
  function Trim(s: string): string {
    TrimEnd(TrimStart(s))
  }

  /**
    `str::trim` keeps a slice of `s` that neither starts nor ends with whitespace, and
    drops only whitespace around it.
  */
  lemma TrimShape(s: string)
    ensures var r, k := Trim(s), |s| - |TrimStart(s)|;
      k + |r| <= |s| && r == s[k..k + |r|]
      && (r == [] || (!IsWhitespace(r[0]) && !IsWhitespace(r[|r| - 1])))
      && (forall i :: 0 <= i < k ==> IsWhitespace(s[i]))
      && (forall i :: k + |r| <= i < |s| ==> IsWhitespace(s[i]))
  {
    TrimStartShape(s);
    var t := TrimStart(s);
    TrimEndShape(t);
    var r := TrimEnd(t);
    var k := |s| - |t|;
    assert t[..|r|] == s[k..k + |r|];
    forall i | k + |r| <= i < |s|
      ensures IsWhitespace(s[i])
    {
      assert s[i] == t[i - k];
    }
  }

  // ---------------------------------------------------------------- searching

  /** The first position at or after `from` that holds `c`. */
  function IndexOfFrom(s: string, c: char, from: nat): (r: Option<nat>)
    decreases |s| - from
    ensures r.Some? ==> from <= r.value < |s| && s[r.value] == c
    ensures r.Some? ==> forall i :: from <= i < r.value ==> s[i] != c
    ensures r.None? ==> forall i :: from <= i < |s| ==> s[i] != c
  {
    if from >= |s| then None
    else if s[from] == c then Some(from)
    else IndexOfFrom(s, c, from + 1)
  }

  function IndexOf(s: string, c: char): (r: Option<nat>)
    ensures r.Some? ==> r.value < |s| && s[r.value] == c && c !in s[..r.value]
    ensures r.None? <==> c !in s
  {
    var r := IndexOfFrom(s, c, 0);
    assert r.None? ==> forall i :: 0 <= i < |s| ==> s[i] != c;
    r
  }

  predicate StartsWith(s: string, prefix: string) {
    |prefix| <= |s| && s[..|prefix|] == prefix
  }

  /** `str::contains` for a string pattern. */
  predicate Contains(s: string, sub: string)
    decreases |s|
  {
    StartsWith(s, sub) || (s != [] && Contains(s[1..], sub))
  }

  /**
    The entry for `key` in a table of (key, name) pairs. The name tables of the
    engines list every key once, so the first entry is the one a hash map built from
    them holds.
  */
  function Lookup(table: seq<(string, string)>, key: string): Option<string> {
    if table == [] then None
    else if table[0].0 == key then Some(table[0].1)
    else Lookup(table[1..], key)
  }

  /** A key has an entry exactly when the table lists it, and the entry is the first listed. */
  lemma {:induction false} LookupSpec(table: seq<(string, string)>, key: string)
    ensures var r := Lookup(table, key);
      (r.Some? <==> exists i :: 0 <= i < |table| && table[i].0 == key)
      && (r.Some? ==> exists i :: 0 <= i < |table| && table[i] == (key, r.value)
                                  && forall j :: 0 <= j < i ==> table[j].0 != key)
  {
    if table != [] && table[0].0 != key {
      LookupSpec(table[1..], key);
      if exists i :: 0 <= i < |table| && table[i].0 == key {
        var i :| 0 <= i < |table| && table[i].0 == key;
        assert table[1..][i - 1] == table[i];
      }
      if Lookup(table, key).Some? {
        var i :| 0 <= i < |table[1..]| && table[1..][i] == (key, Lookup(table, key).value)
                 && forall j :: 0 <= j < i ==> table[1..][j].0 != key;
        assert table[i + 1] == table[1..][i];
        assert forall j :: 1 <= j < i + 1 ==> table[j] == table[1..][j - 1];
      }
    } else if table != [] {
      assert table[0] == (key, Lookup(table, key).value);
    }
  }

  /** `str::matches(c).count()`. */
  function Count(s: string, c: char): (n: nat)
    ensures n <= |s|
    ensures n == 0 <==> c !in s
  {
    if s == [] then 0
    else (if s[0] == c then 1 else 0) + Count(s[1..], c)
  }

  // ---------------------------------------------------------------- lines

  /** Removes one trailing carriage return. */
  function StripCr(line: string): string {
    if line != [] && line[|line| - 1] == '\r' then line[..|line| - 1] else line
  }

  /**
    `str::lines`: split after every '\n'; a line that ended with "\r\n" loses both
    characters, a final line without '\n' is kept as it is, and a final '\n' does
    not start an empty last line.
  */
  function Lines(s: string): (ls: seq<string>)
    decreases |s|
    ensures s == [] <==> ls == []
    ensures forall k :: 0 <= k < |ls| ==> '\n' !in ls[k]
  {
    if s == [] then []
    else match IndexOf(s, '\n')
      case None => [s]
      case Some(i) =>
        var line := StripCr(s[..i]);
        assert forall j :: 0 <= j < |line| ==> line[j] == s[j];
        [line] + Lines(s[i + 1..])
  }

  /** `slice.join(sep)`. */
  function Join(parts: seq<string>, sep: string): string {
    if parts == [] then []
    else if |parts| == 1 then parts[0]
    else parts[0] + sep + Join(parts[1..], sep)
  }

  /** `Iterator::take(n)` on a sequence. */
  function Take<T>(s: seq<T>, n: nat): (r: seq<T>)
    ensures |r| == if n < |s| then n else |s|
    ensures r == s[..|r|]
  {
    if n < |s| then s[..n] else s
  }

  // ---------------------------------------------------------------- case

  /** `str::to_lowercase`, restricted to ASCII letters. */
  function ToLowerAscii(s: string): (r: string)
    ensures |r| == |s|
    ensures forall i :: 0 <= i < |s| ==>
      r[i] == if IsAsciiUpper(s[i]) then (s[i] as int + 32) as char else s[i]
  {
    seq(|s|, i requires 0 <= i < |s| =>
      if IsAsciiUpper(s[i]) then (s[i] as int + 32) as char else s[i])
  }

  // ---------------------------------------------------------------- numbers

  function DigitValue(c: char): nat
    requires IsAsciiDigit(c)
  {
    c as int - '0' as int
  }

  /** The value of a run of decimal digits, most significant first. */
  function DigitsValue(s: string): nat
    requires AllDigits(s)
  {
    if s == [] then 0 else DigitsValue(s[..|s| - 1]) * 10 + DigitValue(s[|s| - 1])
  }

  const I64Min: int := -0x8000_0000_0000_0000
  const I64Max: int := 0x7FFF_FFFF_FFFF_FFFF

  /** Splits off one leading '+' or '-'; the flag says whether it was '-'. */
  function SplitSign(s: string): (r: (bool, string))
    ensures |r.1| <= |s|
  {
    if s != [] && (s[0] == '+' || s[0] == '-') then (s[0] == '-', s[1..]) else (false, s)
  }

  /**
    `str::parse::<i64>`: an optional sign, then one or more ASCII digits, whose
    value must lie in the i64 range.
  */
  function ParseI64(s: string): (r: Option<int>)
    ensures r.Some? ==> I64Min <= r.value <= I64Max
    ensures r.Some? ==> s != [] && AllDigits(SplitSign(s).1) && SplitSign(s).1 != []
  {
    var (negative, body) := SplitSign(s);
    if body == [] || !AllDigits(body) then None
    else
      var magnitude: int := DigitsValue(body);
      var v := if negative then -magnitude else magnitude;
      if I64Min <= v <= I64Max then Some(v) else None
  }

  /** A mantissa of the float grammar: digits with at most one '.', and at least one digit. */
  predicate IsMantissa(m: string) {
    match IndexOf(m, '.')
    case None => m != [] && AllDigits(m)
    case Some(d) => |m| >= 2 && AllDigits(m[..d]) && AllDigits(m[d + 1..])
  }

  /** The first exponent marker 'e' or 'E'. */
  function ExponentMark(s: string): (r: Option<nat>)
    ensures r.Some? ==> r.value < |s| && (s[r.value] == 'e' || s[r.value] == 'E')
    ensures r.Some? ==> forall i :: 0 <= i < r.value ==> s[i] != 'e' && s[i] != 'E'
    ensures r.None? ==> forall i :: 0 <= i < |s| ==> s[i] != 'e' && s[i] != 'E'
  {
    if s == [] then None
    else if s[0] == 'e' || s[0] == 'E' then Some(0)
    else match ExponentMark(s[1..])
      case None => None
      case Some(k) => Some(k + 1)
  }

  /** `Number ::= (Digit+ | Digit+ '.' Digit* | Digit* '.' Digit+) Exp?` with `Exp ::= [eE] Sign? Digit+`. */
  predicate IsDecimalNumber(b: string) {
    match ExponentMark(b)
    case None => IsMantissa(b)
    case Some(k) =>
      var exp := SplitSign(b[k + 1..]).1;
      IsMantissa(b[..k]) && exp != [] && AllDigits(exp)
  }

  /**
    Whether `str::parse::<f64>` succeeds: an optional sign, then "inf", "infinity"
    or "nan" in any case, or a decimal number with an optional exponent.
  */
  predicate IsFloatLiteral(s: string) {
    var body := SplitSign(s).1;
    var lower := ToLowerAscii(body);
    lower == "inf" || lower == "infinity" || lower == "nan" || IsDecimalNumber(body)
  }

  /** Every i64 literal is also an f64 literal. */
  lemma I64LiteralIsFloatLiteral(s: string)
    ensures ParseI64(s).Some? ==> IsFloatLiteral(s)
  {
    if ParseI64(s).Some? {
      var body := SplitSign(s).1;
      assert ExponentMark(body).None?;
      assert IndexOf(body, '.').None? by {
        assert forall i :: 0 <= i < |body| ==> body[i] != '.';
      }
    }
  }

  function DigitChar(d: nat): (c: char)
    requires d < 10
    ensures IsAsciiDigit(c) && DigitValue(c) == d
  {
    ('0' as int + d) as char
  }

  /** `usize`'s `Display`: decimal digits without leading zeros. */
  function NatToString(n: nat): (s: string)
    ensures s != [] && AllDigits(s) && DigitsValue(s) == n
    ensures s[0] == '0' ==> n == 0
  {
    if n < 10 then [DigitChar(n)]
    else
      var prefix := NatToString(n / 10);
      var s := prefix + [DigitChar(n % 10)];
      assert s[..|s| - 1] == prefix;
      s
  }

  // ---------------------------------------------------------------- UTF-8

  /** The number of bytes UTF-8 uses for one scalar value. */
  function CharUtf8Length(c: char): (n: nat)
    ensures 1 <= n <= 4
    ensures n == 1 <==> c < 128 as char
  {
    if c < 128 as char then 1
    else if c as int < 0x800 then 2
    else if c as int < 0x1_0000 then 3
    else 4
  }

  /** The UTF-8 encoding of one scalar value. */
  function CharUtf8(c: char): (bytes: seq<Byte>)
    ensures |bytes| == CharUtf8Length(c)
  {
    var n := c as int;
    if n < 0x80 then [n]
    else if n < 0x800 then [0xC0 + n / 0x40, 0x80 + n % 0x40]
    else if n < 0x1_0000 then [0xE0 + n / 0x1000, 0x80 + (n / 0x40) % 0x40, 0x80 + n % 0x40]
    else [0xF0 + n / 0x4_0000, 0x80 + (n / 0x1000) % 0x40, 0x80 + (n / 0x40) % 0x40, 0x80 + n % 0x40]
  }

  /** The bytes a Rust `&str` holding `s` consists of. */
  function Utf8Encode(s: string): seq<Byte> {
    if s == [] then [] else CharUtf8(s[0]) + Utf8Encode(s[1..])
  }

  /** `str::len`: the length in bytes, counted character by character. */
  function Utf8Length(s: string): (n: nat)
    ensures n >= |s|
  {
    if s == [] then 0 else CharUtf8Length(s[0]) + Utf8Length(s[1..])
  }

  lemma {:induction false} Utf8LengthIsEncodedLength(s: string)
    ensures Utf8Length(s) == |Utf8Encode(s)|
  {
    if s != [] {
      Utf8LengthIsEncodedLength(s[1..]);
    }
  }

  lemma {:induction false} Utf8LengthOfAscii(s: string)
    ensures Utf8Length(s) == |s| <==> IsAscii(s)
  {
    if s != [] {
      Utf8LengthOfAscii(s[1..]);
      assert IsAscii(s) <==> s[0] < 128 as char && IsAscii(s[1..]) by {
        if s[0] < 128 as char && IsAscii(s[1..]) {
          forall i | 0 <= i < |s| ensures s[i] < 128 as char {
            if i > 0 { assert s[i] == s[1..][i - 1]; }
          }
        }
      }
    }
  }
}
