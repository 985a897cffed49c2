/** The JavaScript string built-ins that the dashboard's logic relies on, on strings of characters:
    `trim`, `slice`, `startsWith`, `includes`, `padStart`, `Number.prototype.toString(radix)`,
    `parseInt` and `split(sep)[1]`. */
module JsText {
  import opened Outcomes

  // ---------------------------------------------------------------- whitespace and trim

  /** The characters `String.prototype.trim` removes: ECMAScript WhiteSpace and LineTerminator. */
  predicate IsJsWhitespace(c: char) {
    c == '\t' || c == '\n' || c == '\U{B}' || c == '\U{C}' || c == '\r' || c == ' '
    || c == '\U{A0}' || c == '\U{1680}' || ('\U{2000}' <= c <= '\U{200A}')
    || c == '\U{2028}' || c == '\U{2029}' || c == '\U{202F}' || c == '\U{205F}'
    || c == '\U{3000}' || c == '\U{FEFF}'
  }

  predicate AllWhitespace(s: string) {
    forall i :: 0 <= i < |s| ==> IsJsWhitespace(s[i])
  }

  /** `s.trimStart()`: the suffix left after the leading whitespace. */
  function TrimStart(s: string): (r: string)
    ensures |r| <= |s| && r == s[|s| - |r|..]
    ensures r != [] ==> !IsJsWhitespace(r[0])
    ensures forall i :: 0 <= i < |s| - |r| ==> IsJsWhitespace(s[i])
  {
    if |s| > 0 && IsJsWhitespace(s[0]) then
      var rest := s[1..];
      var r := TrimStart(rest);
      forall i | 0 < i < |s| - |r| ensures IsJsWhitespace(s[i]) {
        assert s[i] == rest[i - 1];
      }
      r
    else s
  }

  /** `s.trimEnd()`: the prefix left before the trailing whitespace. */
  function TrimEnd(s: string): (r: string)
    ensures |r| <= |s| && r == s[..|r|]
    ensures r != [] ==> !IsJsWhitespace(r[|r| - 1])
    ensures forall i :: |r| <= i < |s| ==> IsJsWhitespace(s[i])
  {
    if |s| > 0 && IsJsWhitespace(s[|s| - 1]) then
      var init := s[..|s| - 1];
      var r := TrimEnd(init);
      assert init[..|r|] == s[..|r|];
      forall i | |r| <= i < |s| - 1 ensures IsJsWhitespace(s[i]) {
        assert s[i] == init[i];
      }
      r
    else s
  }

  /** `s.trim()`: neither end of what is left is whitespace. */
  function Trim(s: string): (r: string)
    ensures r != [] ==> !IsJsWhitespace(r[0]) && !IsJsWhitespace(r[|r| - 1])
  {
    var t := TrimStart(s);
    var r := TrimEnd(t);
    if r != [] then assert r[0] == t[0]; r else r
  }

  /** `!s.trim()`: the trimmed string is empty, hence falsy. */
  predicate IsBlank(s: string) {
    Trim(s) == ""
  }

  /** A string is blank exactly when every character of it is whitespace. */
  lemma BlankIffAllWhitespace(s: string)
    ensures IsBlank(s) <==> AllWhitespace(s)
  {
    var t := TrimStart(s);
    var u := TrimEnd(t);
    if t != [] {
      assert t[0] == s[|s| - |t|];
      if u != [] {
        assert u[0] == t[0];
      }
    }
  }

  // ---------------------------------------------------------------- slicing and searching

  function Min(a: int, b: int): int { if a <= b then a else b }

  function Max(a: int, b: int): int { if a <= b then b else a }

  /** `xs.slice(0, n)` for n >= 0 (strings and arrays alike): the first n elements, or all of them when there are fewer. */
  function Take<T>(s: seq<T>, n: nat): (r: seq<T>)
    ensures |r| == Min(n, |s|)
    ensures r == s[..|r|]
  {
    s[..Min(n, |s|)]
  }

  /** `xs.slice(-n)` for n > 0: the last n elements, or all of them when there are fewer. */
  function TakeLast<T>(s: seq<T>, n: nat): (r: seq<T>)
    ensures |r| == Min(n, |s|)
    ensures r == s[|s| - |r|..]
  {
    s[Max(0, |s| - n)..]
  }

  /** `s.startsWith(p)`. */
  predicate StartsWith(s: string, p: string) {
    |p| <= |s| && s[..|p|] == p
  }

  /** `s.includes(sub)`: sub occurs at some position of s. */
  predicate Contains(s: string, sub: string) {
    exists i :: 0 <= i <= |s| && OccursAt(s, sub, i)
  }

  /** sub occurs in s starting at position i. */
  predicate OccursAt(s: string, sub: string, i: nat) {
    i + |sub| <= |s| && s[i..i + |sub|] == sub
  }

  /** A needle whose first character is absent does not occur. */
  lemma MissingFirstChar(s: string, sub: string)
    requires |sub| > 0 && sub[0] !in s
    ensures !Contains(s, sub)
  {
    forall i | 0 <= i <= |s| ensures !OccursAt(s, sub, i) {
      if i + |sub| <= |s| {
        assert s[i..i + |sub|][0] == s[i];
      }
    }
  }

  /** Sufficient witness for `Contains`. */
  lemma ContainsAt(s: string, sub: string, i: nat)
    requires i + |sub| <= |s| && s[i..i + |sub|] == sub
    ensures Contains(s, sub)
  {
    assert OccursAt(s, sub, i);
  }

  /** The position of the first occurrence of c, or -1 (`s.indexOf(c)` for a one-character needle). */
  function IndexOf(s: string, c: char): (r: int)
    ensures -1 <= r < |s|
    ensures r >= 0 ==> s[r] == c && c !in s[..r]
    ensures r < 0 <==> c !in s
  {
    if |s| == 0 then -1
    else if s[0] == c then 0
    else
      var k := IndexOf(s[1..], c);
      if k < 0 then -1
      else
        assert s[..k + 1] == [s[0]] + s[1..][..k];
        k + 1
  }

  /** `s.split(sep)[1]`: the text between the first and the second separator (or the end);
      `None` stands for `undefined`, when s holds no separator at all. */
  function SplitSecond(s: string, sep: char): (r: Option<string>)
    ensures r.None? <==> sep !in s
    ensures r.Some? ==> sep !in r.value
    ensures r.Some? ==>
              var start := IndexOf(s, sep) + 1;
              var end := start + |r.value|;
              && 0 < start && end <= |s| && s[start..end] == r.value
              && (end == |s| || s[end] == sep)
  {
    var i := IndexOf(s, sep);
    if i < 0 then None
    else
      var rest := s[i + 1..];
      var j := IndexOf(rest, sep);
      Some(if j < 0 then rest else rest[..j])
  }

  function Repeat(c: char, n: nat): (r: string)
    ensures |r| == n
    ensures forall i :: 0 <= i < n ==> r[i] == c
  {
    if n == 0 then [] else Repeat(c, n - 1) + [c]
  }

  /** `s.padStart(width, c)` with a one-character fill: never truncates. */
  function PadStart(s: string, width: nat, c: char): (r: string)
    ensures |r| == Max(width, |s|)
    ensures r == Repeat(c, |r| - |s|) + s
  {
    if |s| >= width then
      assert Repeat(c, 0) == [];
      s
    else Repeat(c, width - |s|) + s
  }

  // ---------------------------------------------------------------- numerals

  /** The lower-case digits `Number.prototype.toString(radix)` writes. */
  function DigitChar(d: nat): (c: char)
    requires d < 16
  {
    "0123456789abcdef"[d]
  }

  /** The value of c as a digit of any radix up to 16, either case, or -1. */
  function DigitValue(c: char): (v: int)
    ensures -1 <= v < 16
  {
    if '0' <= c <= '9' then c as int - '0' as int
    else if 'a' <= c <= 'f' then c as int - 'a' as int + 10
    else if 'A' <= c <= 'F' then c as int - 'A' as int + 10
    else -1
  }

  predicate IsDigit(c: char, radix: nat) {
    0 <= DigitValue(c) < radix
  }

  predicate AllDigits(s: string, radix: nat) {
    forall i :: 0 <= i < |s| ==> IsDigit(s[i], radix)
  }

  lemma DigitCharValue(d: nat)
    requires d < 16
    ensures DigitValue(DigitChar(d)) == d
  {
  }

  lemma DivStep(n: nat, radix: nat)
    requires 2 <= radix <= n
    ensures 1 <= n / radix < n && n % radix < radix
    ensures n == n / radix * radix + n % radix
  {
  }

  /** `n.toString(radix)` for a non-negative integer: the shortest numeral, most significant digit first. */
  function ToRadix(n: nat, radix: nat): (r: string)
    requires 2 <= radix <= 16
    ensures |r| > 0 && AllDigits(r, radix)
    ensures |r| > 1 ==> r[0] != '0'
    decreases n
  {
    if n < radix then
      DigitCharValue(n);
      [DigitChar(n)]
    else
      DivStep(n, radix);
      var hi := ToRadix(n / radix, radix);
      DigitCharValue(n % radix);
      hi + [DigitChar(n % radix)]
  }

  /** The value of a numeral, reading digits most significant first. */
  function RadixValue(s: string, radix: nat): (v: nat)
    requires AllDigits(s, radix)
  {
    if s == [] then 0
    else RadixValue(s[..|s| - 1], radix) * radix + DigitValue(s[|s| - 1])
  }

  /** Rendering a number and reading it back gives the number. */
  lemma {:induction false} RadixRoundTrip(n: nat, radix: nat)
    requires 2 <= radix <= 16
    ensures RadixValue(ToRadix(n, radix), radix) == n
    decreases n
  {
    var r := ToRadix(n, radix);
    if n < radix {
      DigitCharValue(n);
    } else {
      DivStep(n, radix);
      RadixRoundTrip(n / radix, radix);
      assert r[..|r| - 1] == ToRadix(n / radix, radix);
      DigitCharValue(n % radix);
    }
  }

  /** Leading zeros do not change a numeral's value. */
  lemma {:induction false} LeadingZeros(k: nat, s: string, radix: nat)
    requires 2 <= radix && AllDigits(s, radix)
    ensures AllDigits(Repeat('0', k) + s, radix)
    ensures RadixValue(Repeat('0', k) + s, radix) == RadixValue(s, radix)
    decreases |s|, k
  {
    var z := Repeat('0', k);
    if s == [] {
      assert z + s == z;
      if k > 0 {
        assert z[..k - 1] == Repeat('0', k - 1);
        LeadingZeros(k - 1, s, radix);
        assert Repeat('0', k - 1) + s == Repeat('0', k - 1);
      }
    } else {
      var init := s[..|s| - 1];
      assert (z + s)[..|z + s| - 1] == z + init;
      LeadingZeros(k, init, radix);
    }
  }

  /** The longest prefix of s made of digits of the radix. */
  function DigitPrefix(s: string, radix: nat): (r: string)
    ensures AllDigits(r, radix) && |r| <= |s| && r == s[..|r|]
    ensures AllDigits(s, radix) ==> r == s
  {
    if s == [] || !IsDigit(s[0], radix) then []
    else [s[0]] + DigitPrefix(s[1..], radix)
  }

  /** The global `parseInt(s)` without a radix argument: leading whitespace is skipped, one sign is
      read, a `0x`/`0X` prefix switches to radix 16, and the longest run of digits after that is the
      number; `None` is `NaN` (no digit at all). */
  function ParseInt(s: string): (r: Option<int>)
  {
    ParseSigned(TrimStart(s))
  }

  /** `parseInt` after the whitespace: an optional sign, then the magnitude. */
  function ParseSigned(t: string): (r: Option<int>)
  {
    if |t| > 0 && t[0] == '-' then
      match ParseMagnitude(t[1..])
      case None => None
      case Some(v) => Some(-(v as int))
    else if |t| > 0 && t[0] == '+' then ParseMagnitude(t[1..])
    else ParseMagnitude(t)
  }

  /** `parseInt` after the sign: hexadecimal behind `0x`/`0X`, decimal otherwise. */
  function ParseMagnitude(u: string): (r: Option<nat>)
  {
    if |u| >= 2 && u[0] == '0' && (u[1] == 'x' || u[1] == 'X') then LeadingNumber(u[2..], 16)
    else LeadingNumber(u, 10)
  }

  /** The value of the longest run of digits s starts with, `None` when it starts with none. */
  function LeadingNumber(s: string, radix: nat): (r: Option<nat>)
    ensures AllDigits(s, radix) && s != [] ==> r == Some(RadixValue(s, radix))
  {
    var z := DigitPrefix(s, radix);
    if z == [] then None else Some(RadixValue(z, radix))
  }

  /** `` `0x${n.toString(16)}` ``. */
  function HexLiteral(n: nat): (r: string)
    ensures StartsWith(r, "0x") && |r| > 2 && AllDigits(r[2..], 16)
  {
    "0x" + ToRadix(n, 16)
  }

  /** A rendered hex literal reads back, through `parseInt`, as the number it came from. */
  lemma HexLiteralRoundTrip(n: nat)
    ensures ParseInt(HexLiteral(n)) == Some(n)
  {
    var s := HexLiteral(n);
    var h := ToRadix(n, 16);
    assert s[2..] == h;
    assert !IsJsWhitespace(s[0]);
    assert TrimStart(s) == s;
    assert ParseSigned(s) == ParseMagnitude(s) == LeadingNumber(h, 16);
    RadixRoundTrip(n, 16);
  }

  /** Whitespace in front of a string whose first character is not whitespace is skipped. */
  lemma {:induction false} ParseIntSkipsWhitespace(w: string, t: string)
    requires AllWhitespace(w) && (t == [] || !IsJsWhitespace(t[0]))
    ensures TrimStart(w + t) == t
    ensures ParseInt(w + t) == ParseInt(t)
  {
    if w != [] {
      assert (w + t)[1..] == w[1..] + t;
      ParseIntSkipsWhitespace(w[1..], t);
    } else {
      assert w + t == t;
    }
  }

  /** A minus sign in front of a numeral negates what the numeral parses to. */
  lemma ParseIntNegation(d: string)
    requires d != [] && IsDigit(d[0], 10)
    ensures ParseInt(d).Some? <==> ParseInt("-" + d).Some?
    ensures ParseInt(d).Some? ==> ParseInt("-" + d).value == -ParseInt(d).value
  {
    assert !IsJsWhitespace(d[0]) && d[0] != '-' && d[0] != '+';
    ParseIntSkipsWhitespace([], d);
    ParseIntSkipsWhitespace([], "-" + d);
    assert ("-" + d)[1..] == d;
  }

  /** The digits in front of the first non-digit are the whole of the longest digit prefix. */
  lemma {:induction false} DigitPrefixOf(d: string, rest: string, radix: nat)
    requires AllDigits(d, radix) && (rest == [] || !IsDigit(rest[0], radix))
    ensures DigitPrefix(d + rest, radix) == d
  {
    if d == [] {
      assert d + rest == rest;
    } else {
      assert (d + rest)[1..] == d[1..] + rest;
      DigitPrefixOf(d[1..], rest, radix);
    }
  }

  /** `parseInt` reads the digits up to the first character that is not one, and ignores the rest. */
  lemma LeadingNumberStops(d: string, rest: string, radix: nat)
    requires d != [] && AllDigits(d, radix) && (rest == [] || !IsDigit(rest[0], radix))
    ensures LeadingNumber(d + rest, radix) == Some(RadixValue(d, radix))
  {
    DigitPrefixOf(d, rest, radix);
  }

  /** A `0x` or `0X` prefix switches the magnitude to hexadecimal. */
  lemma HexPrefixSwitchesRadix(h: string)
    requires h != [] && AllDigits(h, 16)
    ensures ParseMagnitude("0x" + h) == Some(RadixValue(h, 16))
    ensures ParseMagnitude("0X" + h) == Some(RadixValue(h, 16))
  {
    assert ("0x" + h)[2..] == h;
    assert ("0X" + h)[2..] == h;
  }

  /** A plain decimal numeral, zero-padded or not, parses to its value. */
  lemma ParseDecimal(s: string)
    requires |s| > 0 && AllDigits(s, 10)
    ensures ParseInt(s) == Some(RadixValue(s, 10))
  {
    assert IsDigit(s[0], 10);
    assert !IsJsWhitespace(s[0]);
    assert TrimStart(s) == s;
    assert s[0] != '-' && s[0] != '+';
    assert ParseSigned(s) == ParseMagnitude(s);
    if |s| >= 2 {
      assert IsDigit(s[1], 10);
      assert s[1] != 'x' && s[1] != 'X';
    }
    assert ParseMagnitude(s) == LeadingNumber(s, 10);
  }
}
