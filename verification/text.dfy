/** The JavaScript string operations the pages rely on: `toLowerCase`,
    `includes`, `split(' ')[0]`, `slice(-n)` and `parseInt`. Strings are
    sequences of characters; case mapping covers the ASCII letters. */
module Text {
  import opened Wrappers

  // ---------------------------------------------------------------------
  // Case mapping

  function LowerChar(c: char): (d: char)
    ensures 'A' <= c <= 'Z' ==> d as int == c as int + 32
    ensures !('A' <= c <= 'Z') ==> d == c
    ensures !('A' <= d <= 'Z')
  {
    if 'A' <= c <= 'Z' then (c as int + 32) as char else c
  }

  /** `s.toLowerCase()`, character by character. */
  function Lower(s: string): (r: string)
    ensures |r| == |s|
    ensures forall i :: 0 <= i < |s| ==> r[i] == LowerChar(s[i])
  {
    seq(|s|, i requires 0 <= i < |s| => LowerChar(s[i]))
  }

  /** Lower-casing twice is lower-casing once. */
  lemma LowerIdempotent(s: string)
    ensures Lower(Lower(s)) == Lower(s)
  {
    var once := Lower(s);
    var twice := Lower(once);
    assert |twice| == |once|;
    forall i | 0 <= i < |once|
      ensures twice[i] == once[i]
    {
      assert twice[i] == LowerChar(once[i]);
    }
  }

  // ---------------------------------------------------------------------
  // Substring search

  predicate StartsWith(s: string, prefix: string) {
    |prefix| <= |s| && s[..|prefix|] == prefix
  }

  /** `s.includes(sub)`: `sub` occurs somewhere in `s`, scanning left to right. */
  predicate Includes(s: string, sub: string)
    decreases |s|
  {
    StartsWith(s, sub) || (|s| > 0 && Includes(s[1..], sub))
  }

  /** The scan agrees with the positional definition: `sub` starts at some index of `s`. */
  lemma {:induction false} IncludesAt(s: string, sub: string)
    ensures Includes(s, sub) <==> exists i :: 0 <= i <= |s| && StartsWith(s[i..], sub)
    decreases |s|
  {
    if Includes(s, sub) {
      if StartsWith(s, sub) {
        assert s[0..] == s;
      } else {
        IncludesAt(s[1..], sub);
        var i :| 0 <= i <= |s[1..]| && StartsWith(s[1..][i..], sub);
        assert s[1..][i..] == s[i + 1..];
      }
    }
    if exists i :: 0 <= i <= |s| && StartsWith(s[i..], sub) {
      var i :| 0 <= i <= |s| && StartsWith(s[i..], sub);
      if i == 0 {
        assert s[0..] == s;
      } else {
        assert s[1..][i - 1..] == s[i..];
        IncludesAt(s[1..], sub);
      }
    }
  }

  /** The empty string occurs in every string (so an empty search matches everything). */
  lemma IncludesEmpty(s: string)
    ensures Includes(s, "")
  {
    assert StartsWith(s, "");
  }

  /** A page search over two fields: the lower-cased query occurs in either
      lower-cased field. */
  predicate MatchesEither(a: string, b: string, query: string) {
    Includes(Lower(a), Lower(query)) || Includes(Lower(b), Lower(query))
  }

  /** An empty search matches anything. */
  lemma EmptyQueryMatches(a: string, b: string)
    ensures MatchesEither(a, b, "")
  {
    IncludesEmpty(Lower(a));
  }

  /** The search ignores the case of the query. */
  lemma QueryCaseIgnored(a: string, b: string, query: string)
    ensures MatchesEither(a, b, Lower(query)) == MatchesEither(a, b, query)
  {
    LowerIdempotent(query);
  }

  // ---------------------------------------------------------------------
  // Splitting and slicing

  /** `s.split(' ')[0]`: everything before the first space. */
  function FirstWord(s: string): (r: string)
    ensures StartsWith(s, r)
    ensures ' ' !in r
    ensures |r| < |s| ==> s[|r|] == ' '
  {
    if |s| == 0 || s[0] == ' ' then "" else [s[0]] + FirstWord(s[1..])
  }

  /** `s.slice(-n)`: the last n characters, or all of `s` when it is shorter.
      For n = 0 JavaScript's `slice(-0)` gives all of `s`, so n must be positive. */
  function LastChars(s: string, n: nat): (r: string)
    requires n > 0
    ensures |r| == if |s| < n then |s| else n
    ensures r == s[|s| - |r|..]
  {
    if |s| <= n then s else s[|s| - n..]
  }

  // ---------------------------------------------------------------------
  // Numbers

  predicate IsHexDigit(c: char) {
    '0' <= c <= '9' || 'a' <= c <= 'f' || 'A' <= c <= 'F'
  }

  function DigitValue(c: char): (v: nat)
    requires IsHexDigit(c)
    ensures v < 16
    ensures '0' <= c <= '9' <==> v < 10
  {
    if '0' <= c <= '9' then c as int - '0' as int
    else if 'a' <= c <= 'f' then c as int - 'a' as int + 10
    else c as int - 'A' as int + 10
  }

  /** A digit of the given radix (10 or 16). */
  predicate IsDigitOf(c: char, radix: nat) {
    IsHexDigit(c) && DigitValue(c) < radix
  }

  predicate AllDigitsOf(s: string, radix: nat) {
    forall i :: 0 <= i < |s| ==> IsDigitOf(s[i], radix)
  }

  /** The length of the longest prefix of `s` made of digits of `radix`. */
  function DigitRun(s: string, radix: nat): (n: nat)
    ensures n <= |s|
    ensures AllDigitsOf(s[..n], radix)
    ensures n < |s| ==> !IsDigitOf(s[n], radix)
  {
    if |s| == 0 || !IsDigitOf(s[0], radix) then 0
    else
      var rest := DigitRun(s[1..], radix);
      assert s[..1 + rest] == [s[0]] + s[1..][..rest];
      1 + rest
  }

  /** The positional value of a digit string, most significant digit first. */
  function ValueOf(ds: string, radix: nat): nat
    requires AllDigitsOf(ds, radix)
  {
    if |ds| == 0 then 0
    else ValueOf(ds[..|ds| - 1], radix) * radix + DigitValue(ds[|ds| - 1])
  }

  /** What `parseInt` skips: ECMAScript's WhiteSpace (tab, vertical tab,
      form feed, the byte-order mark and every space separator of Unicode's
      Zs category) and LineTerminator (line feed, carriage return, U+2028
      and U+2029), sections 12.2 and 12.3 of ECMA-262. */
  predicate IsSpace(c: char) {
    c == '\t' || c == '\U{000B}' || c == '\U{000C}' || c == '\U{FEFF}'
    || c == ' ' || c == '\U{00A0}' || c == '\U{1680}' || '\U{2000}' <= c <= '\U{200A}'
    || c == '\U{202F}' || c == '\U{205F}' || c == '\U{3000}'
    || c == '\n' || c == '\r' || c == '\U{2028}' || c == '\U{2029}'
  }

  /** `s` without its leading white space. */
  function TrimStart(s: string): (r: string)
    ensures |r| <= |s| && r == s[|s| - |r|..]
    ensures |r| > 0 ==> !IsSpace(r[0])
  {
    if |s| > 0 && IsSpace(s[0]) then TrimStart(s[1..]) else s
  }

  /** One leading sign: whether it was a minus, and the text after it. */
  function SplitSign(t: string): (r: (bool, string))
    ensures r.0 <==> |t| > 0 && t[0] == '-'
    ensures r.1 == if |t| > 0 && (t[0] == '-' || t[0] == '+') then t[1..] else t
  {
    if |t| > 0 && (t[0] == '-' || t[0] == '+') then (t[0] == '-', t[1..]) else (false, t)
  }

  /** The radix selected by an optional `0x`/`0X` prefix, and the text after it. */
  function SplitRadix(u: string): (r: (nat, string))
    ensures r.0 == 10 || r.0 == 16
    ensures r.0 == 16 <==> |u| >= 2 && u[0] == '0' && (u[1] == 'x' || u[1] == 'X')
    ensures r.1 == if r.0 == 16 then u[2..] else u
  {
    if |u| >= 2 && u[0] == '0' && (u[1] == 'x' || u[1] == 'X') then (16, u[2..]) else (10, u)
  }

  /** The value of the longest leading run of digits, `None` when there is none. */
  function ReadDigits(body: string, radix: nat): (r: Option<nat>)
    ensures r.None? <==> DigitRun(body, radix) == 0
  {
    var n := DigitRun(body, radix);
    if n == 0 then None else Some(ValueOf(body[..n], radix))
  }

  /** JavaScript's `parseInt(s)` with no radix argument: leading white space
      and one sign are skipped, a `0x`/`0X` prefix selects hexadecimal, and
      the longest run of digits that follows is read. `None` stands for
      `NaN`, the result when no digit follows. */
  function ParseInt(s: string): (r: Option<int>)
  {
    var sign := SplitSign(TrimStart(s));
    var digits := SplitRadix(sign.1);
    var v := ReadDigits(digits.1, digits.0);
    if v.None? then None
    else if sign.0 then Some(-(v.value as int))
    else Some(v.value)
  }

  /** The decimal rendering of a natural number (`String(n)`). */
  function DecimalString(n: nat): (s: string)
    ensures |s| > 0
    ensures AllDigitsOf(s, 10)
  {
    var d := [('0' as int + n % 10) as char];
    if n < 10 then d else DecimalString(n / 10) + d
  }

  /** Reading back the decimal rendering gives the number. */
  lemma {:induction false} DecimalValue(n: nat)
    ensures ValueOf(DecimalString(n), 10) == n
  {
    var s := DecimalString(n);
    if n >= 10 {
      DecimalValue(n / 10);
      assert s[..|s| - 1] == DecimalString(n / 10);
    }
  }

  /** A sign followed by decimal digits at most: the digits are a full run. */
  lemma DigitRunAll(s: string)
    requires AllDigitsOf(s, 10)
    ensures DigitRun(s, 10) == |s|
    ensures s[..DigitRun(s, 10)] == s
  {
  }

  /** `parseInt` put together from its three stages. */
  lemma ParseIntStages(s: string, negative: bool, u: string, radix: nat, body: string, v: nat)
    requires SplitSign(TrimStart(s)) == (negative, u)
    requires SplitRadix(u) == (radix, body)
    requires ReadDigits(body, radix) == Some(v)
    ensures ParseInt(s) == Some(if negative then -(v as int) else v)
  {
  }

  /** Decimal digits with no sign or `0x` prefix are read whole. */
  lemma ReadAllDecimal(s: string)
    requires |s| > 0 && AllDigitsOf(s, 10)
    ensures SplitRadix(s) == (10, s)
    ensures ReadDigits(s, 10) == Some(ValueOf(s, 10))
  {
    assert IsDigitOf(s[0], 10);
    if |s| >= 2 {
      assert IsDigitOf(s[1], 10);
    }
    DigitRunAll(s);
  }

  /** A non-empty run of decimal digits parses to its value. */
  lemma ParseIntDigits(s: string)
    requires |s| > 0 && AllDigitsOf(s, 10)
    ensures ParseInt(s) == Some(ValueOf(s, 10))
  {
    assert IsDigitOf(s[0], 10);
    assert TrimStart(s) == s;
    assert SplitSign(s) == (false, s);
    ReadAllDecimal(s);
    ParseIntStages(s, false, s, 10, s, ValueOf(s, 10));
  }

  /** A minus sign followed by a non-empty run of decimal digits parses to the negated value. */
  lemma ParseIntMinusDigits(t: string)
    requires |t| > 1 && t[0] == '-' && AllDigitsOf(t[1..], 10)
    ensures ParseInt(t) == Some(-(ValueOf(t[1..], 10) as int))
  {
    assert TrimStart(t) == t;
    assert SplitSign(t) == (true, t[1..]);
    ReadAllDecimal(t[1..]);
    ParseIntStages(t, true, t[1..], 10, t[1..], ValueOf(t[1..], 10));
  }

  /** `parseInt(String(n)) == n` for every natural number. */
  lemma ParseIntDecimal(n: nat)
    ensures ParseInt(DecimalString(n)) == Some(n)
  {
    ParseIntDigits(DecimalString(n));
    DecimalValue(n);
  }

  /** The empty input and input with no leading digits parse to `NaN`. */
  lemma ParseIntNoDigits(s: string)
    requires |s| > 0 ==> !('0' <= s[0] <= '9') && !IsSpace(s[0]) && s[0] != '-' && s[0] != '+'
    ensures ParseInt(s) == None
  {
  }

  /** Leading white space or line terminators of any kind are skipped. */
  lemma ParseIntSkipsSpace(c: char, s: string)
    requires IsSpace(c)
    ensures ParseInt([c] + s) == ParseInt(s)
  {
    assert ([c] + s)[1..] == s;
  }

  /** An ideographic space before a digit is skipped: "\u30005" reads as 5. */
  lemma IdeographicSpaceSkipped()
    ensures ParseInt(['\U{3000}', '5']) == Some(5)
  {
    assert ['\U{3000}', '5'] == ['\U{3000}'] + DecimalString(5);
    ParseIntSkipsSpace('\U{3000}', DecimalString(5));
    ParseIntDecimal(5);
  }
}
