/** The JavaScript string operations the modelled code relies on: the `\s`
    character class, `toUpperCase`/`toLowerCase`, `trim`, `includes`,
    `startsWith`, `split`/`join` with a one-character separator, and
    `parseInt`. A string is a sequence of UTF-16 code units, one `char` each. */
module Text {
  import opened Wrappers

  /** JavaScript's white space and line terminators: the set matched by `\s`
      and removed by `trim`. */
  predicate IsWhitespace(c: char) {
    || c == '\t' || c == '\n' || c == '\U{000B}' || c == '\U{000C}' || c == '\r'
    || c == ' ' || c == '\U{00A0}' || c == '\U{1680}'
    || ('\U{2000}' <= c <= '\U{200A}')
    || c == '\U{2028}' || c == '\U{2029}' || c == '\U{202F}' || c == '\U{205F}'
    || c == '\U{3000}' || c == '\U{FEFF}'
  }

  predicate IsDigit(c: char) { '0' <= c <= '9' }
  predicate IsUpper(c: char) { 'A' <= c <= 'Z' }
  predicate IsLower(c: char) { 'a' <= c <= 'z' }

  /** `toUpperCase` of one code unit. ASCII letters, and the non-ASCII code
      units whose upper case consists of ASCII letters only (dotless i, long s,
      sharp s and the Latin ligatures), are mapped as JavaScript maps them;
      every other code unit is kept, which is exact for every use below since
      those only ask whether the result is ASCII. */
  function UpperChar(c: char): (u: seq<char>)
    ensures IsLower(c) ==> u == [(c as int - 32) as char]
    ensures IsUpper(c) || IsDigit(c) || IsWhitespace(c) ==> u == [c]
  {
    if IsLower(c) then [(c as int - 32) as char]
    else if c == '\U{0131}' then "I"
    else if c == '\U{017F}' then "S"
    else if c == '\U{00DF}' then "SS"
    else if c == '\U{FB00}' then "FF"
    else if c == '\U{FB01}' then "FI"
    else if c == '\U{FB02}' then "FL"
    else if c == '\U{FB03}' then "FFI"
    else if c == '\U{FB04}' then "FFL"
    else if c == '\U{FB05}' || c == '\U{FB06}' then "ST"
    else [c]
  }

  function ToUpper(s: string): string
  {
    if s == [] then [] else UpperChar(s[0]) + ToUpper(s[1..])
  }

  /** `toLowerCase` of one code unit: ASCII letters, the Kelvin sign (which
      lower-cases to `k`) and capital I with dot above (which lower-cases to
      `i` followed by a combining dot); other code units are kept. */
  function LowerChar(c: char): (l: seq<char>)
    ensures IsUpper(c) ==> l == [(c as int + 32) as char]
  {
    if IsUpper(c) then [(c as int + 32) as char]
    else if c == '\U{212A}' then "k"
    else if c == '\U{0130}' then "i\U{0307}"
    else [c]
  }

  function ToLower(s: string): string
  {
    if s == [] then [] else LowerChar(s[0]) + ToLower(s[1..])
  }

  lemma {:induction false} ToLowerAppend(a: string, b: string)
    ensures ToLower(a + b) == ToLower(a) + ToLower(b)
  {
    if a != [] {
      assert (a + b)[1..] == a[1..] + b;
      ToLowerAppend(a[1..], b);
    } else {
      assert a + b == b;
    }
  }

  /** A string without upper-case ASCII letters and without the two special
      code units is its own lower case. */
  lemma {:induction false} ToLowerOfLower(s: string)
    requires forall i :: 0 <= i < |s| ==> !IsUpper(s[i]) && s[i] != '\U{212A}' && s[i] != '\U{0130}'
    ensures ToLower(s) == s
  {
    if s != [] {
      ToLowerOfLower(s[1..]);
    }
  }

  /** A string that may be absent (`undefined` or `null`) is truthy when it
      is present and not empty. */
  predicate Truthy(v: Option<string>) { v.Some? && v.value != "" }

  predicate StartsWith(s: string, prefix: string) {
    |prefix| <= |s| && s[..|prefix|] == prefix
  }

  /** `s.includes(sub)`, scanning from the left. */
  predicate Contains(s: string, sub: string)
    decreases |s|
  {
    StartsWith(s, sub) || (s != [] && Contains(s[1..], sub))
  }

  /** `sub` occurs in `s` at index `i`. */
  predicate OccursAt(s: string, sub: string, i: int) {
    0 <= i <= |s| - |sub| && s[i..i + |sub|] == sub
  }

  lemma {:induction false} ContainsAt(s: string, sub: string)
    ensures Contains(s, sub) <==> exists i :: OccursAt(s, sub, i)
    decreases |s|
  {
    if StartsWith(s, sub) {
      assert OccursAt(s, sub, 0);
    } else if s != [] {
      ContainsAt(s[1..], sub);
      if Contains(s[1..], sub) {
        var i :| OccursAt(s[1..], sub, i);
        SliceOfTail(s, i + 1, |sub|);
        assert OccursAt(s, sub, i + 1);
      } else {
        forall i | 0 < i <= |s| - |sub| ensures !OccursAt(s, sub, i) {
          SliceOfTail(s, i, |sub|);
          assert !OccursAt(s[1..], sub, i - 1);
        }
      }
    }
  }

  /** A slice of `s` past its first character is the same slice of `s[1..]`,
      one place to the left. */
  lemma SliceOfTail(s: string, i: int, n: nat)
    requires 1 <= i && i + n <= |s|
    ensures s[i..i + n] == s[1..][i - 1..i - 1 + n]
  {
    var a, b := s[i..i + n], s[1..][i - 1..i - 1 + n];
    forall k | 0 <= k < n ensures a[k] == b[k] {
      assert a[k] == s[i + k] == s[1..][i - 1 + k] == b[k];
    }
  }

  function TrimStart(s: string): (t: string)
    ensures |t| <= |s| && t == s[|s| - |t|..]
    ensures t == [] || !IsWhitespace(t[0])
  {
    if s != [] && IsWhitespace(s[0]) then TrimStart(s[1..]) else s
  }

  function TrimEnd(s: string): (t: string)
    ensures |t| <= |s| && t == s[..|t|]
    ensures t == [] || !IsWhitespace(t[|t| - 1])
  {
    if s != [] && IsWhitespace(s[|s| - 1]) then TrimEnd(s[..|s| - 1]) else s
  }

  /** `s.trim()`. */
  function Trim(s: string): string {
    TrimEnd(TrimStart(s))
  }

  function IndexOf(s: string, c: char): (i: nat)
    requires c in s
    ensures i < |s| && s[i] == c && c !in s[..i]
  {
    if s[0] == c then 0 else 1 + IndexOf(s[1..], c)
  }

  lemma IndexOfFirst(s: string, c: char, k: nat)
    requires k < |s| && s[k] == c && c !in s[..k]
    ensures IndexOf(s, c) == k
  {
  }

  /** `s.split(sep)` for a one-character separator. */
  function Split(s: string, sep: char): (parts: seq<string>)
    ensures |parts| >= 1
    decreases |s|
  {
    if sep !in s then [s]
    else
      var i := IndexOf(s, sep);
      [s[..i]] + Split(s[i + 1..], sep)
  }

  /** `parts.join(sep)`. */
  function Join(parts: seq<string>, sep: string): string {
    if |parts| == 0 then ""
    else if |parts| == 1 then parts[0]
    else parts[0] + sep + Join(parts[1..], sep)
  }

  /** Splitting a join on a separator that no part contains gives the parts
      back. */
  lemma {:induction false} SplitJoin(parts: seq<string>, sep: char)
    requires |parts| >= 1
    requires forall k :: 0 <= k < |parts| ==> sep !in parts[k]
    ensures Split(Join(parts, [sep]), sep) == parts
  {
    if |parts| > 1 {
      var p0, rest := parts[0], Join(parts[1..], [sep]);
      var s := p0 + [sep] + rest;
      assert s[|p0|] == sep;
      assert s[..|p0|] == p0;
      assert IndexOf(s, sep) == |p0|;
      assert s[|p0| + 1..] == rest;
      SplitJoin(parts[1..], sep);
    }
  }

  /** A code unit found neither in the separator nor in any part is not in
      their join. */
  lemma {:induction false} JoinAvoids(parts: seq<string>, sep: string, c: char)
    requires c !in sep
    requires forall k :: 0 <= k < |parts| ==> c !in parts[k]
    ensures c !in Join(parts, sep)
  {
    if |parts| > 1 {
      JoinAvoids(parts[1..], sep, c);
    }
  }

  /** The digits of `parseInt`'s radix: 10, or 16 after a `0x` prefix. */
  predicate IsRadixDigit(c: char, hex: bool) {
    IsDigit(c) || (hex && (('a' <= c <= 'f') || ('A' <= c <= 'F')))
  }

  function DigitValue(c: char): nat {
    if IsDigit(c) then c as nat - '0' as nat
    else if 'a' <= c <= 'f' then c as nat - 'a' as nat + 10
    else if 'A' <= c <= 'F' then c as nat - 'A' as nat + 10
    else 0
  }

  /** The longest prefix of `s` made of radix digits. */
  function DigitPrefix(s: string, hex: bool): (d: string)
    ensures |d| <= |s| && d == s[..|d|]
    ensures forall i :: 0 <= i < |d| ==> IsRadixDigit(d[i], hex)
    ensures |d| < |s| ==> !IsRadixDigit(s[|d|], hex)
  {
    if s != [] && IsRadixDigit(s[0], hex) then [s[0]] + DigitPrefix(s[1..], hex) else []
  }

  /** Value of a digit string read most significant first. */
  function DigitsValue(d: string, radix: nat): nat
  {
    if d == [] then 0 else DigitsValue(d[..|d| - 1], radix) * radix + DigitValue(d[|d| - 1])
  }

  /** The text after one leading sign, if any. */
  function Unsigned(t: string): string {
    if t != [] && (t[0] == '-' || t[0] == '+') then t[1..] else t
  }

  /** Without a radix, a `0x` or `0X` prefix selects base 16. */
  predicate HexPrefixed(u: string, radixTen: bool) {
    !radixTen && |u| >= 2 && u[0] == '0' && (u[1] == 'x' || u[1] == 'X')
  }

  /** `parseInt(s, 10)` when `radixTen` holds and `parseInt(s)` otherwise;
      `None` is NaN. Leading white space is skipped, one sign is read, and
      without a radix a `0x`/`0X` prefix selects base 16. A negative zero is
      returned as 0, which every caller treats the same way (both are falsy). */
  function ParseInt(s: string, radixTen: bool): Option<int>
  {
    var t := TrimStart(s);
    var negative := t != [] && t[0] == '-';
    var u := Unsigned(t);
    var hex := HexPrefixed(u, radixTen);
    var body := if hex then u[2..] else u;
    var digits := DigitPrefix(body, hex);
    if digits == [] then None
    else
      var v: int := DigitsValue(digits, if hex then 16 else 10);
      Some(if negative then -v else v)
  }

  lemma {:induction false} DigitPrefixOfDigits(s: string, hex: bool)
    requires forall i :: 0 <= i < |s| ==> IsRadixDigit(s[i], hex)
    ensures DigitPrefix(s, hex) == s
  {
    if s != [] {
      DigitPrefixOfDigits(s[1..], hex);
    }
  }

  /** `parseInt` of a string with no leading white space, no sign and no
      hexadecimal prefix reads its leading decimal digits. */
  lemma ParseIntUnsigned(t: string, radixTen: bool)
    requires t != [] && TrimStart(t) == t && t[0] != '-' && t[0] != '+'
    requires !(|t| >= 2 && t[0] == '0' && (t[1] == 'x' || t[1] == 'X'))
    ensures var digits := DigitPrefix(t, false);
            ParseInt(t, radixTen) == if digits == [] then None else Some(DigitsValue(digits, 10))
  {
    assert Unsigned(t) == t;
    assert !HexPrefixed(t, radixTen);
  }

  /** A non-empty string of decimal digits parses to its decimal value,
      with or without the radix argument. */
  lemma ParseIntDecimal(d: string, radixTen: bool)
    requires d != [] && forall i :: 0 <= i < |d| ==> IsDigit(d[i])
    ensures ParseInt(d, radixTen) == Some(DigitsValue(d, 10))
  {
    assert !IsWhitespace(d[0]);
    assert TrimStart(d) == d;
    assert |d| >= 2 ==> d[1] != 'x' && d[1] != 'X';
    DigitPrefixOfDigits(d, false);
    ParseIntUnsigned(d, radixTen);
  }

}
