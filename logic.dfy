/** The detection logic of the browser extension (extension/src/logic.js):
    IBAN check digits (ISO 7064 MOD 97-10, as used by ISO 13616-1), the
    EMAIL/PHONE/IBAN detector with its post-filters, AI-domain membership,
    and first-matching-rule selection. */
module Logic {
  import opened Wrappers
  import opened Text

  // ---------------------------------------------------------------------------
  // IBAN validation
  // ---------------------------------------------------------------------------

  /** `s.replace(/\s+/g, '')`: the white space goes, every other character
      stays (see `RemoveWhitespaceAppend` for the order). */
  function RemoveWhitespace(s: string): (t: string)
    ensures forall i :: 0 <= i < |t| ==> !IsWhitespace(t[i])
    ensures (forall i :: 0 <= i < |s| ==> !IsWhitespace(s[i])) ==> t == s
    ensures (forall i :: 0 <= i < |s| ==> IsWhitespace(s[i])) ==> t == []
  {
    if s == [] then []
    else (if IsWhitespace(s[0]) then [] else [s[0]]) + RemoveWhitespace(s[1..])
  }

  /** The IBAN as the validator sees it: white space removed, upper-cased. */
  function Normalize(raw: string): string {
    ToUpper(RemoveWhitespace(raw))
  }

  predicate IsAlnumUpper(c: char) { IsUpper(c) || IsDigit(c) }

  /** `/^[A-Z]{2}[0-9]{2}[A-Z0-9]+$/`. */
  predicate IbanShape(n: string) {
    && |n| >= 5
    && IsUpper(n[0]) && IsUpper(n[1]) && IsDigit(n[2]) && IsDigit(n[3])
    && forall i :: 4 <= i < |n| ==> IsAlnumUpper(n[i])
  }

  /** The first four characters moved to the end. */
  function Rotate(n: string): string
    requires |n| >= 4
  {
    n[4..] + n[..4]
  }

  /** A letter becomes the two decimal digits of A=10 .. Z=35; any other
      character is kept. */
  function ExpandChar(c: char): (e: string)
    ensures IsUpper(c) ==>
              (|e| == 2 && IsDigit(e[0]) && IsDigit(e[1])
               && DigitValue(e[0]) * 10 + DigitValue(e[1]) == c as int - 'A' as int + 10)
    ensures !IsUpper(c) ==> e == [c]
  {
    if IsUpper(c) then
      var v := c as int - 55;
      [(('0' as int) + v / 10) as char, (('0' as int) + v % 10) as char]
    else [c]
  }

  /** The letter-expanded digit string, built left to right. */
  function Expand(s: string): string {
    if s == [] then [] else Expand(s[..|s| - 1]) + ExpandChar(s[|s| - 1])
  }

  /** The specification of `ibanIsValid`: a non-empty input whose normalised
      form has 15 to 34 characters, the IBAN shape, and check value 1, the
      check value being the decimal number spelled by the letter-expanded,
      rotated string, modulo 97. */
  predicate IbanValid(raw: string) {
    raw != "" &&
    var n := Normalize(raw);
    15 <= |n| <= 34 && IbanShape(n) && DigitsValue(Expand(Rotate(n)), 10) % 97 == 1
  }

  lemma ModStep(v: nat, d: nat)
    ensures ((v % 97) * 10 + d) % 97 == (v * 10 + d) % 97
  {
    var q, r := v / 97, v % 97;
    assert v * 10 + d == 97 * (q * 10) + (r * 10 + d);
  }

  /** The first loop of `ibanIsValid`: each letter becomes its two-digit
      number, every other character is copied. */
  method ExpandLetters(rearranged: string) returns (numeric: string)
    ensures numeric == Expand(rearranged)
  {
    numeric := "";
    var i := 0;
    while i < |rearranged|
      invariant 0 <= i <= |rearranged|
      invariant numeric == Expand(rearranged[..i])
    {
      assert rearranged[..i + 1][..i] == rearranged[..i];
      numeric := numeric + ExpandChar(rearranged[i]);
      i := i + 1;
    }
    assert rearranged[..i] == rearranged;
  }

  /** The second loop of `ibanIsValid`: the remainder modulo 97 of the
      number the digits spell, reduced one digit at a time. */
  method Mod97(numeric: string) returns (remainder: nat)
    ensures remainder == DigitsValue(numeric, 10) % 97
  {
    remainder := 0;
    var j := 0;
    while j < |numeric|
      invariant 0 <= j <= |numeric|
      invariant remainder == DigitsValue(numeric[..j], 10) % 97
    {
      assert numeric[..j + 1][..j] == numeric[..j];
      ModStep(DigitsValue(numeric[..j], 10), DigitValue(numeric[j]));
      remainder := (remainder * 10 + DigitValue(numeric[j])) % 97;
      j := j + 1;
    }
    assert numeric[..j] == numeric;
  }

  /** `ibanIsValid`: the result agrees with `IbanValid`. */
  method IbanIsValid(raw: string) returns (valid: bool)
    ensures valid == IbanValid(raw)
  {
    if raw == "" {
      return false;
    }
    var iban := Normalize(raw);
    if |iban| < 15 || |iban| > 34 {
      return false;
    }
    if !IbanShape(iban) {
      return false;
    }
    var rearranged := iban[4..] + iban[..4];
    assert rearranged == Rotate(iban);
    var numeric := ExpandLetters(rearranged);
    var remainder := Mod97(numeric);
    valid := remainder == 1;
  }

  /** White space is removed character by character: the characters of a
      concatenation that stay, stay in their order. */
  lemma {:induction false} RemoveWhitespaceAppend(a: string, b: string)
    ensures RemoveWhitespace(a + b) == RemoveWhitespace(a) + RemoveWhitespace(b)
  {
    if a == [] {
      assert a + b == b;
    } else {
      assert (a + b)[1..] == a[1..] + b;
      RemoveWhitespaceAppend(a[1..], b);
    }
  }

  lemma {:induction false} ToUpperAppend(a: string, b: string)
    ensures ToUpper(a + b) == ToUpper(a) + ToUpper(b)
  {
    if a == [] {
      assert a + b == b;
    } else {
      assert (a + b)[1..] == a[1..] + b;
      ToUpperAppend(a[1..], b);
    }
  }

  lemma NormalizeSplice(a: string, c: string, b: string)
    ensures Normalize(a + c + b) == Normalize(a) + Normalize(c) + Normalize(b)
  {
    RemoveWhitespaceAppend(a + c, b);
    RemoveWhitespaceAppend(a, c);
    ToUpperAppend(RemoveWhitespace(a) + RemoveWhitespace(c), RemoveWhitespace(b));
    ToUpperAppend(RemoveWhitespace(a), RemoveWhitespace(c));
  }

  /** The verdict depends on the input only through its normalised form. */
  lemma IbanValidByNormalForm(x: string, y: string)
    requires Normalize(x) == Normalize(y)
    ensures IbanValid(x) == IbanValid(y)
  {
    assert Normalize("") == "";
  }

  /** Inserting a white-space character anywhere does not change the verdict. */
  lemma IbanWhitespaceInsensitive(a: string, w: char, b: string)
    requires IsWhitespace(w)
    ensures IbanValid(a + [w] + b) == IbanValid(a + b)
  {
    NormalizeDropsWhitespace(a, w, b);
    IbanValidByNormalForm(a + [w] + b, a + b);
  }

  lemma NormalizeDropsWhitespace(a: string, w: char, b: string)
    requires IsWhitespace(w)
    ensures Normalize(a + [w] + b) == Normalize(a + b)
  {
    NormalizeSplice(a, [w], b);
    NormalizeWhitespaceChar(w);
    NormalizeAppend(a, b);
  }

  lemma NormalizeAppend(a: string, b: string)
    ensures Normalize(a + b) == Normalize(a) + Normalize(b)
  {
    RemoveWhitespaceAppend(a, b);
    ToUpperAppend(RemoveWhitespace(a), RemoveWhitespace(b));
  }

  lemma NormalizeWhitespaceChar(w: char)
    requires IsWhitespace(w)
    ensures Normalize([w]) == []
  {
    assert [w][1..] == [];
    assert RemoveWhitespace([w]) == [];
  }

  lemma NormalizeOneChar(c: char)
    ensures !IsWhitespace(c) ==> Normalize([c]) == UpperChar(c)
  {
    assert [c][1..] == [];
    if !IsWhitespace(c) {
      assert RemoveWhitespace([c]) == [c];
      assert ToUpper([c]) == UpperChar(c) + ToUpper([]);
    }
  }

  /** Replacing a lower-case ASCII letter by its upper-case form does not
      change the verdict. */
  lemma IbanCaseInsensitive(a: string, c: char, b: string)
    requires IsLower(c)
    ensures IbanValid(a + [c] + b) == IbanValid(a + [(c as int - 32) as char] + b)
  {
    var u := (c as int - 32) as char;
    assert IsUpper(u);
    assert !IsWhitespace(c) && !IsWhitespace(u);
    NormalizeOneChar(c);
    NormalizeOneChar(u);
    assert Normalize([c]) == [u] == Normalize([u]);
    NormalizeSplice(a, [c], b);
    NormalizeSplice(a, [u], b);
    assert Normalize(a + [c] + b) == Normalize(a + [u] + b);
    IbanValidByNormalForm(a + [c] + b, a + [u] + b);
  }

  /** The empty string is never a valid IBAN. */
  lemma IbanEmptyInvalid()
    ensures !IbanValid("")
  {
  }

  // ---------------------------------------------------------------------------
  // Check values
  // ---------------------------------------------------------------------------

  /** The factor by which one character scales the check value: a letter
      stands for two digits, anything else for one. */
  function Weight(c: char): nat {
    if IsUpper(c) then 100 else 10
  }

  /** The number one character contributes: A=10 .. Z=35 for a letter, the
      digit's value otherwise. */
  function CharValue(c: char): nat {
    if IsUpper(c) then c as nat - 'A' as nat + 10 else DigitValue(c)
  }

  /** The check value of the first `n` characters of `t`: the number the
      letter-expanded string spells, computed one character at a time. */
  function CheckValue(t: string, n: nat): nat
    requires n <= |t|
  {
    if n == 0 then 0 else CheckValue(t, n - 1) * Weight(t[n - 1]) + CharValue(t[n - 1])
  }

  /** The product of the weights of the first `n` characters of `b`. */
  function Scale(b: string, n: nat): nat
    requires n <= |b|
  {
    if n == 0 then 1 else Scale(b, n - 1) * Weight(b[n - 1])
  }

  lemma {:induction false} CheckValuePrefix(t: string, m: nat, n: nat)
    requires n <= m <= |t|
    ensures CheckValue(t, n) == CheckValue(t[..m], n)
  {
    if n > 0 {
      CheckValuePrefix(t, m, n - 1);
    }
  }

  lemma Distribute(x: int, y: int, z: int, m: int)
    ensures (x * y + z) * m == x * (y * m) + z * m
  {
  }

  /** The check value of a concatenation: the first part's value shifted by
      the second part's scale, plus the second part's value. */
  lemma {:induction false} CheckValueAppend(a: string, b: string, n: nat)
    requires n <= |b|
    ensures CheckValue(a + b, |a| + n) == CheckValue(a, |a|) * Scale(b, n) + CheckValue(b, n)
  {
    if n == 0 {
      CheckValuePrefix(a + b, |a|, |a|);
      assert (a + b)[..|a|] == a;
    } else {
      CheckValueAppend(a, b, n - 1);
      assert (a + b)[|a| + n - 1] == b[n - 1];
      Distribute(CheckValue(a, |a|), Scale(b, n - 1), CheckValue(b, n - 1), Weight(b[n - 1]));
    }
  }

  /** The number `Expand(t)` spells is `CheckValue(t, |t|)`. */
  lemma {:induction false} ExpandValue(t: string)
    ensures DigitsValue(Expand(t), 10) == CheckValue(t, |t|)
  {
    if t != [] {
      var k := |t| - 1;
      var p, c := t[..k], t[k];
      ExpandValue(p);
      CheckValuePrefix(t, k, k);
      var x, e := Expand(p), ExpandChar(c);
      assert Expand(t) == x + e;
      if IsUpper(c) {
        assert (x + e)[..|x| + 1] == x + [e[0]];
        assert (x + [e[0]])[..|x|] == x;
        assert DigitsValue(x + e, 10) == (DigitsValue(x, 10) * 10 + DigitValue(e[0])) * 10 + DigitValue(e[1]);
      } else {
        assert (x + e)[..|x|] == x;
      }
    }
  }

  /** A string of upper-case letters and digits is its own normal form. */
  lemma {:induction false} NormalizeUpperAlnum(s: string)
    requires forall i :: 0 <= i < |s| ==> IsAlnumUpper(s[i])
    ensures RemoveWhitespace(s) == s && Normalize(s) == s
  {
    if s != [] {
      NormalizeUpperAlnum(s[1..]);
      assert UpperChar(s[0]) == [s[0]];
    }
  }

  /** For an input already in normal form, validity is the check on the
      rotated string's check value. */
  lemma IbanValidOfNormal(s: string)
    requires forall i :: 0 <= i < |s| ==> IsAlnumUpper(s[i])
    ensures IbanValid(s) <==>
              (15 <= |s| <= 34 && IbanShape(s) && CheckValue(Rotate(s), |s|) % 97 == 1)
  {
    NormalizeUpperAlnum(s);
    if 15 <= |s| <= 34 && IbanShape(s) {
      var r := Rotate(s);
      assert |r| == |s|;
      ExpandValue(r);
      assert IbanValid(s) == (DigitsValue(Expand(r), 10) % 97 == 1);
    } else {
      assert !IbanValid(s);
    }
  }


  /** The check value of a concatenation from its parts' values. */
  lemma CheckValueJoin(a: string, b: string, va: nat, vb: nat, sb: nat)
    requires CheckValue(a, |a|) == va && CheckValue(b, |b|) == vb && Scale(b, |b|) == sb
    ensures CheckValue(a + b, |a + b|) == va * sb + vb
  {
    CheckValueAppend(a, b, |b|);
  }

  // ---------------------------------------------------------------------------
  // detectMatches
  // ---------------------------------------------------------------------------

  /** The three regular-expression scans, which are not modelled: whether the
      email pattern occurs, and the phone and IBAN candidate lists that
      `String.prototype.match` returns. */
  datatype Scanner = Scanner(
    emailFound: string -> bool,
    phoneCandidates: string -> seq<string>,
    ibanCandidates: string -> seq<string>)

  /** `candidate.replace(/\D/g, '')`: the non-digits go, every digit stays
      (see `DigitsAppend` for the order). */
  function Digits(s: string): (d: string)
    ensures |d| <= |s|
    ensures forall i :: 0 <= i < |d| ==> IsDigit(d[i])
    ensures (forall i :: 0 <= i < |s| ==> IsDigit(s[i])) ==> d == s
    ensures (forall i :: 0 <= i < |s| ==> !IsDigit(s[i])) ==> d == []
  {
    if s == [] then []
    else (if IsDigit(s[0]) then [s[0]] else []) + Digits(s[1..])
  }

  /** The digits of a concatenation are the digits of its parts, in order. */
  lemma {:induction false} DigitsAppend(a: string, b: string)
    ensures Digits(a + b) == Digits(a) + Digits(b)
  {
    if a == [] {
      assert a + b == b;
    } else {
      assert (a + b)[1..] == a[1..] + b;
      DigitsAppend(a[1..], b);
    }
  }

  /** Separators do not count towards the phone digits: a phone number
      written with spaces, dashes or brackets between its digit groups has as
      many digits as the groups together. */
  lemma PhoneSeparatorsIgnored(a: string, sep: char, b: string)
    requires !IsDigit(sep)
    ensures PhoneDigitsOk(a + [sep] + b) == PhoneDigitsOk(a + b)
  {
    DigitsAppend(a + [sep], b);
    DigitsAppend(a, [sep]);
    DigitsAppend(a, b);
    assert Digits([sep]) == [];
  }

  /** The phone post-filter: 8 to 15 digits. */
  predicate PhoneDigitsOk(candidate: string) {
    8 <= |Digits(candidate)| <= 15
  }

  predicate NoDuplicates<T(==)>(s: seq<T>) {
    forall i, j :: 0 <= i < j < |s| ==> s[i] != s[j]
  }

  /** The phone loop of `detectMatches`: stops at the first candidate with 8 to
      15 digits. */
  method HasPhoneCandidate(phones: seq<string>) returns (found: bool)
    ensures found <==> exists k :: 0 <= k < |phones| && PhoneDigitsOk(phones[k])
  {
    found := false;
    var i := 0;
    while i < |phones|
      invariant 0 <= i <= |phones|
      invariant forall k :: 0 <= k < i ==> !PhoneDigitsOk(phones[k])
    {
      if PhoneDigitsOk(phones[i]) {
        found := true;
        break;
      }
      i := i + 1;
    }
  }

  /** The IBAN loop of `detectMatches`: stops at the first candidate that
      passes `ibanIsValid`. */
  method HasValidIban(candidates: seq<string>) returns (found: bool)
    ensures found <==> exists k :: 0 <= k < |candidates| && IbanValid(candidates[k])
  {
    found := false;
    var i := 0;
    while i < |candidates|
      invariant 0 <= i <= |candidates|
      invariant forall k :: 0 <= k < i ==> !IbanValid(candidates[k])
    {
      var ok := IbanIsValid(candidates[i]);
      if ok {
        found := true;
        break;
      }
      i := i + 1;
    }
  }

  /** `detectMatches`: EMAIL, PHONE and IBAN in that order, each at most once;
      PHONE when some phone candidate has 8 to 15 digits, IBAN when some IBAN
      candidate passes `ibanIsValid`; nothing for the empty text. */
  method DetectMatches(text: string, scan: Scanner) returns (hits: seq<string>)
    ensures text == "" ==> hits == []
    ensures NoDuplicates(hits)
    ensures forall h :: h in hits ==> h in ["EMAIL", "PHONE", "IBAN"]
    ensures "EMAIL" in hits <==> text != "" && scan.emailFound(text)
    ensures "PHONE" in hits <==>
              (text != "" && exists i :: 0 <= i < |scan.phoneCandidates(text)| && PhoneDigitsOk(scan.phoneCandidates(text)[i]))
    ensures "IBAN" in hits <==>
              (text != "" && exists i :: 0 <= i < |scan.ibanCandidates(text)| && IbanValid(scan.ibanCandidates(text)[i]))
  {
    if text == "" {
      return [];
    }
    var email := scan.emailFound(text);
    var phone := HasPhoneCandidate(scan.phoneCandidates(text));
    var iban := HasValidIban(scan.ibanCandidates(text));
    hits := (if email then ["EMAIL"] else []) + (if phone then ["PHONE"] else []) + (if iban then ["IBAN"] else []);
  }

  // ---------------------------------------------------------------------------
  // isAiDomain
  // ---------------------------------------------------------------------------

  /** `isAiDomain`: exact membership; `aiDomains` is `None` when the value
      passed is not an array. */
  predicate IsAiDomain(hostname: string, aiDomains: Option<seq<string>>) {
    hostname != "" && aiDomains.Some? && hostname in aiDomains.value
  }

  // ---------------------------------------------------------------------------
  // ruleTriggers
  // ---------------------------------------------------------------------------

  /** A rule of the pack; `triggers` is `None` when the rule has no array of
      triggers. */
  datatype Rule = Rule(id: string, name: string, description: string,
                       triggers: Option<seq<string>>, action: string)

  /** Some hit is one of the rule's triggers. */
  predicate Triggers(rule: Rule, hits: seq<string>) {
    rule.triggers.Some? && exists h :: h in hits && h in rule.triggers.value
  }

  /** The first rule, in list order, that some hit triggers. */
  function FirstTriggered(hits: seq<string>, rules: seq<Rule>): Option<Rule> {
    if rules == [] then None
    else if Triggers(rules[0], hits) then Some(rules[0])
    else FirstTriggered(hits, rules[1..])
  }

  /** `FirstTriggered` finds a rule exactly when some rule is triggered, and the
      rule it finds is triggered while every rule before it is not. */
  lemma {:induction false} FirstTriggeredIsFirst(hits: seq<string>, rules: seq<Rule>)
    ensures FirstTriggered(hits, rules).Some? <==> exists k :: 0 <= k < |rules| && Triggers(rules[k], hits)
    ensures FirstTriggered(hits, rules).Some? ==>
      exists k :: 0 <= k < |rules| && rules[k] == FirstTriggered(hits, rules).value
        && Triggers(rules[k], hits) && forall j :: 0 <= j < k ==> !Triggers(rules[j], hits)
  {
    if rules != [] && !Triggers(rules[0], hits) {
      FirstTriggeredIsFirst(hits, rules[1..]);
      var r := FirstTriggered(hits, rules);
      if r.Some? {
        var k :| 0 <= k < |rules[1..]| && rules[1..][k] == r.value
          && Triggers(rules[1..][k], hits) && forall j :: 0 <= j < k ==> !Triggers(rules[1..][j], hits);
        assert rules[k + 1] == r.value;
        assert forall j :: 0 <= j < k + 1 ==> !Triggers(rules[j], hits) by {
          forall j | 0 < j < k + 1 ensures !Triggers(rules[j], hits) {
            assert rules[j] == rules[1..][j - 1];
          }
        }
      } else {
        forall k | 0 < k < |rules| ensures !Triggers(rules[k], hits) {
          assert rules[k] == rules[1..][k - 1];
        }
      }
    } else if rules != [] {
      assert rules[0] == FirstTriggered(hits, rules).value;
    }
  }

  /** `ruleTriggers`: nothing for an absent or empty hit list or an absent rule
      list; otherwise the first triggered rule, rules without a trigger array
      being skipped. */
  method RuleTriggers(hits: Option<seq<string>>, rules: Option<seq<Rule>>) returns (r: Option<Rule>)
    ensures hits.None? || hits.value == [] || rules.None? ==> r == None
    ensures hits.Some? && hits.value != [] && rules.Some? ==> r == FirstTriggered(hits.value, rules.value)
  {
    if hits.None? || |hits.value| == 0 || rules.None? {
      return None;
    }
    var hs, rs := hits.value, rules.value;
    var i := 0;
    while i < |rs|
      invariant 0 <= i <= |rs|
      invariant FirstTriggered(hs, rs) == FirstTriggered(hs, rs[i..])
    {
      assert rs[i..][1..] == rs[i + 1..];
      var rule := rs[i];
      if rule.triggers.None? {
        i := i + 1;
        continue;
      }
      var hasMatch := exists h :: h in hs && h in rule.triggers.value;
      if hasMatch {
        return Some(rule);
      }
      i := i + 1;
    }
    return None;
  }
}
