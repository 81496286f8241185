/** The JavaScript string and number primitives the level loader and the
    interface text rely on: `includes`/`indexOf`, `replace` of the first
    occurrence, `split`/`join`, `toLowerCase` (ASCII letters),
    `Number.parseFloat`, `Number(...)` and the decimal rendering of an integer
    inside a template literal. */
module Text {

  // ---------------------------------------------------------------------------
  // Searching

  predicate OccursAt(s: string, sub: string, i: nat) {
    i + |sub| <= |s| && s[i..i + |sub|] == sub
  }

  /** The first position at or after `k` at which `sub` occurs, or -1. */
  function IndexFrom(s: string, sub: string, k: nat): (r: int)
    ensures r == -1 || (k <= r <= |s| && OccursAt(s, sub, r))
    ensures r >= 0 ==> forall i: nat :: k <= i < r ==> !OccursAt(s, sub, i)
    ensures r == -1 ==> forall i: nat :: k <= i ==> !OccursAt(s, sub, i)
    decreases |s| - k
  {
    if k + |sub| > |s| then -1
    else if OccursAt(s, sub, k) then k
    else IndexFrom(s, sub, k + 1)
  }

  /** `s.indexOf(sub)`: the first position at which `sub` occurs, or -1. */
  function IndexOf(s: string, sub: string): (r: int)
    ensures -1 <= r <= |s|
    ensures r >= 0 ==> OccursAt(s, sub, r)
    ensures r >= 0 ==> forall i: nat :: i < r ==> !OccursAt(s, sub, i)
    ensures r == -1 ==> forall i: nat :: !OccursAt(s, sub, i)
  {
    IndexFrom(s, sub, 0)
  }

  /** `s.includes(sub)`, the test behind the `[class*="..."]` selector. */
  predicate Contains(s: string, sub: string) {
    IndexOf(s, sub) >= 0
  }

  lemma ContainsIff(s: string, sub: string)
    ensures Contains(s, sub) <==> exists i: nat :: OccursAt(s, sub, i)
  {
  }

  /** A text lacking one of the characters of `sub` cannot contain `sub`. */
  lemma MissingChar(s: string, sub: string, j: nat)
    requires j < |sub| && sub[j] !in s
    ensures !Contains(s, sub)
  {
  }

  /** `s.replace(pat, rep)` with a string pattern: only the first occurrence. */
  function ReplaceFirst(s: string, pat: string, rep: string): (r: string)
    ensures IndexOf(s, pat) < 0 ==> r == s
    ensures IndexOf(s, pat) >= 0 ==>
      && |r| == |s| - |pat| + |rep|
      && r[..IndexOf(s, pat)] == s[..IndexOf(s, pat)]
      && r[IndexOf(s, pat)..IndexOf(s, pat) + |rep|] == rep
      && r[IndexOf(s, pat) + |rep|..] == s[IndexOf(s, pat) + |pat|..]
    ensures forall c | c in r :: c in s || c in rep
  {
    var i := IndexOf(s, pat);
    if i < 0 then s else s[..i] + rep + s[i + |pat|..]
  }

  // ---------------------------------------------------------------------------
  // Case, splitting and joining

  function LowerChar(c: char): char {
    if 'A' <= c <= 'Z' then (c as int + 32) as char else c
  }

  /** `s.toLowerCase()` restricted to ASCII letters. */
  function ToLower(s: string): string {
    seq(|s|, i requires 0 <= i < |s| => LowerChar(s[i]))
  }

  /** `parts.join(d)`. */
  function Join(parts: seq<string>, d: string): string
    decreases |parts|
  {
    if parts == [] then []
    else if |parts| == 1 then parts[0]
    else parts[0] + d + Join(parts[1..], d)
  }

  /** `s.split(sep)` for a one-character separator: never empty, no piece
      contains the separator, and joining the pieces gives `s` back. */
  function Split(s: string, sep: char): (parts: seq<string>)
    ensures |parts| >= 1
    ensures forall k | 0 <= k < |parts| :: sep !in parts[k]
    ensures Join(parts, [sep]) == s
    decreases |s|
  {
    if s == [] then [[]]
    else
      var rest := Split(s[1..], sep);
      if s[0] == sep then
        assert ([[]] + rest)[1..] == rest;
        [[]] + rest
      else
        var parts := [[s[0]] + rest[0]] + rest[1..];
        assert parts[1..] == rest[1..];
        assert Join(parts, [sep]) == [s[0]] + Join(rest, [sep]) by {
          if |rest| > 1 {
            assert Join(rest, [sep]) == rest[0] + [sep] + Join(rest[1..], [sep]);
          }
        }
        assert s == [s[0]] + s[1..];
        parts
  }

  lemma {:induction false} SplitAfterPiece(a: string, sep: char, b: string)
    requires sep !in a
    ensures Split(a + [sep] + b, sep) == [a] + Split(b, sep)
    decreases |a|
  {
    if a == [] {
      assert a + [sep] + b == [sep] + b;
      assert ([sep] + b)[1..] == b;
    } else {
      assert (a + [sep] + b)[0] == a[0];
      assert (a + [sep] + b)[1..] == a[1..] + [sep] + b;
      SplitAfterPiece(a[1..], sep, b);
      assert [a[0]] + a[1..] == a;
    }
  }

  lemma {:induction false} SplitWithoutSeparator(a: string, sep: char)
    requires sep !in a
    ensures Split(a, sep) == [a]
    decreases |a|
  {
    if a != [] {
      SplitWithoutSeparator(a[1..], sep);
      assert [a[0]] + a[1..] == a;
    }
  }

  /** Splitting undoes joining when no part holds the separator. */
  lemma {:induction false} SplitJoin(parts: seq<string>, sep: char)
    requires |parts| >= 1 && forall k | 0 <= k < |parts| :: sep !in parts[k]
    ensures Split(Join(parts, [sep]), sep) == parts
    decreases |parts|
  {
    if |parts| == 1 {
      SplitWithoutSeparator(parts[0], sep);
    } else {
      var rest := parts[1..];
      assert forall k | 0 <= k < |rest| :: rest[k] == parts[k + 1];
      SplitJoin(rest, sep);
      SplitAfterPiece(parts[0], sep, Join(rest, [sep]));
      assert [parts[0]] + rest == parts;
    }
  }

  // ---------------------------------------------------------------------------
  // Decimal digits

  predicate IsDigit(c: char) { '0' <= c <= '9' }

  predicate AllDigits(s: string) { forall i | 0 <= i < |s| :: IsDigit(s[i]) }

  function DigitValue(c: char): nat
    requires IsDigit(c)
  {
    c as int - '0' as int
  }

  function DigitChar(d: nat): char
    requires d < 10
  {
    ('0' as int + d) as char
  }

  /** The value of a string of decimal digits, most significant first. */
  function DigitsValue(s: string): nat
    requires AllDigits(s)
    decreases |s|
  {
    if s == [] then 0 else DigitsValue(s[..|s| - 1]) * 10 + DigitValue(s[|s| - 1])
  }

  function Pow10(k: nat): (p: nat)
    ensures p >= 1
  {
    if k == 0 then 1 else 10 * Pow10(k - 1)
  }

  /** The decimal rendering of a natural number: digits only, no leading zero,
      and reading it back gives the number. */
  function NatToString(n: nat): (s: string)
    ensures |s| >= 1 && AllDigits(s)
    ensures DigitsValue(s) == n
    ensures s[0] == '0' ==> n == 0
    decreases n
  {
    if n < 10 then [DigitChar(n)]
    else
      var hi := NatToString(n / 10);
      var s := hi + [DigitChar(n % 10)];
      assert s[..|s| - 1] == hi;
      s
  }

  /** How a JavaScript template literal renders an integer. */
  function IntToString(n: int): string {
    if n >= 0 then NatToString(n) else "-" + NatToString(-n)
  }

  // ---------------------------------------------------------------------------
  // Reading numbers

  predicate IsSpace(c: char) { c == ' ' || c == '\t' || c == '\n' || c == '\r' }

  function TrimStart(s: string): string
    decreases |s|
  {
    if s != [] && IsSpace(s[0]) then TrimStart(s[1..]) else s
  }

  function TrimEnd(s: string): string
    decreases |s|
  {
    if s != [] && IsSpace(s[|s| - 1]) then TrimEnd(s[..|s| - 1]) else s
  }

  function LeadingDigits(s: string): (d: string)
    ensures d <= s && AllDigits(d)
    ensures |d| < |s| ==> !IsDigit(s[|d|])
    decreases |s|
  {
    if s != [] && IsDigit(s[0]) then [s[0]] + LeadingDigits(s[1..]) else []
  }

  /** A decimal numeral at the start of a text: optional sign, integer digits,
      and the digits after a '.', with the number of characters it spans. */
  datatype Numeral = Numeral(negative: bool, intDigits: string, fracDigits: string, length: nat)
  {
    predicate HasDigits() { intDigits != [] || fracDigits != [] }
  }

  function ScanNumeral(t: string): (n: Numeral)
    ensures AllDigits(n.intDigits) && AllDigits(n.fracDigits)
  {
    var signLen := if t != [] && (t[0] == '-' || t[0] == '+') then 1 else 0;
    var u := t[signLen..];
    var ip := LeadingDigits(u);
    var rest := u[|ip|..];
    var hasDot := rest != [] && rest[0] == '.';
    var fp := if hasDot then LeadingDigits(rest[1..]) else [];
    Numeral(signLen == 1 && t[0] == '-', ip, fp, signLen + |ip| + (if hasDot then 1 + |fp| else 0))
  }

  function ValueOf(n: Numeral): real
    requires AllDigits(n.intDigits) && AllDigits(n.fracDigits)
  {
    var magnitude := DigitsValue(n.intDigits) as real
      + DigitsValue(n.fracDigits) as real / Pow10(|n.fracDigits|) as real;
    if n.negative then -magnitude else magnitude
  }

  /** What the model reads where JavaScript produces NaN. */
  const NaNStandIn: real := 0.0

  /** `Number.parseFloat(s)`: the longest numeral after leading white space. */
  function ParseFloat(s: string): real {
    var n := ScanNumeral(TrimStart(s));
    if n.HasDigits() then ValueOf(n) else NaNStandIn
  }

  /** `Number(s)`: the whole text, white space trimmed, must be a numeral;
      the empty text is 0. */
  function ToNumber(s: string): real {
    var t := TrimEnd(TrimStart(s));
    if t == [] then 0.0
    else
      var n := ScanNumeral(t);
      if n.HasDigits() && n.length == |t| then ValueOf(n) else NaNStandIn
  }

  lemma LeadingDigitsOfDigits(s: string)
    requires AllDigits(s)
    ensures LeadingDigits(s) == s
  {
  }

  lemma ScanDigits(s: string)
    requires s != [] && AllDigits(s)
    ensures ScanNumeral(s) == Numeral(false, s, [], |s|)
  {
    assert IsDigit(s[0]);
    assert s[0..] == s;
    LeadingDigitsOfDigits(s);
    assert s[|s|..] == [];
  }

  /** A text made only of digits reads as the number the digits denote. */
  lemma ReadDigits(s: string)
    requires s != [] && AllDigits(s)
    ensures ParseFloat(s) == DigitsValue(s) as real
  {
    assert IsDigit(s[0]);
    assert TrimStart(s) == s;
    ScanDigits(s);
  }

  /** Both readers give back the number a natural number was rendered from. */
  lemma ReadNatString(n: nat)
    ensures ParseFloat(NatToString(n)) == n as real
    ensures ToNumber(NatToString(n)) == n as real
  {
    var s := NatToString(n);
    assert IsDigit(s[0]) && IsDigit(s[|s| - 1]);
    assert TrimStart(s) == s;
    assert TrimEnd(s) == s;
    ScanDigits(s);
    assert ValueOf(ScanNumeral(s)) == n as real;
  }
}
