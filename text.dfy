/**
 * String helpers the application relies on from JavaScript: number
 * interpolation in template literals, toLowerCase/toUpperCase (ASCII letters
 * only), String.prototype.includes, and the two regular-expression
 * replacements used to tidy a formatted location.
 */
module Text {

  predicate IsDigit(c: char) { '0' <= c <= '9' }

  function DigitChar(d: nat): (c: char)
    requires d < 10
    ensures IsDigit(c) && c as int - '0' as int == d
  {
    ('0' as int + d) as char
  }

  /** Value of a string of decimal digits (reads most significant digit first). */
  function DecimalValue(s: string): nat
    requires forall i :: 0 <= i < |s| ==> IsDigit(s[i])
    decreases |s|
  {
    if |s| == 0 then 0
    else
      assert IsDigit(s[|s| - 1]);
      10 * DecimalValue(s[..|s| - 1]) + (s[|s| - 1] as int - '0' as int)
  }

  /** Decimal rendering of a natural number, as `${n}` gives it. */
  function NatToString(n: nat): (r: string)
    ensures |r| >= 1
    ensures forall i :: 0 <= i < |r| ==> IsDigit(r[i])
    ensures r[0] == '0' ==> n == 0
    ensures DecimalValue(r) == n
    decreases n
  {
    if n < 10 then [DigitChar(n)]
    else
      var prefix := NatToString(n / 10);
      var r := prefix + [DigitChar(n % 10)];
      assert r[..|r| - 1] == prefix;
      r
  }

  function LowerChar(c: char): char
  {
    if 'A' <= c <= 'Z' then (c as int + 32) as char else c
  }

  function UpperChar(c: char): char
  {
    if 'a' <= c <= 'z' then (c as int - 32) as char else c
  }

  /** String.prototype.toLowerCase restricted to ASCII letters. */
  function ToLower(s: string): (r: string)
    ensures |r| == |s|
    ensures forall i :: 0 <= i < |s| ==> r[i] == LowerChar(s[i])
  {
    seq(|s|, i requires 0 <= i < |s| => LowerChar(s[i]))
  }

  /** String.prototype.toUpperCase restricted to ASCII letters. */
  function ToUpper(s: string): (r: string)
    ensures |r| == |s|
    ensures forall i :: 0 <= i < |s| ==> r[i] == UpperChar(s[i])
  {
    seq(|s|, i requires 0 <= i < |s| => UpperChar(s[i]))
  }

  /** Lower-casing is idempotent and leaves no ASCII capital behind. */
  lemma ToLowerIdempotent(s: string)
    ensures ToLower(ToLower(s)) == ToLower(s)
    ensures forall i :: 0 <= i < |s| ==> !('A' <= ToLower(s)[i] <= 'Z')
  {
  }

  /** `sub` occurs in `s` starting at index `i`. */
  predicate OccursAt(s: string, sub: string, i: int)
  {
    0 <= i && i + |sub| <= |s| && s[i..i + |sub|] == sub
  }

  /** String.prototype.includes. */
  function Contains(s: string, sub: string): (r: bool)
    ensures r <==> exists i :: OccursAt(s, sub, i)
    decreases |s|
  {
    if |sub| > |s| then false
    else if s[..|sub|] == sub then
      assert OccursAt(s, sub, 0);
      true
    else
      var r := Contains(s[1..], sub);
      assert forall i :: OccursAt(s[1..], sub, i) <==> OccursAt(s, sub, i + 1);
      assert forall i :: OccursAt(s, sub, i) ==> i >= 1 && OccursAt(s[1..], sub, i - 1);
      r
  }

  predicate HasPrefix(s: string, p: string) { |p| <= |s| && s[..|p|] == p }

  predicate HasSuffix(s: string, p: string) { |p| <= |s| && s[|s| - |p|..] == p }

  /**
   * `s.replace(/pat/g, rep)` for a literal pattern: matches are found left to
   * right and do not overlap; scanning resumes after each replaced match.
   */
  function ReplaceAll(s: string, pat: string, rep: string): string
    requires |pat| > 0
    decreases |s|
  {
    if |s| == 0 then []
    else if HasPrefix(s, pat) then rep + ReplaceAll(s[|pat|..], pat, rep)
    else [s[0]] + ReplaceAll(s[1..], pat, rep)
  }

  /**
   * `s.replace(/^, |, $/g, '')`: drops one leading ", " and one trailing ", ".
   * A trailing match may not overlap the leading one, so it is looked for in
   * what remains after the leading separator.
   */
  function StripSeparators(s: string): string
  {
    var a := if HasPrefix(s, ", ") then s[2..] else s;
    if HasSuffix(a, ", ") then a[..|a| - 2] else a
  }

  /** A string without commas: a clean address component. */
  predicate NoComma(s: string) { forall i :: 0 <= i < |s| ==> s[i] != ',' }

  /** A comma-free head passes through a pattern that starts with a comma untouched. */
  lemma {:induction false} ReplaceSkipsNoComma(x: string, y: string, pat: string, rep: string)
    requires |pat| > 0 && pat[0] == ',' && NoComma(x)
    ensures ReplaceAll(x + y, pat, rep) == x + ReplaceAll(y, pat, rep)
    decreases |x|
  {
    if |x| > 0 {
      var s := x + y;
      assert s[0] == x[0] && s[0] != ',';
      assert !HasPrefix(s, pat);
      assert s[1..] == x[1..] + y;
      ReplaceSkipsNoComma(x[1..], y, pat, rep);
    } else {
      assert x + y == y;
    }
  }
}
