/** The JavaScript string built-ins the front end relies on, stated over `seq<char>`:
    `trim`, `toLowerCase` (ASCII letters only), `includes`/`indexOf`, `startsWith`,
    `replace` with a string pattern, number-to-string for integers and `parseInt(s, 10)`. */
module Text {
  import opened Wrappers

  // ---------------------------------------------------------------------------
  // Whitespace and trim
  // ---------------------------------------------------------------------------

  /** ECMAScript WhiteSpace and LineTerminator code points: what `trim` strips. */
  predicate IsWhitespace(c: char) {
    var n := c as int;
    n == 0x09 || n == 0x0A || n == 0x0B || n == 0x0C || n == 0x0D || n == 0x20
    || n == 0xA0 || n == 0x1680 || (0x2000 <= n <= 0x200A) || n == 0x2028 || n == 0x2029
    || n == 0x202F || n == 0x205F || n == 0x3000 || n == 0xFEFF
  }

  predicate AllWhitespace(s: string) {
    forall i :: 0 <= i < |s| ==> IsWhitespace(s[i])
  }

  /** Length of the whitespace run that starts `s`. */
  function LeadingWhitespace(s: string): (k: nat)
    ensures k <= |s|
    ensures forall i :: 0 <= i < k ==> IsWhitespace(s[i])
    ensures k < |s| ==> !IsWhitespace(s[k])
  {
    if |s| == 0 || !IsWhitespace(s[0]) then 0 else 1 + LeadingWhitespace(s[1..])
  }

  /** Length of the whitespace run that ends `s`. */
  function TrailingWhitespace(s: string): (k: nat)
    ensures k <= |s|
    ensures forall i :: |s| - k <= i < |s| ==> IsWhitespace(s[i])
    ensures k < |s| ==> !IsWhitespace(s[|s| - 1 - k])
  {
    if |s| == 0 || !IsWhitespace(s[|s| - 1]) then 0 else 1 + TrailingWhitespace(s[..|s| - 1])
  }

  /** `String.prototype.trim`. */
  function Trim(s: string): string {
    var t := s[LeadingWhitespace(s)..];
    t[..|t| - TrailingWhitespace(t)]
  }

  /** The test `!x.trim()`: the string is empty once trimmed. */
  predicate IsBlank(s: string) {
    Trim(s) == ""
  }

  /** The leading run that trim drops is all whitespace. */
  lemma LeadingRunIsWhitespace(s: string)
    ensures AllWhitespace(s[..LeadingWhitespace(s)])
  {
    var w := s[..LeadingWhitespace(s)];
    forall i | 0 <= i < |w| ensures IsWhitespace(w[i]) {
      assert w[i] == s[i];
    }
  }

  /** The trailing run that trim drops is all whitespace. */
  lemma TrailingRunIsWhitespace(u: string)
    ensures AllWhitespace(u[|u| - TrailingWhitespace(u)..])
  {
    var start := |u| - TrailingWhitespace(u);
    var w := u[start..];
    forall i | 0 <= i < |w| ensures IsWhitespace(w[i]) {
      assert w[i] == u[start + i];
    }
  }

  /** Trim keeps a contiguous middle part of `s` and drops only whitespace around it;
      the part kept neither starts nor ends with whitespace. */
  lemma TrimSlice(s: string)
    ensures var lead := LeadingWhitespace(s);
            var t := Trim(s);
            lead + |t| <= |s| && t == s[lead..lead + |t|]
            && AllWhitespace(s[..lead]) && AllWhitespace(s[lead + |t|..])
            && (t != [] ==> !IsWhitespace(t[0]) && !IsWhitespace(t[|t| - 1]))
  {
    var lead := LeadingWhitespace(s);
    var u := s[lead..];
    var trail := TrailingWhitespace(u);
    var t := Trim(s);
    assert t == u[..|u| - trail];
    assert t == s[lead..lead + |t|];
    LeadingRunIsWhitespace(s);
    TrailingRunIsWhitespace(u);
    assert s[lead + |t|..] == u[|u| - trail..];
    if t != [] {
      assert t[0] == s[lead];
      assert t[|t| - 1] == u[|u| - 1 - trail];
    }
  }

  /** A string is blank exactly when every character of it is whitespace. */
  lemma BlankIffAllWhitespace(s: string)
    ensures IsBlank(s) <==> AllWhitespace(s)
  {
    TrimSlice(s);
    var lead := LeadingWhitespace(s);
    if IsBlank(s) {
      assert lead == |s|;
      forall i | 0 <= i < |s| ensures IsWhitespace(s[i]) {
        assert s[i] == s[..lead][i];
      }
    } else {
      var t := Trim(s);
      assert t[0] == s[lead];
    }
  }

  /** Trimming twice is trimming once. */
  lemma TrimIdempotent(s: string)
    ensures Trim(Trim(s)) == Trim(s)
  {
    TrimSlice(s);
    var t := Trim(s);
    assert LeadingWhitespace(t) == 0;
    assert t[0..] == t;
    assert TrailingWhitespace(t) == 0;
  }

  // ---------------------------------------------------------------------------
  // Case and search
  // ---------------------------------------------------------------------------

  /** `toLowerCase` on one character, for the ASCII letters. */
  function LowerChar(c: char): char {
    if 'A' <= c <= 'Z' then (c as int + 32) as char else c
  }

  /** `toLowerCase` on a string, for the ASCII letters. */
  function Lower(s: string): string {
    seq(|s|, i requires 0 <= i < |s| => LowerChar(s[i]))
  }

  /** Lower-casing keeps the length, leaves no ASCII capital, and is idempotent. */
  lemma LowerIdempotent(s: string)
    ensures |Lower(s)| == |s|
    ensures forall i :: 0 <= i < |s| ==> !('A' <= Lower(s)[i] <= 'Z')
    ensures Lower(Lower(s)) == Lower(s)
  {
  }

  predicate StartsWith(s: string, prefix: string) {
    |prefix| <= |s| && s[..|prefix|] == prefix
  }

  /** `t` appears in `s` starting at position `j`. */
  predicate OccursAt(s: string, t: string, j: nat) {
    j + |t| <= |s| && s[j..j + |t|] == t
  }

  lemma OccursAtShift(s: string, t: string, j: nat)
    requires |s| > 0
    ensures OccursAt(s, t, j + 1) <==> OccursAt(s[1..], t, j)
  {
    if j + 1 + |t| <= |s| {
      assert s[1..][j..j + |t|] == s[j + 1..j + 1 + |t|];
    }
  }

  /** `s.indexOf(t)`: the first position where `t` occurs, or None for -1. */
  function IndexOf(s: string, t: string): (r: Option<nat>)
    ensures r.Some? ==> OccursAt(s, t, r.value)
    ensures r.Some? ==> forall j: nat :: j < r.value ==> !OccursAt(s, t, j)
    ensures r.None? ==> forall j: nat :: !OccursAt(s, t, j)
    decreases |s|
  {
    if StartsWith(s, t) then Some(0)
    else if |s| == 0 then None
    else
      var rest := IndexOf(s[1..], t);
      assert !OccursAt(s, t, 0) by { if |t| <= |s| { assert s[0..|t|] == s[..|t|]; } }
      assert forall j: nat :: j > 0 ==> (OccursAt(s, t, j) <==> OccursAt(s[1..], t, j - 1)) by {
        forall j: nat | j > 0 ensures OccursAt(s, t, j) <==> OccursAt(s[1..], t, j - 1) {
          OccursAtShift(s, t, j - 1);
        }
      }
      match rest
      case None => None
      case Some(i) => Some(i + 1)
  }

  /** `s.includes(t)`. */
  predicate Contains(s: string, t: string) {
    IndexOf(s, t).Some?
  }

  /** Every string contains the empty string, and contains itself. */
  lemma ContainsTrivial(s: string)
    ensures Contains(s, "") && Contains(s, s)
  {
    assert OccursAt(s, "", 0) && OccursAt(s, s, 0);
  }

  /** `s.replace(pattern, replacement)` with a string pattern: only the first
      occurrence is replaced. */
  function ReplaceFirst(s: string, pattern: string, replacement: string): string {
    match IndexOf(s, pattern)
    case None => s
    case Some(i) => s[..i] + replacement + s[i + |pattern|..]
  }

  /** What `replace` with a string pattern does: a string without the pattern comes back
      unchanged; otherwise the first occurrence, and only it, is swapped for the replacement,
      so a replacement as long as the pattern keeps the length. */
  lemma ReplaceFirstSpec(s: string, pattern: string, replacement: string)
    ensures var r := ReplaceFirst(s, pattern, replacement);
            match IndexOf(s, pattern)
            case None => r == s
            case Some(i) =>
              |r| == |s| - |pattern| + |replacement|
              && r[..i] == s[..i]
              && OccursAt(r, replacement, i)
              && r[i + |replacement|..] == s[i + |pattern|..]
              && (forall j: nat :: j < i ==> !OccursAt(s, pattern, j))
    ensures |replacement| == |pattern| ==> |ReplaceFirst(s, pattern, replacement)| == |s|
  {
    match IndexOf(s, pattern)
    case None =>
    case Some(i) =>
      var r := ReplaceFirst(s, pattern, replacement);
      assert r[i..i + |replacement|] == replacement;
      assert r[i + |replacement|..] == s[i + |pattern|..];
  }

  // ---------------------------------------------------------------------------
  // Decimal numbers
  // ---------------------------------------------------------------------------

  predicate IsDigit(c: char) {
    '0' <= c <= '9'
  }

  predicate AllDigits(s: string) {
    forall i :: 0 <= i < |s| ==> IsDigit(s[i])
  }

  function DigitChar(d: nat): (c: char)
    requires d < 10
  {
    ('0' as int + d) as char
  }

  function DigitValue(c: char): nat
    requires IsDigit(c)
  {
    c as int - '0' as int
  }

  /** The decimal digits of `n` as JavaScript prints a non-negative integer:
      at least one digit, and no leading zero except for 0 itself. */
  function NatToDecimal(n: nat): (r: string)
    ensures |r| >= 1 && AllDigits(r)
    ensures r[0] == '0' <==> n == 0
    ensures n < 10 <==> |r| == 1
  {
    if n < 10 then [DigitChar(n)] else NatToDecimal(n / 10) + [DigitChar(n % 10)]
  }

  /** The value of a string of decimal digits. */
  function DecimalValue(s: string): nat
    requires AllDigits(s)
  {
    if |s| == 0 then 0 else 10 * DecimalValue(s[..|s| - 1]) + DigitValue(s[|s| - 1])
  }

  /** Reading back the printed digits gives the number. */
  lemma {:induction false} DecimalRoundTrip(n: nat)
    ensures DecimalValue(NatToDecimal(n)) == n
  {
    if n >= 10 {
      var r := NatToDecimal(n);
      assert r[..|r| - 1] == NatToDecimal(n / 10);
      DecimalRoundTrip(n / 10);
    }
  }

  /** Printing is injective. */
  lemma NatToDecimalInjective(m: nat, n: nat)
    requires NatToDecimal(m) == NatToDecimal(n)
    ensures m == n
  {
    DecimalRoundTrip(m);
    DecimalRoundTrip(n);
  }

  /** Number-to-string for an integer value: a minus sign, then the digits. */
  function IntToDecimal(i: int): string {
    if i < 0 then "-" + NatToDecimal(-i) else NatToDecimal(i)
  }

  /** Length of the run of decimal digits that starts `s`. */
  function LeadingDigits(s: string): (k: nat)
    ensures k <= |s|
    ensures AllDigits(s[..k])
    ensures k < |s| ==> !IsDigit(s[k])
  {
    if |s| == 0 || !IsDigit(s[0]) then 0
    else
      var k := 1 + LeadingDigits(s[1..]);
      assert s[..k] == [s[0]] + s[1..][..k - 1];
      k
  }

  /** `parseInt(s, 10)`: skip leading whitespace, read an optional sign, then the longest
      run of digits; None stands for NaN (no digit there). */
  function ParseInt(s: string): Option<int> {
    var t := s[LeadingWhitespace(s)..];
    var negative := |t| > 0 && t[0] == '-';
    var u := if |t| > 0 && (t[0] == '-' || t[0] == '+') then t[1..] else t;
    var k := LeadingDigits(u);
    if k == 0 then None
    else
      var v: int := DecimalValue(u[..k]);
      Some(if negative then -v else v)
  }

  /** `parseInt` reads back every integer that number-to-string prints. */
  lemma ParseIntRoundTrip(i: int)
    ensures ParseInt(IntToDecimal(i)) == Some(i)
  {
    var s := IntToDecimal(i);
    var n: nat := if i < 0 then -i else i;
    var digits := NatToDecimal(n);
    assert !IsWhitespace(s[0]);
    assert LeadingWhitespace(s) == 0;
    assert s[0..] == s;
    var u := if i < 0 then s[1..] else s;
    assert u == digits;
    AllDigitsLeading(digits);
    assert u[..|u|] == digits;
    DecimalRoundTrip(n);
  }

  lemma {:induction false} AllDigitsLeading(s: string)
    requires AllDigits(s)
    ensures LeadingDigits(s) == |s|
  {
    if |s| > 0 {
      AllDigitsLeading(s[1..]);
    }
  }

  // ---------------------------------------------------------------------------
  // The `m:ss` clock text
  // ---------------------------------------------------------------------------

  /** The template `${minutes}:${seconds < 10 ? '0' : ''}${seconds}` shared by the catalog
      client and the player. */
  function MinutesSeconds(minutes: int, seconds: int): string {
    IntToDecimal(minutes) + ":" + (if seconds < 10 then "0" else "") + IntToDecimal(seconds)
  }

  /** For minutes >= 0 and seconds in 0..59 the text is the minutes' digits, a colon and
      exactly two second digits. */
  lemma MinutesSecondsDigits(minutes: nat, seconds: nat)
    requires seconds < 60
    ensures MinutesSeconds(minutes, seconds)
            == NatToDecimal(minutes) + ":" + [DigitChar(seconds / 10), DigitChar(seconds % 10)]
  {
    if seconds < 10 {
      assert NatToDecimal(seconds) == [DigitChar(seconds % 10)];
    } else {
      assert NatToDecimal(seconds / 10) == [DigitChar(seconds / 10)];
    }
  }

  /** Distinct (minutes, seconds) pairs in range print differently. */
  lemma MinutesSecondsInjective(m1: nat, s1: nat, m2: nat, s2: nat)
    requires s1 < 60 && s2 < 60
    requires MinutesSeconds(m1, s1) == MinutesSeconds(m2, s2)
    ensures m1 == m2 && s1 == s2
  {
    MinutesSecondsDigits(m1, s1);
    MinutesSecondsDigits(m2, s2);
    var t := MinutesSeconds(m1, s1);
    var d1, d2 := NatToDecimal(m1), NatToDecimal(m2);
    assert |d1| == |t| - 3 == |d2|;
    assert d1 == t[..|t| - 3] == d2;
    NatToDecimalInjective(m1, m2);
    assert t[|t| - 2] == DigitChar(s1 / 10) == DigitChar(s2 / 10);
    assert t[|t| - 1] == DigitChar(s1 % 10) == DigitChar(s2 % 10);
  }
}
