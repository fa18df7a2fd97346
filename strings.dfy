/**
 * The JavaScript string built-ins the logger relies on: `String.prototype.trim`
 * (used by `stream.write`), `split('\n')`, `slice(1)` and `join('\n')` (used to
 * drop the first line of a stack trace), and the decimal text of an integer
 * (what a template literal prints for a number).
 */
module Strings {

  // ---------------------------------------------------------------------------
  // trim
  // ---------------------------------------------------------------------------

  /** The characters `trim` removes: ECMAScript's WhiteSpace and LineTerminator code points. */
  predicate IsSpace(c: char) {
    var n := c as int;
    n == 0x09 || n == 0x0A || n == 0x0B || n == 0x0C || n == 0x0D || n == 0x20 ||
    n == 0xA0 || n == 0x1680 || (0x2000 <= n <= 0x200A) || n == 0x2028 || n == 0x2029 ||
    n == 0x202F || n == 0x205F || n == 0x3000 || n == 0xFEFF
  }

  predicate AllSpace(s: string) {
    forall i :: 0 <= i < |s| ==> IsSpace(s[i])
  }

  /** Neither the first nor the last character is white space. */
  predicate IsTrimmed(s: string) {
    s == [] || (!IsSpace(s[0]) && !IsSpace(s[|s| - 1]))
  }

  /** The number of leading white-space characters of `s`. */
  function Lead(s: string): (n: nat)
    ensures n <= |s| && AllSpace(s[..n])
    ensures n == |s| || !IsSpace(s[n])
  {
    if s != [] && IsSpace(s[0]) then
      var n := 1 + Lead(s[1..]);
      assert forall k :: 1 <= k < n ==> s[..n][k] == s[1..][..n - 1][k - 1];
      n
    else 0
  }

  /** Where the white-space suffix of `s` begins, looking no further left than `lo`. */
  function Stop(s: string, lo: nat): (m: nat)
    requires lo <= |s|
    ensures lo <= m <= |s| && AllSpace(s[m..])
    ensures m == lo || !IsSpace(s[m - 1])
  {
    if |s| > lo && IsSpace(s[|s| - 1]) then
      var m := Stop(s[..|s| - 1], lo);
      assert forall k :: 0 <= k < |s| - 1 - m ==> s[m..][k] == s[..|s| - 1][m..][k];
      m
    else |s|
  }

  /**
   * `s.trim()`: the result has no white space at either end, and it is the
   * part of `s` left after removing a white-space prefix and a white-space suffix.
   */
  function Trim(s: string): (r: string)
    ensures IsTrimmed(r)
    ensures Lead(s) + |r| <= |s| && r == s[Lead(s)..Lead(s) + |r|]
    ensures AllSpace(s[..Lead(s)]) && AllSpace(s[Lead(s) + |r|..])
  {
    var n := Lead(s);
    var m := Stop(s, n);
    var r := s[n..m];
    assert r != [] ==> r[0] == s[n] && r[|r| - 1] == s[m - 1];
    r
  }

  /** A white-space prefix followed by a non-space character is exactly what `Lead` counts. */
  lemma {:induction false} LeadExact(s: string, i: nat)
    requires i <= |s| && AllSpace(s[..i])
    requires i == |s| || !IsSpace(s[i])
    ensures Lead(s) == i
    decreases i
  {
    if i > 0 {
      assert IsSpace(s[..i][0]);
      var p := s[1..][..i - 1];
      assert forall k :: 0 <= k < |p| ==> p[k] == s[..i][k + 1];
      assert i - 1 < |s| - 1 ==> s[1..][i - 1] == s[i];
      LeadExact(s[1..], i - 1);
    }
  }

  /** A non-space character at `j - 1`, past `lo`, followed by white space is exactly where `Stop` stops. */
  lemma {:induction false} StopExact(s: string, lo: nat, j: nat)
    requires lo < j <= |s| && AllSpace(s[j..]) && !IsSpace(s[j - 1])
    ensures Stop(s, lo) == j
    decreases |s| - j
  {
    if j < |s| {
      assert IsSpace(s[j..][|s| - 1 - j]);
      var t := s[..|s| - 1];
      assert forall k :: 0 <= k < |t| - j ==> t[j..][k] == s[j..][k];
      assert t[j - 1] == s[j - 1];
      StopExact(t, lo, j);
    }
  }

  /**
   * `trim` is determined by its contract: whatever split of `s` into white
   * space, a trimmed middle and white space one picks, the middle is `Trim(s)`.
   */
  lemma {:induction false} TrimUnique(s: string, i: nat, j: nat)
    requires i <= j <= |s|
    requires AllSpace(s[..i]) && AllSpace(s[j..]) && IsTrimmed(s[i..j])
    ensures Trim(s) == s[i..j]
  {
    if i < j {
      assert s[i..j][0] == s[i] && s[i..j][j - i - 1] == s[j - 1];
      LeadExact(s, i);
      StopExact(s, i, j);
    } else {
      // the whole string is white space, so nothing is left
      assert AllSpace(s) by {
        forall k | 0 <= k < |s| ensures IsSpace(s[k]) {
          if k < i { assert s[..i][k] == s[k]; } else { assert s[j..][k - j] == s[k]; }
        }
      }
      assert s[..|s|] == s;
      LeadExact(s, |s|);
    }
  }

  /** Trimming twice is trimming once. */
  lemma TrimIdempotent(s: string)
    ensures Trim(Trim(s)) == Trim(s)
  {
    var r := Trim(s);
    assert AllSpace(r[..0]) && AllSpace(r[|r|..]) && r[0..|r|] == r;
    TrimUnique(r, 0, |r|);
  }

  // ---------------------------------------------------------------------------
  // split / join on one character
  // ---------------------------------------------------------------------------

  /** The position of the first `c` in `s`. */
  function FirstIndex(s: string, c: char): (i: nat)
    requires c in s
    ensures i < |s| && s[i] == c && c !in s[..i]
  {
    if s[0] == c then 0
    else
      assert c in s[1..] by { var k :| 0 <= k < |s| && s[k] == c; assert s[1..][k - 1] == c; }
      var i := 1 + FirstIndex(s[1..], c);
      assert s[..i] == [s[0]] + s[1..][..i - 1];
      i
  }

  /** `s.split(sep)` for a one-character separator: the pieces between separators, in order. */
  function Split(s: string, sep: char): (parts: seq<string>)
    ensures |parts| >= 1
    ensures forall k :: 0 <= k < |parts| ==> sep !in parts[k]
    decreases |s|
  {
    if sep !in s then [s]
    else
      var i := FirstIndex(s, sep);
      [s[..i]] + Split(s[i + 1..], sep)
  }

  /** `parts.join(sep)`. */
  function Join(parts: seq<string>, sep: char): string {
    if |parts| == 0 then ""
    else if |parts| == 1 then parts[0]
    else parts[0] + [sep] + Join(parts[1..], sep)
  }

  /** The first separator in `x + [sep] + y` is the one after `x` when `x` has none. */
  lemma FirstIndexAfter(x: string, sep: char, y: string)
    requires sep !in x
    ensures sep in x + [sep] + y && FirstIndex(x + [sep] + y, sep) == |x|
  {
    var s := x + [sep] + y;
    assert s[|x|] == sep;
    assert s[..|x|] == x;
    var i := FirstIndex(s, sep);
    assert forall j :: 0 <= j < i ==> s[j] == s[..i][j];
  }

  /** Splitting pieces joined with a separator none of them contains gives back the pieces. */
  lemma {:induction false} SplitJoin(parts: seq<string>, sep: char)
    requires |parts| >= 1
    requires forall k :: 0 <= k < |parts| ==> sep !in parts[k]
    ensures Split(Join(parts, sep), sep) == parts
  {
    if |parts| > 1 {
      var s := Join(parts, sep);
      var rest := Join(parts[1..], sep);
      assert s == parts[0] + [sep] + rest;
      FirstIndexAfter(parts[0], sep, rest);
      var i := |parts[0]|;
      assert s[..i] == parts[0] && s[i + 1..] == rest;
      assert Split(s, sep) == [parts[0]] + Split(rest, sep);
      SplitJoin(parts[1..], sep);
      assert parts == [parts[0]] + parts[1..];
    }
  }

  /** Joining the pieces with the separator they were split at gives back the string. */
  lemma {:induction false} JoinSplit(s: string, sep: char)
    ensures Join(Split(s, sep), sep) == s
    decreases |s|
  {
    if sep in s {
      var i := FirstIndex(s, sep);
      var rest := Split(s[i + 1..], sep);
      var parts := [s[..i]] + rest;
      assert Split(s, sep) == parts;
      assert parts[0] == s[..i] && parts[1..] == rest;
      assert Join(parts, sep) == s[..i] + [sep] + Join(rest, sep);
      JoinSplit(s[i + 1..], sep);
      assert s == s[..i] + [sep] + s[i + 1..];
    }
  }

  /**
   * `s.split('\n').slice(1).join('\n')`: everything after the first line
   * break, or nothing when `s` is a single line.
   */
  function DropFirstLine(s: string): (r: string)
    ensures '\n' in s ==> r == s[FirstIndex(s, '\n') + 1..]
    ensures '\n' !in s ==> r == ""
  {
    var parts := Split(s, '\n');
    assert '\n' in s ==> Join(parts[1..], '\n') == s[FirstIndex(s, '\n') + 1..] by {
      if '\n' in s { JoinSplit(s[FirstIndex(s, '\n') + 1..], '\n'); }
    }
    Join(parts[1..], '\n')
  }

  // ---------------------------------------------------------------------------
  // numbers as text
  // ---------------------------------------------------------------------------

  predicate IsDigit(c: char) {
    '0' <= c <= '9'
  }

  /** The decimal digits of a natural number, without leading zeros. */
  function Digits(n: nat): (r: string)
    ensures |r| > 0 && forall i :: 0 <= i < |r| ==> IsDigit(r[i])
    ensures (r[0] == '0') <==> n == 0
  {
    var d := ['0' + (n % 10) as char];
    if n < 10 then d else Digits(n / 10) + d
  }

  /** The number a string of decimal digits denotes, most significant digit first. */
  function DigitsValue(s: string): nat
    requires forall i :: 0 <= i < |s| ==> IsDigit(s[i])
  {
    if s == [] then 0
    else
      assert IsDigit(s[|s| - 1]);
      DigitsValue(s[..|s| - 1]) * 10 + (s[|s| - 1] as int - '0' as int)
  }

  /** The digits of `n` denote `n`. */
  lemma {:induction false} DigitsRoundTrip(n: nat)
    ensures DigitsValue(Digits(n)) == n
  {
    var d := ['0' + (n % 10) as char];
    if n >= 10 {
      var r := Digits(n);
      assert r == Digits(n / 10) + d;
      assert r[..|r| - 1] == Digits(n / 10);
      DigitsRoundTrip(n / 10);
    }
  }

  /** `String(n)` for an integer `n`: its digits, after a minus sign when negative. */
  function DecimalString(n: int): (r: string)
    ensures |r| > 0
    ensures n < 0 <==> r[0] == '-'
  {
    if n < 0 then "-" + Digits(-n) else Digits(n)
  }

  /** Decimal integer text: an optional minus sign, then digits. */
  predicate IsDecimalText(s: string) {
    |s| > 0 && forall i :: (if s[0] == '-' then 1 else 0) <= i < |s| ==> IsDigit(s[i])
  }

  /** The integer that decimal text denotes. */
  function DecimalValue(s: string): int
    requires IsDecimalText(s)
  {
    if s[0] == '-' then -(DigitsValue(s[1..]) as int) else DigitsValue(s)
  }

  /** `String(n)` is the decimal text of `n`: reading it back gives `n`. */
  lemma DecimalRoundTrip(n: int)
    ensures IsDecimalText(DecimalString(n)) && DecimalValue(DecimalString(n)) == n
  {
    if n < 0 {
      assert DecimalString(n)[1..] == Digits(-n);
      DigitsRoundTrip(-n);
    } else {
      DigitsRoundTrip(n);
    }
  }
}
