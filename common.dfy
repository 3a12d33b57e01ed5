/**
 * Shared vocabulary of the model: optional values, outcomes of request handlers,
 * the string operations JavaScript code uses (ASCII lower-casing, `trim`,
 * `includes`, decimal formatting) and a first-match search over a sequence.
 */
module Common {

  datatype Option<T> = None | Some(value: T)

  /** The outcome of an operation that produces a value or fails with an error. */
  datatype Result<T, E> = Success(value: T) | Failure(error: E)

  /** The outcome of an operation that produces nothing but may fail. */
  datatype Outcome<E> = Pass | Fail(error: E)

  // ---------------------------------------------------------------- characters

  predicate IsAsciiUpper(c: char) { 'A' <= c <= 'Z' }

  predicate IsAsciiLower(c: char) { 'a' <= c <= 'z' }

  predicate IsDigit(c: char) { '0' <= c <= '9' }

  /**
   * Lower-cases ASCII letters and leaves every other character alone; the
   * non-ASCII letters that `toLowerCase` also folds are kept as they are.
   */
  function LowerChar(c: char): (r: char)
    ensures IsAsciiUpper(c) ==> IsAsciiLower(r) && r as int == c as int + 32
    ensures !IsAsciiUpper(c) ==> r == c
    ensures !IsAsciiUpper(r)
  {
    if IsAsciiUpper(c) then (c as int + 32) as char else c
  }

  /**
   * `String.prototype.toLowerCase`, restricted to ASCII letters, one character
   * for one (the full Unicode mapping can lengthen a string, as U+0130 does).
   */
  function Lower(s: string): (r: string)
    ensures |r| == |s|
    ensures forall i :: 0 <= i < |s| ==> r[i] == LowerChar(s[i])
  {
    if |s| == 0 then [] else [LowerChar(s[0])] + Lower(s[1..])
  }

  /**
   * The white-space characters `String.prototype.trim` removes, except the
   * Unicode space separators U+1680, U+2000 to U+200A, U+202F, U+205F and U+3000.
   */
  predicate IsWhitespace(c: char)
  {
    c == ' ' || c == '\t' || c == '\n' || c == '\r' || c == '\U{000B}' || c == '\U{000C}'
    || c == '\U{00A0}' || c == '\U{FEFF}' || c == '\U{2028}' || c == '\U{2029}'
  }

  function TrimStart(s: string): (r: string)
    ensures |r| <= |s|
  {
    if |s| > 0 && IsWhitespace(s[0]) then TrimStart(s[1..]) else s
  }

  function TrimEnd(s: string): (r: string)
    ensures |r| <= |s|
  {
    if |s| > 0 && IsWhitespace(s[|s| - 1]) then TrimEnd(s[..|s| - 1]) else s
  }

  /** A string with no white space at either end. */
  predicate IsTrimmed(s: string)
  {
    |s| == 0 || (!IsWhitespace(s[0]) && !IsWhitespace(s[|s| - 1]))
  }

  /** `String.prototype.trim`. */
  function Trim(s: string): (r: string)
    ensures |r| <= |s|
  {
    TrimEnd(TrimStart(s))
  }

  lemma {:induction false} TrimStartShape(s: string)
    ensures var r := TrimStart(s);
            r == s[|s| - |r|..] && (|r| > 0 ==> !IsWhitespace(r[0]))
            && (IsTrimmed(s) ==> r == s)
  {
    if |s| > 0 && IsWhitespace(s[0]) {
      TrimStartShape(s[1..]);
      var r := TrimStart(s);
      assert s[1..][|s| - 1 - |r|..] == s[|s| - |r|..];
    }
  }

  lemma {:induction false} TrimEndShape(s: string)
    ensures var r := TrimEnd(s);
            r == s[..|r|] && (|r| > 0 ==> !IsWhitespace(r[|r| - 1]))
            && (IsTrimmed(s) ==> r == s)
            && (|r| > 0 && |s| > 0 && !IsWhitespace(s[0]) ==> !IsWhitespace(r[0]))
  {
    if |s| > 0 && IsWhitespace(s[|s| - 1]) {
      TrimEndShape(s[..|s| - 1]);
      var r := TrimEnd(s);
      assert s[..|s| - 1][..|r|] == s[..|r|];
    }
  }

  /** `trim` leaves no white space at either end, and leaves a trimmed string alone. */
  lemma TrimShape(s: string)
    ensures IsTrimmed(Trim(s))
    ensures IsTrimmed(s) ==> Trim(s) == s
  {
    TrimStartShape(s);
    TrimEndShape(TrimStart(s));
  }

  /** Trimming twice trims no more than once. */
  lemma TrimTwice(s: string)
    ensures Trim(Trim(s)) == Trim(s)
  {
    TrimShape(s);
    TrimShape(Trim(s));
  }

  /** `s.includes(k)`: `k` occurs in `s` as a contiguous piece. */
  predicate Contains(s: string, k: string)
    decreases |s|
  {
    |k| <= |s| && (s[..|k|] == k || Contains(s[1..], k))
  }

  // ---------------------------------------------------------------- decimal numbers

  function DigitChar(d: nat): (c: char)
    requires d < 10
    ensures IsDigit(c)
  {
    (48 + d) as char
  }

  function DigitValue(c: char): nat
    requires IsDigit(c)
  {
    c as int - 48
  }

  /** The value of a string of decimal digits (empty is 0). */
  function DecimalValue(s: string): nat
    requires forall i :: 0 <= i < |s| ==> IsDigit(s[i])
  {
    if |s| == 0 then 0 else DecimalValue(s[..|s| - 1]) * 10 + DigitValue(s[|s| - 1])
  }

  /** `String(n)` for a non-negative integer: its decimal digits, no leading zero. */
  function Dec(n: nat): (r: string)
    ensures |r| >= 1
    ensures forall i :: 0 <= i < |r| ==> IsDigit(r[i])
  {
    if n < 10 then [DigitChar(n)] else Dec(n / 10) + [DigitChar(n % 10)]
  }

  lemma {:induction false} DecRoundTrip(n: nat)
    ensures DecimalValue(Dec(n)) == n
  {
    if n >= 10 {
      DecRoundTrip(n / 10);
      assert Dec(n)[..|Dec(n)| - 1] == Dec(n / 10);
    }
  }

  /** Distinct numbers print differently. */
  lemma DecInjective(a: nat, b: nat)
    ensures Dec(a) == Dec(b) ==> a == b
  {
    DecRoundTrip(a);
    DecRoundTrip(b);
  }

  function Pow10(w: nat): (r: nat)
    ensures r >= 1
  {
    if w == 0 then 1 else 10 * Pow10(w - 1)
  }

  /** The `w` lowest decimal digits of `n`, zero-filled on the left. */
  function Digits(n: nat, w: nat): (r: string)
    ensures |r| == w
    ensures forall i :: 0 <= i < |r| ==> IsDigit(r[i])
  {
    if w == 0 then [] else Digits(n / 10, w - 1) + [DigitChar(n % 10)]
  }

  /** Dropping the last digit of a number that fits in `w` digits leaves one that fits in `w - 1`. */
  lemma DropDigit(n: nat, w: nat)
    requires w >= 1 && n < Pow10(w)
    ensures n / 10 < Pow10(w - 1)
  {
    assert Pow10(w) == 10 * Pow10(w - 1);
  }

  lemma {:induction false} DigitsValue(n: nat, w: nat)
    requires n < Pow10(w)
    ensures DecimalValue(Digits(n, w)) == n
  {
    if w > 0 {
      DropDigit(n, w);
      DigitsValue(n / 10, w - 1);
      assert Digits(n, w)[..w - 1] == Digits(n / 10, w - 1);
    }
  }

  /** `String.prototype.padStart(w, c)`. */
  function PadStart(s: string, w: nat, c: char): (r: string)
    ensures |r| == if |s| < w then w else |s|
    ensures r[|r| - |s|..] == s
    ensures forall i :: 0 <= i < |r| - |s| ==> r[i] == c
  {
    if |s| < w then seq(w - |s|, _ => c) + s else s
  }

  /** Padding the decimal form of a number that fits gives its fixed-width digits. */
  lemma {:induction false} PadDecIsDigits(n: nat, w: nat)
    requires w >= 1 && n < Pow10(w)
    ensures PadStart(Dec(n), w, '0') == Digits(n, w)
  {
    DecFitsWidth(n, w);
    if n < 10 {
      ZeroDigits(w - 1);
      PadAppend([], DigitChar(n), w, '0');
      assert Dec(n) == [] + [DigitChar(n)];
    } else {
      DropDigit(n, w);
      PadDecIsDigits(n / 10, w - 1);
      DecStep(n, w);
    }
  }

  /** The last digit of a number of two or more digits is printed and padded last. */
  lemma DecStep(n: nat, w: nat)
    requires n >= 10 && w >= 1 && |Dec(n)| <= w
    ensures PadStart(Dec(n), w, '0') == PadStart(Dec(n / 10), w - 1, '0') + [DigitChar(n % 10)]
    ensures Digits(n, w) == Digits(n / 10, w - 1) + [DigitChar(n % 10)]
  {
    assert Dec(n) == Dec(n / 10) + [DigitChar(n % 10)];
    PadAppend(Dec(n / 10), DigitChar(n % 10), w, '0');
  }

  lemma PadAppend(s: string, c: char, w: nat, z: char)
    requires |s| + 1 <= w
    ensures PadStart(s + [c], w, z) == PadStart(s, w - 1, z) + [c]
  {
    if |s| + 1 < w {
      assert seq(w - |s| - 1, _ => z) == seq(w - 1 - |s|, _ => z);
    }
  }

  lemma {:induction false} ZeroDigits(w: nat)
    ensures Digits(0, w) == seq(w, _ => '0')
  {
    if w > 0 {
      ZeroDigits(w - 1);
    }
  }

  lemma {:induction false} DecFitsWidth(n: nat, w: nat)
    requires w >= 1 && n < Pow10(w)
    ensures |Dec(n)| <= w
  {
    if n >= 10 {
      DropDigit(n, w);
      DecFitsWidth(n / 10, w - 1);
    }
  }

  /** The last two characters of the decimal form of a number of two or more digits. */
  lemma LastTwoDecDigits(n: nat)
    requires n >= 10
    ensures |Dec(n)| >= 2
    ensures Dec(n)[|Dec(n)| - 2..] == Digits(n % 100, 2)
  {
    var q, r := n / 10, n % 10;
    var d1 := LastDecDigit(q);
    assert Dec(n) == Dec(q) + [DigitChar(r)];
    assert Dec(n)[|Dec(n)| - 2..] == [d1, DigitChar(r)];
    TensDigit(n);
    TwoDigits(n % 100);
  }

  /** The two-digit form of a number below 100. */
  lemma TwoDigits(x: nat)
    requires x < 100
    ensures Digits(x, 2) == [DigitChar(x / 10), DigitChar(x % 10)]
  {
    var t := x / 10;
    assert t < 10 && t % 10 == t;
    assert Digits(t, 1) == [DigitChar(t)];
    assert Digits(x, 2) == Digits(t, 1) + [DigitChar(x % 10)];
  }

  lemma LastDecDigit(m: nat) returns (c: char)
    ensures c == Dec(m)[|Dec(m)| - 1] == DigitChar(m % 10)
  {
    c := Dec(m)[|Dec(m)| - 1];
  }

  lemma TensDigit(n: nat)
    ensures (n % 100) / 10 == (n / 10) % 10
    ensures (n % 100) % 10 == n % 10
  {
    var a := n / 100;
    var b := (n % 100) / 10;
    var c := n % 10;
    assert n == a * 100 + b * 10 + (n % 100) % 10;
  }

  // ---------------------------------------------------------------- searching

  /** `Array.prototype.findIndex`: the first position whose element satisfies `p`. */
  method FindIndex<T>(s: seq<T>, p: T -> bool) returns (r: Option<nat>)
    ensures r.Some? ==> r.value < |s| && p(s[r.value])
    ensures r.Some? ==> forall j :: 0 <= j < r.value ==> !p(s[j])
    ensures r.None? <==> forall j :: 0 <= j < |s| ==> !p(s[j])
  {
    var i := 0;
    while i < |s|
      invariant 0 <= i <= |s|
      invariant forall j :: 0 <= j < i ==> !p(s[j])
    {
      if p(s[i]) {
        return Some(i);
      }
      i := i + 1;
    }
    return None;
  }
}
