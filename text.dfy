/**
 * Text helpers shared by the SQL builders and the timestamp formatter:
 * joining a list of fragments with a separator (what the builders' loops
 * do with their `if (column != first) stmt << sep;` idiom) and decimal
 * rendering of integers as `operator<<` and `%0Nd` produce it.
 */
module Text {

  /** The fragments in order, with `sep` between neighbours and nowhere else. */
  function Join(parts: seq<string>, sep: string): string
  {
    if |parts| == 0 then ""
    else if |parts| == 1 then parts[0]
    else Join(parts[..|parts| - 1], sep) + sep + parts[|parts| - 1]
  }

  /** Appending one more fragment: the separator is emitted unless it is the first. */
  lemma JoinSnoc(parts: seq<string>, sep: string, i: nat)
    requires i < |parts|
    ensures Join(parts[..i + 1], sep) == Join(parts[..i], sep) + (if i == 0 then "" else sep) + parts[i]
  {
    assert parts[..i + 1][..i] == parts[..i];
  }

  /** `n` copies of the same fragment. */
  function Repeat(s: string, n: nat): (r: seq<string>)
    ensures |r| == n && forall i :: 0 <= i < n ==> r[i] == s
  {
    seq(n, _ => s)
  }

  /** How many times `c` occurs in `s`. */
  function Occurrences(s: string, c: char): nat
  {
    if |s| == 0 then 0 else Occurrences(s[..|s| - 1], c) + (if s[|s| - 1] == c then 1 else 0)
  }

  lemma {:induction false} OccurrencesConcat(a: string, b: string, c: char)
    ensures Occurrences(a + b, c) == Occurrences(a, c) + Occurrences(b, c)
  {
    if |b| > 0 {
      assert (a + b)[..|a + b| - 1] == a + b[..|b| - 1];
      OccurrencesConcat(a, b[..|b| - 1], c);
    } else {
      assert a + b == a;
    }
  }

  /** A character a text does not hold occurs in it zero times, and one it does hold at least once. */
  lemma {:induction false} OccurrencesAbsent(s: string, c: char)
    ensures c !in s <==> Occurrences(s, c) == 0
  {
    if |s| > 0 {
      OccurrencesAbsent(s[..|s| - 1], c);
      assert s == s[..|s| - 1] + [s[|s| - 1]];
    }
  }

  lemma MulSucc(k: nat, m: nat)
    ensures k * (m + 1) == k * m + k
  {
  }

  /**
   * A character that every fragment holds exactly `k` times and the separator
   * never holds occurs exactly `k` times per fragment in the joined text.
   */
  lemma {:induction false} JoinCount(parts: seq<string>, sep: string, c: char, k: nat)
    requires forall i :: 0 <= i < |parts| ==> Occurrences(parts[i], c) == k
    requires c !in sep
    ensures Occurrences(Join(parts, sep), c) == k * |parts|
  {
    var n := |parts|;
    if n >= 2 {
      var init := parts[..n - 1];
      var head := Join(init, sep);
      assert Join(parts, sep) == head + sep + parts[n - 1];
      JoinCount(init, sep, c, k);
      OccurrencesAbsent(sep, c);
      OccurrencesConcat(head, sep, c);
      OccurrencesConcat(head + sep, parts[n - 1], c);
      MulSucc(k, n - 1);
    }
  }

  // ---------------------------------------------------------------------
  // Decimal rendering

  predicate IsDigit(c: char)
  {
    '0' <= c <= '9'
  }

  predicate AllDigits(s: string)
  {
    forall i :: 0 <= i < |s| ==> IsDigit(s[i])
  }

  function DigitChar(d: nat): (c: char)
    requires d < 10
    ensures IsDigit(c) && c as int - '0' as int == d
  {
    ('0' as int + d) as char
  }

  /** The shortest decimal representation of `n`, most significant digit first. */
  function Digits(n: nat): (r: string)
    ensures 1 <= |r| && AllDigits(r)
    ensures n < 10 <==> |r| == 1
  {
    if n < 10 then [DigitChar(n)] else Digits(n / 10) + [DigitChar(n % 10)]
  }

  /** The number a string of decimal digits denotes (leading zeros allowed). */
  function DecimalValue(s: string): nat
    requires AllDigits(s)
  {
    if |s| == 0 then 0
    else DecimalValue(s[..|s| - 1]) * 10 + (s[|s| - 1] as int - '0' as int)
  }

  /** Reading the digits of `n` back gives `n`. */
  lemma {:induction false} DecimalValueOfDigits(n: nat)
    ensures DecimalValue(Digits(n)) == n
  {
    if n >= 10 {
      var d := Digits(n);
      assert d[..|d| - 1] == Digits(n / 10);
      DecimalValueOfDigits(n / 10);
    }
  }

  function Pow10(w: nat): (p: nat)
    ensures p >= 1
  {
    if w == 0 then 1 else 10 * Pow10(w - 1)
  }

  /** A number below 10^w needs at most w digits. */
  lemma {:induction false} DigitsFit(n: nat, w: nat)
    requires 1 <= w && n < Pow10(w)
    ensures |Digits(n)| <= w
  {
    if n >= 10 {
      assert Pow10(1) == 10;
      DigitsFit(n / 10, w - 1);
    }
  }

  function Zeros(k: nat): (r: string)
    ensures |r| == k && AllDigits(r)
  {
    seq(k, _ => '0')
  }

  lemma {:induction false} DecimalValueOfZeros(k: nat)
    ensures DecimalValue(Zeros(k)) == 0
  {
    if k > 0 {
      assert Zeros(k)[..k - 1] == Zeros(k - 1);
      DecimalValueOfZeros(k - 1);
    }
  }

  /** Leading zeros do not change the value read. */
  lemma {:induction false} DecimalValueLeadingZeros(k: nat, s: string)
    requires AllDigits(s)
    ensures AllDigits(Zeros(k) + s) && DecimalValue(Zeros(k) + s) == DecimalValue(s)
  {
    var t := Zeros(k) + s;
    if |s| == 0 {
      assert t == Zeros(k);
      DecimalValueOfZeros(k);
    } else {
      assert t[..|t| - 1] == Zeros(k) + s[..|s| - 1];
      DecimalValueLeadingZeros(k, s[..|s| - 1]);
    }
  }

  /** `%0wd` of a non-negative value: the digits, left-padded with zeros to width `w`. */
  function PadDecimal(n: nat, w: nat): (r: string)
    ensures AllDigits(r)
  {
    var d := Digits(n);
    if |d| < w then Zeros(w - |d|) + d else d
  }

  /** Zero padding is undone by reading the value back, and fills exactly the width when the value fits. */
  lemma PadDecimalRoundTrip(n: nat, w: nat)
    ensures DecimalValue(PadDecimal(n, w)) == n
    ensures 1 <= w && n < Pow10(w) ==> |PadDecimal(n, w)| == w
  {
    var d := Digits(n);
    DecimalValueOfDigits(n);
    if |d| < w {
      DecimalValueLeadingZeros(w - |d|, d);
    }
    if 1 <= w && n < Pow10(w) {
      DigitsFit(n, w);
    }
  }

  /** `%0wd` of a signed value: a minus sign counts towards the width, zeros go after it. */
  function FormatInt(n: int, w: nat): string
  {
    if n < 0 then "-" + PadDecimal(-n, if w == 0 then 0 else w - 1) else PadDecimal(n, w)
  }
}
