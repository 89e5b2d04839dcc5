/**
 * Indicator-encoded character buffers (the helpers behind `String< Size >`)
 * and the text form of `Timestamp`. A buffer is a character array plus a
 * length indicator; a negative indicator stands for SQL NULL, otherwise it
 * is the number of meaningful characters at the front of the buffer.
 */
module Types {
  import opened Text

  function Min(a: int, b: int): int
  {
    if a <= b then a else b
  }

  // ---------------------------------------------------------------------
  // detail::assign

  /** The buffer contents after `assign`: the first `n` bytes come from `src` when `n` is positive. */
  function AssignedBytes(dst: seq<char>, src: seq<char>, n: int): (r: seq<char>)
    requires n <= |src| && n <= |dst|
    ensures |r| == |dst|
  {
    if n > 0 then src[..n] + dst[n..] else dst
  }

  /** `std::memcpy( dst, src, n )`, one byte at a time. */
  method MemCpy(dst: array<char>, src: seq<char>, n: nat)
    requires n <= |src| && n <= dst.Length
    modifies dst
    ensures dst[..] == src[..n] + old(dst[..])[n..]
  {
    for i := 0 to n
      invariant forall j :: 0 <= j < i ==> dst[j] == src[j]
      invariant forall j :: i <= j < dst.Length ==> dst[j] == old(dst[j])
    {
      dst[i] := src[i];
    }
    assert dst[..] == src[..n] + old(dst[..])[n..];
  }

  /**
   * `assign( dst, dst_ind, src, src_ind )`: copies `src_ind` bytes only when
   * it is positive (a NULL or empty source leaves the bytes alone) and
   * always copies the indicator. Returns the new `dst_ind`.
   */
  method Assign(dst: array<char>, src: seq<char>, srcInd: int) returns (dstInd: int)
    requires srcInd <= |src| && srcInd <= dst.Length
    modifies dst
    ensures dstInd == srcInd
    ensures dst[..] == AssignedBytes(old(dst[..]), src, srcInd)
  {
    if srcInd > 0 {
      MemCpy(dst, src, srcInd);
    }
    dstInd := srcInd;
  }

  /**
   * `assign( dst, dst_ind, std::string )`: copies every byte of `src` and
   * sets the indicator to its length; the caller keeps the length within
   * the buffer.
   */
  method AssignString(dst: array<char>, src: string) returns (dstInd: int)
    requires |src| <= dst.Length
    modifies dst
    ensures dstInd == |src|
    ensures dst[..] == AssignedBytes(old(dst[..]), src, |src|)
  {
    MemCpy(dst, src, |src|);
    dstInd := |src|;
  }

  // ---------------------------------------------------------------------
  // detail::compare, detail::str, detail::c_str

  /** `std::memcmp( a, b, n ) == 0`, comparing byte by byte. */
  function MemEqual(a: seq<char>, b: seq<char>, n: nat): (r: bool)
    requires n <= |a| && n <= |b|
    ensures r <==> a[..n] == b[..n]
  {
    if n == 0 then true
    else
      assert a[..n] == a[..n - 1] + [a[n - 1]] && b[..n] == b[..n - 1] + [b[n - 1]];
      MemEqual(a, b, n - 1) && a[n - 1] == b[n - 1]
  }

  /**
   * `compare`: false when either side is NULL, so NULL never equals NULL;
   * otherwise only the first min(lhs_ind, rhs_ind) bytes are compared.
   */
  function Compare(lhs: seq<char>, lhsInd: int, rhs: seq<char>, rhsInd: int): (r: bool)
    requires lhsInd <= |lhs| && rhsInd <= |rhs|
    ensures r <==> 0 <= lhsInd && 0 <= rhsInd && lhs[..Min(lhsInd, rhsInd)] == rhs[..Min(lhsInd, rhsInd)]
  {
    if lhsInd < 0 || rhsInd < 0 then false
    else MemEqual(lhs, rhs, Min(lhsInd, rhsInd))
  }

  /** `str`: the empty string for NULL, otherwise the first `ind` bytes. */
  function Str(val: seq<char>, ind: int): (r: string)
    requires ind <= |val|
    ensures |r| == if ind < 0 then 0 else ind
  {
    if ind < 0 then [] else val[..ind]
  }

  /**
   * For non-NULL values, `compare` holds exactly when one value's text is a
   * prefix of the other's: equal texts compare equal, and so does a proper
   * prefix.
   */
  lemma CompareIsPrefixRelation(lhs: seq<char>, lhsInd: int, rhs: seq<char>, rhsInd: int)
    requires 0 <= lhsInd <= |lhs| && 0 <= rhsInd <= |rhs|
    ensures Compare(lhs, lhsInd, rhs, rhsInd) <==> Str(lhs, lhsInd) <= Str(rhs, rhsInd) || Str(rhs, rhsInd) <= Str(lhs, lhsInd)
  {
    var m := Min(lhsInd, rhsInd);
    var l, r := Str(lhs, lhsInd), Str(rhs, rhsInd);
    assert l[..m] == lhs[..m] && r[..m] == rhs[..m];
    if l <= r {
      assert l == r[..|l|];
    }
    if r <= l {
      assert r == l[..|r|];
    }
  }

  /** The prefix quirk: "abc" compares equal to "abcdef" although their texts differ. */
  lemma ComparePrefixQuirk()
    ensures Compare("abc", 3, "abcdef", 6)
    ensures Str("abc", 3) != Str("abcdef", 6)
  {
    CompareIsPrefixRelation("abc", 3, "abcdef", 6);
    assert "abcdef"[..3] == "abc";
  }

  /** Reading a string back after the `std::string` overload of `assign` gives the original. */
  lemma StrAfterAssignString(buffer: seq<char>, s: string)
    requires |s| <= |buffer|
    ensures Str(AssignedBytes(buffer, s, |s|), |s|) == s
  {
  }

  /** The characters a C reader sees from the start of `s`: everything before the first NUL. */
  function CStringAt(s: seq<char>): (r: seq<char>)
    requires '\0' in s
    ensures '\0' !in r && r <= s && s[|r|] == '\0'
  {
    if s[0] == '\0' then [] else [s[0]] + CStringAt(s[1..])
  }

  /**
   * `c_str( val, ind )`: null for NULL; otherwise writes a terminator at
   * `val[ ind ]`, leaving every other byte alone, and hands back the buffer.
   */
  method CStr(val: array<char>, ind: int) returns (r: array?<char>)
    requires ind < val.Length
    modifies val
    ensures ind < 0 ==> r == null && val[..] == old(val[..])
    ensures 0 <= ind ==> r == val && val[..] == old(val[..])[ind := '\0']
  {
    if ind < 0 {
      return null;
    }
    val[ind] := '\0';
    return val;
  }

  /**
   * What a C reader sees through `c_str` is what `str` returns, provided
   * the value holds no NUL of its own.
   */
  lemma {:induction false} CStrReadsAsStr(bytes: seq<char>, ind: nat)
    requires ind < |bytes| && '\0' !in bytes[..ind]
    ensures '\0' in bytes[ind := '\0'] && CStringAt(bytes[ind := '\0']) == Str(bytes, ind)
  {
    var t := bytes[ind := '\0'];
    assert t[ind] == '\0';
    if ind > 0 {
      assert bytes[0] in bytes[..ind];
      assert t[1..] == bytes[1..][ind - 1 := '\0'];
      assert bytes[1..][..ind - 1] == bytes[..ind][1..];
      CStrReadsAsStr(bytes[1..], ind - 1);
      assert bytes[..ind] == [bytes[0]] + bytes[1..][..ind - 1];
    }
  }

  // ---------------------------------------------------------------------
  // Timestamp::str

  newtype Short = x: int | -0x8000 <= x < 0x8000
  newtype UShort = x: int | 0 <= x < 0x1_0000
  newtype UInt = x: int | 0 <= x < 0x1_0000_0000

  datatype Timestamp = Timestamp(year: Short, month: UShort, day: UShort, hour: UShort, minute: UShort, second: UShort, fraction: UInt)

  /** `%04d-%02d-%02dT%02d:%02d:%02d.%03dZ` of the seven fields. */
  function TimestampStr(ts: Timestamp): string
  {
    Stamp(FormatInt(ts.year as int, 4), PadDecimal(ts.month as nat, 2), PadDecimal(ts.day as nat, 2),
          PadDecimal(ts.hour as nat, 2), PadDecimal(ts.minute as nat, 2), PadDecimal(ts.second as nat, 2),
          PadDecimal(ts.fraction as nat, 3))
  }

  /** The fixed punctuation of the format around the seven rendered fields. */
  function Stamp(y: string, mo: string, d: string, h: string, mi: string, s: string, f: string): string
  {
    y + "-" + mo + "-" + d + "T" + h + ":" + mi + ":" + s + "." + f + "Z"
  }

  predicate FitsWidths(ts: Timestamp)
  {
    0 <= ts.year <= 9999 && ts.month <= 99 && ts.day <= 99 && ts.hour <= 99
    && ts.minute <= 99 && ts.second <= 99 && ts.fraction <= 999
  }

  /** With fields of widths 4, 2, 2, 2, 2, 2 and 3 every field and separator sits at a fixed offset. */
  lemma StampLayout(y: string, mo: string, d: string, h: string, mi: string, s: string, f: string)
    requires |y| == 4 && |mo| == 2 && |d| == 2 && |h| == 2 && |mi| == 2 && |s| == 2 && |f| == 3
    ensures var r := Stamp(y, mo, d, h, mi, s, f);
      && |r| == 24
      && r[4] == '-' && r[7] == '-' && r[10] == 'T' && r[13] == ':' && r[16] == ':' && r[19] == '.' && r[23] == 'Z'
      && r[0..4] == y && r[5..7] == mo && r[8..10] == d && r[11..13] == h
      && r[14..16] == mi && r[17..19] == s && r[20..23] == f
  {
    var r := Stamp(y, mo, d, h, mi, s, f);
    var p2 := y + "-" + mo;
    var p4 := p2 + "-" + d;
    var p6 := p4 + "T" + h;
    var p8 := p6 + ":" + mi;
    var p10 := p8 + ":" + s;
    var p12 := p10 + "." + f;
    assert r == p12 + "Z";
    assert p2[5..7] == mo && p4[8..10] == d && p6[11..13] == h;
    assert p8[14..16] == mi && p10[17..19] == s && p12[20..23] == f;
    assert p2 <= p4 <= p6 <= p8 <= p10 <= p12 <= r;
  }

  /**
   * When every field fits its width the text is exactly 24 characters with
   * the separators at fixed positions, and each field reads back as its value.
   */
  lemma TimestampStrLayout(ts: Timestamp)
    requires FitsWidths(ts)
    ensures var r := TimestampStr(ts);
      && |r| == 24
      && r[4] == '-' && r[7] == '-' && r[10] == 'T' && r[13] == ':' && r[16] == ':' && r[19] == '.' && r[23] == 'Z'
      && AllDigits(r[0..4]) && DecimalValue(r[0..4]) == ts.year as int
      && AllDigits(r[5..7]) && DecimalValue(r[5..7]) == ts.month as int
      && AllDigits(r[8..10]) && DecimalValue(r[8..10]) == ts.day as int
      && AllDigits(r[11..13]) && DecimalValue(r[11..13]) == ts.hour as int
      && AllDigits(r[14..16]) && DecimalValue(r[14..16]) == ts.minute as int
      && AllDigits(r[17..19]) && DecimalValue(r[17..19]) == ts.second as int
      && AllDigits(r[20..23]) && DecimalValue(r[20..23]) == ts.fraction as int
  {
    assert Pow10(2) == 100 && Pow10(3) == 1000 && Pow10(4) == 10000;
    PadDecimalRoundTrip(ts.year as nat, 4);
    PadDecimalRoundTrip(ts.month as nat, 2);
    PadDecimalRoundTrip(ts.day as nat, 2);
    PadDecimalRoundTrip(ts.hour as nat, 2);
    PadDecimalRoundTrip(ts.minute as nat, 2);
    PadDecimalRoundTrip(ts.second as nat, 2);
    PadDecimalRoundTrip(ts.fraction as nat, 3);
    StampLayout(FormatInt(ts.year as int, 4), PadDecimal(ts.month as nat, 2), PadDecimal(ts.day as nat, 2),
                PadDecimal(ts.hour as nat, 2), PadDecimal(ts.minute as nat, 2), PadDecimal(ts.second as nat, 2),
                PadDecimal(ts.fraction as nat, 3));
  }

  /** The year of the epoch renders in four digits. */
  lemma EpochYear()
    ensures FormatInt(1970, 4) == "1970"
  {
    assert Digits(19) == "19";
    assert Digits(197) == "197";
    assert Digits(1970) == "1970";
  }

  /** The epoch renders as 1970-01-01T00:00:00.000Z. */
  lemma EpochStr()
    ensures TimestampStr(Timestamp(1970, 1, 1, 0, 0, 0, 0)) == "1970-01-01T00:00:00.000Z"
  {
    EpochYear();
    var one, zero2, zero3 := PadDecimal(1, 2), PadDecimal(0, 2), PadDecimal(0, 3);
    assert Digits(1) == "1" && Digits(0) == "0";
    assert one == "01" && zero2 == "00" && zero3 == "000";
    assert Stamp("1970", one, one, zero2, zero2, zero2, zero3) == "1970-01-01T00:00:00.000Z";
  }
}
