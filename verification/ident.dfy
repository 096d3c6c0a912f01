/** An optional value: None, or Some carrying it. */
module Maybe {
  datatype Option<+T> = None | Some(value: T)
}

/**
 The composite identifier ("uuid") that names every album and track on disk:
 the entity's count field rendered in decimal and zero-padded to at least two
 characters, then ':', the remote URI, ':', the display name -- the Python
 format string '{:02d}:{}:{}'.
 */
module Ident {
  import opened Maybe

  predicate IsDigit(ch: char) {
    '0' <= ch <= '9'
  }

  predicate AllDigits(s: string) {
    forall k :: 0 <= k < |s| ==> IsDigit(s[k])
  }

  function DigitChar(d: nat): (ch: char)
    requires d < 10
    ensures IsDigit(ch)
  {
    (('0' as int) + d) as char
  }

  function DigitValue(ch: char): (d: nat)
    requires IsDigit(ch)
    ensures d < 10
  {
    (ch as int) - ('0' as int)
  }

  /** Decimal rendering of a natural number, without padding (Python's '{:d}'). */
  function Decimal(n: nat): (s: string)
    ensures |s| >= 1 && AllDigits(s)
    ensures |s| == 1 <==> n < 10
    ensures s[0] == '0' <==> n == 0
  {
    if n < 10 then [DigitChar(n)] else Decimal(n / 10) + [DigitChar(n % 10)]
  }

  /** Reads a string of decimal digits back as a number; leading zeros are allowed. */
  function ParseDecimal(s: string): nat
    requires AllDigits(s)
  {
    if |s| == 0 then 0 else ParseDecimal(s[..|s| - 1]) * 10 + DigitValue(s[|s| - 1])
  }

  function Zeros(k: nat): (z: string)
    ensures |z| == k
    ensures forall i :: 0 <= i < k ==> z[i] == '0'
  {
    if k == 0 then "" else "0" + Zeros(k - 1)
  }

  /** Left-pads a string with '0' up to the given width; longer strings are kept whole. */
  function PadLeft(s: string, width: nat): string
  {
    if |s| < width then Zeros(width - |s|) + s else s
  }

  /** The count part of an identifier: Python's '{:02d}' on a non-negative integer. */
  function FormatCount(n: nat): (s: string)
    ensures AllDigits(s)
    ensures |s| >= 2
    ensures n < 100 ==> |s| == 2
    ensures n >= 10 ==> s == Decimal(n)
  {
    PadLeft(Decimal(n), 2)
  }

  /**
   An identifier before rendering: the count field, the remote URI and the
   display name it is built from.
   */
  datatype Id = Id(count: nat, uri: string, name: string) {
    /** The text the identifier is written as. */
    function Text(): string {
      Uuid(count, uri, name)
    }
  }

  /** The composite identifier '{:02d}:{}:{}'.format(count, uri, name). */
  function Uuid(count: nat, uri: string, name: string): (id: string)
    ensures |id| >= |uri| + |name| + 4
  {
    FormatCount(count) + ":" + uri + ":" + name
  }

  /** Position of the first occurrence of `ch` in `s`, if any. */
  function IndexOf(s: string, ch: char): (r: Option<nat>)
    ensures r.None? ==> forall k :: 0 <= k < |s| ==> s[k] != ch
    ensures r.Some? ==> r.value < |s| && s[r.value] == ch
    ensures r.Some? ==> forall k :: 0 <= k < r.value ==> s[k] != ch
  {
    if |s| == 0 then None
    else if s[0] == ch then Some(0)
    else match IndexOf(s[1..], ch)
      case None => None
      case Some(k) => Some(k + 1)
  }

  /**
   Splits an identifier at its first ':' into the count it starts with and the
   remainder; the inverse of Uuid on its count part.
   */
  function SplitCount(id: string): Option<(nat, string)> {
    match IndexOf(id, ':')
    case None => None
    case Some(k) =>
      if k > 0 && AllDigits(id[..k]) then Some((ParseDecimal(id[..k]), id[k + 1..])) else None
  }

  lemma {:induction false} DecimalRoundTrip(n: nat)
    ensures ParseDecimal(Decimal(n)) == n
    decreases n
  {
    if n >= 10 {
      DecimalRoundTrip(n / 10);
      var s := Decimal(n);
      assert s[..|s| - 1] == Decimal(n / 10);
    }
  }

  lemma {:induction false} LeadingZeroIgnored(s: string)
    requires AllDigits(s)
    ensures ParseDecimal("0" + s) == ParseDecimal(s)
    decreases |s|
  {
    if |s| > 0 {
      var t := "0" + s;
      assert t[..|t| - 1] == "0" + s[..|s| - 1];
      LeadingZeroIgnored(s[..|s| - 1]);
    } else {
      assert ("0" + s)[..0] == "";
    }
  }

  lemma {:induction false} LeadingZerosIgnored(k: nat, s: string)
    requires AllDigits(s)
    ensures AllDigits(Zeros(k) + s)
    ensures ParseDecimal(Zeros(k) + s) == ParseDecimal(s)
    decreases k
  {
    if k == 0 {
      assert Zeros(k) + s == s;
    } else {
      LeadingZerosIgnored(k - 1, s);
      assert Zeros(k) + s == "0" + (Zeros(k - 1) + s);
      LeadingZeroIgnored(Zeros(k - 1) + s);
    }
  }

  /** Padding never changes the value: the count part reads back as the count. */
  lemma FormatCountRoundTrip(n: nat)
    ensures ParseDecimal(FormatCount(n)) == n
  {
    DecimalRoundTrip(n);
    var d := Decimal(n);
    if |d| < 2 {
      LeadingZerosIgnored(2 - |d|, d);
    }
  }

  lemma {:induction false} IndexOfAfterDigits(d: string, tail: string)
    requires AllDigits(d)
    ensures IndexOf(d + [':'] + tail, ':') == Some(|d|)
    decreases |d|
  {
    var s := d + [':'] + tail;
    if |d| > 0 {
      assert s[1..] == d[1..] + [':'] + tail;
      IndexOfAfterDigits(d[1..], tail);
    }
  }

  /**
   Splitting an identifier at its first ':' recovers the count and leaves
   exactly "uri:name": the count part never contains ':'.
   */
  lemma UuidRoundTrip(count: nat, uri: string, name: string)
    ensures SplitCount(Uuid(count, uri, name)) == Some((count, uri + ":" + name))
  {
    var f := FormatCount(count);
    var tail := uri + ":" + name;
    var id := Uuid(count, uri, name);
    assert id == f + [':'] + tail;
    IndexOfAfterDigits(f, tail);
    assert id[..|f|] == f;
    FormatCountRoundTrip(count);
    assert id[|f| + 1..] == uri + ":" + name;
  }

  /** Two identifiers that are equal were built from equal counts and equal "uri:name" tails. */
  lemma UuidInjective(c1: nat, u1: string, n1: string, c2: nat, u2: string, n2: string)
    requires Uuid(c1, u1, n1) == Uuid(c2, u2, n2)
    ensures c1 == c2
    ensures u1 + ":" + n1 == u2 + ":" + n2
  {
    UuidRoundTrip(c1, u1, n1);
    UuidRoundTrip(c2, u2, n2);
  }

  /** Single-digit counts get one leading zero; two-digit counts are kept as they are. */
  lemma FormatCountExamples()
    ensures FormatCount(1) == "01"
    ensures FormatCount(12) == "12"
  {
    assert DigitChar(1) == '1' && DigitChar(2) == '2';
    assert Decimal(1) == ['1'];
    assert Zeros(1) == ['0'];
    assert 12 / 10 == 1 && 12 % 10 == 2;
    assert Decimal(12) == ['1', '2'];
  }

  /** The identifier of the worked example: a one-track album with count 1. */
  lemma UuidExample()
    ensures Uuid(1, "album:1", "Demo Album") == "01:album:1:Demo Album"
  {
    FormatCountExamples();
  }
}
