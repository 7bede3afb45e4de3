/** `formatFileSize` (src/utils/helpers.ts, and the same function in
    public/app.js): the unit band chosen for a byte count. The numeric part
    of the larger bands is `toFixed(2)` of a floating-point quotient; that
    rendering is a parameter of the model. */
module FileSize {
  import opened Common
  import opened Text

  datatype Unit = B | KB | MB | GB

  const KiB: nat := 1024
  const MiB: nat := 1048576
  const GiB: nat := 1073741824

  function UnitName(u: Unit): string {
    match u
    case B => "B"
    case KB => "KB"
    case MB => "MB"
    case GB => "GB"
  }

  /** The number of bytes one unit stands for. */
  function UnitBytes(u: Unit): nat {
    match u
    case B => 1
    case KB => KiB
    case MB => MiB
    case GB => GiB
  }

  function Pow(b: nat, e: nat): nat {
    if e == 0 then 1 else b * Pow(b, e - 1)
  }

  /** The band the guards of `formatFileSize` select: the largest unit of
      which the size holds at least one, bytes when it holds no kibibyte. */
  function UnitFor(bytes: nat): (u: Unit)
    ensures u == B || UnitBytes(u) <= bytes
    ensures u == GB || bytes < 1024 * UnitBytes(u)
  {
    if bytes < 1024 then B
    else if bytes < 1048576 then KB
    else if bytes < 1073741824 then MB
    else GB
  }

  /** `formatFileSize(bytes)`; `toFixed2(x)` stands for `x.toFixed(2)`. */
  function FormatFileSize(bytes: nat, toFixed2: real -> string): (shown: string)
    ensures EndsWith(shown, " " + UnitName(UnitFor(bytes)))
  {
    var u := UnitFor(bytes);
    var number := if u == B then DecimalString(bytes) else toFixed2(bytes as real / UnitBytes(u) as real);
    number + " " + UnitName(u)
  }

  /** The thresholds are 1024, 1024^2 and 1024^3, and exactly one band
      applies to every size: a unit is chosen iff the size is at least one
      of that unit and (below GB) less than 1024 of them. */
  lemma {:induction false} BandsPartitionSizes(bytes: nat, u: Unit)
    ensures UnitBytes(KB) == Pow(1024, 1) && UnitBytes(MB) == Pow(1024, 2) && UnitBytes(GB) == Pow(1024, 3)
    ensures UnitFor(bytes) == u <==>
      (u == B || UnitBytes(u) <= bytes) && (u == GB || bytes < 1024 * UnitBytes(u))
  {
    assert Pow(1024, 1) == 1024;
    assert Pow(1024, 2) == 1024 * Pow(1024, 1);
    assert Pow(1024, 3) == 1024 * Pow(1024, 2);
  }

  /** In the KB and MB bands the quotient shown is in [1, 1024); in the GB
      band it is at least 1 and unbounded, since there is no larger unit. */
  lemma ScaledValueInRange(bytes: nat)
    requires UnitFor(bytes) != B
    ensures 1.0 <= bytes as real / UnitBytes(UnitFor(bytes)) as real
    ensures UnitFor(bytes) != GB ==> bytes as real / UnitBytes(UnitFor(bytes)) as real < 1024.0
  {
    var d := UnitBytes(UnitFor(bytes)) as real;
    assert d > 0.0;
    assert d <= bytes as real;
    if UnitFor(bytes) != GB {
      assert bytes as real < 1024.0 * d;
    }
  }

  /** Below 1024 the label is the exact integer, which `parseInt` reads back. */
  lemma {:induction false} ByteLabelReadsBack(bytes: nat, toFixed2: real -> string)
    requires bytes < KiB
    ensures FormatFileSize(bytes, toFixed2) == DecimalString(bytes) + " B"
    ensures ParseInt(FormatFileSize(bytes, toFixed2)) == Some(bytes)
  {
    var d := DecimalString(bytes);
    DigitPrefixStopsAtSpace(d, " B");
    ParseIntDecimalString(bytes);
    AllDigitsPrefix(d);
  }

  lemma {:induction false} DigitPrefixStopsAtSpace(d: string, rest: string)
    requires forall i :: 0 <= i < |d| ==> IsDigit(d[i])
    requires rest != [] && !IsDigit(rest[0])
    ensures DigitPrefix(d + rest) == d
    decreases |d|
  {
    if d != [] {
      DigitPrefixStopsAtSpace(d[1..], rest);
      assert (d + rest)[1..] == d[1..] + rest;
    } else {
      assert d + rest == rest;
    }
  }
}
