/** The size formatter: a byte count as tenths of a unit. */
module FileSizes {

  datatype Unit = Bytes | KiB | MiB | GiB | TiB

  /** A shown quantity: tenths / 10 of unit. */
  datatype Shown = Shown(tenths: int, unit: Unit)

  /** Ten times this many tenths make one unit; the formatter divides by it. */
  function TenthOf(u: Unit): real {
    match u
    case Bytes => 0.1
    case KiB => 102.4
    case MiB => 104857.6
    case GiB => 107374182.4
    case TiB => 109951162777.6
  }

  /** Rounding to the nearest integer, halves upwards. */
  function Round(x: real): int { (x + 0.5).Floor }

  function FileSize(size: nat): Shown {
    var s := size as real;
    if s >= 1024.0 * 1024.0 * 1024.0 * 1024.0 / 10.0 then
      Shown(Round(s / (1024.0 * 1024.0 * 1024.0 * 1024.0 / 10.0)), TiB)
    else if s >= 1024.0 * 1024.0 * 1024.0 / 10.0 then
      Shown(Round(s / (1024.0 * 1024.0 * 1024.0 / 10.0)), GiB)
    else if s >= 1024.0 * 1024.0 / 10.0 then
      Shown(Round(s / (1024.0 * 1024.0 / 10.0)), MiB)
    else if s >= 1024.0 / 10.0 then
      Shown(Round(s / (1024.0 / 10.0)), KiB)
    else
      Shown(Round(s * 10.0), Bytes)
  }

  /** The bytes a shown quantity stands for. */
  function Value(s: Shown): real { s.tenths as real * TenthOf(s.unit) }

  lemma RoundNear(x: real)
    ensures x - 0.5 < Round(x) as real <= x + 0.5
  {
  }

  lemma FileSizeInUnit(size: nat)
    ensures var s := FileSize(size); s.tenths == Round(size as real / TenthOf(s.unit))
  {
    assert size as real / 0.1 == size as real * 10.0;
  }

  /** The shown quantity is within a twentieth of its unit of the true size. */
  lemma FileSizeIsNear(size: nat)
    ensures var s := FileSize(size);
      -(TenthOf(s.unit) / 2.0) <= Value(s) - size as real <= TenthOf(s.unit) / 2.0
  {
    var s := FileSize(size);
    var t := TenthOf(s.unit);
    var x := size as real / t;
    FileSizeInUnit(size);
    RoundNear(x);
    assert x * t == size as real;
    Widen(x, s.tenths as real, t);
  }

  lemma Widen(x: real, n: real, t: real)
    requires t > 0.0 && x - 0.5 <= n <= x + 0.5
    ensures x * t - t / 2.0 <= n * t <= x * t + t / 2.0
  {
    Times(x - 0.5, n, t);
    Times(n, x + 0.5, t);
  }

  lemma Times(a: real, b: real, t: real)
    requires a <= b && t > 0.0
    ensures a * t <= b * t
  {
  }

  lemma RoundMonotone(x: real, y: real)
    requires x <= y
    ensures Round(x) <= Round(y)
  {
  }

  /** Below TiB at most 102.4 of a unit is shown; at KiB and above at least 0.1. */
  lemma FileSizeIsShort(size: nat)
    ensures var s := FileSize(size);
      && (s.unit != TiB ==> s.tenths <= 1024)
      && (s.unit != Bytes ==> s.tenths >= 1)
  {
  }

  /** 1024 to the power of n. */
  function Power(n: nat): real { if n == 0 then 1.0 else 1024.0 * Power(n - 1) }

  lemma TenthsOfPowers(u: Unit)
    ensures 10.0 * TenthOf(u) == Power(Rank(u))
  {
    assert Power(1) == 1024.0 && Power(2) == 1024.0 * 1024.0 && Power(3) == 1024.0 * Power(2);
    assert Power(4) == 1024.0 * Power(3);
  }

  /** The unit is the largest power of 1024 of which a tenth is not more than the size, or the byte. */
  lemma UnitIsLargest(size: nat)
    ensures var u := FileSize(size).unit;
      && 10.0 * TenthOf(u) == Power(Rank(u))
      && (u != Bytes ==> Power(Rank(u)) <= 10.0 * size as real)
      && forall v | Rank(v) > Rank(u) :: 10.0 * size as real < Power(Rank(v))
  {
    TenthsOfPowers(FileSize(size).unit);
    forall v | Rank(v) > Rank(FileSize(size).unit) ensures 10.0 * size as real < Power(Rank(v)) {
      TenthsOfPowers(v);
    }
  }

  function Rank(u: Unit): nat {
    match u
    case Bytes => 0
    case KiB => 1
    case MiB => 2
    case GiB => 3
    case TiB => 4
  }

  lemma UnitsGrow(a: nat, b: nat)
    requires a <= b
    ensures Rank(FileSize(a).unit) <= Rank(FileSize(b).unit)
  {
  }

  /** Even the largest quantity shown in one unit is no more than the smallest shown in a larger one. */
  lemma UnitsFit(u: Unit, v: Unit)
    requires Rank(u) < Rank(v)
    ensures 1024.0 * TenthOf(u) <= TenthOf(v)
  {
  }

  /** A larger file is never shown as a smaller quantity, also where the unit changes. */
  lemma FileSizeIsMonotone(a: nat, b: nat)
    requires a <= b
    ensures Value(FileSize(a)) <= Value(FileSize(b))
  {
    var s, t := FileSize(a), FileSize(b);
    UnitsGrow(a, b);
    if s.unit == t.unit {
      SameUnitMonotone(a, b);
    } else {
      FileSizeIsShort(a);
      FileSizeIsShort(b);
      UnitsFit(s.unit, t.unit);
      Times(s.tenths as real, 1024.0, TenthOf(s.unit));
      Times(1.0, t.tenths as real, TenthOf(t.unit));
    }
  }

  lemma SameUnitMonotone(a: nat, b: nat)
    requires a <= b && FileSize(a).unit == FileSize(b).unit
    ensures Value(FileSize(a)) <= Value(FileSize(b))
  {
    var s, t := FileSize(a), FileSize(b);
    var u := TenthOf(s.unit);
    FileSizeInUnit(a);
    FileSizeInUnit(b);
    Divide(a as real, b as real, u);
    RoundMonotone(a as real / u, b as real / u);
    Times(s.tenths as real, t.tenths as real, u);
  }

  lemma Divide(a: real, b: real, u: real)
    requires a <= b && u > 0.0
    ensures a / u <= b / u
  {
    assert b / u - a / u == (b - a) / u;
  }
}
