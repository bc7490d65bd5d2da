/** Byte-unit conversion and numeric extraction from decoded JSON values. */
module Convert {
  import opened Wrappers

  const Bytes: int := 1
  const Kilobytes: int := 2
  const Megabytes: int := 3
  const Gigabytes: int := 4
  const Terabytes: int := 5
  const Petabytes: int := 6

  function Pow1024(n: nat): (r: real)
    ensures r >= 1.0
  {
    if n == 0 then 1.0 else 1024.0 * Pow1024(n - 1)
  }

  /** The converted value: one division by 1024 per unit up, one multiplication per unit down. */
  function Converted(f: real, fromUnit: int, toUnit: int): real {
    if fromUnit < toUnit then f / Pow1024(toUnit - fromUnit)
    else if fromUnit > toUnit then f * Pow1024(fromUnit - toUnit)
    else f
  }

  /** Over the reals a conversion is undone by the conversion back. */
  lemma ConvertRoundTrip(f: real, a: int, b: int)
    ensures Converted(Converted(f, a, b), b, a) == f
  {
  }

  /** One unit up divides by exactly 1024, and one unit down multiplies by exactly 1024. */
  lemma OneUnitStep(f: real, unit: int)
    ensures Converted(f, unit, unit + 1) == f / 1024.0
    ensures Converted(f, unit + 1, unit) == f * 1024.0
  {
    assert Pow1024(1) == 1024.0 * Pow1024(0);
  }

  lemma {:induction false} Pow1024Add(m: nat, n: nat)
    ensures Pow1024(m + n) == Pow1024(m) * Pow1024(n)
  {
    if m > 0 {
      Pow1024Add(m - 1, n);
    }
  }

  /** Converting up in two steps is converting up once: Bytes to Megabytes via Kilobytes is Bytes to Megabytes. */
  lemma ConvertUpCompose(f: real, a: int, b: int, c: int)
    requires a <= b <= c
    ensures Converted(Converted(f, a, b), b, c) == Converted(f, a, c)
  {
    if a < b < c {
      Pow1024Add(b - a, c - b);
      assert c - a == (b - a) + (c - b);
      DivideTwice(f, Pow1024(b - a), Pow1024(c - b));
    }
  }

  lemma DivideTwice(f: real, p: real, q: real)
    requires p > 0.0 && q > 0.0
    ensures f / p / q == f / (p * q)
  {
  }

  method BytesConvert(f: real, fromUnit: int, toUnit: int) returns (r: real)
    ensures r == Converted(f, fromUnit, toUnit)
    ensures fromUnit == toUnit ==> r == f
  {
    r := f;
    if fromUnit < toUnit {
      var i := fromUnit - toUnit;
      while i != 0
        invariant fromUnit - toUnit <= i <= 0
        invariant r == f / Pow1024(i - (fromUnit - toUnit))
        decreases -i
      {
        r := r / 1024.0;
        i := i + 1;
      }
    } else if fromUnit > toUnit {
      var i := fromUnit - toUnit;
      while i != 0
        invariant 0 <= i <= fromUnit - toUnit
        invariant r == f * Pow1024((fromUnit - toUnit) - i)
        decreases i
      {
        r := r * 1024.0;
        i := i - 1;
      }
    }
  }

  /** A value as the JSON decoder hands it over, by dynamic type. */
  datatype GoValue = Float64(f: real) | Int(i: int) | Int64(i: int) | Int32(i: int) | Float32(f: real) | OtherType

  /** The numeric types convert with no error; anything else is (0, "Unknown Type"). */
  function InterfaceToFloat64(t: GoValue): (r: (real, Option<string>))
    ensures r.1.None? <==> !t.OtherType?
    ensures (t.Float64? || t.Float32?) ==> r.0 == t.f
    ensures (t.Int? || t.Int64? || t.Int32?) ==> r.0 == t.i as real
    ensures t.OtherType? ==> r == (0.0, Some("Unknown Type"))
  {
    match t
    case Float64(v) => (v, None)
    case Int(v) => (v as real, None)
    case Int64(v) => (v as real, None)
    case Int32(v) => (v as real, None)
    case Float32(v) => (v, None)
    case OtherType => (0.0, Some("Unknown Type"))
  }
}
