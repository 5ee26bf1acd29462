// The time scaling of HMP load tracking and its sysfs view
// (backup/fair_mp.c, 4025-4043 and 4107-4111).

module TimeScale {
  import opened Common
  import opened Words

  /** hmp_variable_scale_convert: a 64-bit time times a 16.16 multiplier, by two
      32-bit halves. */
  function Convert(delta: nat, multiplier: nat): nat {
    var high := delta / 0x1_0000_0000;
    var low := delta % 0x1_0000_0000;
    Wrap(Wrap(low * multiplier) / 0x1_0000 + Wrap(Wrap(high * multiplier) * 0x1_0000))
  }

  lemma HalvesFit(x: nat, m: nat)
    requires x < 0x1_0000_0000 && m < 0x8000_0000
    ensures x * m < U64
  {
    MulMono(x, 0x1_0000_0000, m);
  }

  /** Splitting off the high half of a product and shifting commutes. */
  lemma SplitProduct(high: nat, low: nat, m: nat)
    ensures (high * 0x1_0000_0000 + low) * m / 0x1_0000 == high * m * 0x1_0000 + low * m / 0x1_0000
  {
    var h, l := high * m, low * m;
    assert (high * 0x1_0000_0000 + low) * m == h * 0x1_0000_0000 + l;
    ShiftSum(h, l);
  }

  lemma ShiftSum(h: nat, l: nat)
    ensures (h * 0x1_0000_0000 + l) / 0x1_0000 == h * 0x1_0000 + l / 0x1_0000
  {
  }

  lemma WrapAdds(a: nat, b: nat)
    ensures Wrap(a + Wrap(b)) == Wrap(a + b)
  {
  }

  /** For every time and every multiplier the halves put together are the exact
      product, rounded down and taken to 64 bits; so the conversion is exact if
      and only if the exact product fits. */
  lemma ConvertIsScaling(delta: nat, multiplier: nat)
    requires delta < U64 && multiplier < 0x8000_0000
    ensures Convert(delta, multiplier) == Wrap(delta * multiplier / 0x1_0000)
    ensures Convert(delta, multiplier) == delta * multiplier / 0x1_0000 <==> delta * multiplier / 0x1_0000 < U64
  {
    var high, low := delta / 0x1_0000_0000, delta % 0x1_0000_0000;
    HalvesFit(high, multiplier);
    HalvesFit(low, multiplier);
    SplitProduct(high, low, multiplier);
    WrapAdds(low * multiplier / 0x1_0000, high * multiplier * 0x1_0000);
    assert delta == high * 0x1_0000_0000 + low;
  }

  // ------------------------------------------------------------ the sysfs view

  const UNIT: nat := 0x20_0000   // LOAD_AVG_PERIOD << HMP_VARIABLE_SCALE_SHIFT

  /** hmp_period_tofrom_sysfs, defined only for a nonzero value. */
  function ToFromSysfs(value: nat): nat
    requires value > 0
  {
    UNIT / value
  }

  lemma QuotientBounds(n: nat, v: nat)
    requires v > 0
    ensures n / v * v <= n < (n / v + 1) * v
  {
    assert n == n / v * v + n % v;
  }

  lemma QuotientUnique(n: nat, v: nat, q: nat)
    requires v > 0 && q * v <= n < (q + 1) * v
    ensures n / v == q
  {
    QuotientBounds(n, v);
    var p := n / v;
    if p < q { MulMono(p + 1, q, v); }
    if q < p { MulMono(q + 1, p, v); }
  }

  /** The value written can be read back if and only if it is between 1 and 2^21;
      reading back never shows less than what was written, and writing what was
      read leaves the stored multiplier as it is. */
  lemma SysfsRoundTrip(v: nat)
    requires v > 0
    ensures ToFromSysfs(v) > 0 <==> v <= UNIT
    ensures v <= UNIT ==>
              var stored := ToFromSysfs(v);
              var shown := ToFromSysfs(stored);
              shown >= v && ToFromSysfs(shown) == stored
  {
    QuotientBounds(UNIT, v);
    if v <= UNIT {
      var stored := UNIT / v;
      QuotientBounds(UNIT, stored);
      var shown := UNIT / stored;
      if shown < v { MulMono(shown + 1, v, stored); }
      MulMono(v, shown, stored + 1);
      QuotientUnique(UNIT, shown, stored);
    } else {
      QuotientUnique(UNIT, v, 0);
    }
  }
}
