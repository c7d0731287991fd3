/** Fixed-point money: four decimals scaled to a 64-bit integer. */
module Money {

  const PRECISION := 18
  const SCALE := 4
  const FACTOR: nat := 10000

  /** A decimal number: coefficient / 10^places. */
  datatype Decimal = Decimal(coefficient: nat, places: nat)

  function Pow10(n: nat): (p: nat)
    ensures p >= 1
  {
    if n == 0 then 1 else 10 * Pow10(n - 1)
  }

  ghost function Value(d: Decimal): real {
    d.coefficient as real / Pow10(d.places) as real
  }

  /** The schema's limits: four decimals, and eighteen digits of which four are decimals. */
  ghost predicate InRange(d: Decimal) {
    d.places <= SCALE && d.coefficient < Pow10(PRECISION - SCALE + d.places)
  }

  /** The integer that SQLite stores. */
  function Bound(d: Decimal): nat
    requires d.places <= SCALE
  {
    d.coefficient * Pow10(SCALE - d.places)
  }

  function Result(stored: nat): Decimal {
    Decimal(stored, SCALE)
  }

  lemma {:induction false} PowAdds(a: nat, b: nat)
    ensures Pow10(a + b) == Pow10(a) * Pow10(b)
  {
    if a > 0 {
      PowAdds(a - 1, b);
      assert Pow10(a + b) == 10 * Pow10(a - 1 + b);
    }
  }

  lemma {:induction false} SmallPowers()
    ensures Pow10(4) == 10000 && Pow10(18) == 1000000000000000000
  {
  }

  /** Every amount that the schema accepts fits a signed 64-bit column. */
  lemma StoredFits(d: Decimal)
    requires InRange(d)
    ensures Bound(d) < 1000000000000000000 < 0x8000_0000_0000_0000
  {
    var p, q := PRECISION - SCALE + d.places, SCALE - d.places;
    PowAdds(p, q);
    assert p + q == 18;
    SmallPowers();
    Scale(d.coefficient, Pow10(p), Pow10(q));
  }

  lemma Scale(a: nat, b: nat, c: nat)
    requires a < b && c >= 1
    ensures a * c < b * c
  {
  }

  /** Storing loses nothing: the column is the value times 10,000. */
  lemma StoredValue(d: Decimal)
    requires d.places <= SCALE
    ensures Bound(d) as real == Value(d) * FACTOR as real
  {
  }

  /** Bind and result are inverse up to the spelling of the decimal, and two
      spellings share a column value exactly when they are the same amount. */
  lemma BindRoundTrip(d: Decimal, e: Decimal, n: nat)
    requires d.places <= SCALE && e.places <= SCALE
    ensures Value(Result(Bound(d))) == Value(d) && Bound(Result(n)) == n
    ensures Bound(d) == Bound(e) <==> Value(d) == Value(e)
  {
    SmallPowers();
    StoredValue(d);
    StoredValue(e);
    assert Pow10(0) == 1;
    assert Value(Result(Bound(d))) == Bound(d) as real / 10000.0;
  }

  // ---------------------------------------------------------------------
  // Sums

  ghost function Total(amounts: seq<Decimal>): real {
    if amounts == [] then 0.0 else Value(amounts[0]) + Total(amounts[1..])
  }

  /** Adding up stored integers and scaling back is adding up the amounts. */
  method SumStored(amounts: seq<Decimal>) returns (sum: nat)
    requires forall i :: 0 <= i < |amounts| ==> amounts[i].places <= SCALE
    ensures sum as real == Total(amounts) * FACTOR as real
  {
    sum := 0;
    assert amounts[..0] == [];
    for i := 0 to |amounts|
      invariant sum as real == Total(amounts[..i]) * FACTOR as real
    {
      StoredValue(amounts[i]);
      TotalAppend(amounts[..i], amounts[i]);
      assert amounts[..i + 1] == amounts[..i] + [amounts[i]];
      sum := sum + Bound(amounts[i]);
    }
    assert amounts[..|amounts|] == amounts;
  }

  lemma {:induction false} TotalAppend(amounts: seq<Decimal>, d: Decimal)
    ensures Total(amounts + [d]) == Total(amounts) + Value(d)
  {
    if amounts == [] {
      assert [d][1..] == [];
    } else {
      assert (amounts + [d])[1..] == amounts[1..] + [d];
      TotalAppend(amounts[1..], d);
    }
  }
}
