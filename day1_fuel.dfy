/** Fuel needed to launch modules of a given mass: one third of the mass,
    rounded toward zero, minus two; and the "recursive" variant in which the
    fuel itself needs fuel until the extra amount is no longer positive. */
module Fuel {
  import opened Common

  /** `calculate_fuel`: `mass / 3 - 2` with Rust's truncating division. */
  function CalculateFuel(mass: int): (fuel: int)
    // for a non-negative mass, fuel + 2 is the largest q with 3 * q <= mass
    ensures mass >= 0 ==> 3 * (fuel + 2) <= mass < 3 * (fuel + 3)
    // for a negative mass the quotient rounds up toward zero
    ensures mass < 0 ==> 3 * (fuel + 2) - 3 < mass <= 3 * (fuel + 2) && fuel <= -2
    // positive fuel is always less than the mass it lifts
    ensures fuel > 0 ==> fuel < mass
  {
    TruncDiv(mass, 3) - 2
  }

  /** `calculate_recursive_fuel`: the fuel for the mass, plus the fuel for that
      fuel, and so on, stopping at the first amount that is not positive. */
  function RecursiveFuel(mass: int): (total: int)
    ensures total >= 0
    ensures CalculateFuel(mass) <= 0 ==> total == 0
    ensures CalculateFuel(mass) > 0 ==> total >= CalculateFuel(mass)
    decreases mass
  {
    var fuel := CalculateFuel(mass);
    if fuel > 0 then fuel + RecursiveFuel(fuel) else 0
  }

  /** `part1`: the fold that sums `calculate_fuel` over the masses. */
  function Part1(masses: seq<int>): int
  {
    if masses == [] then 0
    else Part1(masses[..|masses| - 1]) + CalculateFuel(masses[|masses| - 1])
  }

  /** `part2`: the fold that sums `calculate_recursive_fuel` over the masses. */
  function Part2(masses: seq<int>): (total: int)
    ensures total >= 0
  {
    if masses == [] then 0
    else Part2(masses[..|masses| - 1]) + RecursiveFuel(masses[|masses| - 1])
  }

  /** The fold is a sum: it splits over concatenation, and is 0 on no masses. */
  lemma {:induction false} Part1Append(a: seq<int>, b: seq<int>)
    ensures Part1([]) == 0
    ensures Part1(a + b) == Part1(a) + Part1(b)
    decreases |b|
  {
    if b != [] {
      var b' := b[..|b| - 1];
      assert (a + b)[..|a + b| - 1] == a + b';
      Part1Append(a, b');
    } else {
      assert a + b == a;
    }
  }

  /** Likewise for the recursive fuel. */
  lemma {:induction false} Part2Append(a: seq<int>, b: seq<int>)
    ensures Part2([]) == 0
    ensures Part2(a + b) == Part2(a) + Part2(b)
    decreases |b|
  {
    if b != [] {
      var b' := b[..|b| - 1];
      assert (a + b)[..|a + b| - 1] == a + b';
      Part2Append(a, b');
    } else {
      assert a + b == a;
    }
  }

  /** Counting the fuel's own fuel never lowers the total. */
  lemma {:induction false} Part2AtLeastPart1(masses: seq<int>)
    ensures Part2(masses) >= Part1(masses)
  {
    if masses != [] {
      Part2AtLeastPart1(masses[..|masses| - 1]);
    }
  }

  /** The values pinned down by the unit tests of `calculate_fuel`. */
  lemma FuelExamples()
    ensures CalculateFuel(12) == 2 && CalculateFuel(14) == 2
    ensures CalculateFuel(1969) == 654 && CalculateFuel(100756) == 33583
  {
  }

  /** The unit tests of `calculate_recursive_fuel`. */
  lemma RecursiveFuelExamples()
    ensures RecursiveFuel(1969) == 966
    ensures RecursiveFuel(100756) == 50346
  {
    FuelChainSmall();
    FuelChainLarge();
  }

  lemma FuelChainSmall()
    ensures RecursiveFuel(654) == 312
    ensures RecursiveFuel(1969) == 966
  {
    assert CalculateFuel(5) == -1 && RecursiveFuel(5) == 0;
    assert CalculateFuel(21) == 5 && RecursiveFuel(21) == 5;
    assert CalculateFuel(70) == 21 && RecursiveFuel(70) == 26;
    assert CalculateFuel(216) == 70 && RecursiveFuel(216) == 96;
    assert CalculateFuel(654) == 216 && RecursiveFuel(654) == 312;
    assert CalculateFuel(1969) == 654;
  }

  lemma FuelChainTail()
    ensures RecursiveFuel(135) == 57
  {
    assert CalculateFuel(2) == -2 && RecursiveFuel(2) == 0;
    assert CalculateFuel(12) == 2 && RecursiveFuel(12) == 2;
    assert CalculateFuel(43) == 12 && RecursiveFuel(43) == 14;
    assert CalculateFuel(135) == 43 && RecursiveFuel(135) == 57;
  }

  lemma FuelChainLarge()
    ensures RecursiveFuel(100756) == 50346
  {
    FuelChainTail();
    assert CalculateFuel(411) == 135 && RecursiveFuel(411) == 192;
    assert CalculateFuel(1240) == 411 && RecursiveFuel(1240) == 603;
    assert CalculateFuel(3728) == 1240 && RecursiveFuel(3728) == 1843;
    assert CalculateFuel(11192) == 3728 && RecursiveFuel(11192) == 5571;
    assert CalculateFuel(33583) == 11192 && RecursiveFuel(33583) == 16763;
    assert CalculateFuel(100756) == 33583;
  }

  /** The recursive fuel of the masses in the unit tests, one step at a time. */
  lemma TestMassFuel()
    ensures RecursiveFuel(12) == 2 && RecursiveFuel(120) == 49
    ensures RecursiveFuel(399) == 184 && RecursiveFuel(42) == 14
  {
    assert CalculateFuel(1) == -2 && RecursiveFuel(1) == 0;
    assert CalculateFuel(10) == 1 && RecursiveFuel(10) == 1;
    assert CalculateFuel(38) == 10 && RecursiveFuel(38) == 11;
    assert CalculateFuel(120) == 38 && RecursiveFuel(120) == 49;
    assert CalculateFuel(11) == 1 && RecursiveFuel(11) == 1;
    assert CalculateFuel(41) == 11 && RecursiveFuel(41) == 12;
    assert CalculateFuel(131) == 41 && RecursiveFuel(131) == 53;
    assert CalculateFuel(399) == 131 && RecursiveFuel(399) == 184;
    assert CalculateFuel(2) == -2 && RecursiveFuel(2) == 0;
    assert CalculateFuel(12) == 2 && RecursiveFuel(12) == 2;
    assert CalculateFuel(42) == 12 && RecursiveFuel(42) == 14;
  }

  /** The unit tests of `part1`. */
  lemma Part1Examples()
    ensures Part1([12]) == 2 && Part1([12, 12, 12]) == 6 && Part1([120, 399, 42]) == 181
  {
    assert [12, 12, 12][..2] == [12, 12] && [12, 12][..1] == [12] && [12][..0] == [];
    assert [120, 399, 42][..2] == [120, 399] && [120, 399][..1] == [120];
    assert CalculateFuel(120) == 38 && CalculateFuel(399) == 131 && CalculateFuel(42) == 12;
  }

  /** The unit tests of `part2`. */
  lemma Part2Examples()
    ensures Part2([12]) == 2 && Part2([12, 12, 12]) == 6 && Part2([120, 399, 42]) == 247
  {
    TestMassFuel();
    assert [12, 12, 12][..2] == [12, 12] && [12, 12][..1] == [12] && [12][..0] == [];
    assert [120, 399, 42][..2] == [120, 399] && [120, 399][..1] == [120];
  }
}
