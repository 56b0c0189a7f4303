/** The two orbit maps of the repository's tests, worked through the model:
    the text of each map is read into a `Universe`, and its totals and
    transfers come out as the tests expect. */
module OrbitExamples {
  import opened Common
  import opened Text
  import opened Orbits

  /** One more step up a chain: a planet one lookup below a centre of depth
      `d` has depth `d + 1`. */
  lemma NumOrbitsStep(reverse: map<string, string>, planet: string, fuel: nat, d: nat)
    requires planet != COM && planet in reverse && NumOrbits(reverse, reverse[planet], fuel) == Success(d)
    ensures NumOrbits(reverse, planet, fuel + 1) == Success(d + 1)
  {
  }

  /** One more step up a path: the path of a planet is its centre followed by
      the path of that centre. */
  lemma AncestorsStep(reverse: map<string, string>, planet: string, fuel: nat, rest: seq<string>, path: seq<string>)
    requires planet in reverse && path == [reverse[planet]] + rest
    requires if reverse[planet] == COM then rest == [] else Ancestors(reverse, reverse[planet], fuel) == Success(rest)
    ensures Ancestors(reverse, planet, fuel + 1) == Success(path)
  {
    if reverse[planet] == COM {
      assert path == [COM];
    }
  }

  /** One more planet added to a sum in listed order. */
  lemma SumInOrderSnoc(depth: string -> Result<nat, Fault>, planets: seq<string>, k: nat, s: nat, d: nat)
    requires k < |planets| && SumInOrder(depth, planets[..k]) == Success(s) && depth(planets[k]) == Success(d)
    ensures SumInOrder(depth, planets[..k + 1]) == Success(s + d)
  {
    assert planets[..k + 1][..k] == planets[..k];
  }

  /** The orbits of the first test map, in the order of its lines. */
  const Part1Orbits: seq<(string, string)> := [("COM", "B"), ("B", "C"), ("C", "D"), ("D", "E"), ("E", "F"), ("B", "G"), ("G", "H"), ("D", "I"), ("E", "J"), ("J", "K"), ("K", "L")]

  /** The lines of the first test map. */
  const Part1Lines: seq<string> := ["COM)B", "B)C", "C)D", "D)E", "E)F", "B)G", "G)H", "D)I", "E)J", "J)K", "K)L"]

  /** The text of the first test map: its lines, each ended by a newline. */
  const Part1Text: string := JoinLines(Part1Lines)

  /** The planets of the first test map, in the order of its lines. */
  const Part1Planets: seq<string> := ["B", "C", "D", "E", "F", "G", "H", "I", "J", "K", "L"]

  /** Each line of the first test map is its orbit written out. */
  lemma Part1LinesWritten()
    ensures forall k :: 0 <= k < |Part1Orbits| ==> Part1Lines[k] == OrbitLine(Part1Orbits[k])
  {
    assert Part1Lines[0] == "COM" + ")" + "B";
    assert Part1Lines[1] == "B" + ")" + "C";
    assert Part1Lines[2] == "C" + ")" + "D";
    assert Part1Lines[3] == "D" + ")" + "E";
    assert Part1Lines[4] == "E" + ")" + "F";
    assert Part1Lines[5] == "B" + ")" + "G";
    assert Part1Lines[6] == "G" + ")" + "H";
    assert Part1Lines[7] == "D" + ")" + "I";
    assert Part1Lines[8] == "E" + ")" + "J";
    assert Part1Lines[9] == "J" + ")" + "K";
    assert Part1Lines[10] == "K" + ")" + "L";
  }

  /** Every orbit of the first test map can be written on a line and read back. */
  lemma Part1Writable(orbits: seq<(string, string)>)
    requires IsPart1Orbits(orbits)
    ensures forall k :: 0 <= k < |orbits| ==> Writable(orbits[k])
  {
  }

  /** A list of orbits entry for entry equal to those of the first test map. */
  predicate IsPart1Orbits(orbits: seq<(string, string)>)
  {
    && |orbits| == 11
    && orbits[0] == ("COM", "B")
    && orbits[1] == ("B", "C")
    && orbits[2] == ("C", "D")
    && orbits[3] == ("D", "E")
    && orbits[4] == ("E", "F")
    && orbits[5] == ("B", "G")
    && orbits[6] == ("G", "H")
    && orbits[7] == ("D", "I")
    && orbits[8] == ("E", "J")
    && orbits[9] == ("J", "K")
    && orbits[10] == ("K", "L")
  }

  /** A map giving each planet of the first test map its centre. */
  predicate Part1Centres(reverse: map<string, string>)
  {
    && "B" in reverse && reverse["B"] == "COM"
    && "C" in reverse && reverse["C"] == "B"
    && "D" in reverse && reverse["D"] == "C"
    && "E" in reverse && reverse["E"] == "D"
    && "F" in reverse && reverse["F"] == "E"
    && "G" in reverse && reverse["G"] == "B"
    && "H" in reverse && reverse["H"] == "G"
    && "I" in reverse && reverse["I"] == "D"
    && "J" in reverse && reverse["J"] == "E"
    && "K" in reverse && reverse["K"] == "J"
    && "L" in reverse && reverse["L"] == "K"
  }

  /** No planet of the first test map is listed twice. */
  lemma Part1Distinct(orbits: seq<(string, string)>)
    requires IsPart1Orbits(orbits)
    ensures forall i, j :: 0 <= i < j < |orbits| ==> orbits[i].1 != orbits[j].1
  {
  }

  /** Inserting the orbits of the first test map gives each planet its centre. */
  lemma Part1Inserted(orbits: seq<(string, string)>)
    requires IsPart1Orbits(orbits)
    ensures Part1Centres(Insert(orbits))
  {
    Part1Distinct(orbits);
    DistinctPlanetsInserted(orbits);
  }

  /** The orbits of the first test map are those listed. */
  lemma Part1OrbitsListed()
    ensures IsPart1Orbits(Part1Orbits)
  {
  }

  /** The map built from the orbits of the first test map gives each planet its centre. */
  lemma Part1MapCentres()
    ensures Part1Centres(Insert(Part1Orbits))
  {
    Part1OrbitsListed();
    Part1Inserted(Part1Orbits);
  }

  /** Inserting the orbits of the first test map makes its planets the keys. */
  lemma Part1Keys(orbits: seq<(string, string)>)
    requires IsPart1Orbits(orbits)
    ensures Insert(orbits).Keys == set i | 0 <= i < |Part1Planets| :: Part1Planets[i]
  {
    assert forall i :: 0 <= i < |orbits| ==> orbits[i].1 == Part1Planets[i];
  }

  /** The text of the first test map parses to its orbits. */
  lemma Part1TextParses()
    ensures CollectResults(ParseLine, Lines(Part1Text)) == Success(Part1Orbits)
  {
    Part1LinesWritten();
    Part1OrbitsListed();
    Part1Writable(Part1Orbits);
    ParseMapText(Part1Lines, Part1Orbits);
  }

  /** The depths in the first test map, each found within 7 lookups. */
  lemma Part1Depths(reverse: map<string, string>)
    requires Part1Centres(reverse)
    ensures NumOrbits(reverse, "B", 7) == Success(1)
    ensures NumOrbits(reverse, "C", 7) == Success(2)
    ensures NumOrbits(reverse, "D", 7) == Success(3)
    ensures NumOrbits(reverse, "E", 7) == Success(4)
    ensures NumOrbits(reverse, "F", 7) == Success(5)
    ensures NumOrbits(reverse, "G", 7) == Success(2)
    ensures NumOrbits(reverse, "H", 7) == Success(3)
    ensures NumOrbits(reverse, "I", 7) == Success(4)
    ensures NumOrbits(reverse, "J", 7) == Success(5)
    ensures NumOrbits(reverse, "K", 7) == Success(6)
    ensures NumOrbits(reverse, "L", 7) == Success(7)
  {
    NumOrbitsStep(reverse, "B", 0, 0);
    NumOrbitsStep(reverse, "C", 1, 1);
    NumOrbitsStep(reverse, "G", 1, 1);
    NumOrbitsStep(reverse, "D", 2, 2);
    NumOrbitsStep(reverse, "H", 2, 2);
    NumOrbitsStep(reverse, "E", 3, 3);
    NumOrbitsStep(reverse, "I", 3, 3);
    NumOrbitsStep(reverse, "F", 4, 4);
    NumOrbitsStep(reverse, "J", 4, 4);
    NumOrbitsStep(reverse, "K", 5, 5);
    NumOrbitsStep(reverse, "L", 6, 6);
    NumOrbitsMoreFuel(reverse, "B", 1, 7);
    NumOrbitsMoreFuel(reverse, "C", 2, 7);
    NumOrbitsMoreFuel(reverse, "D", 3, 7);
    NumOrbitsMoreFuel(reverse, "E", 4, 7);
    NumOrbitsMoreFuel(reverse, "F", 5, 7);
    NumOrbitsMoreFuel(reverse, "G", 2, 7);
    NumOrbitsMoreFuel(reverse, "H", 3, 7);
    NumOrbitsMoreFuel(reverse, "I", 4, 7);
    NumOrbitsMoreFuel(reverse, "J", 5, 7);
    NumOrbitsMoreFuel(reverse, "K", 6, 7);
  }

  /** The first five planets of the first test map, at depths 1 to 5, sum to
      15. */
  lemma Part1SumOfFirstDepths(depth: string -> Result<nat, Fault>)
    requires depth("B") == Success(1) && depth("C") == Success(2) && depth("D") == Success(3)
    requires depth("E") == Success(4) && depth("F") == Success(5)
    ensures SumInOrder(depth, Part1Planets[..5]) == Success(15)
  {
    assert Part1Planets[..0] == [];
    SumInOrderSnoc(depth, Part1Planets, 0, 0, 1);
    SumInOrderSnoc(depth, Part1Planets, 1, 1, 2);
    SumInOrderSnoc(depth, Part1Planets, 2, 3, 3);
    SumInOrderSnoc(depth, Part1Planets, 3, 6, 4);
    SumInOrderSnoc(depth, Part1Planets, 4, 10, 5);
  }

  /** Depths 1, 2, 3, 4, 5, 2, 3, 4, 5, 6, 7 for the planets of the first test
      map, summed in the order of its lines, make 42. */
  lemma Part1SumOfDepths(depth: string -> Result<nat, Fault>)
    requires depth("B") == Success(1) && depth("C") == Success(2) && depth("D") == Success(3)
    requires depth("E") == Success(4) && depth("F") == Success(5) && depth("G") == Success(2)
    requires depth("H") == Success(3) && depth("I") == Success(4) && depth("J") == Success(5)
    requires depth("K") == Success(6) && depth("L") == Success(7)
    ensures SumInOrder(depth, Part1Planets) == Success(42)
  {
    Part1SumOfFirstDepths(depth);
    SumInOrderSnoc(depth, Part1Planets, 5, 15, 2);
    SumInOrderSnoc(depth, Part1Planets, 6, 17, 3);
    SumInOrderSnoc(depth, Part1Planets, 7, 20, 4);
    SumInOrderSnoc(depth, Part1Planets, 8, 24, 5);
    SumInOrderSnoc(depth, Part1Planets, 9, 29, 6);
    SumInOrderSnoc(depth, Part1Planets, 10, 35, 7);
    assert Part1Planets[..11] == Part1Planets;
  }

  /** The depths of the first test map, summed in the order of its lines. */
  lemma Part1SumInOrder(reverse: map<string, string>)
    requires Part1Centres(reverse)
    ensures forall i :: 0 <= i < |Part1Planets| ==> NumOrbits(reverse, Part1Planets[i], 7).Success?
    ensures SumInOrder(Depths(reverse, 7), Part1Planets) == Success(42)
  {
    Part1Depths(reverse);
    Part1SumOfDepths(Depths(reverse, 7));
  }

  /** The planets of the first test map are listed once each. */
  lemma Part1PlanetsDistinct()
    ensures forall i, j :: 0 <= i < j < |Part1Planets| ==> Part1Planets[i] != Part1Planets[j]
  {
    forall i, j | 0 <= i < j < |Part1Planets|
      ensures Part1Planets[i] != Part1Planets[j]
    {
      assert |Part1Planets[i]| == 1 && |Part1Planets[j]| == 1;
      assert Part1Planets[i][0] != Part1Planets[j][0];
    }
  }

  /** The depths of the first test map sum to 42, in any order. */
  lemma Part1Sum(reverse: map<string, string>)
    requires Part1Centres(reverse)
    requires reverse.Keys == set i | 0 <= i < |Part1Planets| :: Part1Planets[i]
    ensures forall p :: p in reverse ==> NumOrbits(reverse, p, 7).Success?
    ensures SumOver(Depths(reverse, 7), reverse.Keys) == Success(42)
  {
    Part1SumInOrder(reverse);
    Part1PlanetsDistinct();
    var depth := Depths(reverse, 7);
    assert forall i :: 0 <= i < |Part1Planets| ==> depth(Part1Planets[i]).Success?;
    SumInAnyOrder(depth, Part1Planets);
  }

  /** The first test: the map read from its text has 42 direct and indirect
      orbits. */
  lemma Part1Total()
    ensures CollectResults(ParseLine, Lines(Part1Text)).Success?
    ensures var reverse := Insert(CollectResults(ParseLine, Lines(Part1Text)).value);
      && (forall p :: p in reverse ==> NumOrbits(reverse, p, 7).Success?)
      && SumOver(Depths(reverse, 7), reverse.Keys) == Success(42)
  {
    Part1TextParses();
    Part1MapCentres();
    Part1OrbitsListed();
    Part1Keys(Part1Orbits);
    Part1Sum(Insert(Part1Orbits));
  }

  /** The first test run through the `Universe` methods. */
  method Part1Test() returns (total: Result<nat, Fault>)
    ensures total == Success(42)
  {
    Part1Total();
    var universe := Universe.New(Part1Text);
    total := universe.value.TotalNumOrbits(7);
  }

  /** The orbits of the second test map, in the order of its lines. */
  const Part2Orbits: seq<(string, string)> := [("COM", "B"), ("B", "C"), ("C", "D"), ("D", "E"), ("E", "F"), ("B", "G"), ("G", "H"), ("D", "I"), ("E", "J"), ("J", "K"), ("K", "L"), ("K", "YOU"), ("I", "SAN")]

  /** The lines of the second test map. */
  const Part2Lines: seq<string> := ["COM)B", "B)C", "C)D", "D)E", "E)F", "B)G", "G)H", "D)I", "E)J", "J)K", "K)L", "K)YOU", "I)SAN"]

  /** The text of the second test map: its lines, each ended by a newline. */
  const Part2Text: string := JoinLines(Part2Lines)

  /** The planets of the second test map, in the order of its lines. */
  const Part2Planets: seq<string> := ["B", "C", "D", "E", "F", "G", "H", "I", "J", "K", "L", "YOU", "SAN"]

  /** Each line of the second test map is its orbit written out. */
  lemma Part2LinesWritten()
    ensures forall k :: 0 <= k < |Part2Orbits| ==> Part2Lines[k] == OrbitLine(Part2Orbits[k])
  {
    assert Part2Lines[0] == "COM" + ")" + "B";
    assert Part2Lines[1] == "B" + ")" + "C";
    assert Part2Lines[2] == "C" + ")" + "D";
    assert Part2Lines[3] == "D" + ")" + "E";
    assert Part2Lines[4] == "E" + ")" + "F";
    assert Part2Lines[5] == "B" + ")" + "G";
    assert Part2Lines[6] == "G" + ")" + "H";
    assert Part2Lines[7] == "D" + ")" + "I";
    assert Part2Lines[8] == "E" + ")" + "J";
    assert Part2Lines[9] == "J" + ")" + "K";
    assert Part2Lines[10] == "K" + ")" + "L";
    assert Part2Lines[11] == "K" + ")" + "YOU";
    assert Part2Lines[12] == "I" + ")" + "SAN";
  }

  /** Every orbit of the second test map can be written on a line and read back. */
  lemma Part2Writable(orbits: seq<(string, string)>)
    requires IsPart2Orbits(orbits)
    ensures forall k :: 0 <= k < |orbits| ==> Writable(orbits[k])
  {
  }

  /** A list of orbits entry for entry equal to those of the second test map. */
  predicate IsPart2Orbits(orbits: seq<(string, string)>)
  {
    && |orbits| == 13
    && orbits[0] == ("COM", "B")
    && orbits[1] == ("B", "C")
    && orbits[2] == ("C", "D")
    && orbits[3] == ("D", "E")
    && orbits[4] == ("E", "F")
    && orbits[5] == ("B", "G")
    && orbits[6] == ("G", "H")
    && orbits[7] == ("D", "I")
    && orbits[8] == ("E", "J")
    && orbits[9] == ("J", "K")
    && orbits[10] == ("K", "L")
    && orbits[11] == ("K", "YOU")
    && orbits[12] == ("I", "SAN")
  }

  /** A map giving each planet of the second test map its centre. */
  predicate Part2Centres(reverse: map<string, string>)
  {
    && "B" in reverse && reverse["B"] == "COM"
    && "C" in reverse && reverse["C"] == "B"
    && "D" in reverse && reverse["D"] == "C"
    && "E" in reverse && reverse["E"] == "D"
    && "F" in reverse && reverse["F"] == "E"
    && "G" in reverse && reverse["G"] == "B"
    && "H" in reverse && reverse["H"] == "G"
    && "I" in reverse && reverse["I"] == "D"
    && "J" in reverse && reverse["J"] == "E"
    && "K" in reverse && reverse["K"] == "J"
    && "L" in reverse && reverse["L"] == "K"
    && "YOU" in reverse && reverse["YOU"] == "K"
    && "SAN" in reverse && reverse["SAN"] == "I"
  }

  /** No planet of the second test map is listed twice. */
  lemma Part2Distinct(orbits: seq<(string, string)>)
    requires IsPart2Orbits(orbits)
    ensures forall i, j :: 0 <= i < j < |orbits| ==> orbits[i].1 != orbits[j].1
  {
  }

  /** Inserting the orbits of the second test map gives each planet its centre. */
  lemma Part2Inserted(orbits: seq<(string, string)>)
    requires IsPart2Orbits(orbits)
    ensures Part2Centres(Insert(orbits))
  {
    Part2Distinct(orbits);
    DistinctPlanetsInserted(orbits);
  }

  /** The orbits of the second test map are those listed. */
  lemma Part2OrbitsListed()
    ensures IsPart2Orbits(Part2Orbits)
  {
  }

  /** The map built from the orbits of the second test map gives each planet its centre. */
  lemma Part2MapCentres()
    ensures Part2Centres(Insert(Part2Orbits))
  {
    Part2OrbitsListed();
    Part2Inserted(Part2Orbits);
  }

  /** The text of the second test map parses to its orbits. */
  lemma Part2TextParses()
    ensures CollectResults(ParseLine, Lines(Part2Text)) == Success(Part2Orbits)
  {
    Part2LinesWritten();
    Part2OrbitsListed();
    Part2Writable(Part2Orbits);
    ParseMapText(Part2Lines, Part2Orbits);
  }

  /** The paths of YOU and SAN in the second test map. */
  lemma Part2Paths(reverse: map<string, string>)
    requires Part2Centres(reverse)
    ensures Ancestors(reverse, "YOU", 7) == Success(["K", "J", "E", "D", "C", "B", "COM"])
    ensures Ancestors(reverse, "SAN", 7) == Success(["I", "D", "C", "B", "COM"])
  {
    AncestorsStep(reverse, "B", 0, [], ["COM"]);
    AncestorsStep(reverse, "C", 1, ["COM"], ["B", "COM"]);
    AncestorsStep(reverse, "D", 2, ["B", "COM"], ["C", "B", "COM"]);
    AncestorsStep(reverse, "E", 3, ["C", "B", "COM"], ["D", "C", "B", "COM"]);
    AncestorsStep(reverse, "J", 4, ["D", "C", "B", "COM"], ["E", "D", "C", "B", "COM"]);
    AncestorsStep(reverse, "K", 5, ["E", "D", "C", "B", "COM"], ["J", "E", "D", "C", "B", "COM"]);
    AncestorsStep(reverse, "YOU", 6, ["J", "E", "D", "C", "B", "COM"], ["K", "J", "E", "D", "C", "B", "COM"]);
    AncestorsStep(reverse, "B", 0, [], ["COM"]);
    AncestorsStep(reverse, "C", 1, ["COM"], ["B", "COM"]);
    AncestorsStep(reverse, "D", 2, ["B", "COM"], ["C", "B", "COM"]);
    AncestorsStep(reverse, "I", 3, ["C", "B", "COM"], ["D", "C", "B", "COM"]);
    AncestorsStep(reverse, "SAN", 4, ["D", "C", "B", "COM"], ["I", "D", "C", "B", "COM"]);
    AncestorsMoreFuel(reverse, "SAN", 5, 7);
  }

  /** In the second test map, 4 transfers take YOU to the centre SAN orbits. */
  lemma Part2TransfersOf(reverse: map<string, string>)
    requires Part2Centres(reverse)
    ensures TransfersBetween(reverse, "YOU", "SAN", 7) == Success(4)
  {
    Part2Paths(reverse);
    assert ["K", "J", "E", "D", "C", "B", "COM"] == ["K", "J", "E"] + ["D", "C", "B", "COM"];
    assert ["I", "D", "C", "B", "COM"] == ["I"] + ["D", "C", "B", "COM"];
    CommonSuffixAppend(["K", "J", "E"], ["I"], ["D", "C", "B", "COM"]);
  }

  /** The second test: the map read from its text needs 4 transfers. */
  lemma Part2Transfers()
    ensures CollectResults(ParseLine, Lines(Part2Text)).Success?
    ensures TransfersBetween(Insert(CollectResults(ParseLine, Lines(Part2Text)).value), "YOU", "SAN", 7) == Success(4)
  {
    Part2TextParses();
    Part2MapCentres();
    Part2TransfersOf(Insert(Part2Orbits));
  }

  /** The second test run through the `Universe` methods. */
  method Part2Test() returns (transfers: Result<nat, Fault>)
    ensures transfers == Success(4)
  {
    Part2Transfers();
    var universe := Universe.New(Part2Text);
    transfers := universe.value.OrbitalTransfers(7);
  }
}
