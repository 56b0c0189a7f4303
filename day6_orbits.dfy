/** The orbit map: every line `A)B` says that B orbits A, and the map keeps,
    for each planet, the centre it orbits. Depths, the chain of centres up to
    COM, and the number of transfers between YOU and SAN are read from it.
    Where the source recurses or loops along a chain of centres, the model
    takes a `fuel` bound: a map with a cycle makes the source run forever. */
module Orbits {
  import opened Common
  import opened Text

  /** The universal centre of mass, the root of every chain. */
  const COM: string := "COM"

  /** A trimmed line split on `)`: the text before the first `)` is the
      centre, the text after it up to the next `)` (or the end) is the planet;
      a line without `)` panics on the second `next().unwrap()`. */
  function SplitOrbit(t: string): (r: Result<(string, string), Fault>)
    ensures r.Failure? <==> ')' !in t
    ensures r.Success? ==> ')' !in r.value.0 && ')' !in r.value.1
  {
    if ')' !in t then Failure(MissingValue)
    else
      var i := IndexOf(t, ')');
      var after := t[i + 1..];
      var planet := if ')' in after then after[..IndexOf(after, ')')] else after;
      Success((t[..i], planet))
  }

  /** One line of the map: trimmed, then split on `)`. */
  function ParseLine(line: string): (r: Result<(string, string), Fault>)
  {
    SplitOrbit(Trim(line))
  }

  /** `centre)planet` splits back into its two names. */
  lemma SplitOrbitOfPair(center: string, planet: string)
    requires ')' !in center && ')' !in planet
    ensures SplitOrbit(center + ")" + planet) == Success((center, planet))
  {
    var t := center + ")" + planet;
    assert t == center + [')'] + planet;
    IndexOfFirst(center, ')', planet);
    assert t[..|center|] == center;
    assert t[|center| + 1..] == planet;
  }

  /** A line written as `centre)planet` reads back as that pair. */
  lemma ParseLineOfOrbit(center: string, planet: string)
    requires ')' !in center && ')' !in planet
    requires center == [] || !IsWhitespace(center[0])
    requires planet == [] || !IsWhitespace(planet[|planet| - 1])
    ensures ParseLine(center + ")" + planet) == Success((center, planet))
  {
    var line := center + ")" + planet;
    assert line[0] == if center == [] then ')' else center[0];
    assert line[|line| - 1] == if planet == [] then ')' else planet[|planet| - 1];
    TrimUnchanged(line);
    SplitOrbitOfPair(center, planet);
  }

  /** A map line `centre)planet` written for an orbit. */
  function OrbitLine(orbit: (string, string)): string
  {
    orbit.0 + ")" + orbit.1
  }

  /** An orbit whose line reads back as itself: no `)` or `\n` in either
      name, and no whitespace where `trim` would cut it. */
  predicate Writable(orbit: (string, string))
  {
    && ')' !in orbit.0 && ')' !in orbit.1 && '\n' !in orbit.0 && '\n' !in orbit.1
    && (orbit.0 == [] || !IsWhitespace(orbit.0[0]))
    && (orbit.1 == [] || !IsWhitespace(orbit.1[|orbit.1| - 1]))
  }

  /** A writable orbit's line is one line of text, and reads back as it. */
  lemma WritableLine(orbit: (string, string))
    requires Writable(orbit)
    ensures var line := OrbitLine(orbit);
      '\n' !in line && line[|line| - 1] != '\r' && ParseLine(line) == Success(orbit)
  {
    var line := OrbitLine(orbit);
    assert line == orbit.0 + [')'] + orbit.1;
    assert line[|line| - 1] == if orbit.1 == [] then ')' else orbit.1[|orbit.1| - 1];
    ParseLineOfOrbit(orbit.0, orbit.1);
  }

  /** Reading back a written map: the lines of a map listing `orbits`, one
      per line, parse to those orbits, in order. */
  lemma ParseMapText(lines: seq<string>, orbits: seq<(string, string)>)
    requires |lines| == |orbits|
    requires forall k :: 0 <= k < |orbits| ==> lines[k] == OrbitLine(orbits[k]) && Writable(orbits[k])
    ensures CollectResults(ParseLine, Lines(JoinLines(lines))) == Success(orbits)
  {
    forall k | 0 <= k < |lines|
      ensures '\n' !in lines[k] && lines[k][|lines[k]| - 1] != '\r'
      ensures ParseLine(lines[k]) == Success(orbits[k])
    {
      WritableLine(orbits[k]);
    }
    LinesOfJoin(lines);
    CollectResultsOfEach(ParseLine, lines, orbits);
  }

  /** The `reverse` map after inserting `(planet, centre)` for each entry in
      turn: the planets are the keys. */
  function Insert(entries: seq<(string, string)>): (reverse: map<string, string>)
    ensures reverse.Keys == set k | 0 <= k < |entries| :: entries[k].1
  {
    if entries == [] then map[]
    else
      var last := entries[|entries| - 1];
      Insert(entries[..|entries| - 1])[last.1 := last.0]
  }

  /** One line more records its planet's centre over whatever came before. */
  lemma InsertSnoc(entries: seq<(string, string)>, e: (string, string))
    ensures Insert(entries + [e]) == Insert(entries)[e.1 := e.0]
  {
    assert (entries + [e])[..|entries|] == entries;
  }

  /** A planet listed on several lines orbits the centre of its LAST line. */
  lemma {:induction false} LastLineWins(entries: seq<(string, string)>, k: nat)
    requires k < |entries|
    requires forall j :: k < j < |entries| ==> entries[j].1 != entries[k].1
    ensures entries[k].1 in Insert(entries) && Insert(entries)[entries[k].1] == entries[k].0
  {
    var n := |entries| - 1;
    if k < n {
      var init := entries[..n];
      assert forall j :: k < j < |init| ==> init[j] == entries[j];
      LastLineWins(init, k);
      assert init[k] == entries[k];
    }
  }

  /** When no planet is listed twice, the map holds exactly the listed
      orbits. */
  lemma DistinctPlanetsInserted(entries: seq<(string, string)>)
    requires forall i, j :: 0 <= i < j < |entries| ==> entries[i].1 != entries[j].1
    ensures forall k :: 0 <= k < |entries| ==> entries[k].1 in Insert(entries) && Insert(entries)[entries[k].1] == entries[k].0
  {
    forall k | 0 <= k < |entries|
      ensures entries[k].1 in Insert(entries) && Insert(entries)[entries[k].1] == entries[k].0
    {
      LastLineWins(entries, k);
    }
  }

  /** The `Universe` struct: the map from each planet to its centre. */
  class Universe {
    var reverse: map<string, string>

    /** An empty universe. */
    constructor ()
      ensures reverse == map[]
    {
      reverse := map[];
    }

    /** `Universe::new`: one insertion per line of the text, in order. */
    static method New(content: string) returns (r: Result<Universe, Fault>)
      ensures r.Failure? <==> CollectResults(ParseLine, Lines(content)).Failure?
      ensures r.Success? ==> fresh(r.value) && r.value.reverse == Insert(CollectResults(ParseLine, Lines(content)).value)
    {
      var universe := new Universe();
      var lines := Lines(content);
      ghost var entries: seq<(string, string)> := [];
      var i := 0;
      while i < |lines|
        invariant 0 <= i <= |lines|
        invariant CollectResults(ParseLine, lines[..i]) == Success(entries)
        invariant universe.reverse == Insert(entries)
        invariant fresh(universe)
      {
        var entry := ParseLine(lines[i]);
        if entry.Failure? {
          CollectResultsEach(ParseLine, lines);
          return Failure(entry.error);
        }
        CollectResultsSnoc(ParseLine, lines, i, entries, entry.value);
        InsertSnoc(entries, entry.value);
        universe.reverse := universe.reverse[entry.value.1 := entry.value.0];
        entries := entries + [entry.value];
        i := i + 1;
      }
      assert lines[..i] == lines;
      return Success(universe);
    }

    /** `path`: the chain of centres above `planet`, gathered until COM. */
    method Path(planet: string, fuel: nat) returns (r: Result<seq<string>, Fault>)
      ensures r == Ancestors(reverse, planet, fuel)
    {
      var pos := planet;
      var res: seq<string> := [];
      var f := fuel;
      if Ancestors(reverse, pos, f).Success? {
        assert res + Ancestors(reverse, pos, f).value == Ancestors(reverse, pos, f).value;
      }
      while true
        invariant Ancestors(reverse, planet, fuel) == Prefixed(res, Ancestors(reverse, pos, f))
        decreases f
      {
        if f == 0 {
          return Failure(FuelExhausted);
        }
        if pos !in reverse {
          return Failure(MissingValue);
        }
        ghost var before := Ancestors(reverse, pos, f);
        ghost var taken := res;
        pos := reverse[pos];
        res := res + [pos];
        if pos == COM {
          assert before == Success([COM]);
          return Success(res);
        }
        assert before == Prefixed([pos], Ancestors(reverse, pos, f - 1));
        if before.Success? {
          assert taken + before.value == res + Ancestors(reverse, pos, f - 1).value;
        }
        f := f - 1;
      }
    }

    /** `total_num_orbits`: `num_orbits` of every key of the map, summed in
        whatever order the map yields its keys. */
    method TotalNumOrbits(fuel: nat) returns (r: Result<nat, Fault>)
      ensures r.Success? <==> forall p :: p in reverse ==> NumOrbits(reverse, p, fuel).Success?
      ensures r.Success? ==> r == SumOver(Depths(reverse, fuel), reverse.Keys)
    {
      var remaining := reverse.Keys;
      var total := 0;
      while remaining != {}
        invariant remaining <= reverse.Keys
        invariant forall p :: p in reverse.Keys - remaining ==> NumOrbits(reverse, p, fuel).Success?
        invariant SumOver(Depths(reverse, fuel), remaining).Success? ==>
          SumOver(Depths(reverse, fuel), reverse.Keys) == Success(total + SumOver(Depths(reverse, fuel), remaining).value)
        decreases remaining
      {
        var p :| p in remaining;
        var depth := NumOrbits(reverse, p, fuel);
        if depth.Failure? {
          return Failure(depth.error);
        }
        SumOverSuccess(Depths(reverse, fuel), remaining - {p});
        if SumOver(Depths(reverse, fuel), remaining - {p}).Success? {
          SumOverRemove(Depths(reverse, fuel), remaining, p);
        }
        total := total + depth.value;
        remaining := remaining - {p};
      }
      SumOverSuccess(Depths(reverse, fuel), reverse.Keys);
      return Success(total);
    }

    /** `orbital_transfers`: pop the two paths from the COM end while they
        agree; what remains of both, plus the two popped centres that
        differed, is the number of transfers. */
    method OrbitalTransfers(fuel: nat) returns (r: Result<nat, Fault>)
      ensures r == TransfersBetween(reverse, "YOU", "SAN", fuel)
    {
      var a := Path("YOU", fuel);
      if a.Failure? {
        return Failure(a.error);
      }
      var b := Path("SAN", fuel);
      if b.Failure? {
        return Failure(b.error);
      }
      r := StripCommonTail(a.value, b.value);
    }
  }

  /** The popping loop of `orbital_transfers`: pop both paths while the
      popped centres agree; a path that runs dry is a panic. */
  method StripCommonTail(path1: seq<string>, path2: seq<string>) returns (r: Result<nat, Fault>)
    ensures r == Transfers(path1, path2)
  {
    var n1, n2 := |path1|, |path2|;
    var common := CommonSuffix(path1, path2);
    CommonSuffixIsLongest(path1, path2);
    while true
      invariant n1 <= |path1| && n2 <= |path2|
      invariant |path1| - n1 == |path2| - n2 <= common
      decreases n1
    {
      if n1 == 0 || n2 == 0 {
        return Failure(MissingValue);
      }
      var last1, last2 := path1[n1 - 1], path2[n2 - 1];
      assert last1 == FromEnd(path1, |path1| - n1) && last2 == FromEnd(path2, |path2| - n2);
      n1, n2 := n1 - 1, n2 - 1;
      if last1 != last2 {
        return Success(n1 + n2 + 2);
      }
    }
  }

  /** A path found after the steps already taken. */
  function Prefixed(taken: seq<string>, rest: Result<seq<string>, Fault>): Result<seq<string>, Fault>
  {
    if rest.Success? then Success(taken + rest.value) else rest
  }

  /** `num_orbits`: COM is at depth 0, any other planet one deeper than its
      centre; a planet missing from the map is a panic. */
  function NumOrbits(reverse: map<string, string>, planet: string, fuel: nat): Result<nat, Fault>
    decreases fuel
  {
    if planet == COM then Success(0)
    else if fuel == 0 then Failure(FuelExhausted)
    else if planet !in reverse then Failure(MissingValue)
    else
      var depth :- NumOrbits(reverse, reverse[planet], fuel - 1);
      Success(depth + 1)
  }

  /** The chain of centres that `path` gathers: from the centre of `planet`
      up to COM, `planet` itself not included. */
  function Ancestors(reverse: map<string, string>, planet: string, fuel: nat): (r: Result<seq<string>, Fault>)
    ensures r.Success? ==> r.value != [] && r.value[|r.value| - 1] == COM
    decreases fuel
  {
    if fuel == 0 then Failure(FuelExhausted)
    else if planet !in reverse then Failure(MissingValue)
    else
      var center := reverse[planet];
      if center == COM then Success([COM])
      else
        var rest :- Ancestors(reverse, center, fuel - 1);
        Success([center] + rest)
  }

  /** More fuel changes nothing once the depth is found. */
  lemma {:induction false} NumOrbitsMoreFuel(reverse: map<string, string>, planet: string, fuel: nat, more: nat)
    requires NumOrbits(reverse, planet, fuel).Success? && fuel <= more
    ensures NumOrbits(reverse, planet, more) == NumOrbits(reverse, planet, fuel)
    decreases fuel
  {
    if planet != COM {
      NumOrbitsMoreFuel(reverse, reverse[planet], fuel - 1, more - 1);
    }
  }

  /** More fuel changes nothing once the path is found. */
  lemma {:induction false} AncestorsMoreFuel(reverse: map<string, string>, planet: string, fuel: nat, more: nat)
    requires Ancestors(reverse, planet, fuel).Success? && fuel <= more
    ensures Ancestors(reverse, planet, more) == Ancestors(reverse, planet, fuel)
    decreases fuel
  {
    if reverse[planet] != COM {
      AncestorsMoreFuel(reverse, reverse[planet], fuel - 1, more - 1);
    }
  }

  /** The `n`-th centre above `planet` by plain lookups, if the chain is that long. */
  function Ancestor(reverse: map<string, string>, planet: string, n: nat): Option<string>
    decreases n
  {
    if n == 0 then Some(planet)
    else if planet !in reverse then None
    else Ancestor(reverse, reverse[planet], n - 1)
  }

  /** Walking `a + b` centres up is walking `a` and then `b`. */
  lemma {:induction false} AncestorCompose(reverse: map<string, string>, planet: string, a: nat, n: nat)
    requires a <= n
    ensures Ancestor(reverse, planet, n) ==
      (if Ancestor(reverse, planet, a).Some? then Ancestor(reverse, Ancestor(reverse, planet, a).value, n - a) else None)
    decreases a
  {
    if a > 0 && planet in reverse {
      AncestorCompose(reverse, reverse[planet], a - 1, n - 1);
    }
  }

  /** The depth is the number of lookups that first reaches COM. */
  lemma {:induction false} NumOrbitsIsDepth(reverse: map<string, string>, planet: string, fuel: nat)
    requires NumOrbits(reverse, planet, fuel).Success?
    ensures var n := NumOrbits(reverse, planet, fuel).value;
      && Ancestor(reverse, planet, n) == Some(COM)
      && forall m :: 0 <= m < n ==> Ancestor(reverse, planet, m).Some? && Ancestor(reverse, planet, m).value != COM
    decreases fuel
  {
    if planet != COM {
      NumOrbitsIsDepth(reverse, reverse[planet], fuel - 1);
      var n := NumOrbits(reverse, planet, fuel).value;
      forall m | 0 < m < n
        ensures Ancestor(reverse, planet, m) == Ancestor(reverse, reverse[planet], m - 1)
      {
      }
    }
  }

  /** Conversely, a planet whose chain reaches COM after `n` lookups and not
      before has depth `n`, given fuel for the `n` lookups. */
  lemma {:induction false} DepthIsNumOrbits(reverse: map<string, string>, planet: string, n: nat, fuel: nat)
    requires Ancestor(reverse, planet, n) == Some(COM)
    requires forall m :: 0 <= m < n ==> Ancestor(reverse, planet, m) != Some(COM)
    requires n <= fuel
    ensures NumOrbits(reverse, planet, fuel) == Success(n)
    decreases n
  {
    if n > 0 {
      assert Ancestor(reverse, planet, 0) == Some(planet);
      assert planet in reverse;
      forall m | 0 <= m < n - 1
        ensures Ancestor(reverse, reverse[planet], m) != Some(COM)
      {
        assert Ancestor(reverse, planet, m + 1) == Ancestor(reverse, reverse[planet], m);
      }
      DepthIsNumOrbits(reverse, reverse[planet], n - 1, fuel - 1);
    }
  }

  /** The i-th entry of a path is the (i+1)-th centre above the planet, and
      COM appears only at its end. */
  lemma {:induction false} AncestorsAreCentres(reverse: map<string, string>, planet: string, fuel: nat)
    requires Ancestors(reverse, planet, fuel).Success?
    ensures var s := Ancestors(reverse, planet, fuel).value;
      && (forall i :: 0 <= i < |s| ==> Ancestor(reverse, planet, i + 1) == Some(s[i]))
      && COM !in s[..|s| - 1]
    decreases fuel
  {
    var s := Ancestors(reverse, planet, fuel).value;
    var center := reverse[planet];
    if center != COM {
      AncestorsAreCentres(reverse, center, fuel - 1);
      var rest := Ancestors(reverse, center, fuel - 1).value;
      assert s == [center] + rest;
      forall i | 0 < i < |s|
        ensures Ancestor(reverse, planet, i + 1) == Some(s[i])
      {
        assert Ancestor(reverse, planet, i + 1) == Ancestor(reverse, center, i);
        assert s[i] == rest[i - 1];
      }
      assert s[..|s| - 1] == [center] + rest[..|rest| - 1];
    }
  }

  /** One entry of a path, as a centre some lookups up. */
  lemma AncestorAt(reverse: map<string, string>, planet: string, fuel: nat, i: nat)
    requires Ancestors(reverse, planet, fuel).Success? && i < |Ancestors(reverse, planet, fuel).value|
    ensures var s := Ancestors(reverse, planet, fuel).value;
      Ancestor(reverse, planet, i + 1) == Some(s[i]) && (i < |s| - 1 ==> s[i] != COM)
  {
    var s := Ancestors(reverse, planet, fuel).value;
    AncestorsAreCentres(reverse, planet, fuel);
    if i < |s| - 1 {
      assert s[..|s| - 1][i] == s[i];
    }
  }

  /** For any planet but COM, `path` has exactly `num_orbits` entries, and the
      two fail alike. */
  lemma {:induction false} PathLengthIsNumOrbits(reverse: map<string, string>, planet: string, fuel: nat)
    requires planet != COM
    ensures Ancestors(reverse, planet, fuel).Success? <==> NumOrbits(reverse, planet, fuel).Success?
    ensures Ancestors(reverse, planet, fuel).Success? ==>
      |Ancestors(reverse, planet, fuel).value| == NumOrbits(reverse, planet, fuel).value
    ensures Ancestors(reverse, planet, fuel).Failure? ==>
      Ancestors(reverse, planet, fuel).error == NumOrbits(reverse, planet, fuel).error
    decreases fuel
  {
    if fuel > 0 && planet in reverse && reverse[planet] != COM {
      PathLengthIsNumOrbits(reverse, reverse[planet], fuel - 1);
    }
  }

  /** A path never lists the planet it starts from, unless that planet is
      COM itself coming round again at the end. */
  lemma PathExcludesPlanet(reverse: map<string, string>, planet: string, fuel: nat)
    requires Ancestors(reverse, planet, fuel).Success?
    ensures var s := Ancestors(reverse, planet, fuel).value;
      planet !in s[..|s| - 1] && (planet != COM ==> planet !in s)
  {
    var s := Ancestors(reverse, planet, fuel).value;
    AncestorsAreCentres(reverse, planet, fuel);
    forall i | 0 <= i < |s| - 1
      ensures s[i] != planet
    {
      if s[i] == planet {
        // Going round from `planet` to itself takes i + 1 lookups, so COM,
        // reached after |s| lookups, was also reached after |s| - (i + 1),
        // where the path holds another centre.
        AncestorAt(reverse, planet, fuel, |s| - (i + 1) - 1);
        AncestorCompose(reverse, planet, i + 1, |s|);
        assert false;
      }
    }
  }

  /** Some member of a non-empty set. */
  ghost function Pick(planets: set<string>): (p: string)
    requires planets != {}
    ensures p in planets
  {
    var p :| p in planets; p
  }

  /** `num_orbits` as a function of the planet alone. */
  function Depths(reverse: map<string, string>, fuel: nat): string -> Result<nat, Fault>
  {
    p => NumOrbits(reverse, p, fuel)
  }

  /** The sum of `depth` over a set of planets, in any order; a panic for one
      planet is a panic for the sum. */
  ghost function SumOver(depth: string -> Result<nat, Fault>, planets: set<string>): Result<nat, Fault>
    decreases planets
  {
    if planets == {} then Success(0)
    else
      var p := Pick(planets);
      var d :- depth(p);
      var rest :- SumOver(depth, planets - {p});
      Success(d + rest)
  }

  /** The sum succeeds exactly when every planet's depth does. */
  lemma {:induction false} SumOverSuccess(depth: string -> Result<nat, Fault>, planets: set<string>)
    ensures SumOver(depth, planets).Success? <==> forall p :: p in planets ==> depth(p).Success?
    decreases planets
  {
    if planets != {} {
      SumOverSuccess(depth, planets - {Pick(planets)});
    }
  }

  /** Any planet's depth can be taken out of the sum first, so the order in
      which the map's keys are visited does not matter. */
  lemma {:induction false} SumOverRemove(depth: string -> Result<nat, Fault>, planets: set<string>, q: string)
    requires q in planets
    requires forall p :: p in planets ==> depth(p).Success?
    ensures SumOver(depth, planets).Success? && SumOver(depth, planets - {q}).Success?
    ensures SumOver(depth, planets).value == depth(q).value + SumOver(depth, planets - {q}).value
    decreases planets
  {
    SumOverSuccess(depth, planets);
    SumOverSuccess(depth, planets - {q});
    var p := Pick(planets);
    if p != q {
      SumOverSuccess(depth, planets - {p});
      SumOverSuccess(depth, planets - {p} - {q});
      SumOverRemove(depth, planets - {p}, q);
      SumOverRemove(depth, planets - {q}, p);
      assert planets - {p} - {q} == planets - {q} - {p};
    }
  }

  /** The depths of `planets`, summed in the order listed. */
  function SumInOrder(depth: string -> Result<nat, Fault>, planets: seq<string>): Result<nat, Fault>
  {
    if planets == [] then Success(0)
    else
      var rest :- SumInOrder(depth, planets[..|planets| - 1]);
      var d :- depth(planets[|planets| - 1]);
      Success(rest + d)
  }

  /** Summing the depths of distinct planets in the order listed gives the
      order-free sum over the set of them. */
  lemma {:induction false} SumInAnyOrder(depth: string -> Result<nat, Fault>, planets: seq<string>)
    requires forall i, j :: 0 <= i < j < |planets| ==> planets[i] != planets[j]
    requires forall i :: 0 <= i < |planets| ==> depth(planets[i]).Success?
    ensures SumInOrder(depth, planets) == SumOver(depth, set i | 0 <= i < |planets| :: planets[i])
  {
    var all := set i | 0 <= i < |planets| :: planets[i];
    if planets != [] {
      var n := |planets| - 1;
      var init := planets[..n];
      var rest := set i | 0 <= i < n :: init[i];
      assert rest == all - {planets[n]} by {
        forall p | p in all - {planets[n]} ensures p in rest {
          var i :| 0 <= i < |planets| && planets[i] == p;
          assert init[i] == p;
        }
      }
      assert forall i :: 0 <= i < n ==> init[i] == planets[i];
      SumInAnyOrder(depth, init);
      assert forall p :: p in all ==> depth(p).Success?;
      SumOverRemove(depth, all, planets[n]);
    }
  }

  /** The length of the longest common tail of two paths. */
  function CommonSuffix(a: seq<string>, b: seq<string>): (c: nat)
    ensures c <= |a| && c <= |b|
    decreases |a|
  {
    if a != [] && b != [] && a[|a| - 1] == b[|b| - 1] then 1 + CommonSuffix(a[..|a| - 1], b[..|b| - 1]) else 0
  }

  /** The entry `i` places before the end (0 is the last). */
  function FromEnd(a: seq<string>, i: nat): string
    requires i < |a|
  {
    a[|a| - 1 - i]
  }

  /** The last `CommonSuffix(a, b)` entries of the two paths agree, and the
      entries just before them (if both paths have one) differ. */
  lemma {:induction false} CommonSuffixIsLongest(a: seq<string>, b: seq<string>)
    ensures var c := CommonSuffix(a, b);
      && (forall i :: 0 <= i < c ==> FromEnd(a, i) == FromEnd(b, i))
      && (c < |a| && c < |b| ==> FromEnd(a, c) != FromEnd(b, c))
    decreases |a|
  {
    if a != [] && b != [] && a[|a| - 1] == b[|b| - 1] {
      var a', b' := a[..|a| - 1], b[..|b| - 1];
      CommonSuffixIsLongest(a', b');
      var c := CommonSuffix(a, b);
      assert c == 1 + CommonSuffix(a', b');
      forall i | 0 < i <= c && i < |a| && i < |b|
        ensures FromEnd(a, i) == FromEnd(a', i - 1) && FromEnd(b, i) == FromEnd(b', i - 1)
      {
      }
    }
  }

  /** Two paths that end in the same entries share at least that tail: a
      shared tail adds its length to the common suffix of the rest. */
  lemma {:induction false} CommonSuffixAppend(a: seq<string>, b: seq<string>, tail: seq<string>)
    ensures CommonSuffix(a + tail, b + tail) == |tail| + CommonSuffix(a, b)
    decreases |tail|
  {
    if tail != [] {
      var t := tail[..|tail| - 1];
      assert (a + tail)[..|a + tail| - 1] == a + t;
      assert (b + tail)[..|b + tail| - 1] == b + t;
      CommonSuffixAppend(a, b, t);
    } else {
      assert a + tail == a && b + tail == b;
    }
  }

  /** Transfers between the centres of two planets whose paths are `a` and
      `b`: down from one centre to the last shared one and up to the other.
      When one path is a tail of the other, the popping runs dry and panics. */
  function Transfers(a: seq<string>, b: seq<string>): (r: Result<nat, Fault>)
    ensures r.Failure? <==> IsTail(a, b) || IsTail(b, a)
    ensures r.Failure? ==> r.error == MissingValue
    ensures r.Success? ==> exists c: nat ::
      && c < |a| && c < |b|
      && (forall i :: 0 <= i < c ==> FromEnd(a, i) == FromEnd(b, i))
      && FromEnd(a, c) != FromEnd(b, c)
      && r.value == (|a| - c) + (|b| - c)
  {
    var c := CommonSuffix(a, b);
    CommonSuffixIsLongest(a, b);
    TailIffCommonSuffix(a, b);
    if c < |a| && c < |b| then Success(|a| + |b| - 2 * c) else Failure(MissingValue)
  }

  /** `a` is the last `|a|` entries of `b`. */
  predicate IsTail(a: seq<string>, b: seq<string>)
  {
    |a| <= |b| && a == b[|b| - |a|..]
  }

  /** One path is a tail of the other exactly when their common suffix is
      the whole of one of them. */
  lemma TailIffCommonSuffix(a: seq<string>, b: seq<string>)
    ensures IsTail(a, b) || IsTail(b, a) <==> CommonSuffix(a, b) == |a| || CommonSuffix(a, b) == |b|
  {
    var c := CommonSuffix(a, b);
    CommonSuffixIsLongest(a, b);
    if IsTail(a, b) {
      TailAgrees(a, b);
    }
    if IsTail(b, a) {
      TailAgrees(b, a);
    }
    if c == |a| {
      assert forall k :: 0 <= k < |a| ==> a[k] == FromEnd(a, |a| - 1 - k);
      assert a == b[|b| - |a|..];
    }
    if c == |b| {
      assert forall k :: 0 <= k < |b| ==> b[k] == FromEnd(b, |b| - 1 - k);
      assert b == a[|a| - |b|..];
    }
  }

  /** A tail agrees with the path it ends, entry by entry from the end. */
  lemma TailAgrees(a: seq<string>, b: seq<string>)
    requires IsTail(a, b)
    ensures forall i :: 0 <= i < |a| ==> FromEnd(a, i) == FromEnd(b, i)
  {
    forall i | 0 <= i < |a|
      ensures FromEnd(a, i) == FromEnd(b, i)
    {
      assert FromEnd(a, i) == b[|b| - |a|..][|a| - 1 - i];
    }
  }

  /** The transfers between the centres of `from` and `to`. */
  function TransfersBetween(reverse: map<string, string>, from: string, to: string, fuel: nat): Result<nat, Fault>
  {
    var a :- Ancestors(reverse, from, fuel);
    var b :- Ancestors(reverse, to, fuel);
    Transfers(a, b)
  }
}
