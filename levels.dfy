/** Level schema, the spike-pattern expander and the two built-in levels (levels.js). */
module Levels {

  /** The two locomotion modes a portal can switch to. */
  datatype Mode = Cube | Ship

  /** A hazard at a tile column and tile row. */
  datatype Spike = Spike(x: int, y: int)

  /** A solid rectangle in tile units. */
  datatype Platform = Platform(x: int, y: int, w: int, h: int)

  /** A one-tile mode-switching zone. */
  datatype Portal = Portal(x: int, y: int, toMode: Mode)

  /** A run of spikes at columns start, start + every, ... up to end. */
  datatype Pattern = Pattern(start: int, end: int, every: int)

  datatype Level = Level(
    name: string,
    spikes: seq<Spike>,
    platforms: seq<Platform>,
    portals: seq<Portal>,
    endX: int,
    length: int)

  /** The tile row every generated spike sits on. */
  const SPIKE_ROW: int := 8

  /** Expanding a pattern stops: either its range is empty or its stride moves forward. */
  predicate Terminates(p: Pattern) {
    p.start > p.end || p.every >= 1
  }

  predicate AllTerminate(patterns: seq<Pattern>) {
    forall i :: 0 <= i < |patterns| ==> Terminates(patterns[i])
  }

  predicate AllForward(patterns: seq<Pattern>) {
    forall i :: 0 <= i < |patterns| ==> patterns[i].every >= 1
  }

  /** The spikes the inner loop pushes for pattern p, from column x onward. */
  function Run(length: int, x: int, p: Pattern): (r: seq<Spike>)
    requires x > p.end || p.every >= 1
    decreases if x <= p.end then p.end - x + 1 else 0
  {
    if x > p.end then []
    else (if x < length then [Spike(x, SPIKE_ROW)] else []) + Run(length, x + p.every, p)
  }

  /** The whole spike list: the runs of all patterns, in pattern order. */
  function Expand(length: int, patterns: seq<Pattern>): (r: seq<Spike>)
    requires AllTerminate(patterns)
  {
    if patterns == [] then []
    else Run(length, patterns[0].start, patterns[0]) + Expand(length, patterns[1..])
  }

  /** generateSpikes: the outer loop over the patterns, pushing onto one growing list. */
  method GenerateSpikes(length: int, patterns: seq<Pattern>) returns (spikes: seq<Spike>)
    requires AllTerminate(patterns)
    ensures spikes == Expand(length, patterns)
  {
    spikes := [];
    var i := 0;
    assert patterns[0..] == patterns;
    while i < |patterns|
      invariant 0 <= i <= |patterns| && AllTerminate(patterns[i..])
      invariant spikes + Expand(length, patterns[i..]) == Expand(length, patterns)
    {
      ExpandStep(length, patterns, i);
      ghost var before := spikes;
      spikes := PushRun(length, patterns[i], spikes);
      assert spikes + Expand(length, patterns[i + 1..]) == before + Expand(length, patterns[i..]);
      i := i + 1;
    }
    assert patterns[i..] == [];
  }

  /** Peeling the pattern at i off the suffix from i. */
  lemma ExpandStep(length: int, patterns: seq<Pattern>, i: nat)
    requires AllTerminate(patterns) && i < |patterns|
    ensures Terminates(patterns[i]) && AllTerminate(patterns[i..]) && AllTerminate(patterns[i + 1..])
    ensures Expand(length, patterns[i..]) ==
            Run(length, patterns[i].start, patterns[i]) + Expand(length, patterns[i + 1..])
  {
    assert patterns[i..][1..] == patterns[i + 1..];
  }

  /** generateSpikes' inner loop: the columns of one pattern that lie inside the level, appended. */
  method PushRun(length: int, pattern: Pattern, spikes: seq<Spike>) returns (out: seq<Spike>)
    requires Terminates(pattern)
    ensures out == spikes + Run(length, pattern.start, pattern)
  {
    out := spikes;
    var x := pattern.start;
    while x <= pattern.end
      invariant x > pattern.end || pattern.every >= 1
      invariant out + Run(length, x, pattern) == spikes + Run(length, pattern.start, pattern)
      decreases pattern.end - x + 1
    {
      if x < length {
        out := out + [Spike(x, SPIKE_ROW)];
      }
      x := x + pattern.every;
    }
  }

  // ---------------------------------------------------------------------
  // What the expander produces

  /** The k-th column a run from `from` with stride `every` visits. */
  function Column(from: int, every: int, k: nat): (r: int) {
    from + k * every
  }

  /** Column c is visited by a run from x over pattern p and lies inside the level. */
  ghost predicate Visits(length: int, x: int, p: Pattern, c: int) {
    exists k: nat {:trigger Column(x, p.every, k)} ::
      c == Column(x, p.every, k) && x <= c <= p.end && c < length
  }

  /** Column c is produced by pattern p for a level of the given length. */
  ghost predicate Produces(length: int, p: Pattern, c: int) {
    Visits(length, p.start, p, c)
  }

  lemma {:induction false} RunOnRow(length: int, x: int, p: Pattern)
    requires x > p.end || p.every >= 1
    ensures forall s <- Run(length, x, p) :: s.y == SPIKE_ROW && x <= s.x <= p.end && s.x < length
    decreases if x <= p.end then p.end - x + 1 else 0
  {
    if x <= p.end {
      RunOnRow(length, x + p.every, p);
    }
  }

  /** A column is in a run exactly when the run visits it. */
  lemma {:induction false} RunMembers(length: int, x: int, p: Pattern, c: int)
    requires x > p.end || p.every >= 1
    ensures Spike(c, SPIKE_ROW) in Run(length, x, p) <==> Visits(length, x, p, c)
    decreases if x <= p.end then p.end - x + 1 else 0
  {
    if x <= p.end {
      var rest := Run(length, x + p.every, p);
      RunMembers(length, x + p.every, p, c);
      RunOnRow(length, x + p.every, p);
      assert Run(length, x, p) == (if x < length then [Spike(x, SPIKE_ROW)] else []) + rest;
      if Spike(c, SPIKE_ROW) in rest {
        var k: nat :| c == Column(x + p.every, p.every, k) && x + p.every <= c <= p.end && c < length;
        assert c == Column(x, p.every, k + 1);
      }
      if x < length && c == x {
        assert c == Column(x, p.every, 0);
      }
      if Visits(length, x, p, c) {
        var k: nat :| c == Column(x, p.every, k) && x <= c <= p.end && c < length;
        if k == 0 {
          assert c == x;
        } else {
          assert c == Column(x + p.every, p.every, k - 1);
        }
      }
    }
  }

  /** Columns strictly increase along the list. */
  predicate IncreasingX(r: seq<Spike>) {
    forall i, j :: 0 <= i < j < |r| ==> r[i].x < r[j].x
  }

  lemma {:induction false} RunIncreasing(length: int, x: int, p: Pattern)
    requires p.every >= 1
    ensures IncreasingX(Run(length, x, p))
    decreases if x <= p.end then p.end - x + 1 else 0
  {
    if x <= p.end {
      RunIncreasing(length, x + p.every, p);
      RunOnRow(length, x + p.every, p);
      var rest := Run(length, x + p.every, p);
      var r := Run(length, x, p);
      forall i, j | 0 <= i < j < |r| ensures r[i].x < r[j].x {
        // when x >= length the whole run is empty, so only x < length remains
        if x < length {
          assert r == [Spike(x, SPIKE_ROW)] + rest;
          if i == 0 {
            assert r[0] == Spike(x, SPIKE_ROW);
            assert r[j] == rest[j - 1] && rest[j - 1] in rest;
            assert x + p.every <= rest[j - 1].x;
          } else {
            assert r[i] == rest[i - 1] && r[j] == rest[j - 1];
            assert rest[i - 1].x < rest[j - 1].x;
          }
        }
      }
    }
  }

  /** The number of k >= 0 with from + k*every <= last. */
  function RunCount(from: int, last: int, every: int): (r: nat)
    requires every >= 1
  {
    if from > last then 0 else (last - from) / every + 1
  }

  /** The last column a pattern can place in a level of the given length. */
  function LastColumn(length: int, p: Pattern): (r: int) {
    if p.end < length - 1 then p.end else length - 1
  }

  lemma {:induction false} RunLength(length: int, x: int, p: Pattern)
    requires p.every >= 1
    ensures |Run(length, x, p)| == RunCount(x, LastColumn(length, p), p.every)
    decreases if x <= p.end then p.end - x + 1 else 0
  {
    var last := LastColumn(length, p);
    if x <= p.end {
      RunLength(length, x + p.every, p);
      if x <= last && x + p.every <= last {
        DivShift(last - x - p.every, p.every);
      }
    }
  }

  lemma DivUnique(a: int, b: int, q: int, r: int)
    requires b >= 1 && 0 <= r < b && a == b * q + r
    ensures a / b == q
  {
    var q0, r0 := a / b, a % b;
    assert b * q0 + r0 == b * q + r;
    if q0 > q {
      assert b * (q0 - q) == b * q0 - b * q;
      MulAtLeast(b, q0 - q);
      assert false;
    } else if q0 < q {
      assert b * (q - q0) == b * q - b * q0;
      MulAtLeast(b, q - q0);
      assert false;
    }
  }

  lemma MulAtLeast(b: int, d: int)
    requires b >= 1 && d >= 1
    ensures b * d >= b
  {
  }

  lemma DivShift(a: int, b: int)
    requires a >= 0 && b >= 1
    ensures (a + b) / b == a / b + 1
  {
    var q, r := a / b, a % b;
    assert a == b * q + r;
    assert a + b == b * (q + 1) + r;
    DivUnique(a + b, b, q + 1, r);
  }

  /** The total a pattern list is expected to produce: the run counts summed over patterns. */
  function TotalCount(length: int, patterns: seq<Pattern>): (r: nat)
    requires AllForward(patterns)
  {
    if patterns == [] then 0
    else
      RunCount(patterns[0].start, LastColumn(length, patterns[0]), patterns[0].every)
      + TotalCount(length, patterns[1..])
  }

  lemma {:induction false} ExpandLength(length: int, patterns: seq<Pattern>)
    requires AllForward(patterns)
    ensures |Expand(length, patterns)| == TotalCount(length, patterns)
  {
    if patterns != [] {
      RunLength(length, patterns[0].start, patterns[0]);
      ExpandLength(length, patterns[1..]);
    }
  }

  lemma {:induction false} ExpandOnRow(length: int, patterns: seq<Pattern>)
    requires AllTerminate(patterns)
    ensures forall s <- Expand(length, patterns) :: s.y == SPIKE_ROW && s.x < length
  {
    if patterns != [] {
      RunOnRow(length, patterns[0].start, patterns[0]);
      ExpandOnRow(length, patterns[1..]);
    }
  }

  /** A spike is in the output iff it sits on the spike row at a column some pattern produces. */
  lemma {:induction false} ExpandMembers(length: int, patterns: seq<Pattern>, s: Spike)
    requires AllTerminate(patterns)
    ensures s in Expand(length, patterns) <==>
            s.y == SPIKE_ROW && exists j :: 0 <= j < |patterns| && Produces(length, patterns[j], s.x)
  {
    ExpandOnRow(length, patterns);
    if patterns != [] {
      var p := patterns[0];
      var tail := patterns[1..];
      RunMembers(length, p.start, p, s.x);
      ExpandMembers(length, tail, s);
      if s.y == SPIKE_ROW {
        if j :| 0 <= j < |tail| && Produces(length, tail[j], s.x) {
          assert patterns[j + 1] == tail[j];
        }
        if j :| 0 <= j < |patterns| && Produces(length, patterns[j], s.x) {
          if j > 0 {
            assert tail[j - 1] == patterns[j];
          }
        }
      }
    }
  }

  /** Spikes come out in pattern order: the output of a concatenation is the concatenation. */
  lemma {:induction false} ExpandAppend(length: int, ps: seq<Pattern>, qs: seq<Pattern>)
    requires AllTerminate(ps) && AllTerminate(qs)
    ensures Expand(length, ps + qs) == Expand(length, ps) + Expand(length, qs)
  {
    if ps == [] {
      assert ps + qs == qs;
    } else {
      assert (ps + qs)[1..] == ps[1..] + qs;
      ExpandAppend(length, ps[1..], qs);
    }
  }

  // ---------------------------------------------------------------------
  // The built-in levels

  const NEON_GATEWAY_PATTERNS: seq<Pattern> := [
    Pattern(10, 12, 1), Pattern(20, 25, 2), Pattern(35, 38, 1), Pattern(55, 60, 1),
    Pattern(80, 85, 2), Pattern(100, 105, 1), Pattern(120, 125, 2), Pattern(140, 145, 1),
    Pattern(160, 170, 1), Pattern(190, 195, 2), Pattern(210, 215, 1), Pattern(230, 240, 1),
    Pattern(260, 265, 2), Pattern(280, 285, 1), Pattern(300, 310, 1), Pattern(330, 335, 2),
    Pattern(350, 355, 1), Pattern(370, 375, 1)]

  const COSMIC_TUNNEL_PATTERNS: seq<Pattern> := [
    Pattern(8, 12, 1), Pattern(22, 26, 2), Pattern(40, 45, 1), Pattern(60, 68, 2),
    Pattern(85, 90, 1), Pattern(110, 115, 2), Pattern(135, 140, 1), Pattern(160, 170, 1),
    Pattern(195, 200, 2), Pattern(220, 225, 1), Pattern(250, 260, 1), Pattern(285, 290, 2),
    Pattern(310, 315, 1), Pattern(340, 350, 1), Pattern(375, 380, 2), Pattern(400, 405, 1)]

  const NEON_GATEWAY_PORTALS: seq<Portal> := [
    Portal(25, 7, Ship), Portal(65, 7, Cube), Portal(100, 7, Ship), Portal(150, 7, Cube),
    Portal(200, 7, Ship), Portal(250, 7, Cube), Portal(300, 7, Ship), Portal(350, 7, Cube)]

  const COSMIC_TUNNEL_PORTALS: seq<Portal> := [
    Portal(18, 7, Ship), Portal(55, 7, Cube), Portal(95, 7, Ship), Portal(145, 7, Cube),
    Portal(185, 7, Ship), Portal(235, 7, Cube), Portal(280, 7, Ship), Portal(330, 7, Cube),
    Portal(375, 7, Ship)]

  /** A level as levels.js declares it, before its spike patterns are expanded. */
  datatype Blueprint = Blueprint(
    name: string,
    patterns: seq<Pattern>,
    platforms: seq<Platform>,
    portals: seq<Portal>,
    endX: int,
    length: int)

  /** LEVELS.length. */
  const LEVEL_COUNT: nat := 2

  /** The LEVELS array, in order. */
  const CATALOGUE: seq<Blueprint> := [
    Blueprint("Neon Gateway", NEON_GATEWAY_PATTERNS, [], NEON_GATEWAY_PORTALS, 390, 400),
    Blueprint("Cosmic Tunnel", COSMIC_TUNNEL_PATTERNS, [], COSMIC_TUNNEL_PORTALS, 410, 420)]

  /** The level record with its spikes generated over the level's length. */
  function Build(b: Blueprint): (lv: Level)
    requires AllTerminate(b.patterns)
    ensures lv.name == b.name && lv.platforms == b.platforms && lv.portals == b.portals
    ensures lv.endX == b.endX && lv.length == b.length
    ensures forall s <- lv.spikes :: s.y == SPIKE_ROW && s.x < b.length
  {
    ExpandOnRow(b.length, b.patterns);
    Level(b.name, Expand(b.length, b.patterns), b.platforms, b.portals, b.endX, b.length)
  }

  /** What the simulation relies on in a level: a positive finish line before the end, room for the camera. */
  predicate WellFormed(lv: Level) {
    0 < lv.endX < lv.length && lv.length >= 20
  }

  /** Portals switch ship, cube, ship, ... in declared order. */
  predicate Alternating(ps: seq<Portal>) {
    forall i :: 0 <= i < |ps| ==> ps[i].toMode == (if i % 2 == 0 then Ship else Cube)
  }

  /** Portal columns strictly increase in declared order. */
  predicate Ascending(ps: seq<Portal>) {
    forall i, j :: 0 <= i < j < |ps| ==> ps[i].x < ps[j].x
  }

  /** An index-by-index check of both layout rules from position i on, which unfolds on literal lists. */
  predicate LaidOutFrom(ps: seq<Portal>, i: nat)
    decreases |ps| - i
  {
    i >= |ps| ||
    (ps[i].toMode == (if i % 2 == 0 then Ship else Cube) &&
     (i + 1 == |ps| || ps[i].x < ps[i + 1].x) &&
     LaidOutFrom(ps, i + 1))
  }

  lemma {:induction false} LaidOutFromSound(ps: seq<Portal>, i: nat)
    requires LaidOutFrom(ps, i)
    ensures forall j :: i <= j < |ps| ==> ps[j].toMode == (if j % 2 == 0 then Ship else Cube)
    ensures forall j, k :: i <= j < k < |ps| ==> ps[j].x < ps[k].x
    decreases |ps| - i
  {
    if i < |ps| {
      LaidOutFromSound(ps, i + 1);
    }
  }

  /** Evaluating the LEVELS literal: one generateSpikes call per level, in order. */
  method BuildLevels(blueprints: seq<Blueprint>) returns (levels: seq<Level>)
    requires forall i :: 0 <= i < |blueprints| ==> AllTerminate(blueprints[i].patterns)
    ensures |levels| == |blueprints|
    ensures forall i {:trigger Build(blueprints[i])} :: 0 <= i < |blueprints| ==> levels[i] == Build(blueprints[i])
  {
    levels := [];
    var i := 0;
    while i < |blueprints|
      invariant 0 <= i <= |blueprints| && |levels| == i
      invariant forall j {:trigger Build(blueprints[j])} :: 0 <= j < i ==> levels[j] == Build(blueprints[j])
    {
      var b := blueprints[i];
      var spikes := GenerateSpikes(b.length, b.patterns);
      levels := levels + [Level(b.name, spikes, b.platforms, b.portals, b.endX, b.length)];
      i := i + 1;
    }
  }

  /** What a blueprint needs for its level to be built and played. */
  predicate Sound(b: Blueprint) {
    AllTerminate(b.patterns) && 0 < b.endX < b.length && b.length >= 20
  }

  lemma CatalogueShape()
    ensures |CATALOGUE| == LEVEL_COUNT
    ensures CATALOGUE[0].endX == 390 && CATALOGUE[0].length == 400 && CATALOGUE[0].platforms == []
    ensures CATALOGUE[1].endX == 410 && CATALOGUE[1].length == 420 && CATALOGUE[1].platforms == []
  {
  }

  /** Every built-in blueprint is sound, and its built level is well formed with no platforms. */
  lemma CatalogueSound(i: nat)
    requires i < |CATALOGUE|
    ensures Sound(CATALOGUE[i]) && AllForward(CATALOGUE[i].patterns) && CATALOGUE[i].platforms == []
    ensures WellFormed(Build(CATALOGUE[i])) && Build(CATALOGUE[i]).platforms == []
  {
    var b := CATALOGUE[i];
    assert AllForward(b.patterns);
    assert Sound(b) && b.platforms == [];
  }

  lemma NeonGatewayPortals()
    ensures Alternating(NEON_GATEWAY_PORTALS) && Ascending(NEON_GATEWAY_PORTALS)
  {
    assert LaidOutFrom(NEON_GATEWAY_PORTALS, 0);
    LaidOutFromSound(NEON_GATEWAY_PORTALS, 0);
  }

  lemma CosmicTunnelPortals()
    ensures Alternating(COSMIC_TUNNEL_PORTALS) && Ascending(COSMIC_TUNNEL_PORTALS)
  {
    assert LaidOutFrom(COSMIC_TUNNEL_PORTALS, 0);
    LaidOutFromSound(COSMIC_TUNNEL_PORTALS, 0);
  }

  /** In both built-in levels the portals alternate ship, cube, ... from left to right. */
  lemma LevelsPortals(i: nat)
    requires i < |CATALOGUE|
    ensures Alternating(CATALOGUE[i].portals) && Ascending(CATALOGUE[i].portals)
  {
    NeonGatewayPortals();
    CosmicTunnelPortals();
  }
}
