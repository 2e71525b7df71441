/** The "future" height field: each vertex's base height lowered by a band
    rule (flooding of low ground, mild erosion of mid ground, stronger
    erosion of highlands), one random draw per vertex, and a further coastal
    drop for low vertices far from the centre of the grid. */
module Erosion {

  import Layout

  /** The change for base height h and draw r in [0, 1), before the coastal
      drop. Every band lowers the ground by at least 0.2. */
  function Change(h: real, r: real): (c: real)
    requires 0.0 <= r < 1.0
    ensures h < 0.3 ==> -0.8 < c <= -0.5
    ensures 0.3 <= h < 1.0 ==> -0.4 < c <= -0.2
    ensures 1.0 <= h ==> -0.7 < c <= -0.4
  {
    if h < 0.3 then -0.5 - r * 0.3
    else if h < 1.0 then -0.2 - r * 0.2
    else -0.4 - r * 0.3
  }

  /** The vertex is farther than 3.5 from the centre and below 0.5. The
      distance test compares squares, which DistanceTest justifies. */
  predicate Coastal(x: real, y: real, h: real)
  {
    x * x + y * y > 12.25 && h < 0.5
  }

  /** For a distance d >= 0 with d * d == x * x + y * y (the square root),
      d > 3.5 holds exactly when x * x + y * y > 12.25. */
  lemma DistanceTest(x: real, y: real, d: real)
    requires 0.0 <= d && d * d == x * x + y * y
    ensures d > 3.5 <==> x * x + y * y > 12.25
  {
    if d > 3.5 {
      assert d * d > 3.5 * d > 3.5 * 3.5;
    } else {
      assert d * d <= 3.5 * d <= 3.5 * 3.5;
    }
  }

  /** The future height of the vertex (x, y) with base height h and draw r. */
  function FutureHeight(x: real, y: real, h: real, r: real): (f: real)
    requires 0.0 <= r < 1.0
    ensures f < h + Change(h, r) <==> Coastal(x, y, h)
    ensures f == h + Change(h, r) || f == h + Change(h, r) - 0.3
    ensures 0.5 <= h ==> f == h + Change(h, r)
    ensures -1.1 < f - h <= -0.2
  {
    var c := Change(h, r);
    if Coastal(x, y, h) then h + c - 0.3 else h + c
  }

  /** What the source promises of each draw: Math.random() lies in [0, 1). */
  predicate Draws(draws: seq<real>)
  {
    forall k :: 0 <= k < |draws| ==> 0.0 <= draws[k] < 1.0
  }

  /** Slot i of the future buffer: a copy of an x or y slot, or the future
      height of the vertex whose z slot it is. */
  function FutureSlot(p: seq<real>, draws: seq<real>, i: int): (z: real)
    requires |p| % 3 == 0 && |draws| == |p| / 3 && Draws(draws) && 0 <= i < |p|
    ensures i % 3 != 2 ==> z == p[i]
    ensures i % 3 == 2 ==> p[i] - 1.1 < z <= p[i] - 0.2
  {
    if i % 3 == 2 then
      Layout.ZSlotOf(i, |p|);
      FutureHeight(p[i - 2], p[i - 1], p[i], draws[i / 3])
    else p[i]
  }

  /** The future buffer derived from the position buffer p, with draws[v]
      the draw of vertex v. */
  function Erode(p: seq<real>, draws: seq<real>): (f: seq<real>)
    requires |p| % 3 == 0 && |draws| == |p| / 3 && Draws(draws)
    ensures |f| == |p|
    ensures forall i :: 0 <= i < |p| && i % 3 != 2 ==> f[i] == p[i]
    ensures forall i :: 0 <= i < |p| && i % 3 == 2 ==> p[i] - 1.1 < f[i] <= p[i] - 0.2
  {
    seq(|p|, i requires 0 <= i < |p| => FutureSlot(p, draws, i))
  }

  /** The future-field loop: fills a new buffer, reading p and never writing it. */
  method DeriveFuture(positions: array<real>, draws: seq<real>) returns (future: array<real>)
    requires positions.Length % 3 == 0 && |draws| == positions.Length / 3 && Draws(draws)
    ensures fresh(future)
    ensures future[..] == Erode(positions[..], draws)
  {
    ghost var f := Erode(positions[..], draws);
    future := new real[positions.Length];
    var i := 0;
    while i < positions.Length
      invariant 0 <= i <= positions.Length && i % 3 == 0
      invariant forall j :: 0 <= j < i ==> future[j] == f[j]
    {
      Layout.VertexInBounds(i, positions.Length);
      var currentHeight := positions[i + 2];
      var x := positions[i];
      var y := positions[i + 1];
      var change := Change(currentHeight, draws[i / 3]);
      if Coastal(x, y, currentHeight) {
        change := change - 0.3;
      }
      future[i] := positions[i];
      future[i + 1] := positions[i + 1];
      future[i + 2] := currentHeight + change;
      i := i + 3;
    }
  }
}
