/** The base ("present") height field of the terrain mesh.

    The mesh keeps its vertices in one flat position buffer of [x, y, z]
    triples: slot i holds x when i % 3 == 0, y when i % 3 == 1 and the
    height z when i % 3 == 2. The base field overwrites every z with a sum of
    three sine-cosine layers of that vertex's own x and y. */
module Relief {

  import Layout

  /** Sine and cosine. Dafny cannot evaluate them, so they are parameters. */
  datatype Trig = Trig(sin: real -> real, cos: real -> real)

  /** What the model relies on about sine and cosine: both stay in [-1, 1]. */
  ghost predicate Bounded(trig: Trig)
  {
    forall a :: -1.0 <= trig.sin(a) <= 1.0 && -1.0 <= trig.cos(a) <= 1.0
  }

  /** Macro relief, mid-frequency ridges and fine detail, summed. */
  function Height(trig: Trig, x: real, y: real): real
  {
    trig.sin(x * 0.5) * trig.cos(y * 0.5) * 1.5
    + trig.sin(x * 1.2 + 1.0) * trig.cos(y * 0.8) * 0.5
    + trig.sin(x * 2.5) * trig.cos(y * 2.5) * 0.2
  }

  lemma ProductBounded(a: real, b: real)
    requires -1.0 <= a <= 1.0 && -1.0 <= b <= 1.0
    ensures -1.0 <= a * b <= 1.0
  {
    if a >= 0.0 && b >= 0.0 {
      assert a * b <= a * 1.0;
    } else if a >= 0.0 {
      assert a * b >= a * -1.0;
    } else if b >= 0.0 {
      assert a * b >= -1.0 * b;
    } else {
      assert a * b <= -1.0 * a;
    }
  }

  lemma SumBound(a: real, b: real, c: real)
    requires -1.0 <= a <= 1.0 && -1.0 <= b <= 1.0 && -1.0 <= c <= 1.0
    ensures -2.2 <= a * 1.5 + b * 0.5 + c * 0.2 <= 2.2
  {
  }

  /** The three amplitudes add up to 2.2, so no base height leaves [-2.2, 2.2]. */
  lemma HeightBounded(trig: Trig, x: real, y: real)
    requires Bounded(trig)
    ensures -2.2 <= Height(trig, x, y) <= 2.2
  {
    ProductBounded(trig.sin(x * 0.5), trig.cos(y * 0.5));
    ProductBounded(trig.sin(x * 1.2 + 1.0), trig.cos(y * 0.8));
    ProductBounded(trig.sin(x * 2.5), trig.cos(y * 2.5));
    SumBound(trig.sin(x * 0.5) * trig.cos(y * 0.5),
             trig.sin(x * 1.2 + 1.0) * trig.cos(y * 0.8),
             trig.sin(x * 2.5) * trig.cos(y * 2.5));
  }

  /** The base field as a function of a vertex's planar coordinates. */
  function Field(trig: Trig): (real, real) -> real
  {
    (x: real, y: real) => Height(trig, x, y)
  }

  /** The buffer after a pass that sets each vertex's z to field(x, y); the
      base-field pass is Raise(p, Field(trig)). */
  function Raise(p: seq<real>, field: (real, real) -> real): (r: seq<real>)
    requires |p| % 3 == 0
    ensures |r| == |p|
    ensures forall i :: 0 <= i < |p| && i % 3 != 2 ==> r[i] == p[i]
  {
    seq(|p|, i requires 0 <= i < |p| =>
      if i % 3 == 2 then field(p[i - 2], p[i - 1]) else p[i])
  }

  /** A raised height depends on its own vertex's x and y and on nothing else:
      not on its old height, not on any other vertex, not on where in the
      buffer the vertex sits. */
  lemma RaiseIsLocal(p: seq<real>, q: seq<real>, field: (real, real) -> real, i: int, j: int)
    requires |p| % 3 == 0 && |q| % 3 == 0
    requires 0 <= i < |p| && 0 <= j < |q| && i % 3 == 2 && j % 3 == 2
    requires p[i - 2] == q[j - 2] && p[i - 1] == q[j - 1]
    ensures Raise(p, field)[i] == Raise(q, field)[j]
  {
    Layout.PlanarSlotsOf(i);
    Layout.PlanarSlotsOf(j);
  }

  /** Running the pass a second time over its own output changes nothing,
      because the pass reads only the slots it never writes. */
  lemma RaiseIdempotent(p: seq<real>, field: (real, real) -> real)
    requires |p| % 3 == 0
    ensures Raise(Raise(p, field), field) == Raise(p, field)
  {
    var r := Raise(p, field);
    forall i | 0 <= i < |p|
      ensures Raise(r, field)[i] == r[i]
    {
      if i % 3 == 2 {
        Layout.PlanarSlotsOf(i);
        assert r[i - 2] == p[i - 2] && r[i - 1] == p[i - 1];
      }
    }
    assert |Raise(r, field)| == |r|;
  }

  /** The base-field loop: writes each vertex's z in place, in buffer order. */
  method RaiseInPlace(positions: array<real>, field: (real, real) -> real)
    requires positions.Length % 3 == 0
    modifies positions
    ensures positions[..] == Raise(old(positions[..]), field)
  {
    ghost var r := Raise(old(positions[..]), field);
    var i := 0;
    while i < positions.Length
      invariant 0 <= i <= positions.Length && i % 3 == 0
      invariant forall j :: 0 <= j < i ==> positions[j] == r[j]
      invariant forall j :: i <= j < positions.Length ==> positions[j] == old(positions[j])
    {
      Layout.VertexInBounds(i, positions.Length);
      var x := positions[i];
      var y := positions[i + 1];
      positions[i + 2] := field(x, y);
      i := i + 3;
    }
  }
}
