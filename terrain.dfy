/** The terrain mesh component. When it mounts it raises the base field into
    the plane geometry's position buffer, derives the future buffer from it
    and paints the colour buffer from it; each of these runs once. Every
    frame then moves the rendered mesh's heights 5% of the way toward the
    future buffer or the base buffer, as the display mode says. */
module Terrain {

  import Relief
  import Erosion
  import Smoothing
  import Palette
  import Layout

  class TerrainMesh {
    /** The geometry's position buffer, holding the base field. */
    const positions: array<real>
    /** The future buffer, derived once from the base field. */
    const future: array<real>
    /** The colour buffer, painted once from the base field. */
    const colours: array<real>
    /** The rendered mesh's position buffer; null while the mesh ref is. */
    var rendered: array?<real>

    ghost predicate Valid()
      reads this
    {
      && positions.Length % 3 == 0
      && future.Length == positions.Length
      && colours.Length == positions.Length
      && (rendered != null ==>
            && rendered.Length == positions.Length
            && rendered != positions && rendered != future && rendered != colours)
    }

    /** Mounting: plane is the position buffer of a fresh plane geometry,
        trig the sine and cosine of the noise, and draws[v] the random draw
        of vertex v for the future field. */
    constructor (plane: array<real>, trig: Relief.Trig, draws: seq<real>)
      requires plane.Length % 3 == 0 && |draws| == plane.Length / 3 && Erosion.Draws(draws)
      modifies plane
      ensures Valid() && rendered == null
      ensures positions == plane && positions[..] == Relief.Raise(old(plane[..]), Relief.Field(trig))
      ensures fresh(future) && future[..] == Erosion.Erode(positions[..], draws)
      ensures fresh(colours) && colours[..] == Palette.Paint(positions[..])
    {
      Relief.RaiseInPlace(plane, Relief.Field(trig));
      var futureHeights := Erosion.DeriveFuture(plane, draws);
      var colourArray := Palette.PaintVertices(plane);
      positions, future, colours := plane, futureHeights, colourArray;
      rendered := null;
    }

    /** The mesh is attached, rendering its own copy of the base positions. */
    method Attach()
      requires Valid()
      modifies this`rendered
      ensures Valid() && rendered != null && fresh(rendered)
      ensures rendered[..] == positions[..]
    {
      rendered := new real[positions.Length](i reads positions => if 0 <= i < positions.Length then positions[i] else 0.0);
    }

    /** The buffer the frame pulls toward: the future buffer when the
        display mode asks for the future, the base buffer otherwise. */
    function Target(showFuture: bool): (t: array<real>)
      reads this
      ensures Valid() ==> t.Length == positions.Length && t != rendered
    {
      if showFuture then future else positions
    }

    /** One frame. With no mesh attached nothing changes; otherwise every
        height of the rendered buffer takes one step toward the target, and
        its x and y slots, its length and the other buffers stay as they are. */
    method Step(showFuture: bool)
      requires Valid()
      modifies rendered
      ensures Valid()
      ensures unchanged(positions, future, colours)
      ensures rendered != null ==>
                rendered[..] == Smoothing.StepToward(old(rendered[..]), Target(showFuture)[..])
    {
      if rendered == null {
        return;
      }
      var live := rendered;
      var target := Target(showFuture);
      ghost var next := Smoothing.StepToward(live[..], target[..]);
      var i := 0;
      while i < live.Length
        invariant 0 <= i <= live.Length && i % 3 == 0
        invariant forall j :: 0 <= j < i ==> live[j] == next[j]
        invariant forall j :: i <= j < live.Length ==> live[j] == old(live[j])
      {
        Layout.VertexInBounds(i, live.Length);
        live[i + 2] := live[i + 2] + (target[i + 2] - live[i + 2]) * 0.05;
        i := i + 3;
      }
    }
  }
}
