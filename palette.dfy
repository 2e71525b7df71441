/** Height-to-colour classification: each vertex gets one of four fixed RGB
    triples by the band its height falls in, written at the vertex's own
    three slots of a colour buffer as long as the position buffer. */
module Palette {

  import Layout

  datatype Band = Water | Coastal | Land | Highlands

  datatype Rgb = Rgb(red: real, green: real, blue: real)

  datatype Option<T> = None | Some(value: T)

  /** The band of height h. The comparisons are strict, so a height on a
      boundary belongs to the band above it: 0.0 is coastal, 0.5 is land
      and 1.0 is highlands. */
  function Classify(h: real): (b: Band)
    ensures b == Water <==> h < 0.0
    ensures b == Coastal <==> 0.0 <= h < 0.5
    ensures b == Land <==> 0.5 <= h < 1.0
    ensures b == Highlands <==> 1.0 <= h
  {
    if h < 0.0 then Water
    else if h < 0.5 then Coastal
    else if h < 1.0 then Land
    else Highlands
  }

  /** The band a colour stands for, if it is one of the four. */
  function BandOf(c: Rgb): (b: Option<Band>)
  {
    if c == Rgb(0.1, 0.3, 0.5) then Some(Water)
    else if c == Rgb(0.15, 0.45, 0.45) then Some(Coastal)
    else if c == Rgb(0.2, 0.5, 0.3) then Some(Land)
    else if c == Rgb(0.4, 0.35, 0.25) then Some(Highlands)
    else None
  }

  /** Deep blue, teal, green and brown/tan. The colour of a band names that
      band back, so distinct bands get distinct colours. */
  function ColourOf(b: Band): (c: Rgb)
    ensures BandOf(c) == Some(b)
  {
    match b
    case Water => Rgb(0.1, 0.3, 0.5)
    case Coastal => Rgb(0.15, 0.45, 0.45)
    case Land => Rgb(0.2, 0.5, 0.3)
    case Highlands => Rgb(0.4, 0.35, 0.25)
  }

  /** Channel k (0 red, 1 green, 2 blue) of a colour. */
  function Channel(c: Rgb, k: int): real
    requires 0 <= k < 3
  {
    if k == 0 then c.red else if k == 1 then c.green else c.blue
  }

  /** The colour buffer for the position buffer p: slot i holds channel
      i % 3 of the colour of the height of the vertex slot i belongs to. */
  function Paint(p: seq<real>): (c: seq<real>)
    requires |p| % 3 == 0
    ensures |c| == |p|
  {
    seq(|p|, i requires 0 <= i < |p| =>
      Layout.VertexInBounds(i - i % 3, |p|);
      Channel(ColourOf(Classify(p[i - i % 3 + 2])), i % 3))
  }

  /** Reading back the three slots of any vertex of a painted buffer gives
      one of the four colours, and it is the one of that vertex's band. */
  lemma PaintDecodes(p: seq<real>, i: int)
    requires |p| % 3 == 0 && 0 <= i < |p| && i % 3 == 0
    ensures i + 2 < |p|
    ensures BandOf(Rgb(Paint(p)[i], Paint(p)[i + 1], Paint(p)[i + 2])) == Some(Classify(p[i + 2]))
  {
    Layout.VertexInBounds(i, |p|);
    var c := ColourOf(Classify(p[i + 2]));
    assert (i + 1) - (i + 1) % 3 == i && (i + 2) - (i + 2) % 3 == i;
    assert Rgb(Paint(p)[i], Paint(p)[i + 1], Paint(p)[i + 2]) == c;
  }

  /** The colour loop: fills a new buffer of the same length, one triple
      per vertex, reading the position buffer and never writing it. */
  method PaintVertices(positions: array<real>) returns (colours: array<real>)
    requires positions.Length % 3 == 0
    ensures fresh(colours)
    ensures colours[..] == Paint(positions[..])
  {
    ghost var painted := Paint(positions[..]);
    colours := new real[(positions.Length / 3) * 3];
    var i := 0;
    while i < positions.Length
      invariant 0 <= i <= positions.Length && i % 3 == 0
      invariant colours.Length == positions.Length
      invariant forall j :: 0 <= j < i ==> colours[j] == painted[j]
    {
      Layout.VertexInBounds(i, positions.Length);
      var height := positions[i + 2];
      var c := ColourOf(Classify(height));
      colours[i], colours[i + 1], colours[i + 2] := c.red, c.green, c.blue;
      assert (i + 1) - (i + 1) % 3 == i && (i + 2) - (i + 2) % 3 == i;
      i := i + 3;
    }
  }

  /** Boundary heights fall in the band above the boundary. */
  lemma Boundaries()
    ensures Classify(0.0) == Coastal && Classify(0.5) == Land && Classify(1.0) == Highlands
    ensures Classify(-0.01) == Water && Classify(0.49) == Coastal && Classify(0.99) == Land
  {
  }
}
