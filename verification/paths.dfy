/** The closed outline of a ribbon: the sampled arc at its start, a curve
    through the bend point to the sampled arc at its end, and a curve back
    through the bend point to where it began. */
module Paths {
  import opened Common

  /** matplotlib's `Path.MOVETO` and `Path.CURVE4` codes. */
  datatype PathCode = MoveTo | Curve4

  /** A `Path(verts, codes)`. */
  datatype RibbonPath = RibbonPath(verts: seq<Point>, codes: seq<PathCode>)

  /** The arguments of a `Wedge(center, r, theta1, theta2[, width])`: the arc
      whose points the drawing library samples. */
  datatype WedgeArc = WedgeArc(center: Point, radius: real, theta1: real, theta2: real, width: Option<real>)

  /** The radius at which a ribbon meets its arch: inside the arch's band,
      less the margin left free next to it. */
  function EffectiveRadius(radius: real, margin: real, height: real): (er: real)
    ensures er + margin + height == radius
  {
    radius - margin - height
  }

  /** `n` copies of CURVE4. */
  function Curves(n: nat): (cs: seq<PathCode>)
    ensures |cs| == n
    ensures forall i :: 0 <= i < n ==> cs[i] == Curve4
  {
    seq(n, _ => Curve4)
  }

  /** The path that `get_path` assembles: the start points, the bend point
      twice, the end points, the bend point twice, and the first start point
      again to close the outline; MOVETO for the first vertex, CURVE4 for all
      others. */
  function ClosedRibbon(s: seq<Point>, e: seq<Point>, bend: Point): (p: RibbonPath)
    requires s != []
    ensures |p.verts| == |p.codes| == |s| + |e| + 5
    ensures p.codes[0] == MoveTo
    ensures forall i :: 1 <= i < |p.codes| ==> p.codes[i] == Curve4
    ensures p.verts[..|s|] == s
    ensures p.verts[|s|] == bend && p.verts[|s| + 1] == bend
    ensures p.verts[|s| + 2..|s| + 2 + |e|] == e
    ensures p.verts[|s| + |e| + 2] == bend && p.verts[|s| + |e| + 3] == bend
    ensures p.verts[|p.verts| - 1] == p.verts[0] == s[0]
  {
    var verts := s + [bend, bend] + e + [bend, bend] + [s[0]];
    assert verts[..|s|] == s;
    assert verts[|s| + 2..|s| + 2 + |e|] == e;
    RibbonPath(verts, [MoveTo] + Curves(|s| + |e| + 4))
  }

  /** The loops of `get_path`: start from the first start point with MOVETO
      and append every further vertex with CURVE4. An empty start list has no
      first point (IndexError). */
  method BuildPath(startLoc: seq<Point>, endLoc: seq<Point>, bend: Point) returns (r: Result<RibbonPath>)
    ensures startLoc == [] ==> r == Err(IndexError)
    ensures startLoc != [] ==> r == Ok(ClosedRibbon(startLoc, endLoc, bend))
  {
    if startLoc == [] {
      return Err(IndexError);
    }
    var verts := [startLoc[0]];
    var codes := [MoveTo];
    var i := 1;
    while i < |startLoc|
      invariant 1 <= i <= |startLoc|
      invariant verts == startLoc[..i]
      invariant codes == [MoveTo] + Curves(i - 1)
    {
      verts := verts + [startLoc[i]];
      codes := codes + [Curve4];
      assert Curves(i - 1) + [Curve4] == Curves(i);
      i := i + 1;
    }
    assert verts == startLoc;
    verts := verts + [bend, bend];
    codes := codes + [Curve4, Curve4];
    assert Curves(|startLoc| - 1) + [Curve4, Curve4] == Curves(|startLoc| + 1);
    var j := 0;
    while j < |endLoc|
      invariant 0 <= j <= |endLoc|
      invariant verts == startLoc + [bend, bend] + endLoc[..j]
      invariant codes == [MoveTo] + Curves(|startLoc| + 1 + j)
    {
      verts := verts + [endLoc[j]];
      codes := codes + [Curve4];
      assert Curves(|startLoc| + 1 + j) + [Curve4] == Curves(|startLoc| + 2 + j);
      assert endLoc[..j + 1] == endLoc[..j] + [endLoc[j]];
      j := j + 1;
    }
    assert endLoc[..j] == endLoc;
    verts := verts + [bend, bend];
    verts := verts + [verts[0]];
    codes := codes + [Curve4, Curve4, Curve4];
    assert Curves(|startLoc| + 1 + j) + [Curve4, Curve4, Curve4] == Curves(|startLoc| + |endLoc| + 4);
    assert codes == [MoveTo] + Curves(|startLoc| + |endLoc| + 4);
    assert verts == startLoc + [bend, bend] + endLoc + [bend, bend] + [startLoc[0]];
    return Ok(RibbonPath(verts, codes));
  }
}
