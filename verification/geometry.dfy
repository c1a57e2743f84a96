/** The CPU side of Geometry.cpp: the axis-aligned bounding box of a vertex
    list and the copies of vertex and index data taken before upload. */
module Geometry {
  import opened Common
  import opened ModelData

  /** An axis-aligned box given by its minimum and maximum corners. */
  datatype BoundingBox = BoundingBox(min: Vec3, max: Vec3)

  /** The CPU copies a geometry keeps: element counts and contents. */
  datatype Geometry = Geometry(nVertices: nat, vertexData: seq<Vertex>, nIndices: nat, indexData: seq<nat>)

  /** `p` lies in the box, component by component. */
  predicate Contains(b: BoundingBox, p: Vec3) {
    && b.min.x <= p.x <= b.max.x
    && b.min.y <= p.y <= b.max.y
    && b.min.z <= p.z <= b.max.z
  }

  /** Every corner component is taken from some vertex position. */
  predicate Attained(b: BoundingBox, vs: seq<Vertex>) {
    && (exists i :: 0 <= i < |vs| && vs[i].position.x == b.min.x)
    && (exists i :: 0 <= i < |vs| && vs[i].position.x == b.max.x)
    && (exists i :: 0 <= i < |vs| && vs[i].position.y == b.min.y)
    && (exists i :: 0 <= i < |vs| && vs[i].position.y == b.max.y)
    && (exists i :: 0 <= i < |vs| && vs[i].position.z == b.min.z)
    && (exists i :: 0 <= i < |vs| && vs[i].position.z == b.max.z)
  }

  /** One step of the scan on one coordinate: a smaller value lowers the
      minimum, otherwise a larger one raises the maximum. */
  function Widen(lo: real, hi: real, v: real): (r: (real, real))
    requires lo <= hi
    ensures r.0 <= v <= r.1 && r.0 <= lo && hi <= r.1
    ensures r.0 == lo || r.0 == v
    ensures r.1 == hi || r.1 == v
  {
    if v < lo then (v, hi) else if v > hi then (lo, v) else (lo, hi)
  }

  /** `createBoundingBox`: starts from the first position and widens the box
      over every vertex. The vertex list must not be empty. */
  method CreateBoundingBox(vs: seq<Vertex>) returns (b: BoundingBox)
    requires |vs| > 0
    ensures forall i :: 0 <= i < |vs| ==> Contains(b, vs[i].position)
    ensures Attained(b, vs)
  {
    var lo := vs[0].position;
    var hi := vs[0].position;
    var k := 0;
    while k < |vs|
      invariant 0 <= k <= |vs|
      invariant lo.x <= hi.x && lo.y <= hi.y && lo.z <= hi.z
      invariant forall i :: 0 <= i < k ==> Contains(BoundingBox(lo, hi), vs[i].position)
      invariant Attained(BoundingBox(lo, hi), vs)
    {
      var p := vs[k].position;
      var x := Widen(lo.x, hi.x, p.x);
      var y := Widen(lo.y, hi.y, p.y);
      var z := Widen(lo.z, hi.z, p.z);
      lo := Vec3(x.0, y.0, z.0);
      hi := Vec3(x.1, y.1, z.1);
      k := k + 1;
    }
    b := BoundingBox(lo, hi);
  }

  /** `copyVertexData`: a non-empty list replaces the vertex copy and its
      count; an empty one leaves the geometry as it was. */
  function CopyVertexData(g: Geometry, vs: seq<Vertex>): (r: Geometry)
    ensures |vs| > 0 ==> r.nVertices == |vs| && r.vertexData == vs
    ensures |vs| == 0 ==> r == g
    ensures r.nIndices == g.nIndices && r.indexData == g.indexData
  {
    if |vs| > 0 then g.(nVertices := |vs|, vertexData := vs) else g
  }

  /** `copyIndexData`: the same for the index copy and its count. */
  function CopyIndexData(g: Geometry, indices: seq<nat>): (r: Geometry)
    ensures |indices| > 0 ==> r.nIndices == |indices| && r.indexData == indices
    ensures |indices| == 0 ==> r == g
    ensures r.nVertices == g.nVertices && r.vertexData == g.vertexData
  {
    if |indices| > 0 then g.(nIndices := |indices|, indexData := indices) else g
  }

  /** The box of the vertices is the smallest that holds them: any box
      holding every position holds it too. */
  lemma BoundingBoxTight(b: BoundingBox, vs: seq<Vertex>, other: BoundingBox)
    requires forall i :: 0 <= i < |vs| ==> Contains(b, vs[i].position)
    requires Attained(b, vs)
    requires forall i :: 0 <= i < |vs| ==> Contains(other, vs[i].position)
    ensures other.min.x <= b.min.x && b.max.x <= other.max.x
    ensures other.min.y <= b.min.y && b.max.y <= other.max.y
    ensures other.min.z <= b.min.z && b.max.z <= other.max.z
  {
    var a :| 0 <= a < |vs| && vs[a].position.x == b.min.x;
    var c :| 0 <= c < |vs| && vs[c].position.x == b.max.x;
    var d :| 0 <= d < |vs| && vs[d].position.y == b.min.y;
    var e :| 0 <= e < |vs| && vs[e].position.y == b.max.y;
    var f :| 0 <= f < |vs| && vs[f].position.z == b.min.z;
    var g :| 0 <= g < |vs| && vs[g].position.z == b.max.z;
    assert Contains(other, vs[a].position) && Contains(other, vs[c].position);
    assert Contains(other, vs[d].position) && Contains(other, vs[e].position);
    assert Contains(other, vs[f].position) && Contains(other, vs[g].position);
  }
}
