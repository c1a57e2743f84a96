/** Wavefront OBJ / MTL ingestion (`ModelDataImpl` in ModelData.cpp and its
    twin `OBJLoader`): the bookkeeping the parser callbacks do. The parser
    itself is outside the model; its callbacks arrive as a list of events,
    with numbers already parsed. `Load` answers the state the callbacks
    leave behind: the normal and tangent post-pass that `load` runs when
    faces were recorded is not applied, neither its out-of-range
    texture-coordinate reads (`PostPassReadsInRange`) nor the normals,
    tangents and bitangents it writes into every buffered vertex. */
module ModelData {
  import opened Common

  datatype Vec2 = Vec2(s: real, t: real)

  /** The zero texture coordinate. */
  const Zero2: Vec2 := Vec2(0.0, 0.0)

  /** Zero-based indices of one face corner, each a `GLushort` (below
      2^16); a component the face does not give stays 0. */
  datatype IndexData = IndexData(vertexIndex: nat, texCoordsIndex: nat, normalIndex: nat)

  datatype Vertex = Vertex(position: Vec3, normal: Vec3, tangent: Vec3, bitangent: Vec3, texCoord: Vec2)

  /** What an MTL file says about one material: the textures, vectors,
      scalars and name MaterialData.h declares. `cubeTextures` is not in
      that header; ResourceManager.cpp:36 and :214 read a map of that name
      to choose the cube-reflection shader, so it is kept as its own field,
      which the MTL reader never fills. */
  datatype MaterialData = MaterialData(
    textures: map<string, string>,
    vectors: map<string, Vec3>,
    scalars: map<string, real>,
    cubeTextures: map<string, string>,
    name: string)

  const EmptyMaterial: MaterialData := MaterialData(map[], map[], map[], map[], "")

  /** One geometry group: the index records of its faces, the vertex buffer
      and the index buffer it feeds to GL, and the material it uses. */
  datatype GeometryData = GeometryData(
    indices: seq<IndexData>,
    vboVertices: seq<Vertex>,
    vboIndices: seq<nat>,
    materialData: MaterialData)

  const EmptyGroup: GeometryData := GeometryData([], [], [], EmptyMaterial)

  /** The position indices of a face, recorded for the normal post-pass. */
  datatype FaceData = FaceData(v1: nat, v2: nat, v3: nat)

  /** What `genVertex` reads: the flip flags and the attribute lists the
      `v`, `vt` and `vn` callbacks fill. */
  datatype Sources = Sources(flipT: bool, flipZ: bool, vertices: seq<Vec3>, texCoords: seq<Vec2>, normals: seq<Vec3>)

  /** The loader's state. The current group `_group` is always the entry
      of `groups` under `groupName` (see `Ready`). */
  datatype Loader = Loader(
    src: Sources,
    groupName: string,
    groups: map<string, Ptr<GeometryData>>,
    faces: seq<FaceData>,
    materials: map<string, MaterialData>)

  function Init(flipT: bool, flipZ: bool): Loader {
    Loader(Sources(flipT, flipZ, [], [], []), "", map[], [], map[])
  }

  /** The current group exists: the callbacks dereference `_group`. */
  predicate Ready(l: Loader) {
    l.groupName in l.groups && l.groups[l.groupName].Ptr?
  }

  function Current(l: Loader): GeometryData
    requires Ready(l)
  {
    l.groups[l.groupName].target
  }

  /** Replaces the current group, leaving every other group and field. */
  function WithCurrent(l: Loader, g: GeometryData): (l': Loader)
    requires Ready(l)
    ensures Ready(l') && Current(l') == g
    ensures l'.groups.Keys == l.groups.Keys
    ensures forall n :: n in l.groups && n != l.groupName ==> l'.groups[n] == l.groups[n]
    ensures l'.(groups := l.groups) == l
  {
    l.(groups := l.groups[l.groupName := Ptr(g)])
  }

  /** `createGroup(name)`: makes `name` current, reusing a non-null group
      of that name and otherwise putting a new empty group in its slot. */
  function CreateGroup(l: Loader, name: string): (l': Loader)
    ensures Ready(l') && l'.groupName == name
    ensures name in l.groups && l.groups[name].Ptr? ==> l' == l.(groupName := name)
    ensures !(name in l.groups && l.groups[name].Ptr?) ==> Current(l') == EmptyGroup
    ensures l'.groups.Keys == l.groups.Keys + {name}
    ensures forall n :: n in l.groups && n != name ==> l'.groups[n] == l.groups[n]
    ensures l'.(groupName := l.groupName, groups := l.groups) == l
  {
    if name in l.groups && l.groups[name].Ptr? then l.(groupName := name)
    else l.(groupName := name, groups := l.groups[name := Ptr(EmptyGroup)])
  }

  /** Selecting a group twice is selecting it once. */
  lemma CreateGroupIdempotent(l: Loader, name: string)
    ensures CreateGroup(CreateGroup(l, name), name) == CreateGroup(l, name)
  {
  }

  /** Whether `genVertex<POSITION, TEX_COORD, NORMAL>(d)` reads only inside
      the vertex, texture-coordinate and normal lists. Reading outside is
      undefined behaviour in the source; the model reports it as a failed
      step. The normal is read at the POSITION index. */
  predicate Readable(src: Sources, d: IndexData, position: bool, texCoord: bool, normal: bool) {
    && (position ==> d.vertexIndex < |src.vertices|)
    && (texCoord ==> d.texCoordsIndex < |src.texCoords|)
    && (normal ==> d.vertexIndex < |src.normals|)
  }

  /** The vertex `genVertex` builds. */
  function MakeVertex(src: Sources, d: IndexData, position: bool, texCoord: bool, normal: bool): (v: Vertex)
    requires Readable(src, d, position, texCoord, normal)
  {
    var p := if position then src.vertices[d.vertexIndex] else Zero3;
    var t := if texCoord then src.texCoords[d.texCoordsIndex] else Zero2;
    Vertex(
      if position && src.flipZ then p.(z := -p.z) else p,
      if normal then src.normals[d.vertexIndex] else Zero3,
      Zero3,
      Zero3,
      if texCoord && src.flipT then t.(t := 1.0 - t.t) else t)
  }

  /** The attributes of a generated vertex: the position is the listed one
      with z negated under flipZ, the texture coordinate is the listed one
      with t replaced by 1 - t under flipT, the normal is the listed normal
      at the position index, and every attribute the face does not carry is
      zero. */
  lemma MakeVertexAttributes(src: Sources, d: IndexData, position: bool, texCoord: bool, normal: bool)
    requires Readable(src, d, position, texCoord, normal)
    ensures var v := MakeVertex(src, d, position, texCoord, normal);
      && (position ==>
            && v.position.x == src.vertices[d.vertexIndex].x
            && v.position.y == src.vertices[d.vertexIndex].y
            && v.position.z == (if src.flipZ then -src.vertices[d.vertexIndex].z else src.vertices[d.vertexIndex].z))
      && (!position ==> v.position == Zero3)
      && (texCoord ==>
            && v.texCoord.s == src.texCoords[d.texCoordsIndex].s
            && v.texCoord.t == (if src.flipT then 1.0 - src.texCoords[d.texCoordsIndex].t else src.texCoords[d.texCoordsIndex].t))
      && (!texCoord ==> v.texCoord == Zero2)
      && (normal ==> v.normal == src.normals[d.vertexIndex])
      && (!normal ==> v.normal == Zero3 && v.tangent == Zero3 && v.bitangent == Zero3)
  {
  }

  /** The vertex buffer and the index buffer of a group agree: one index
      per vertex, and the k-th index is k as a `GLushort`. */
  predicate VboConsistent(g: GeometryData) {
    && |g.vboIndices| == |g.vboVertices|
    && forall k :: 0 <= k < |g.vboIndices| ==> g.vboIndices[k] == Ushort(k)
  }

  predicate AllVboConsistent(l: Loader) {
    forall n :: n in l.groups && l.groups[n].Ptr? ==> VboConsistent(l.groups[n].target)
  }

  /** `genVertex`: appends the built vertex to the group's vertex buffer
      and its sequence number, as a `GLushort`, to the index buffer. */
  function GenVertex(src: Sources, g: GeometryData, d: IndexData, position: bool, texCoord: bool, normal: bool): (r: Option<GeometryData>)
    ensures r.Some? <==> Readable(src, d, position, texCoord, normal)
    ensures r.Some? ==>
      && r.value.vboVertices == g.vboVertices + [MakeVertex(src, d, position, texCoord, normal)]
      && r.value.vboIndices == g.vboIndices + [Ushort(|g.vboIndices|)]
      && r.value.indices == g.indices
      && r.value.materialData == g.materialData
  {
    if !Readable(src, d, position, texCoord, normal) then None
    else Some(g.(vboVertices := g.vboVertices + [MakeVertex(src, d, position, texCoord, normal)],
                 vboIndices := g.vboIndices + [Ushort(|g.vboIndices|)]))
  }

  /** After every `genVertex` the group's two buffers still agree. */
  lemma GenVertexKeepsVbo(src: Sources, g: GeometryData, d: IndexData, position: bool, texCoord: bool, normal: bool)
    requires Readable(src, d, position, texCoord, normal)
    ensures VboConsistent(g) ==> VboConsistent(GenVertex(src, g, d, position, texCoord, normal).value)
  {
    if !VboConsistent(g) {
      return;
    }
    var g' := GenVertex(src, g, d, position, texCoord, normal).value;
    forall k | 0 <= k < |g'.vboIndices|
      ensures g'.vboIndices[k] == Ushort(k)
    {
      if k < |g.vboIndices| {
        assert g'.vboIndices[k] == g.vboIndices[k];
      }
    }
  }

  /** While a group holds at most 2^16 vertices its index buffer is exactly
      0, 1, 2, ...: the sequence numbers only wrap beyond that. */
  lemma VboIndicesCount(g: GeometryData, k: nat)
    requires VboConsistent(g) && |g.vboIndices| <= UshortModulus && k < |g.vboIndices|
    ensures g.vboIndices[k] == k
  {
  }

  /** A 1-based OBJ index made 0-based and stored in a `GLushort`. */
  function ZeroBased(i: nat): (u: nat)
    ensures 1 <= i <= UshortModulus ==> u == i - 1
    ensures u < UshortModulus
  {
    Ushort(i - 1)
  }

  /** The corner indices of a face as the parser gives them (1-based); a
      component the face form does not have is ignored. */
  datatype Corner = Corner(v: nat, vt: nat, vn: nat)

  /** The `IndexData` a face callback fills for one corner. */
  function CornerIndex(c: Corner, hasTex: bool, hasNormal: bool): (d: IndexData)
    ensures d.vertexIndex == ZeroBased(c.v)
    ensures d.texCoordsIndex == (if hasTex then ZeroBased(c.vt) else 0)
    ensures d.normalIndex == (if hasNormal then ZeroBased(c.vn) else 0)
  {
    IndexData(ZeroBased(c.v), if hasTex then ZeroBased(c.vt) else 0, if hasNormal then ZeroBased(c.vn) else 0)
  }

  /** The shape of a triangular face callback: which indices it converts,
      which attributes its three `genVertex` calls read, and whether it
      records a face for the normal post-pass. */
  datatype FaceForm = FaceForm(hasTex: bool, hasNormal: bool, readTex: bool, readNormal: bool, recordFace: bool)

  /** `f v v v` */
  const FormV: FaceForm := FaceForm(false, false, false, false, true)
  /** `f v/vt v/vt v/vt` */
  const FormVT: FaceForm := FaceForm(true, false, true, false, true)
  /** `f v//vn v//vn v//vn` as written: `genVertex<true, true, true>` reads a
      texture coordinate at the index the face never set (0). */
  const FormVNAsWritten: FaceForm := FaceForm(false, true, true, true, false)
  /** `f v//vn v//vn v//vn` as evidently intended: no texture coordinate. */
  const FormVN: FaceForm := FaceForm(false, true, false, true, false)
  /** `f v/vt/vn v/vt/vn v/vt/vn` */
  const FormVTN: FaceForm := FaceForm(true, true, true, true, false)

  /** The `GLushort` sequence numbers `start`, `start + 1`, ... of `n` new
      vertices. */
  function Numbers(start: nat, n: nat): (ns: seq<nat>)
    ensures |ns| == n
    ensures forall k :: 0 <= k < n ==> ns[k] == Ushort(start + k)
    decreases n
  {
    if n == 0 then [] else [Ushort(start)] + Numbers(start + 1, n - 1)
  }

  predicate AllReadable(src: Sources, ds: seq<IndexData>, form: FaceForm) {
    forall i :: 0 <= i < |ds| ==> Readable(src, ds[i], true, form.readTex, form.readNormal)
  }

  /** The vertices the corners of a face build, in corner order. */
  function Vertices(src: Sources, ds: seq<IndexData>, form: FaceForm): (vs: seq<Vertex>)
    requires AllReadable(src, ds, form)
    ensures |vs| == |ds|
    ensures forall i :: 0 <= i < |ds| ==> vs[i] == MakeVertex(src, ds[i], true, form.readTex, form.readNormal)
  {
    seq(|ds|, i requires 0 <= i < |ds| => MakeVertex(src, ds[i], true, form.readTex, form.readNormal))
  }

  lemma VerticesCons(src: Sources, ds: seq<IndexData>, form: FaceForm)
    requires |ds| > 0
    ensures AllReadable(src, ds, form) <==> Readable(src, ds[0], true, form.readTex, form.readNormal) && AllReadable(src, ds[1..], form)
    ensures AllReadable(src, ds, form) ==>
      Vertices(src, ds, form) == [MakeVertex(src, ds[0], true, form.readTex, form.readNormal)] + Vertices(src, ds[1..], form)
  {
    if Readable(src, ds[0], true, form.readTex, form.readNormal) && AllReadable(src, ds[1..], form) {
      forall i | 0 <= i < |ds|
        ensures Readable(src, ds[i], true, form.readTex, form.readNormal)
      {
        if i > 0 {
          assert ds[i] == ds[1..][i - 1];
        }
      }
    }
  }

  /** The `genVertex` calls of a face, one per corner in order: they
      succeed exactly when every corner reads inside the lists, and then
      append the corners' vertices to the group, keep its index buffer in
      step, and leave its index records and material alone. */
  function GenCorners(src: Sources, g: GeometryData, ds: seq<IndexData>, form: FaceForm): (r: Option<GeometryData>)
    ensures r.Some? <==> AllReadable(src, ds, form)
    ensures r.Some? ==>
      && r.value.vboVertices == g.vboVertices + Vertices(src, ds, form)
      && r.value.vboIndices == g.vboIndices + Numbers(|g.vboIndices|, |ds|)
      && r.value.indices == g.indices
      && r.value.materialData == g.materialData
      && (VboConsistent(g) ==> VboConsistent(r.value))
    decreases |ds|
  {
    if |ds| == 0 then Some(g)
    else
      var r1 := GenVertex(src, g, ds[0], true, form.readTex, form.readNormal);
      if r1.None? then None
      else
        GenVertexKeepsVbo(src, g, ds[0], true, form.readTex, form.readNormal);
        var r := GenCorners(src, r1.value, ds[1..], form);
        VerticesCons(src, ds, form);
        r
  }

  /** The `IndexData` of a face's three corners. */
  function Corners(a: Corner, b: Corner, c: Corner, form: FaceForm): (ds: seq<IndexData>)
    ensures |ds| == 3
  {
    [CornerIndex(a, form.hasTex, form.hasNormal), CornerIndex(b, form.hasTex, form.hasNormal), CornerIndex(c, form.hasTex, form.hasNormal)]
  }

  /** A triangular face callback: records the three corners' indices in
      the current group, generates one vertex per corner, and for the forms
      without normals records the face for the normal post-pass. Nothing
      else changes: the other groups, the lists and the materials stay. */
  function TriangleFace(l: Loader, a: Corner, b: Corner, c: Corner, form: FaceForm): (r: Option<Loader>)
    requires Ready(l)
    ensures r.Some? <==> AllReadable(l.src, Corners(a, b, c, form), form)
    ensures r.Some? ==>
      var ds := Corners(a, b, c, form);
      && Ready(r.value)
      && Current(r.value).indices == Current(l).indices + ds
      && Current(r.value).vboVertices == Current(l).vboVertices + Vertices(l.src, ds, form)
      && Current(r.value).vboIndices == Current(l).vboIndices + Numbers(|Current(l).vboIndices|, 3)
      && Current(r.value).materialData == Current(l).materialData
      && r.value.faces == l.faces + (if form.recordFace then [FaceData(ds[0].vertexIndex, ds[1].vertexIndex, ds[2].vertexIndex)] else [])
      && r.value.(groups := l.groups, faces := l.faces) == l
  {
    var ds := Corners(a, b, c, form);
    var g := Current(l);
    match GenCorners(l.src, g.(indices := g.indices + ds), ds, form)
    case None => None
    case Some(g') =>
      var faces := l.faces + (if form.recordFace then [FaceData(ds[0].vertexIndex, ds[1].vertexIndex, ds[2].vertexIndex)] else []);
      Some(WithCurrent(l, g').(faces := faces))
  }

  /** A face keeps the vertex and index buffers of every group in step and
      keeps the set of groups. */
  lemma TriangleFaceKeepsVbo(l: Loader, a: Corner, b: Corner, c: Corner, form: FaceForm)
    requires Ready(l) && AllVboConsistent(l)
    requires TriangleFace(l, a, b, c, form).Some?
    ensures AllVboConsistent(TriangleFace(l, a, b, c, form).value)
    ensures TriangleFace(l, a, b, c, form).value.groups.Keys == l.groups.Keys
  {
    var ds := Corners(a, b, c, form);
    var g := Current(l);
    var g0 := g.(indices := g.indices + ds);
    assert VboConsistent(g0);
    var l' := TriangleFace(l, a, b, c, form).value;
    assert l' == WithCurrent(l, GenCorners(l.src, g0, ds, form).value).(faces := l'.faces);
    forall n | n in l'.groups && l'.groups[n].Ptr?
      ensures VboConsistent(l'.groups[n].target)
    {
      if n != l.groupName {
        assert l'.groups[n] == l.groups[n];
      }
    }
  }

  /** A file with three vertices and three normals but no texture
      coordinates. */
  function NormalOnlySources(): Sources {
    Sources(false, false, [Zero3, Zero3, Zero3], [], [Zero3, Zero3, Zero3])
  }

  function NormalOnlyLoader(): (l: Loader)
    ensures Ready(l)
  {
    CreateGroup(Loader(NormalOnlySources(), "", map[], [], map[]), "default")
  }

  /** `f 1//1 2//2 3//3` */
  const NormalOnlyCorners: seq<Corner> := [Corner(1, 0, 1), Corner(2, 0, 2), Corner(3, 0, 3)]

  /** As written, the `v//vn` face reads a texture coordinate for each
      corner; on a file without texture coordinates that read is outside
      the list, so the face cannot be built. */
  lemma NormalOnlyFaceAsWrittenFails()
    ensures TriangleFace(NormalOnlyLoader(), NormalOnlyCorners[0], NormalOnlyCorners[1], NormalOnlyCorners[2], FormVNAsWritten).None?
  {
    var ds := Corners(NormalOnlyCorners[0], NormalOnlyCorners[1], NormalOnlyCorners[2], FormVNAsWritten);
    assert !Readable(NormalOnlySources(), ds[0], true, true, true);
  }

  /** With the corrected form the same face is built, and its vertices
      carry the listed normals and a zero texture coordinate. */
  lemma NormalOnlyFaceSucceeds()
    ensures var r := TriangleFace(NormalOnlyLoader(), NormalOnlyCorners[0], NormalOnlyCorners[1], NormalOnlyCorners[2], FormVN);
      && r.Some?
      && |Current(r.value).vboVertices| == 3
      && forall k :: 0 <= k < 3 ==> Current(r.value).vboVertices[k].texCoord == Zero2 && Current(r.value).vboVertices[k].normal == NormalOnlySources().normals[k]
  {
    var src := NormalOnlySources();
    var ds := Corners(NormalOnlyCorners[0], NormalOnlyCorners[1], NormalOnlyCorners[2], FormVN);
    assert ds[0].vertexIndex == 0 && ds[1].vertexIndex == 1 && ds[2].vertexIndex == 2;
    assert AllReadable(src, ds, FormVN);
    assert Current(NormalOnlyLoader()).vboVertices == [];
  }

  /** Under the corrected form a `v//vn` face never reads a texture
      coordinate: it builds the same vertices whatever the list holds. */
  lemma NormalOnlyFaceIgnoresTexCoords(l: Loader, a: Corner, b: Corner, c: Corner, texCoords: seq<Vec2>)
    requires Ready(l)
    ensures var l2 := l.(src := l.src.(texCoords := texCoords));
      && (TriangleFace(l, a, b, c, FormVN).Some? <==> TriangleFace(l2, a, b, c, FormVN).Some?)
      && (TriangleFace(l, a, b, c, FormVN).Some? ==>
            Current(TriangleFace(l, a, b, c, FormVN).value) == Current(TriangleFace(l2, a, b, c, FormVN).value))
  {
    var ds := Corners(a, b, c, FormVN);
    var src2 := l.src.(texCoords := texCoords);
    forall i | 0 <= i < 3
      ensures Readable(l.src, ds[i], true, false, true) == Readable(src2, ds[i], true, false, true)
      ensures Readable(l.src, ds[i], true, false, true) ==> MakeVertex(l.src, ds[i], true, false, true) == MakeVertex(src2, ds[i], true, false, true)
    {
    }
    if AllReadable(l.src, ds, FormVN) {
      assert Vertices(l.src, ds, FormVN) == Vertices(src2, ds, FormVN);
    }
  }

  /** One MTL line, already split: its keyword, its first word (a material
      or file name), and its numbers as the stream would parse them. */
  datatype MtlLine = MtlLine(key: string, word: string, vec: Vec3, scalar: real)

  /** The material a name stands for; `_materials[name]` default-inserts
      an empty one. */
  function MaterialAt(ms: map<string, MaterialData>, name: string): MaterialData {
    if name in ms then ms[name] else EmptyMaterial
  }

  const VectorKeys: set<string> := {"Ka", "Kd", "Ks", "Tf"}

  /** The texture slot each texture keyword fills. */
  function TextureSlot(key: string): Option<string> {
    if key == "map_Kd" then Some("DiffuseMap")
    else if key == "map_Ks" then Some("SpecularMap")
    else if key == "map_Bump" then Some("NormalMap")
    else None
  }

  /** The scalar slot each scalar keyword fills; `illum` is stored as
      `Illum`. */
  function ScalarSlot(key: string): Option<string> {
    if key == "Ns" then Some("Ns")
    else if key == "Ni" then Some("Ni")
    else if key == "illum" then Some("Illum")
    else None
  }

  /** The state of the MTL reader: the materials and the current name. */
  datatype MtlState = MtlState(materials: map<string, MaterialData>, current: string)

  /** One line of `loadObjMtl`. */
  function MtlStep(st: MtlState, line: MtlLine): (st': MtlState)
    ensures line.key == "newmtl" ==> st' == MtlState(st.materials, line.word)
    ensures line.key != "newmtl" ==> st'.current == st.current
    ensures line.key in VectorKeys ==> st'.materials == st.materials[st.current :=
      MaterialAt(st.materials, st.current).(vectors := MaterialAt(st.materials, st.current).vectors[line.key := line.vec])]
    ensures ScalarSlot(line.key).Some? ==> st'.materials == st.materials[st.current :=
      MaterialAt(st.materials, st.current).(scalars := MaterialAt(st.materials, st.current).scalars[ScalarSlot(line.key).value := line.scalar])]
    ensures TextureSlot(line.key).Some? ==> st'.materials == st.materials[st.current :=
      MaterialAt(st.materials, st.current).(textures := MaterialAt(st.materials, st.current).textures[TextureSlot(line.key).value := line.word])]
    ensures line.key != "newmtl" && line.key !in VectorKeys && ScalarSlot(line.key).None? && TextureSlot(line.key).None? ==> st' == st
  {
    var m := MaterialAt(st.materials, st.current);
    if line.key == "newmtl" then st.(current := line.word)
    else if line.key in VectorKeys then
      st.(materials := st.materials[st.current := m.(vectors := m.vectors[line.key := line.vec])])
    else match ScalarSlot(line.key)
      case Some(slot) => st.(materials := st.materials[st.current := m.(scalars := m.scalars[slot := line.scalar])])
      case None =>
        match TextureSlot(line.key)
        case Some(slot) => st.(materials := st.materials[st.current := m.(textures := m.textures[slot := line.word])])
        case None => st
  }

  /** `loadObjMtl`: reads the lines in order, starting with the empty
      material name. */
  function LoadObjMtl(materials: map<string, MaterialData>, lines: seq<MtlLine>): (ms: map<string, MaterialData>)
  {
    MtlRun(MtlState(materials, ""), lines).materials
  }

  function MtlRun(st: MtlState, lines: seq<MtlLine>): MtlState
    decreases |lines|
  {
    if |lines| == 0 then st else MtlRun(MtlStep(st, lines[0]), lines[1..])
  }

  /** The MTL reader only ever adds or updates materials: every material
      present before is present after. */
  lemma {:induction false} MtlRunKeepsMaterials(st: MtlState, lines: seq<MtlLine>)
    ensures st.materials.Keys <= MtlRun(st, lines).materials.Keys
    decreases |lines|
  {
    if |lines| > 0 {
      MtlRunKeepsMaterials(MtlStep(st, lines[0]), lines[1..]);
    }
  }

  /** A material the file never selects keeps its data. */
  lemma {:induction false} MtlRunUnselectedUnchanged(st: MtlState, lines: seq<MtlLine>, name: string)
    requires name != st.current && name in st.materials
    requires forall i :: 0 <= i < |lines| ==> lines[i].key == "newmtl" ==> lines[i].word != name
    ensures name in MtlRun(st, lines).materials && MtlRun(st, lines).materials[name] == st.materials[name]
    decreases |lines|
  {
    if |lines| > 0 {
      MtlRunUnselectedUnchanged(MtlStep(st, lines[0]), lines[1..], name);
    }
  }

  /** `material_name_callback`: default-inserts the named material, sets
      its name, and copies it into the current group. */
  function UseMaterial(l: Loader, name: string): (l': Loader)
    requires Ready(l)
    ensures Ready(l') && l'.groupName == l.groupName
    ensures name in l'.materials && l'.materials[name].name == name
    ensures Current(l').materialData == l'.materials[name]
    ensures l'.materials[name] == MaterialAt(l.materials, name).(name := name)
    ensures forall n :: n in l.materials && n != name ==> n in l'.materials && l'.materials[n] == l.materials[n]
    ensures Current(l').(materialData := Current(l).materialData) == Current(l)
  {
    var m := MaterialAt(l.materials, name).(name := name);
    var l1 := l.(materials := l.materials[name := m]);
    WithCurrent(l1, Current(l1).(materialData := m))
  }

  /** One callback of the OBJ parser. */
  datatype Event =
    | GeometricVertex(p: Vec3)
    | TextureVertex(tc: Vec2)
    | VertexNormal(n: Vec3)
    | TriangleV(a: Corner, b: Corner, c: Corner)
    | TriangleVT(a: Corner, b: Corner, c: Corner)
    | TriangleVN(a: Corner, b: Corner, c: Corner)
    | TriangleVTN(a: Corner, b: Corner, c: Corner)
    | PolygonPart            // any of the twelve polygonal-face callbacks
    | GroupName(name: string)
    | ObjectName(name: string)
    | MaterialLibrary(lines: seq<MtlLine>)  // the lines of the named file
    | MaterialName(name: string)
    | Message(text: string)  // info, warning, error and comment callbacks

  /** The effect of one callback, `None` on a read outside the lists.
      `vn` is the form the `v//vn` face callback builds its vertices with:
      `FormVNAsWritten` is the source, `FormVN` the evident intent; every
      other callback is the same under both. */
  function Step(l: Loader, e: Event, vn: FaceForm): (r: Option<Loader>)
    requires Ready(l)
    ensures r.Some? ==> Ready(r.value)
    ensures e.PolygonPart? || e.ObjectName? || e.Message? ==> r == Some(l)
    ensures e.GeometricVertex? ==> r == Some(l.(src := l.src.(vertices := l.src.vertices + [e.p])))
    ensures e.TextureVertex? ==> r == Some(l.(src := l.src.(texCoords := l.src.texCoords + [e.tc])))
    ensures e.VertexNormal? ==> r == Some(l.(src := l.src.(normals := l.src.normals + [e.n])))
  {
    match e
    case GeometricVertex(p) => Some(l.(src := l.src.(vertices := l.src.vertices + [p])))
    case TextureVertex(tc) => Some(l.(src := l.src.(texCoords := l.src.texCoords + [tc])))
    case VertexNormal(n) => Some(l.(src := l.src.(normals := l.src.normals + [n])))
    case TriangleV(a, b, c) => TriangleFace(l, a, b, c, FormV)
    case TriangleVT(a, b, c) => TriangleFace(l, a, b, c, FormVT)
    case TriangleVN(a, b, c) => TriangleFace(l, a, b, c, vn)
    case TriangleVTN(a, b, c) => TriangleFace(l, a, b, c, FormVTN)
    case PolygonPart => Some(l)
    case GroupName(name) => Some(CreateGroup(l, name))
    case ObjectName(_) => Some(l)
    case MaterialLibrary(lines) => Some(l.(materials := LoadObjMtl(l.materials, lines)))
    case MaterialName(name) => Some(UseMaterial(l, name))
    case Message(_) => Some(l)
  }

  function Run(l: Loader, events: seq<Event>, vn: FaceForm): (r: Option<Loader>)
    requires Ready(l)
    ensures r.Some? ==> Ready(r.value)
    decreases |events|
  {
    if |events| == 0 then Some(l)
    else match Step(l, events[0], vn)
      case None => None
      case Some(l1) => Run(l1, events[1..], vn)
  }

  /** `load`: selects the group "default", then applies the callbacks
      (`vn` as in `Step`). */
  function Load(flipT: bool, flipZ: bool, events: seq<Event>, vn: FaceForm): (r: Option<Loader>)
  {
    Run(CreateGroup(Init(flipT, flipZ), "default"), events, vn)
  }

  /** A whole file: three `v` lines, three `vn` lines and `f 1//1 2//2
      3//3`. */
  function NormalOnlyEvents(): (es: seq<Event>)
    ensures |es| == 7
  {
    [GeometricVertex(Zero3), GeometricVertex(Zero3), GeometricVertex(Zero3),
     VertexNormal(Zero3), VertexNormal(Zero3), VertexNormal(Zero3),
     TriangleVN(NormalOnlyCorners[0], NormalOnlyCorners[1], NormalOnlyCorners[2])]
  }

  /** A list line in front of further callbacks is applied first. */
  lemma RunListLine(l: Loader, e: Event, rest: seq<Event>, vn: FaceForm)
    requires Ready(l) && (e.GeometricVertex? || e.VertexNormal?)
    ensures Run(l, [e] + rest, vn) == Run(Step(l, e, vn).value, rest, vn)
  {
    assert ([e] + rest)[1..] == rest;
  }

  /** Three equal `v` lines in front of further callbacks extend the
      vertex list first. */
  lemma RunThreeVertices(l: Loader, p: Vec3, rest: seq<Event>, vn: FaceForm)
    requires Ready(l)
    ensures Run(l, [GeometricVertex(p), GeometricVertex(p), GeometricVertex(p)] + rest, vn)
         == Run(l.(src := l.src.(vertices := l.src.vertices + [p, p, p])), rest, vn)
  {
    var e := GeometricVertex(p);
    var l1 := Step(l, e, vn).value;
    var l2 := Step(l1, e, vn).value;
    assert [e, e, e] + rest == [e] + ([e] + ([e] + rest));
    RunListLine(l, e, [e] + ([e] + rest), vn);
    RunListLine(l1, e, [e] + rest, vn);
    RunListLine(l2, e, rest, vn);
    assert l.src.vertices + [p] + [p] + [p] == l.src.vertices + [p, p, p];
  }

  /** Three equal `vn` lines in front of further callbacks extend the
      normal list first. */
  lemma RunThreeNormals(l: Loader, n: Vec3, rest: seq<Event>, vn: FaceForm)
    requires Ready(l)
    ensures Run(l, [VertexNormal(n), VertexNormal(n), VertexNormal(n)] + rest, vn)
         == Run(l.(src := l.src.(normals := l.src.normals + [n, n, n])), rest, vn)
  {
    var e := VertexNormal(n);
    var l1 := Step(l, e, vn).value;
    var l2 := Step(l1, e, vn).value;
    assert [e, e, e] + rest == [e] + ([e] + ([e] + rest));
    RunListLine(l, e, [e] + ([e] + rest), vn);
    RunListLine(l1, e, [e] + rest, vn);
    RunListLine(l2, e, rest, vn);
    assert l.src.normals + [n] + [n] + [n] == l.src.normals + [n, n, n];
  }

  /** Three `v` lines, three `vn` lines and a `v//vn` face: the face is
      built on the lists the six lines extend. */
  lemma RunListsThenFace(l: Loader, p: Vec3, n: Vec3, a: Corner, b: Corner, c: Corner, vn: FaceForm)
    requires Ready(l)
    ensures Run(l, [GeometricVertex(p), GeometricVertex(p), GeometricVertex(p),
                    VertexNormal(n), VertexNormal(n), VertexNormal(n), TriangleVN(a, b, c)], vn)
         == TriangleFace(l.(src := l.src.(vertices := l.src.vertices + [p, p, p], normals := l.src.normals + [n, n, n])), a, b, c, vn)
  {
    var v, w, face := GeometricVertex(p), VertexNormal(n), TriangleVN(a, b, c);
    var l3 := l.(src := l.src.(vertices := l.src.vertices + [p, p, p]));
    assert [v, v, v, w, w, w, face] == [v, v, v] + ([w, w, w] + [face]);
    RunThreeVertices(l, p, [w, w, w] + [face], vn);
    RunThreeNormals(l3, n, [face], vn);
    assert [face][1..] == [];
  }

  /** The six list lines of that file leave the loader `NormalOnlyLoader`
      describes, whatever form the face is then built with. */
  lemma NormalOnlyListsRead(vn: FaceForm)
    ensures Load(false, false, NormalOnlyEvents(), vn)
         == TriangleFace(NormalOnlyLoader(), NormalOnlyCorners[0], NormalOnlyCorners[1], NormalOnlyCorners[2], vn)
  {
    var l0 := CreateGroup(Init(false, false), "default");
    var a, b, c := NormalOnlyCorners[0], NormalOnlyCorners[1], NormalOnlyCorners[2];
    var v, n := GeometricVertex(Zero3), VertexNormal(Zero3);
    assert NormalOnlyEvents() == [v, v, v, n, n, n, TriangleVN(a, b, c)];
    RunListsThenFace(l0, Zero3, Zero3, a, b, c, vn);
    var src := l0.src.(vertices := l0.src.vertices + [Zero3, Zero3, Zero3], normals := l0.src.normals + [Zero3, Zero3, Zero3]);
    assert src == NormalOnlySources();
    CreateGroupKeepsSources(Init(false, false), "default", src);
  }

  /** Selecting a group and reading lists commute. */
  lemma CreateGroupKeepsSources(l: Loader, name: string, lists: Sources)
    ensures CreateGroup(l, name).(src := lists) == CreateGroup(l.(src := lists), name)
  {
  }

  /** As written, loading the whole file fails at its face. */
  lemma NormalOnlyLoadAsWrittenFails()
    ensures Load(false, false, NormalOnlyEvents(), FormVNAsWritten).None?
  {
    NormalOnlyListsRead(FormVNAsWritten);
    NormalOnlyFaceAsWrittenFails();
  }

  /** With the corrected form the whole file loads. */
  lemma NormalOnlyLoadSucceeds()
    ensures Load(false, false, NormalOnlyEvents(), FormVN).Some?
  {
    NormalOnlyListsRead(FormVN);
    NormalOnlyFaceSucceeds();
  }

  /** After the callbacks, `load` runs its normal post-pass when a face
      was recorded, and that pass reads `_texCoords` at each face's three
      VERTEX indices. This says those reads fall inside the list. */
  predicate PostPassReadsInRange(l: Loader) {
    forall i :: 0 <= i < |l.faces| ==>
      && l.faces[i].v1 < |l.src.texCoords|
      && l.faces[i].v2 < |l.src.texCoords|
      && l.faces[i].v3 < |l.src.texCoords|
  }

  /** A whole file: three `v` lines and `f 1 2 3`. */
  function PlainFaceEvents(): (es: seq<Event>)
    ensures |es| == 4
  {
    [GeometricVertex(Zero3), GeometricVertex(Zero3), GeometricVertex(Zero3),
     TriangleV(Corner(1, 0, 0), Corner(2, 0, 0), Corner(3, 0, 0))]
  }

  /** The callbacks accept that file and record its face, whatever form
      `v//vn` faces take; the post-pass that then runs reads texture
      coordinates the file does not have. */
  lemma PlainFacePostPassOutOfRange(vn: FaceForm)
    ensures var r := Load(false, false, PlainFaceEvents(), vn);
      && r.Some?
      && |r.value.faces| == 1
      && !PostPassReadsInRange(r.value)
  {
    var l0 := CreateGroup(Init(false, false), "default");
    var v := GeometricVertex(Zero3);
    var a, b, c := Corner(1, 0, 0), Corner(2, 0, 0), Corner(3, 0, 0);
    var face := TriangleV(a, b, c);
    assert PlainFaceEvents() == [v, v, v] + [face];
    RunThreeVertices(l0, Zero3, [face], vn);
    var l3 := l0.(src := l0.src.(vertices := l0.src.vertices + [Zero3, Zero3, Zero3]));
    var ds := Corners(a, b, c, FormV);
    assert AllReadable(l3.src, ds, FormV);
    assert [face][1..] == [];
    assert Run(l3, [face], vn) == Step(l3, face, vn);
    var r := Step(l3, face, vn).value;
    assert r.faces == [FaceData(0, 1, 2)];
    assert r.src == l3.src && l3.src.texCoords == [];
    assert !(r.faces[0].v1 < |r.src.texCoords|);
  }

  lemma StepKeepsGroups(l: Loader, e: Event, vn: FaceForm)
    requires Ready(l) && AllVboConsistent(l)
    requires Step(l, e, vn).Some?
    ensures AllVboConsistent(Step(l, e, vn).value)
    ensures l.groups.Keys <= Step(l, e, vn).value.groups.Keys
  {
    if e.TriangleV? || e.TriangleVT? || e.TriangleVN? || e.TriangleVTN? {
      FaceStepKeepsGroups(l, e, vn);
    } else {
      OtherStepKeepsGroups(l, e, vn);
    }
  }

  /** `StepKeepsGroups` for the face callbacks. */
  lemma FaceStepKeepsGroups(l: Loader, e: Event, vn: FaceForm)
    requires Ready(l) && AllVboConsistent(l)
    requires e.TriangleV? || e.TriangleVT? || e.TriangleVN? || e.TriangleVTN?
    requires Step(l, e, vn).Some?
    ensures AllVboConsistent(Step(l, e, vn).value)
    ensures l.groups.Keys <= Step(l, e, vn).value.groups.Keys
  {
    var form := match e
      case TriangleV(_, _, _) => FormV
      case TriangleVT(_, _, _) => FormVT
      case TriangleVN(_, _, _) => vn
      case TriangleVTN(_, _, _) => FormVTN;
    assert Step(l, e, vn) == TriangleFace(l, e.a, e.b, e.c, form);
    TriangleFaceKeepsVbo(l, e.a, e.b, e.c, form);
  }

  /** `StepKeepsGroups` for every other callback. */
  lemma OtherStepKeepsGroups(l: Loader, e: Event, vn: FaceForm)
    requires Ready(l) && AllVboConsistent(l)
    requires !(e.TriangleV? || e.TriangleVT? || e.TriangleVN? || e.TriangleVTN?)
    requires Step(l, e, vn).Some?
    ensures AllVboConsistent(Step(l, e, vn).value)
    ensures l.groups.Keys <= Step(l, e, vn).value.groups.Keys
  {
    if e.GroupName? {
      assert Step(l, e, vn).value == CreateGroup(l, e.name);
      CreateGroupKeepsVbo(l, e.name);
    } else if e.MaterialName? {
      assert Step(l, e, vn).value == UseMaterial(l, e.name);
      UseMaterialKeepsVbo(l, e.name);
    } else {
      assert Step(l, e, vn).value.groups == l.groups;
    }
  }

  /** Selecting a group keeps every group's buffers in agreement. */
  lemma CreateGroupKeepsVbo(l: Loader, name: string)
    requires AllVboConsistent(l)
    ensures AllVboConsistent(CreateGroup(l, name))
  {
    var l' := CreateGroup(l, name);
    forall n | n in l'.groups && l'.groups[n].Ptr?
      ensures VboConsistent(l'.groups[n].target)
    {
      if n != name {
        assert l'.groups[n] == l.groups[n];
      } else if !(name in l.groups && l.groups[name].Ptr?) {
        assert l'.groups[n].target == EmptyGroup;
      }
    }
  }

  /** Switching the material keeps every group's buffers in agreement. */
  lemma UseMaterialKeepsVbo(l: Loader, name: string)
    requires Ready(l) && AllVboConsistent(l)
    ensures AllVboConsistent(UseMaterial(l, name))
    ensures l.groups.Keys <= UseMaterial(l, name).groups.Keys
  {
    var l' := UseMaterial(l, name);
    forall n | n in l'.groups && l'.groups[n].Ptr?
      ensures VboConsistent(l'.groups[n].target)
    {
      if n != l.groupName {
        assert l'.groups[n] == l.groups[n];
      }
    }
  }

  /** Groups are never dropped and the buffers of every group agree after
      any run of callbacks. */
  lemma {:induction false} RunKeepsGroups(l: Loader, events: seq<Event>, vn: FaceForm)
    requires Ready(l) && AllVboConsistent(l)
    requires Run(l, events, vn).Some?
    ensures AllVboConsistent(Run(l, events, vn).value)
    ensures l.groups.Keys <= Run(l, events, vn).value.groups.Keys
    decreases |events|
  {
    if |events| > 0 {
      StepKeepsGroups(l, events[0], vn);
      RunKeepsGroups(Step(l, events[0], vn).value, events[1..], vn);
    }
  }

  /** A loaded model always has the group "default" and its vertex and
      index buffers agree in every group. */
  lemma LoadHasDefaultGroup(flipT: bool, flipZ: bool, events: seq<Event>, vn: FaceForm)
    requires Load(flipT, flipZ, events, vn).Some?
    ensures "default" in Load(flipT, flipZ, events, vn).value.groups
    ensures AllVboConsistent(Load(flipT, flipZ, events, vn).value)
  {
    var l0 := CreateGroup(Init(flipT, flipZ), "default");
    assert AllVboConsistent(l0) by {
      forall n | n in l0.groups && l0.groups[n].Ptr?
        ensures VboConsistent(l0.groups[n].target)
      {
        assert n == "default";
      }
    }
    RunKeepsGroups(l0, events, vn);
  }
}
