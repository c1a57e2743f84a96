/** The GLSL source builders of ShaderSource.cpp. Generated text is kept as a
    sequence of tokens: named literal fragments (each written, as in the
    source, without curly braces), decimal light numbers and the curly braces
    themselves. Brace balance and the presence of a snippet are statements
    about the token sequence; `Render` gives the characters. */
module ShaderSource {
  import opened Common
  import opened Config

  /** The literal fragments the builders emit. */
  datatype Piece =
    | LineBreakPiece | StatementEnd | SpacePiece
      // light declarations
    | PositionUniformDecl | IntensityUniformDecl | AttenuationUniformDecl | RadiusUniformDecl
    | DiffuseColorUniformDecl | SpecularColorUniformDecl
    | TangentVectorDecl | ViewVectorDecl | DistanceIntensityDecl
      // vertex main
    | MainHead | PositionViewSpace | LightDistanceInit | TexCoordAssign | NormalAssign
      // light vectors
    | GuardHead | GuardTail
    | TangentVectorAssign | TangentVectorFrom | TangentVectorTail
    | ViewVectorAssign | ViewVectorFrom | ViewVectorTail
    | DistanceAssign | CallEnd | DistanceIntensityAssign | ZeroEnd
    | RadiusTest | TestEnd | ClampIntensity | OverAttenuation | ClampTail
      // fragment lighting
    | IntensityTest | NormalizeTangent | NormalizeView | IntensityTestTail | ClampLine
    | DiffuseAccumulate | DiffuseWeight | WeightTail
    | SpecularCoefficientTangent | SpecularCoefficientView | ReflectTail | ExponentEnd
    | SpecularAccumulate | SpecularWeight
      // finalisation
    | DiffuseFinalHead | DiffuseColorFactor | DiffuseMapFactor
    | SpecularFinalHead | SpecularColorFactor | SpecularMapFactor

  /** One token of generated GLSL. */
  datatype Tok = Word(p: Piece) | Num(n: nat) | Open | Close

  /** Number of opening and closing braces. */
  function Opens(ts: seq<Tok>): nat { multiset(ts)[Open] }
  function Closes(ts: seq<Tok>): nat { multiset(ts)[Close] }

  /** As many closing as opening braces. */
  predicate Balanced(ts: seq<Tok>) {
    Opens(ts) == Closes(ts)
  }

  /** Brace counts add up over concatenation. */
  lemma CountsAppend(a: seq<Tok>, b: seq<Tok>)
    ensures Opens(a + b) == Opens(a) + Opens(b)
    ensures Closes(a + b) == Closes(a) + Closes(b)
  {
    assert multiset(a + b) == multiset(a) + multiset(b);
  }

  /** A run without brace tokens counts no braces. */
  lemma NoBraces(ts: seq<Tok>)
    requires Open !in ts && Close !in ts
    ensures Opens(ts) == 0 && Closes(ts) == 0
  {
  }

  lemma MulSucc(n: nat, per: nat)
    ensures (n + 1) * per == n * per + per
  {
  }

  /** Blocks that each open `per` braces open `|blocks| * per` together. */
  lemma {:induction false} BlocksOpens(blocks: seq<seq<Tok>>, per: nat)
    requires forall i :: 0 <= i < |blocks| ==> Opens(blocks[i]) == per
    ensures Opens(Concat(blocks)) == |blocks| * per
    decreases |blocks|
  {
    if |blocks| > 0 {
      var init := blocks[..|blocks| - 1];
      assert Concat(blocks) == Concat(init) + blocks[|blocks| - 1];
      CountsAppend(Concat(init), blocks[|blocks| - 1]);
      forall i | 0 <= i < |init|
        ensures Opens(init[i]) == per
      {
        assert init[i] == blocks[i];
      }
      BlocksOpens(init, per);
      MulSucc(|init|, per);
    }
  }

  /** Blocks that each close `per` braces close `|blocks| * per` together. */
  lemma {:induction false} BlocksCloses(blocks: seq<seq<Tok>>, per: nat)
    requires forall i :: 0 <= i < |blocks| ==> Closes(blocks[i]) == per
    ensures Closes(Concat(blocks)) == |blocks| * per
    decreases |blocks|
  {
    if |blocks| > 0 {
      var init := blocks[..|blocks| - 1];
      assert Concat(blocks) == Concat(init) + blocks[|blocks| - 1];
      CountsAppend(Concat(init), blocks[|blocks| - 1]);
      forall i | 0 <= i < |init|
        ensures Closes(init[i]) == per
      {
        assert init[i] == blocks[i];
      }
      BlocksCloses(init, per);
      MulSucc(|init|, per);
    }
  }

  /** `SHADER_SOURCE_LINE_BREAK` and `SHADER_SOURCE_LINE_ENDING` */
  const LineBreak: string := "\n"
  const LineEnding: string := ";" + LineBreak

  /** `SHADER_SOURCE_HEAD_ES` and `SHADER_SOURCE_HEAD_DESKTOP` */
  const HeadES: string := DefaultShaderVersionES + LineBreak + "precision mediump float" + LineEnding
  const HeadDesktop: string := DefaultShaderVersionDesktop + LineBreak

  /** The head of every generated shader: the version line of the
      platform, followed on OpenGL ES by the float precision statement. */
  function Head(desktop: bool): (h: string)
    ensures var version := if desktop then DefaultShaderVersionDesktop else DefaultShaderVersionES;
      |h| > |version| && h[..|version|] == version && h[|version|] == '\n'
    ensures desktop ==> |h| == |DefaultShaderVersionDesktop| + 1
    ensures !desktop ==> h[|DefaultShaderVersionES| + 1..] == "precision mediump float;\n"
  {
    if desktop then HeadDesktop else HeadES
  }

  /** A statement `<fragment><light number>;\n`. */
  function NumberedLine(p: Piece, light: nat): seq<Tok> {
    [Word(p), Num(light), Word(StatementEnd)]
  }

  /** The declarations of one light, `light` being its suffix. */
  function LightBlock(light: nat, normalMap: bool): seq<Tok> {
    NumberedLine(PositionUniformDecl, light)
    + NumberedLine(IntensityUniformDecl, light)
    + NumberedLine(AttenuationUniformDecl, light)
    + NumberedLine(RadiusUniformDecl, light)
    + NumberedLine(DiffuseColorUniformDecl, light)
    + NumberedLine(SpecularColorUniformDecl, light)
    + NumberedLine(if normalMap then TangentVectorDecl else ViewVectorDecl, light)
    + NumberedLine(DistanceIntensityDecl, light)
  }

  /** The light blocks for lights `0 .. count - 1`, in that order. */
  function LightBlocks(count: nat, normalMap: bool): (r: seq<seq<Tok>>)
    ensures |r| == count
    ensures forall i :: 0 <= i < count ==> r[i] == LightBlock(i, normalMap)
  {
    seq(count, i requires 0 <= i => LightBlock(i, normalMap))
  }

  lemma LightBlockOpens(light: nat, normalMap: bool)
    ensures Opens(LightBlock(light, normalMap)) == 0
  {
    LightBlockBraces(light, normalMap);
  }

  lemma LightBlockCloses(light: nat, normalMap: bool)
    ensures Closes(LightBlock(light, normalMap)) == 0
  {
    LightBlockBraces(light, normalMap);
  }

  lemma LightBlockBraces(light: nat, normalMap: bool)
    ensures Opens(LightBlock(light, normalMap)) == 0 && Closes(LightBlock(light, normalMap)) == 0
  {
    var n1 := NumberedLine(PositionUniformDecl, light);
    var n2 := NumberedLine(IntensityUniformDecl, light);
    var n3 := NumberedLine(AttenuationUniformDecl, light);
    var n4 := NumberedLine(RadiusUniformDecl, light);
    var n5 := NumberedLine(DiffuseColorUniformDecl, light);
    var n6 := NumberedLine(SpecularColorUniformDecl, light);
    var n7 := NumberedLine(if normalMap then TangentVectorDecl else ViewVectorDecl, light);
    var n8 := NumberedLine(DistanceIntensityDecl, light);
    NoBraces(n1); NoBraces(n2); NoBraces(n3); NoBraces(n4);
    NoBraces(n5); NoBraces(n6); NoBraces(n7); NoBraces(n8);
    CountsAppend(n1, n2);
    CountsAppend(n1 + n2, n3);
    CountsAppend(n1 + n2 + n3, n4);
    CountsAppend(n1 + n2 + n3 + n4, n5);
    CountsAppend(n1 + n2 + n3 + n4 + n5, n6);
    CountsAppend(n1 + n2 + n3 + n4 + n5 + n6, n7);
    CountsAppend(n1 + n2 + n3 + n4 + n5 + n6 + n7, n8);
  }

  /** A light block declares the tangent-space light vector exactly when a
      normal map is used, and the view-space one otherwise. */
  lemma LightBlockVectorSpace(light: nat, normalMap: bool)
    ensures Word(TangentVectorDecl) in LightBlock(light, normalMap) <==> normalMap
    ensures Word(ViewVectorDecl) in LightBlock(light, normalMap) <==> !normalMap
  {
  }

  /** Light declarations contain no opening brace ... */
  lemma LightBlocksOpens(count: nat, normalMap: bool)
    ensures Opens(Concat(LightBlocks(count, normalMap))) == 0
  {
    var blocks := LightBlocks(count, normalMap);
    forall i | 0 <= i < count
      ensures Opens(blocks[i]) == 0
    {
      LightBlockOpens(i, normalMap);
    }
    BlocksOpens(blocks, 0);
  }

  /** ... and no closing one. */
  lemma LightBlocksCloses(count: nat, normalMap: bool)
    ensures Closes(Concat(LightBlocks(count, normalMap))) == 0
  {
    var blocks := LightBlocks(count, normalMap);
    forall i | 0 <= i < count
      ensures Closes(blocks[i]) == 0
    {
      LightBlockCloses(i, normalMap);
    }
    BlocksCloses(blocks, 0);
  }

  /** `shader_source_light_properties(maxLights, normalMap, diffuseLighting,
      specularLighting)`: one block per light, numbered from 0 upwards, so
      nothing at all for no lights. The two lighting flags do not reach the
      result. */
  method LightProperties(maxLights: nat, normalMap: bool, diffuseLighting: bool, specularLighting: bool) returns (r: seq<Tok>)
    ensures r == Concat(LightBlocks(maxLights, normalMap))
    ensures maxLights == 0 ==> r == []
    ensures Opens(r) == 0 && Closes(r) == 0
  {
    r := [];
    var k := 0;
    while k < maxLights
      invariant k <= maxLights
      invariant r == Concat(LightBlocks(k, normalMap))
    {
      assert LightBlocks(k + 1, normalMap)[..k] == LightBlocks(k, normalMap);
      r := r + LightBlock(k, normalMap);
      k := k + 1;
    }
    LightBlocksOpens(maxLights, normalMap);
    LightBlocksCloses(maxLights, normalMap);
  }

  /** `void main() {` and a line break. */
  const MainOpen: seq<Tok> := [Word(MainHead), Open, Word(LineBreakPiece)]

  /** `shader_source_function_vertex_main_begin(hasLighting, hasTextures,
      normalMap)`: opens `main`, assigns the texture coordinate only with
      textures and the view-space normal only with lighting and no normal
      map. */
  function VertexMainBegin(hasLighting: bool, hasTextures: bool, normalMap: bool): (r: seq<Tok>)
    ensures |r| >= 3 && r[..3] == MainOpen
    ensures Word(TexCoordAssign) in r <==> hasTextures
    ensures Word(NormalAssign) in r <==> hasLighting && !normalMap
  {
    MainOpen
    + [Word(PositionViewSpace), Word(LightDistanceInit)]
    + (if hasTextures then [Word(TexCoordAssign)] else [])
    + (if hasLighting && !normalMap then [Word(NormalAssign)] else [])
  }

  /** The beginning of `main` opens one brace, left for the end of `main`
      to close. */
  lemma VertexMainBeginBraces(hasLighting: bool, hasTextures: bool, normalMap: bool)
    ensures Opens(VertexMainBegin(hasLighting, hasTextures, normalMap)) == 1
    ensures Closes(VertexMainBegin(hasLighting, hasTextures, normalMap)) == 0
  {
  }

  /** `if(numLights >= <count>.0){` and a line break: the guard of the light
      with that one-based number when the number of lights varies. */
  function Guard(count: nat): seq<Tok> {
    [Word(GuardHead), Num(count), Word(GuardTail), Open, Word(LineBreakPiece)]
  }

  /** The guard of a light when the number of lights varies, else nothing. */
  function GuardFor(light: nat, variableNumberOfLights: bool): seq<Tok> {
    if variableNumberOfLights then Guard(light + 1) else []
  }

  lemma GuardForOpens(light: nat, variableNumberOfLights: bool)
    ensures Opens(GuardFor(light, variableNumberOfLights)) == (if variableNumberOfLights then 1 else 0)
  {
  }

  lemma GuardForCloses(light: nat, variableNumberOfLights: bool)
    ensures Closes(GuardFor(light, variableNumberOfLights)) == 0
  {
  }

  /** `count` closing braces, each followed by a space. */
  function Closers(count: nat): (r: seq<Tok>)
    ensures Opens(r) == 0 && Closes(r) == count
  {
    if count == 0 then [] else Closers(count - 1) + [Close, Word(SpacePiece)]
  }

  /** The light vector of one light, in tangent space with a normal map. */
  function VectorLine(light: nat, normalMap: bool): seq<Tok> {
    if normalMap
    then [Word(TangentVectorAssign), Num(light), Word(TangentVectorFrom), Num(light), Word(TangentVectorTail)]
    else [Word(ViewVectorAssign), Num(light), Word(ViewVectorFrom), Num(light), Word(ViewVectorTail)]
  }

  lemma VectorLineBraces(light: nat, normalMap: bool)
    ensures Opens(VectorLine(light, normalMap)) == 0 && Closes(VectorLine(light, normalMap)) == 0
  {
    NoBraces(VectorLine(light, normalMap));
  }

  /** The distance of one light and its distance-based intensity, the
      latter computed inside a brace pair. */
  /** The distance, its intensity and the radius test before the brace. */
  function DistanceHead(light: nat): seq<Tok> {
    [Word(DistanceAssign), Num(light), Word(CallEnd)]
    + [Word(DistanceIntensityAssign), Num(light), Word(ZeroEnd)]
    + [Word(RadiusTest), Num(light), Word(TestEnd)]
  }

  /** The attenuated intensity inside the radius test. */
  function DistanceBody(light: nat): seq<Tok> {
    [Word(LineBreakPiece)]
    + [Word(DistanceIntensityAssign), Num(light), Word(ClampIntensity), Num(light),
       Word(OverAttenuation), Num(light), Word(ClampTail)]
  }

  function DistanceLines(light: nat): seq<Tok> {
    DistanceHead(light) + [Open] + DistanceBody(light) + [Close, Word(StatementEnd)]
  }

  lemma DistanceHeadBraces(light: nat)
    ensures Opens(DistanceHead(light)) == 0 && Closes(DistanceHead(light)) == 0
  {
  }

  lemma DistanceBodyBraces(light: nat)
    ensures Opens(DistanceBody(light)) == 0 && Closes(DistanceBody(light)) == 0
  {
  }

  lemma DistanceLinesBraces(light: nat)
    ensures Opens(DistanceLines(light)) == 1 && Closes(DistanceLines(light)) == 1
  {
    DistanceHeadBraces(light);
    DistanceBodyBraces(light);
    BracedCounts(DistanceHead(light), DistanceBody(light), [Close, Word(StatementEnd)]);
    assert Opens([Close, Word(StatementEnd)]) == 0 && Closes([Close, Word(StatementEnd)]) == 1;
  }

  /** A brace-free head, an opening brace, a brace-free body and a tail
      count one more opening brace than the tail. */
  lemma BracedCounts(head: seq<Tok>, body: seq<Tok>, tail: seq<Tok>)
    requires Opens(head) == 0 && Closes(head) == 0 && Opens(body) == 0 && Closes(body) == 0
    ensures Opens(head + [Open] + body + tail) == 1 + Opens(tail)
    ensures Closes(head + [Open] + body + tail) == Closes(tail)
  {
    CountsAppend(head, [Open]);
    CountsAppend(head + [Open], body);
    CountsAppend(head + [Open] + body, tail);
  }

  /** The vertex-shader lines of one light. */
  function LightVectorBlock(light: nat, normalMap: bool, variableNumberOfLights: bool): seq<Tok> {
    GuardFor(light, variableNumberOfLights) + VectorLine(light, normalMap) + DistanceLines(light)
  }

  function LightVectorBlocks(count: nat, normalMap: bool, variableNumberOfLights: bool): (r: seq<seq<Tok>>)
    ensures |r| == count
    ensures forall i :: 0 <= i < count ==> r[i] == LightVectorBlock(i, normalMap, variableNumberOfLights)
  {
    seq(count, i requires 0 <= i => LightVectorBlock(i, normalMap, variableNumberOfLights))
  }

  /** A light's vector block starts with the guard for its one-based number
      exactly when the number of lights varies. */
  lemma LightVectorBlockGuard(light: nat, normalMap: bool, variableNumberOfLights: bool)
    ensures var b := LightVectorBlock(light, normalMap, variableNumberOfLights);
      && (variableNumberOfLights ==> |b| >= 5 && b[..5] == Guard(light + 1))
      && (Word(GuardHead) in b <==> variableNumberOfLights)
  {
    var b := LightVectorBlock(light, normalMap, variableNumberOfLights);
    if variableNumberOfLights {
      assert b[..5] == Guard(light + 1);
    }
  }

  /** A light's vector block leaves its guard open. */
  lemma LightVectorBlockOpens(light: nat, normalMap: bool, variableNumberOfLights: bool)
    ensures Opens(LightVectorBlock(light, normalMap, variableNumberOfLights)) == (if variableNumberOfLights then 2 else 1)
  {
    GuardForOpens(light, variableNumberOfLights);
    VectorLineBraces(light, normalMap);
    DistanceLinesBraces(light);
  }

  lemma LightVectorBlockCloses(light: nat, normalMap: bool, variableNumberOfLights: bool)
    ensures Closes(LightVectorBlock(light, normalMap, variableNumberOfLights)) == 1
  {
    GuardForCloses(light, variableNumberOfLights);
    VectorLineBraces(light, normalMap);
    DistanceLinesBraces(light);
  }

  lemma LightVectorBlocksOpens(count: nat, normalMap: bool, variableNumberOfLights: bool)
    ensures Opens(Concat(LightVectorBlocks(count, normalMap, variableNumberOfLights)))
      == (if variableNumberOfLights then 2 * count else count)
  {
    var blocks := LightVectorBlocks(count, normalMap, variableNumberOfLights);
    forall i | 0 <= i < count
      ensures Opens(blocks[i]) == (if variableNumberOfLights then 2 else 1)
    {
      LightVectorBlockOpens(i, normalMap, variableNumberOfLights);
    }
    BlocksOpens(blocks, (if variableNumberOfLights then 2 else 1));
  }

  lemma LightVectorBlocksCloses(count: nat, normalMap: bool, variableNumberOfLights: bool)
    ensures Closes(Concat(LightVectorBlocks(count, normalMap, variableNumberOfLights))) == count
  {
    var blocks := LightVectorBlocks(count, normalMap, variableNumberOfLights);
    forall i | 0 <= i < count
      ensures Closes(blocks[i]) == 1
    {
      LightVectorBlockCloses(i, normalMap, variableNumberOfLights);
    }
    BlocksCloses(blocks, 1);
  }

  /** The light-vector code, its guards closed when the number of lights
      varies, balances its braces. */
  lemma LightVectorBalanced(count: nat, normalMap: bool, variableNumberOfLights: bool)
    ensures Balanced(Concat(LightVectorBlocks(count, normalMap, variableNumberOfLights))
      + (if variableNumberOfLights then Closers(count) else []))
  {
    var blocks := Concat(LightVectorBlocks(count, normalMap, variableNumberOfLights));
    var tail: seq<Tok> := if variableNumberOfLights then Closers(count) else [];
    LightVectorBlocksOpens(count, normalMap, variableNumberOfLights);
    LightVectorBlocksCloses(count, normalMap, variableNumberOfLights);
    assert multiset(blocks + tail) == multiset(blocks) + multiset(tail);
  }

  /** Appending `count` closers to `r` one at a time. */
  method AppendClosers(r0: seq<Tok>, count: nat) returns (r: seq<Tok>)
    ensures r == r0 + Closers(count)
  {
    r := r0;
    var k := 0;
    while k < count
      invariant k <= count
      invariant r == r0 + Closers(k)
    {
      r := r + [Close, Word(SpacePiece)];
      k := k + 1;
    }
  }

  /** `shader_source_function_lightVector(maxLights, normalMap,
      variableNumberOfLights)`: the blocks of lights `0 .. maxLights - 1`;
      with a variable number of lights each block opens its guard and the
      guards are all closed at the end. Braces balance either way. */
  method LightVector(maxLights: nat, normalMap: bool, variableNumberOfLights: bool) returns (r: seq<Tok>)
    ensures r == Concat(LightVectorBlocks(maxLights, normalMap, variableNumberOfLights))
      + (if variableNumberOfLights then Closers(maxLights) else [])
    ensures Balanced(r)
  {
    r := LightVectorLoop(maxLights, normalMap, variableNumberOfLights);
    if variableNumberOfLights {
      r := AppendClosers(r, maxLights);
    } else {
      assert r + [] == r;
    }
    LightVectorBalanced(maxLights, normalMap, variableNumberOfLights);
  }

  /** The loop over the lights of `LightVector`. */
  method LightVectorLoop(maxLights: nat, normalMap: bool, variableNumberOfLights: bool) returns (r: seq<Tok>)
    ensures r == Concat(LightVectorBlocks(maxLights, normalMap, variableNumberOfLights))
  {
    r := [];
    var k := 0;
    while k < maxLights
      invariant k <= maxLights
      invariant r == Concat(LightVectorBlocks(k, normalMap, variableNumberOfLights))
    {
      assert LightVectorBlocks(k + 1, normalMap, variableNumberOfLights)[..k]
        == LightVectorBlocks(k, normalMap, variableNumberOfLights);
      r := r + LightVectorBlock(k, normalMap, variableNumberOfLights);
      k := k + 1;
    }
  }

  /** The test that one light reaches the surface; it opens a brace. */
  function IntensityTestLine(light: nat, normalMap: bool): seq<Tok> {
    [Word(IntensityTest), Num(light), Word(if normalMap then NormalizeTangent else NormalizeView), Num(light),
     Word(IntensityTestTail), Open, Word(LineBreakPiece)]
  }

  /** The diffuse accumulation of one light, only with diffuse lighting. */
  function DiffuseLines(light: nat, diffuseLighting: bool): seq<Tok> {
    if diffuseLighting
    then [Word(DiffuseAccumulate), Num(light), Word(DiffuseWeight), Num(light), Word(WeightTail)]
    else []
  }

  /** The specular lines of one light, only with specular lighting. */
  function SpecularLines(light: nat, normalMap: bool, specularLighting: bool): seq<Tok> {
    if specularLighting
    then [Word(if normalMap then SpecularCoefficientTangent else SpecularCoefficientView), Num(light),
          Word(ReflectTail), Word(ExponentEnd),
          Word(SpecularAccumulate), Num(light), Word(SpecularWeight), Num(light), Word(WeightTail)]
    else []
  }

  lemma IntensityTestBraces(light: nat, normalMap: bool)
    ensures Opens(IntensityTestLine(light, normalMap)) == 1 && Closes(IntensityTestLine(light, normalMap)) == 0
  {
  }

  lemma DiffuseLinesBraces(light: nat, diffuseLighting: bool)
    ensures Opens(DiffuseLines(light, diffuseLighting)) == 0 && Closes(DiffuseLines(light, diffuseLighting)) == 0
  {
  }

  lemma SpecularLinesOpens(light: nat, normalMap: bool, specularLighting: bool)
    ensures Opens(SpecularLines(light, normalMap, specularLighting)) == 0
  {
  }

  lemma SpecularLinesCloses(light: nat, normalMap: bool, specularLighting: bool)
    ensures Closes(SpecularLines(light, normalMap, specularLighting)) == 0
  {
  }

  /** The fragment-shader lines of one light, in one brace pair. */
  function LightingBlock(light: nat, normalMap: bool, diffuseLighting: bool, specularLighting: bool, variableNumberOfLights: bool): seq<Tok> {
    GuardFor(light, variableNumberOfLights)
    + IntensityTestLine(light, normalMap)
    + [Word(ClampLine)]
    + DiffuseLines(light, diffuseLighting)
    + SpecularLines(light, normalMap, specularLighting)
    + [Close]
  }

  function LightingBlocks(count: nat, normalMap: bool, diffuseLighting: bool, specularLighting: bool, variableNumberOfLights: bool): (r: seq<seq<Tok>>)
    ensures |r| == count
    ensures forall i :: 0 <= i < count ==>
      r[i] == LightingBlock(i, normalMap, diffuseLighting, specularLighting, variableNumberOfLights)
  {
    seq(count, i requires 0 <= i => LightingBlock(i, normalMap, diffuseLighting, specularLighting, variableNumberOfLights))
  }

  /** A light's lighting block accumulates diffuse light exactly with
      diffuse lighting ... */
  lemma LightingBlockDiffuse(light: nat, normalMap: bool, diffuseLighting: bool, specularLighting: bool, variableNumberOfLights: bool)
    ensures Word(DiffuseAccumulate) in LightingBlock(light, normalMap, diffuseLighting, specularLighting, variableNumberOfLights)
      <==> diffuseLighting
  {
  }

  /** ... and specular light exactly with specular lighting. */
  lemma LightingBlockSpecular(light: nat, normalMap: bool, diffuseLighting: bool, specularLighting: bool, variableNumberOfLights: bool)
    ensures Word(SpecularAccumulate) in LightingBlock(light, normalMap, diffuseLighting, specularLighting, variableNumberOfLights)
      <==> specularLighting
  {
  }

  lemma LightingBlockOpens(light: nat, normalMap: bool, diffuseLighting: bool, specularLighting: bool, variableNumberOfLights: bool)
    ensures Opens(LightingBlock(light, normalMap, diffuseLighting, specularLighting, variableNumberOfLights))
      == (if variableNumberOfLights then 2 else 1)
  {
    GuardForOpens(light, variableNumberOfLights);
    IntensityTestBraces(light, normalMap);
    DiffuseLinesBraces(light, diffuseLighting);
    SpecularLinesOpens(light, normalMap, specularLighting);
    LightingBlockCounts(light, normalMap, diffuseLighting, specularLighting, variableNumberOfLights);
  }

  lemma LightingBlockCloses(light: nat, normalMap: bool, diffuseLighting: bool, specularLighting: bool, variableNumberOfLights: bool)
    ensures Closes(LightingBlock(light, normalMap, diffuseLighting, specularLighting, variableNumberOfLights)) == 1
  {
    GuardForCloses(light, variableNumberOfLights);
    IntensityTestBraces(light, normalMap);
    DiffuseLinesBraces(light, diffuseLighting);
    SpecularLinesCloses(light, normalMap, specularLighting);
    LightingBlockCounts(light, normalMap, diffuseLighting, specularLighting, variableNumberOfLights);
  }

  /** The brace counts of a lighting block are those of its parts. */
  lemma LightingBlockCounts(light: nat, normalMap: bool, diffuseLighting: bool, specularLighting: bool, variableNumberOfLights: bool)
    ensures var g := GuardFor(light, variableNumberOfLights);
      var t := IntensityTestLine(light, normalMap);
      var d := DiffuseLines(light, diffuseLighting);
      var sp := SpecularLines(light, normalMap, specularLighting);
      var b := LightingBlock(light, normalMap, diffuseLighting, specularLighting, variableNumberOfLights);
      && Opens(b) == Opens(g) + Opens(t) + Opens(d) + Opens(sp)
      && Closes(b) == Closes(g) + Closes(t) + Closes(d) + Closes(sp) + 1
  {
    var g := GuardFor(light, variableNumberOfLights);
    var t := IntensityTestLine(light, normalMap);
    var d := DiffuseLines(light, diffuseLighting);
    var sp := SpecularLines(light, normalMap, specularLighting);
    CountsAppend(g, t);
    CountsAppend(g + t, [Word(ClampLine)]);
    CountsAppend(g + t + [Word(ClampLine)], d);
    CountsAppend(g + t + [Word(ClampLine)] + d, sp);
    CountsAppend(g + t + [Word(ClampLine)] + d + sp, [Close]);
  }

  lemma LightingBlocksOpens(count: nat, normalMap: bool, diffuseLighting: bool, specularLighting: bool, variableNumberOfLights: bool)
    ensures Opens(Concat(LightingBlocks(count, normalMap, diffuseLighting, specularLighting, variableNumberOfLights)))
      == (if variableNumberOfLights then 2 * count else count)
  {
    var blocks := LightingBlocks(count, normalMap, diffuseLighting, specularLighting, variableNumberOfLights);
    forall i | 0 <= i < count
      ensures Opens(blocks[i]) == (if variableNumberOfLights then 2 else 1)
    {
      LightingBlockOpens(i, normalMap, diffuseLighting, specularLighting, variableNumberOfLights);
    }
    BlocksOpens(blocks, (if variableNumberOfLights then 2 else 1));
  }

  lemma LightingBlocksCloses(count: nat, normalMap: bool, diffuseLighting: bool, specularLighting: bool, variableNumberOfLights: bool)
    ensures Closes(Concat(LightingBlocks(count, normalMap, diffuseLighting, specularLighting, variableNumberOfLights))) == count
  {
    var blocks := LightingBlocks(count, normalMap, diffuseLighting, specularLighting, variableNumberOfLights);
    forall i | 0 <= i < count
      ensures Closes(blocks[i]) == 1
    {
      LightingBlockCloses(i, normalMap, diffuseLighting, specularLighting, variableNumberOfLights);
    }
    BlocksCloses(blocks, 1);
  }

  /** With at least one light, the lighting code accumulates diffuse light
      exactly when diffuse lighting is on, and specular light exactly when
      specular lighting is on. */
  lemma LightingBlocksPresence(count: nat, normalMap: bool, diffuseLighting: bool, specularLighting: bool, variableNumberOfLights: bool)
    requires count > 0
    ensures var blocks := Concat(LightingBlocks(count, normalMap, diffuseLighting, specularLighting, variableNumberOfLights));
      && (Word(DiffuseAccumulate) in blocks <==> diffuseLighting)
      && (Word(SpecularAccumulate) in blocks <==> specularLighting)
  {
    var parts := LightingBlocks(count, normalMap, diffuseLighting, specularLighting, variableNumberOfLights);
    ConcatMember(Word(DiffuseAccumulate), parts);
    ConcatMember(Word(SpecularAccumulate), parts);
    LightingBlockDiffuse(0, normalMap, diffuseLighting, specularLighting, variableNumberOfLights);
    LightingBlockSpecular(0, normalMap, diffuseLighting, specularLighting, variableNumberOfLights);
    forall i | 0 <= i < count
      ensures Word(DiffuseAccumulate) in parts[i] <==> diffuseLighting
      ensures Word(SpecularAccumulate) in parts[i] <==> specularLighting
    {
      LightingBlockDiffuse(i, normalMap, diffuseLighting, specularLighting, variableNumberOfLights);
      LightingBlockSpecular(i, normalMap, diffuseLighting, specularLighting, variableNumberOfLights);
    }
  }

  /** No closer is a diffuse or specular accumulation. */
  lemma ClosersAccumulateNothing(count: nat)
    ensures Word(DiffuseAccumulate) !in Closers(count) && Word(SpecularAccumulate) !in Closers(count)
  {
    if count > 0 {
      ClosersAccumulateNothing(count - 1);
    }
  }

  /** The lighting code, its guards closed when the number of lights
      varies, balances its braces. */
  lemma LightingBalanced(count: nat, normalMap: bool, diffuseLighting: bool, specularLighting: bool, variableNumberOfLights: bool)
    ensures Balanced(Concat(LightingBlocks(count, normalMap, diffuseLighting, specularLighting, variableNumberOfLights))
      + (if variableNumberOfLights then Closers(count) else []))
  {
    var blocks := Concat(LightingBlocks(count, normalMap, diffuseLighting, specularLighting, variableNumberOfLights));
    var tail: seq<Tok> := if variableNumberOfLights then Closers(count) else [];
    LightingBlocksOpens(count, normalMap, diffuseLighting, specularLighting, variableNumberOfLights);
    LightingBlocksCloses(count, normalMap, diffuseLighting, specularLighting, variableNumberOfLights);
    assert multiset(blocks + tail) == multiset(blocks) + multiset(tail);
  }

  /** With at least one light, the closed lighting code accumulates diffuse
      and specular light exactly with their flags. */
  lemma LightingPresence(count: nat, normalMap: bool, diffuseLighting: bool, specularLighting: bool, variableNumberOfLights: bool)
    requires count > 0
    ensures var r := Concat(LightingBlocks(count, normalMap, diffuseLighting, specularLighting, variableNumberOfLights))
      + (if variableNumberOfLights then Closers(count) else []);
      && (Word(DiffuseAccumulate) in r <==> diffuseLighting)
      && (Word(SpecularAccumulate) in r <==> specularLighting)
  {
    LightingBlocksPresence(count, normalMap, diffuseLighting, specularLighting, variableNumberOfLights);
    ClosersAccumulateNothing(count);
  }

  /** `shader_source_function_lighting(maxLights, normalMap, diffuseLighting,
      specularLighting, variableNumberOfLights)`: the lighting blocks of
      lights `0 .. maxLights - 1`, guarded and closed at the end as the light
      vectors are. Braces balance, and with at least one light the diffuse
      and specular accumulations are present exactly with their flags. */
  method Lighting(maxLights: nat, normalMap: bool, diffuseLighting: bool, specularLighting: bool, variableNumberOfLights: bool) returns (r: seq<Tok>)
    ensures r == Concat(LightingBlocks(maxLights, normalMap, diffuseLighting, specularLighting, variableNumberOfLights))
      + (if variableNumberOfLights then Closers(maxLights) else [])
    ensures Balanced(r)
    ensures maxLights > 0 ==> (Word(DiffuseAccumulate) in r <==> diffuseLighting)
    ensures maxLights > 0 ==> (Word(SpecularAccumulate) in r <==> specularLighting)
  {
    r := LightingLoop(maxLights, normalMap, diffuseLighting, specularLighting, variableNumberOfLights);
    if variableNumberOfLights {
      r := AppendClosers(r, maxLights);
    }
    LightingFacts(r, maxLights, normalMap, diffuseLighting, specularLighting, variableNumberOfLights);
  }

  /** Balance and presence for the lighting code, gathered. */
  lemma LightingFacts(r: seq<Tok>, maxLights: nat, normalMap: bool, diffuseLighting: bool, specularLighting: bool, variableNumberOfLights: bool)
    requires r == Concat(LightingBlocks(maxLights, normalMap, diffuseLighting, specularLighting, variableNumberOfLights))
      + (if variableNumberOfLights then Closers(maxLights) else [])
    ensures Balanced(r)
    ensures maxLights > 0 ==> (Word(DiffuseAccumulate) in r <==> diffuseLighting)
    ensures maxLights > 0 ==> (Word(SpecularAccumulate) in r <==> specularLighting)
  {
    LightingBalanced(maxLights, normalMap, diffuseLighting, specularLighting, variableNumberOfLights);
    if maxLights > 0 {
      LightingPresence(maxLights, normalMap, diffuseLighting, specularLighting, variableNumberOfLights);
    }
  }

  /** The loop over the lights of `Lighting`. */
  method LightingLoop(maxLights: nat, normalMap: bool, diffuseLighting: bool, specularLighting: bool, variableNumberOfLights: bool) returns (r: seq<Tok>)
    ensures r == Concat(LightingBlocks(maxLights, normalMap, diffuseLighting, specularLighting, variableNumberOfLights))
  {
    r := [];
    var k := 0;
    while k < maxLights
      invariant k <= maxLights
      invariant r == Concat(LightingBlocks(k, normalMap, diffuseLighting, specularLighting, variableNumberOfLights))
    {
      assert LightingBlocks(k + 1, normalMap, diffuseLighting, specularLighting, variableNumberOfLights)[..k]
        == LightingBlocks(k, normalMap, diffuseLighting, specularLighting, variableNumberOfLights);
      r := r + LightingBlock(k, normalMap, diffuseLighting, specularLighting, variableNumberOfLights);
      k := k + 1;
    }
  }

  /** The items whose flag is set, in their original order. */
  function Present<T>(items: seq<T>, keep: seq<bool>): (r: seq<T>)
    requires |items| == |keep|
    ensures |r| <= |items|
    ensures forall x :: x in r ==> x in items
  {
    if |items| == 0 then []
    else (if keep[0] then [items[0]] else []) + Present(items[1..], keep[1..])
  }

  /** `shader_source_function_fragment_finalize_diffuse(diffuseColor,
      diffuseMap)`: the diffuse term is multiplied by the material colour,
      then by the diffuse map, each only when asked for, colour first. */
  function FinalizeDiffuse(diffuseColor: bool, diffuseMap: bool): (r: seq<Tok>)
    ensures r == [Word(DiffuseFinalHead)]
      + Present([Word(DiffuseColorFactor), Word(DiffuseMapFactor)], [diffuseColor, diffuseMap])
      + [Word(StatementEnd)]
  {
    var withColor := [Word(DiffuseFinalHead)] + (if diffuseColor then [Word(DiffuseColorFactor)] else []);
    var withMap := withColor + (if diffuseMap then [Word(DiffuseMapFactor)] else []);
    withMap + [Word(StatementEnd)]
  }

  /** `shader_source_function_fragment_finalize_specular(specularColor,
      specularMap)`: the same shape for the specular term, colour before
      map. */
  function FinalizeSpecular(specularColor: bool, specularMap: bool): (r: seq<Tok>)
    ensures r == [Word(SpecularFinalHead)]
      + Present([Word(SpecularColorFactor), Word(SpecularMapFactor)], [specularColor, specularMap])
      + [Word(StatementEnd)]
  {
    var withColor := [Word(SpecularFinalHead)] + (if specularColor then [Word(SpecularColorFactor)] else []);
    var withMap := withColor + (if specularMap then [Word(SpecularMapFactor)] else []);
    withMap + [Word(StatementEnd)]
  }
}
