/** The characters of the generated GLSL: what each named fragment of
    ShaderSource.cpp spells, and the rendering of a token sequence. */
module ShaderText {
  import opened Common
  import opened Config
  import opened ShaderSource

  /** The characters of each fragment, built from the configured names. */
  function PieceText(p: Piece): string {
    match p
    case LineBreakPiece => LineBreak
    case StatementEnd => LineEnding
    case SpacePiece => " "
    case PositionUniformDecl => "uniform vec4 " + LightPositionUniform
    case IntensityUniformDecl => "uniform float " + LightIntensityUniform
    case AttenuationUniformDecl => "uniform float " + LightAttenuationUniform
    case RadiusUniformDecl => "uniform float " + LightRadiusUniform
    case DiffuseColorUniformDecl => "uniform vec3 " + DiffuseLightColorUniform
    case SpecularColorUniformDecl => "uniform vec3 " + SpecularLightColorUniform
    case TangentVectorDecl => "varying vec3 lightVectorTangentSpace_"
    case ViewVectorDecl => "varying vec3 lightVectorViewSpace_"
    case DistanceIntensityDecl => "varying float intensityBasedOnDist_"
    case MainHead => "void main() "
    case PositionViewSpace => "vec4 posViewSpace = " + ModelViewMatrixUniform + "*" + PositionAttribute + LineEnding
    case LightDistanceInit => "float lightDistance = 0.0" + LineEnding
    case TexCoordAssign => "texCoordVarying = " + TexCoordAttribute + LineEnding
    case NormalAssign => "normalVaryingViewSpace = mat3(" + ModelViewMatrixUniform + ")*" + NormalAttribute + LineEnding
    case GuardHead => "if(" + NumberOfLightsUniform + " >= "
    case GuardTail => ".0)"
    case TangentVectorAssign => "lightVectorTangentSpace_"
    case TangentVectorFrom => " = TBN*(" + LightPositionUniform
    case TangentVectorTail => ".xyz - posViewSpace.xyz)" + LineEnding
    case ViewVectorAssign => "lightVectorViewSpace_"
    case ViewVectorFrom => " = " + LightPositionUniform
    case ViewVectorTail => ".xyz - posViewSpace.xyz" + LineEnding
    case DistanceAssign => "lightDistance = distance(posViewSpace, " + LightPositionUniform
    case CallEnd => ")" + LineEnding
    case DistanceIntensityAssign => "intensityBasedOnDist_"
    case ZeroEnd => " = 0.0" + LineEnding
    case RadiusTest => "if (lightDistance <= " + LightRadiusUniform
    case TestEnd => ") "
    case ClampIntensity => " = clamp(" + LightIntensityUniform
    case OverAttenuation => " / (" + LightAttenuationUniform
    case ClampTail => "*lightDistance*lightDistance), 0.0, 1.0)" + LineEnding
    case IntensityTest => "if (intensityBasedOnDist_"
    case NormalizeTangent => " > 0.0 && (intensity = max(dot(surfaceNormal, normalize(lightVectorTangentSpace_"
    case NormalizeView => " > 0.0 && (intensity = max(dot(surfaceNormal, normalize(lightVectorViewSpace_"
    case IntensityTestTail => ")), 0.0)) > 0.0)"
    case ClampLine => "intensity = clamp(intensity, 0.0, 1.0)" + LineEnding
    case DiffuseAccumulate => "diffuse += vec4(" + DiffuseLightColorUniform
    case DiffuseWeight => " * (intensity * intensityBasedOnDist_"
    case WeightTail => "), 0.0)" + LineEnding
    case SpecularCoefficientTangent => "specularCoefficient = pow(max(0.0, dot(surfaceToCamera, reflect(-normalize(lightVectorTangentSpace_"
    case SpecularCoefficientView => "specularCoefficient = pow(max(0.0, dot(surfaceToCamera, reflect(-normalize(lightVectorViewSpace_"
    case ReflectTail => "), surfaceNormal))), "
    case ExponentEnd => SpecularExponentKey + ")" + LineEnding
    case SpecularAccumulate => "specular += vec4(" + SpecularLightColorUniform
    case SpecularWeight => " * (specularCoefficient * intensity * intensityBasedOnDist_"
    case DiffuseFinalHead => "diffuse = diffuse"
    case DiffuseColorFactor => " * vec4(" + DiffuseColorKey + ",1.0)"
    case DiffuseMapFactor => " * texture2D(" + DiffuseMapUniform + ", texCoordVarying.st)"
    case SpecularFinalHead => "specular = specular "
    case SpecularColorFactor => " * vec4(" + SpecularColorKey + ", 0.0)"
    case SpecularMapFactor => " * texture2D(" + SpecularMapUniform + ", texCoordVarying.st)"
  }

  /** The characters a token stands for (`std::to_string` for numbers). */
  function TokText(t: Tok): (s: string)
    ensures t.Open? ==> s == "{"
    ensures t.Close? ==> s == "}"
    ensures t.Num? ==> s == NatToString(t.n)
  {
    match t
    case Word(p) => PieceText(p)
    case Num(n) => NatToString(n)
    case Open => "{"
    case Close => "}"
  }

  /** The text of a token sequence. */
  function Render(ts: seq<Tok>): string {
    if |ts| == 0 then "" else Render(ts[..|ts| - 1]) + TokText(ts[|ts| - 1])
  }


  /** Rendering one more token appends its text. */
  lemma RenderSnoc(ts: seq<Tok>, t: Tok)
    ensures Render(ts + [t]) == Render(ts) + TokText(t)
  {
    assert (ts + [t])[..|ts|] == ts;
  }

  /** Rendering distributes over concatenation of token runs. */
  lemma {:induction false} RenderAppend(a: seq<Tok>, b: seq<Tok>)
    ensures Render(a + b) == Render(a) + Render(b)
    decreases |b|
  {
    if |b| > 0 {
      var init, last := b[..|b| - 1], b[|b| - 1];
      assert b == init + [last];
      assert a + b == (a + init) + [last];
      RenderAppend(a, init);
      RenderSnoc(a + init, last);
      RenderSnoc(init, last);
    } else {
      assert a + b == a;
    }
  }

  /** The beginning of the vertex `main` renders as `void main() {` and a
      line break. */
  lemma MainOpenText()
    ensures Render(MainOpen) == "void main() {\n"
  {
    var t := MainOpen;
    assert t[..2][..1] == [Word(MainHead)];
    assert t[..2] == [Word(MainHead), Open];
    assert Render([Word(MainHead)]) == "void main() ";
  }

  /** The vertex `main` always begins with `void main() {` and a line
      break, whatever the flags. */
  lemma VertexMainBeginText(hasLighting: bool, hasTextures: bool, normalMap: bool)
    ensures var text := Render(VertexMainBegin(hasLighting, hasTextures, normalMap));
      |text| >= 14 && text[..14] == "void main() {\n"
  {
    var r := VertexMainBegin(hasLighting, hasTextures, normalMap);
    assert r == MainOpen + r[3..];
    RenderAppend(MainOpen, r[3..]);
    MainOpenText();
  }

  /** The statement terminator spells `;` and a line break. */
  lemma StatementEndText()
    ensures TokText(Word(StatementEnd)) == ";\n"
  {
  }

  /** A fragment followed by a number spells the fragment, then the
      number in decimal. */
  lemma NumberedPrefixText(p: Piece, light: nat)
    ensures Render([Word(p), Num(light)]) == PieceText(p) + NatToString(light)
  {
    var w := [Word(p)];
    RenderSnoc([], Word(p));
    assert [] + [Word(p)] == w;
    RenderSnoc(w, Num(light));
    assert w + [Num(light)] == [Word(p), Num(light)];
  }

  /** A numbered statement spells its fragment, the light number in decimal
      and the statement terminator `;\n`. */
  lemma NumberedLineText(p: Piece, light: nat)
    ensures Render(NumberedLine(p, light)) == PieceText(p) + NatToString(light) + ";\n"
  {
    var wn := [Word(p), Num(light)];
    NumberedPrefixText(p, light);
    RenderSnoc(wn, Word(StatementEnd));
    assert wn + [Word(StatementEnd)] == NumberedLine(p, light);
    StatementEndText();
  }
}
