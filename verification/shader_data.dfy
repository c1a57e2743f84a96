/** The generated shader of ShaderData.cpp. ShaderData composes named source
    snippets, several of which belong to an older snippet set than the one
    ShaderSource.cpp defines; the sources are therefore kept as sequences of
    named snippets, and only the colour sum of `gl_FragColor` is spelled out
    in characters. */
module ShaderData {
  import opened Common

  /** A named piece of generated GLSL, in the order ShaderData appends them. */
  datatype Snippet =
    | Head(desktop: bool)                        // version line (and precision on ES)
    | NumLights                                  // the light-count uniform
    | LightDeclarations(light: nat, normalMap: bool)
    | Varyings
    | Matrices
    | Attributes
    | VertexMainBeginTbn
    | TangentSurfaceToLight(light: nat)
    | VertexMainBegin
    | VertexMainEnd
    | Colors
    | Textures
    | FragmentMainBegin
    | FragmentAmbient
    | FragmentNormalMap
    | FragmentSurfaceNormal
    | InitDiffuse
    | InitDiffuseNoLights
    | LightingOf(light: nat, normalMap: bool)
    | FinalizeDiffuseMap
    | FinalizeDiffuse
    | ColorSumBegin                              // `gl_FragColor = clamp(`
    | ColorTerm(text: string)                    // a term of the colour sum
    | ColorSumEnd                                // `, 0.0, 1.0);` and a line break

  /** A shader description and its generated sources. */
  datatype ShaderData = ShaderData(
    valid: bool,
    maxLights: nat,
    ambientColor: bool, diffuseColor: bool, specularColor: bool,
    diffuseMap: bool, normalMap: bool, specularMap: bool,
    vertSource: seq<Snippet>, fragSource: seq<Snippet>)

  /** The default constructor: nothing generated and not valid. */
  function Default(): (d: ShaderData)
    ensures !d.valid
  {
    ShaderData(false, 0, false, false, false, false, false, false, [], [])
  }

  /** The declarations of lights `0 .. count - 1`, in that order. */
  function Declarations(count: nat, normalMap: bool): (r: seq<Snippet>)
    ensures |r| == count
    ensures forall i :: 0 <= i < count ==> r[i] == LightDeclarations(i, normalMap)
  {
    seq(count, i requires 0 <= i => LightDeclarations(i, normalMap))
  }

  /** The tangent-space light vectors of lights `0 .. count - 1`. */
  function TangentLines(count: nat): (r: seq<Snippet>)
    ensures |r| == count
    ensures forall i :: 0 <= i < count ==> r[i] == TangentSurfaceToLight(i)
  {
    seq(count, i requires 0 <= i => TangentSurfaceToLight(i))
  }

  /** The lighting of lights `0 .. count - 1`. */
  function LightingLines(count: nat, normalMap: bool): (r: seq<Snippet>)
    ensures |r| == count
    ensures forall i :: 0 <= i < count ==> r[i] == LightingOf(i, normalMap)
  {
    seq(count, i requires 0 <= i => LightingOf(i, normalMap))
  }

  /** The part both sources share: head, light count, the declarations of
      every light and the varyings. */
  function CommonSource(maxLights: nat, normalMap: bool, desktop: bool): seq<Snippet> {
    [Head(desktop), NumLights]
    + Declarations(maxLights, normalMap)
    + [Varyings]
  }

  /** What `createVertShader` appends: matrices and attributes, then either
      the tangent-space main with one light-vector snippet per light, or the
      plain main, then the end of main. */
  function VertexPart(maxLights: nat, normalMap: bool): seq<Snippet> {
    [Matrices, Attributes]
    + (if normalMap then [VertexMainBeginTbn] + TangentLines(maxLights) else [VertexMainBegin])
    + [VertexMainEnd]
  }

  /** The diffuse part of the fragment main, present only with a diffuse
      colour. */
  function DiffusePart(maxLights: nat, diffuseMap: bool, normalMap: bool): seq<Snippet> {
    [if maxLights > 0 then InitDiffuse else InitDiffuseNoLights]
    + LightingLines(maxLights, normalMap)
    + [if diffuseMap then FinalizeDiffuseMap else FinalizeDiffuse]
  }

  /** The terms of the colour sum as `createFragShader` appends them: a term
      followed by `+` whenever a later term will follow. */
  function ColorTerms(ambientColor: bool, diffuseColor: bool, specularColor: bool): seq<Snippet> {
    (if ambientColor && (diffuseColor || specularColor) then [ColorTerm("ambient" + "+")]
     else if ambientColor then [ColorTerm("ambient")] else [])
    + (if diffuseColor && specularColor then [ColorTerm("diffuse" + "+")]
       else if diffuseColor then [ColorTerm("diffuse")] else [])
    + (if specularColor then [ColorTerm("specular")] else [])
  }

  /** What `createFragShader` appends. The specular colour adds nothing to
      the main body: only its term in the colour sum. */
  function FragmentPart(maxLights: nat, ambientColor: bool, diffuseColor: bool, specularColor: bool,
                        diffuseMap: bool, normalMap: bool): seq<Snippet> {
    [Colors, Textures, FragmentMainBegin]
    + (if ambientColor then [FragmentAmbient] else [])
    + [if normalMap then FragmentNormalMap else FragmentSurfaceNormal]
    + (if diffuseColor then DiffusePart(maxLights, diffuseMap, normalMap) else [])
    + [ColorSumBegin]
    + ColorTerms(ambientColor, diffuseColor, specularColor)
    + [ColorSumEnd]
  }

  /** `initializeSourceCommonVariables`: both sources become the common
      part, built light by light. */
  method InitializeSourceCommonVariables(maxLights: nat, normalMap: bool, desktop: bool)
    returns (vertSource: seq<Snippet>, fragSource: seq<Snippet>)
    ensures vertSource == fragSource == CommonSource(maxLights, normalMap, desktop)
  {
    var common := [Head(desktop), NumLights];
    var i := 0;
    while i < maxLights
      invariant i <= maxLights
      invariant common == [Head(desktop), NumLights] + Declarations(i, normalMap)
    {
      assert Declarations(i + 1, normalMap)
        == Declarations(i, normalMap) + [LightDeclarations(i, normalMap)];
      common := common + [LightDeclarations(i, normalMap)];
      i := i + 1;
    }
    common := common + [Varyings];
    vertSource := common;
    fragSource := common;
  }

  /** `createVertShader`, appending to the vertex source. */
  method CreateVertShader(vertSource: seq<Snippet>, maxLights: nat, normalMap: bool) returns (r: seq<Snippet>)
    ensures r == vertSource + VertexPart(maxLights, normalMap)
  {
    r := vertSource + [Matrices, Attributes];
    if normalMap {
      r := r + [VertexMainBeginTbn];
      var i := 0;
      while i < maxLights
        invariant i <= maxLights
        invariant r == vertSource + [Matrices, Attributes, VertexMainBeginTbn] + TangentLines(i)
      {
        assert TangentLines(i + 1)
          == TangentLines(i) + [TangentSurfaceToLight(i)];
        r := r + [TangentSurfaceToLight(i)];
        i := i + 1;
      }
    } else {
      r := r + [VertexMainBegin];
    }
    r := r + [VertexMainEnd];
  }

  /** The diffuse block of `createFragShader`, appended to `fragSource`. */
  method AppendDiffuse(fragSource: seq<Snippet>, maxLights: nat, diffuseMap: bool, normalMap: bool) returns (r: seq<Snippet>)
    ensures r == fragSource + DiffusePart(maxLights, diffuseMap, normalMap)
  {
    var init := if maxLights > 0 then InitDiffuse else InitDiffuseNoLights;
    r := fragSource + [init];
    var i := 0;
    while i < maxLights
      invariant i <= maxLights
      invariant r == fragSource + [init] + LightingLines(i, normalMap)
    {
      assert LightingLines(i + 1, normalMap)
        == LightingLines(i, normalMap) + [LightingOf(i, normalMap)];
      r := r + [LightingOf(i, normalMap)];
      i := i + 1;
    }
    r := r + [if diffuseMap then FinalizeDiffuseMap else FinalizeDiffuse];
  }

  /** `createFragShader`, appending to the fragment source. */
  method CreateFragShader(fragSource: seq<Snippet>, maxLights: nat, ambientColor: bool, diffuseColor: bool,
                          specularColor: bool, diffuseMap: bool, normalMap: bool) returns (r: seq<Snippet>)
    ensures r == fragSource + FragmentPart(maxLights, ambientColor, diffuseColor, specularColor, diffuseMap, normalMap)
  {
    var ambient: seq<Snippet> := if ambientColor then [FragmentAmbient] else [];
    var normal := if normalMap then FragmentNormalMap else FragmentSurfaceNormal;
    var diffuse: seq<Snippet> := [];
    if diffuseColor {
      diffuse := AppendDiffuse([], maxLights, diffuseMap, normalMap);
      assert diffuse == DiffusePart(maxLights, diffuseMap, normalMap);
    }
    var terms := AppendColorTerms([], ambientColor, diffuseColor, specularColor);
    assert terms == ColorTerms(ambientColor, diffuseColor, specularColor);
    r := fragSource + ([Colors, Textures, FragmentMainBegin] + ambient + [normal] + diffuse + [ColorSumBegin] + terms + [ColorSumEnd]);
  }

  /** The colour terms of `createFragShader`, appended to `fragSource`. */
  method AppendColorTerms(fragSource: seq<Snippet>, ambientColor: bool, diffuseColor: bool, specularColor: bool)
    returns (r: seq<Snippet>)
    ensures r == fragSource + ColorTerms(ambientColor, diffuseColor, specularColor)
  {
    r := fragSource;
    if ambientColor && (diffuseColor || specularColor) {
      r := r + [ColorTerm("ambient" + "+")];
    } else if ambientColor {
      r := r + [ColorTerm("ambient")];
    }
    if diffuseColor && specularColor {
      r := r + [ColorTerm("diffuse" + "+")];
    } else if diffuseColor {
      r := r + [ColorTerm("diffuse")];
    }
    if specularColor {
      r := r + [ColorTerm("specular")];
    }
  }

  /** `create` (and the constructor taking the same arguments): stores the
      light count and the six feature flags, generates both sources and
      marks the data valid. `desktop` selects the head the build targets. */
  method Create(maxLights: nat, ambientColor: bool, diffuseColor: bool, specularColor: bool,
                diffuseMap: bool, normalMap: bool, specularMap: bool, desktop: bool) returns (d: ShaderData)
    ensures d.valid
    ensures d.maxLights == maxLights
    ensures d.ambientColor == ambientColor && d.diffuseColor == diffuseColor && d.specularColor == specularColor
    ensures d.diffuseMap == diffuseMap && d.normalMap == normalMap && d.specularMap == specularMap
    ensures d.vertSource == CommonSource(maxLights, normalMap, desktop) + VertexPart(maxLights, normalMap)
    ensures d.fragSource == CommonSource(maxLights, normalMap, desktop)
      + FragmentPart(maxLights, ambientColor, diffuseColor, specularColor, diffuseMap, normalMap)
  {
    var vert, frag := InitializeSourceCommonVariables(maxLights, normalMap, desktop);
    vert := CreateVertShader(vert, maxLights, normalMap);
    frag := CreateFragShader(frag, maxLights, ambientColor, diffuseColor, specularColor, diffuseMap, normalMap);
    d := ShaderData(true, maxLights, ambientColor, diffuseColor, specularColor, diffuseMap, normalMap, specularMap, vert, frag);
  }

  /** The sources of valid shader data as `Create` leaves them. */
  ghost predicate Generated(d: ShaderData, desktop: bool) {
    && d.vertSource == CommonSource(d.maxLights, d.normalMap, desktop) + VertexPart(d.maxLights, d.normalMap)
    && d.fragSource == CommonSource(d.maxLights, d.normalMap, desktop)
       + FragmentPart(d.maxLights, d.ambientColor, d.diffuseColor, d.specularColor, d.diffuseMap, d.normalMap)
  }

  /** Vertex and fragment sources start with the same common part, which
      begins with the head and declares exactly the lights
      `0 .. maxLights - 1`. */
  lemma CommonPrefix(d: ShaderData, desktop: bool)
    requires Generated(d, desktop)
    ensures var c := CommonSource(d.maxLights, d.normalMap, desktop);
      && |c| == d.maxLights + 3
      && d.vertSource[..|c|] == c && d.fragSource[..|c|] == c
      && c[0] == Head(desktop)
      && forall i: nat, nm: bool :: LightDeclarations(i, nm) in c <==> i < d.maxLights && nm == d.normalMap
  {
    var c := CommonSource(d.maxLights, d.normalMap, desktop);
    assert d.vertSource[..|c|] == c;
    assert d.fragSource[..|c|] == c;
    forall i: nat, nm: bool
      ensures LightDeclarations(i, nm) in c <==> i < d.maxLights && nm == d.normalMap
    {
      CommonSourceDeclares(d.maxLights, d.normalMap, desktop, i, nm);
    }
  }

  /** The common part declares exactly the lights `0 .. maxLights - 1`. */
  lemma CommonSourceDeclares(maxLights: nat, normalMap: bool, desktop: bool, i: nat, nm: bool)
    ensures LightDeclarations(i, nm) in CommonSource(maxLights, normalMap, desktop) <==> i < maxLights && nm == normalMap
  {
    var ds := Declarations(maxLights, normalMap);
    assert CommonSource(maxLights, normalMap, desktop) == [Head(desktop), NumLights] + ds + [Varyings];
    if i < maxLights && nm == normalMap {
      assert ds[i] == LightDeclarations(i, nm);
    }
  }

  /** The lighting snippets are exactly the lighting of each light. */
  lemma LightingLinesMember(count: nat, normalMap: bool, s: Snippet)
    ensures s in LightingLines(count, normalMap) <==> s.LightingOf? && s.light < count && s.normalMap == normalMap
  {
    if s.LightingOf? && s.light < count && s.normalMap == normalMap {
      assert LightingLines(count, normalMap)[s.light] == s;
    }
  }

  /** The fragment main selects the normal-map snippet exactly with a
      normal map, and the surface-normal snippet otherwise. */
  lemma FragmentNormalChoice(maxLights: nat, ambientColor: bool, diffuseColor: bool, specularColor: bool,
                             diffuseMap: bool, normalMap: bool)
    ensures var f := FragmentPart(maxLights, ambientColor, diffuseColor, specularColor, diffuseMap, normalMap);
      && (FragmentNormalMap in f <==> normalMap)
      && (FragmentSurfaceNormal in f <==> !normalMap)
  {
    var f := FragmentPart(maxLights, ambientColor, diffuseColor, specularColor, diffuseMap, normalMap);
    LightingLinesMember(maxLights, normalMap, FragmentNormalMap);
    LightingLinesMember(maxLights, normalMap, FragmentSurfaceNormal);
    ColorTermsOnly(ambientColor, diffuseColor, specularColor);
  }

  /** The colour sum holds nothing but colour terms. */
  lemma ColorTermsOnly(ambientColor: bool, diffuseColor: bool, specularColor: bool)
    ensures forall s :: s in ColorTerms(ambientColor, diffuseColor, specularColor) ==> s.ColorTerm?
  {
  }

  /** The diffuse block, with its lit or unlit initialiser, is emitted only
      with a diffuse colour; the lit initialiser is chosen exactly when there
      are lights. */
  lemma FragmentDiffuseChoice(maxLights: nat, ambientColor: bool, diffuseColor: bool, specularColor: bool,
                              diffuseMap: bool, normalMap: bool)
    ensures var f := FragmentPart(maxLights, ambientColor, diffuseColor, specularColor, diffuseMap, normalMap);
      && (InitDiffuse in f <==> diffuseColor && maxLights > 0)
      && (InitDiffuseNoLights in f <==> diffuseColor && maxLights == 0)
      && (FinalizeDiffuseMap in f <==> diffuseColor && diffuseMap)
      && (FinalizeDiffuse in f <==> diffuseColor && !diffuseMap)
  {
    LightingLinesMember(maxLights, normalMap, InitDiffuse);
    LightingLinesMember(maxLights, normalMap, InitDiffuseNoLights);
    LightingLinesMember(maxLights, normalMap, FinalizeDiffuseMap);
    LightingLinesMember(maxLights, normalMap, FinalizeDiffuse);
    ColorTermsOnly(ambientColor, diffuseColor, specularColor);
  }

  /** With a diffuse colour the fragment shader lights with every light
      `0 .. maxLights - 1` and no other; without one it lights with none. */
  lemma FragmentLightingBlocks(maxLights: nat, ambientColor: bool, diffuseColor: bool, specularColor: bool,
                               diffuseMap: bool, normalMap: bool, light: nat)
    ensures LightingOf(light, normalMap) in FragmentPart(maxLights, ambientColor, diffuseColor, specularColor, diffuseMap, normalMap)
      <==> diffuseColor && light < maxLights
  {
    LightingLinesMember(maxLights, normalMap, LightingOf(light, normalMap));
    ColorTermsOnly(ambientColor, diffuseColor, specularColor);
  }

  /** The texts of a sequence of colour terms, concatenated. */
  function TermsText(terms: seq<Snippet>): string {
    if |terms| == 0 then ""
    else (if terms[0].ColorTerm? then terms[0].text else "") + TermsText(terms[1..])
  }

  /** Strings joined with `+` between neighbours. */
  function JoinPlus(items: seq<string>): (r: string)
    ensures |items| == 0 ==> r == ""
    ensures |items| == 1 ==> r == items[0]
  {
    if |items| == 0 then ""
    else if |items| == 1 then items[0]
    else items[0] + "+" + JoinPlus(items[1..])
  }

  /** The items whose flag is set, in their original order. */
  function Selected(items: seq<string>, keep: seq<bool>): (r: seq<string>)
    requires |items| == |keep|
    ensures |r| <= |items|
  {
    if |items| == 0 then []
    else (if keep[0] then [items[0]] else []) + Selected(items[1..], keep[1..])
  }

  /** The argument of `clamp` in `gl_FragColor` is the `+`-join of the
      present terms among ambient, diffuse and specular, in that order:
      no `+` is left dangling and none is missing. */
  lemma ColorSumIsJoin(ambientColor: bool, diffuseColor: bool, specularColor: bool)
    ensures TermsText(ColorTerms(ambientColor, diffuseColor, specularColor))
      == JoinPlus(Selected(["ambient", "diffuse", "specular"], [ambientColor, diffuseColor, specularColor]))
  {
    var items := ["ambient", "diffuse", "specular"];
    var keep := [ambientColor, diffuseColor, specularColor];
    assert items[1..] == ["diffuse", "specular"] && keep[1..] == [diffuseColor, specularColor];
    assert items[1..][1..] == ["specular"] && keep[1..][1..] == [specularColor];
    var tail: seq<string> := if specularColor then ["specular"] else [];
    assert Selected(["specular"], [specularColor]) == tail;
    var mid := (if diffuseColor then ["diffuse"] else []) + tail;
    assert Selected(items[1..], keep[1..]) == mid;
    var selected := (if ambientColor then ["ambient"] else []) + mid;
    assert Selected(items, keep) == selected;
    var terms := ColorTerms(ambientColor, diffuseColor, specularColor);
    JoinSmall(selected);
    TermsTextSmall(terms);
  }

  lemma JoinSmall(xs: seq<string>)
    ensures |xs| == 2 ==> JoinPlus(xs) == xs[0] + "+" + xs[1]
    ensures |xs| == 3 ==> JoinPlus(xs) == xs[0] + "+" + xs[1] + "+" + xs[2]
  {
    if |xs| == 3 {
      assert xs[1..][1..] == [xs[2]];
    }
  }

  lemma TermsTextSmall(ts: seq<Snippet>)
    requires forall t :: t in ts ==> t.ColorTerm?
    ensures |ts| == 1 ==> TermsText(ts) == ts[0].text
    ensures |ts| == 2 ==> TermsText(ts) == ts[0].text + ts[1].text
    ensures |ts| == 3 ==> TermsText(ts) == ts[0].text + ts[1].text + ts[2].text
  {
    if |ts| >= 2 {
      assert ts[1..][1..] == ts[2..];
      assert ts[1] in ts;
      if |ts| == 3 {
        assert ts[2..][1..] == [];
        assert ts[2] in ts;
      }
    }
  }
}
