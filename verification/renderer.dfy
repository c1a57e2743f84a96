/** `Renderer` (Renderer.cpp): the renderer singleton's seven registries,
    its shader defaults, its initialisation flag, the light uniforms of
    `drawModel`, and `reset`. Views, GL calls and user callbacks are
    outside the model: whether a view initialises is an input. */
module Renderer {
  import opened Common
  import opened Config
  import opened Registry
  import ModelData

  /** The seven kinds of asset the renderer keeps. */
  const Kinds: set<Kind> := {ShaderKind, TextureKind, MaterialKind, ModelKind, CameraKind, MatrixStackKind, LightKind}

  /** The renderer's fields. The three times are `double` seconds in the
      program; here they are integer clock ticks. */
  datatype State = State(
    bank: Bank,
    ambientColor: Vec3,
    shaderVersionDesktop: string,
    shaderVersionES: string,
    shaderMaxLights: nat,
    defaultShaderName: string,
    stopTime: int,
    initialTime: int,
    elapsedTime: int,
    initialized: bool,
    running: bool)

  datatype Reply = Reply(ptr: Ptr<Asset>, s: State)

  /** `reset()`: zeroes the three times, restores the default ambient
      colour, shader versions, light count and default shader name, and
      empties all seven registries. */
  function Reset(s: State): (s': State)
    ensures s'.stopTime == 0 && s'.initialTime == 0 && s'.elapsedTime == 0
    ensures s'.ambientColor == DefaultAmbientColor
    ensures s'.shaderVersionDesktop == DefaultShaderVersionDesktop && s'.shaderVersionES == DefaultShaderVersionES
    ensures s'.shaderMaxLights == DefaultShaderMaxLights && s'.defaultShaderName == DefaultShaderName
    ensures s'.bank.Keys == Kinds && forall k, n :: BankGet(s'.bank, k, n) == Null
    ensures s'.initialized == s.initialized && s'.running == s.running
  {
    State(EmptyBank(Kinds), DefaultAmbientColor, DefaultShaderVersionDesktop, DefaultShaderVersionES,
          DefaultShaderMaxLights, DefaultShaderName, 0, 0, 0, s.initialized, s.running)
  }

  /** Resetting twice is resetting once. */
  lemma ResetIdempotent(s: State)
    ensures Reset(Reset(s)) == Reset(s)
  {
  }

  /** `initRenderer()`: an initialised renderer answers true and changes
      nothing; a view that fails to initialise answers false and leaves the
      renderer uninitialised; otherwise the renderer becomes initialised. */
  function InitRenderer(s: State, viewInit: bool): (r: (bool, State))
    ensures s.initialized ==> r == (true, s)
    ensures !s.initialized && !viewInit ==> r == (false, s)
    ensures !s.initialized && viewInit ==> r == (true, s.(initialized := true))
  {
    if s.initialized then (true, s)
    else if !viewInit then (false, s)
    else (true, s.(initialized := true))
  }

  /** `initRenderer(fullscreen)` and `initRenderer(width, height,
      fullscreen)`: the sized view initialisation comes first, then
      `initRenderer()`, which initialises the view once more. */
  function InitRendererSized(s: State, sizedViewInit: bool, viewInit: bool): (r: (bool, State))
    ensures s.initialized ==> r == (true, s)
    ensures !s.initialized ==> (r.0 <==> sizedViewInit && viewInit)
    ensures r.1 == s.(initialized := s.initialized || r.0)
  {
    if s.initialized then (true, s)
    else if !sizedViewInit then (false, s)
    else InitRenderer(s, viewInit)
  }

  /** A second initialisation after a successful one answers true and
      changes nothing, whatever the view would do. */
  lemma InitRendererIdempotent(s: State, viewInit: bool, again: bool)
    requires InitRenderer(s, viewInit).0
    ensures InitRenderer(InitRenderer(s, viewInit).1, again) == (true, InitRenderer(s, viewInit).1)
  {
  }

  /** `getX(name)`: null for an absent name. */
  function Get(s: State, k: Kind, name: string): (p: Ptr<Asset>)
    requires k in Kinds
    ensures name !in Slot(s.bank, k) ==> p == Null
    ensures name in Slot(s.bank, k) ==> p == Slot(s.bank, k)[name]
  {
    BankGet(s.bank, k, name)
  }

  /** `createX(name, ...)` for every kind but shaders. */
  function Create(s: State, k: Kind, name: string, made: Asset): (r: Reply)
    requires k in Kinds - {ShaderKind}
    ensures CreatedIn(s.bank, r.s.bank, k, name, made, r.ptr)
    ensures r.s.(bank := s.bank) == s
  {
    var o := BankCreate(s.bank, k, name, made);
    Reply(o.ptr, s.(bank := o.bank))
  }

  /** `createShader(name, shaderData)`: validity first. */
  function CreateShader(s: State, name: string, valid: bool, made: Asset): (r: Reply)
    ensures !valid ==> r == Reply(Null, s)
    ensures valid ==> CreatedIn(s.bank, r.s.bank, ShaderKind, name, made, r.ptr)
    ensures r.s.(bank := s.bank) == s
  {
    var o := BankCreateShader(s.bank, name, valid, made);
    Reply(o.ptr, s.(bank := o.bank))
  }

  /** `loadTexture(fileName)` and `loadModel(fileName, flipT, flipZ,
      material)`: keyed by the raw file name, a registered asset answered,
      otherwise created. (The overload of `loadModel` that takes a shader
      name is `LoadModel`.) */
  function LoadFile(s: State, k: Kind, fileName: string, made: Asset): (r: Reply)
    requires k == ModelKind || k == TextureKind
    ensures CreatedIn(s.bank, r.s.bank, k, FileKey(fileName), made, r.ptr)
    ensures r.s.(bank := s.bank) == s
  {
    var o := BankLoad(s.bank, k, fileName, made);
    Reply(o.ptr, s.(bank := o.bank))
  }

  /** The arguments the renderer hands to `ShaderData` when loading a
      shader: the full shader name, the versions and the light count. */
  datatype ShaderRequest = ShaderRequest(shaderName: string, versionDesktop: string, versionES: string, maxLights: nat)

  function RequestFor(s: State, shaderName: string): ShaderRequest {
    ShaderRequest(shaderName, s.shaderVersionDesktop, s.shaderVersionES, s.shaderMaxLights)
  }

  /** One attempt of `loadShader` on a non-empty name: a shader registered
      under the raw name is answered; otherwise the data read for the full
      name is handed to `createShader`. A failed attempt changes nothing. */
  function Attempt(s: State, shaderName: string, valid: set<ShaderRequest>, made: Asset): (r: Reply)
    ensures var name := FileKey(shaderName);
      && (r.ptr.Ptr? <==> BankGet(s.bank, ShaderKind, name).Ptr? || RequestFor(s, shaderName) in valid)
      && (r.ptr.Ptr? ==> CreatedIn(s.bank, r.s.bank, ShaderKind, name, made, r.ptr))
      && (r.ptr.Null? ==> r.s == s)
    ensures r.s.(bank := s.bank) == s
  {
    var o := BankShaderByName(s.bank, FileKey(shaderName), RequestFor(s, shaderName) in valid, made);
    Reply(o.ptr, s.(bank := o.bank))
  }

  /** The name `loadShader` looks for: the given one, or the default
      shader name when the given one is empty. */
  function Requested(s: State, shaderName: string): (n: string)
    ensures shaderName == "" ==> n == s.defaultShaderName
    ensures shaderName != "" ==> n == shaderName
    ensures n == "" <==> shaderName == "" && s.defaultShaderName == ""
  {
    if shaderName == "" then s.defaultShaderName else shaderName
  }

  /** `loadShader(shaderName)` as written, with the recursion on the
      default shader name bounded by `fuel`; `None` stands for a call that
      has not returned within the bound. */
  function LoadShaderAsWritten(s: State, shaderName: string, valid: set<ShaderRequest>, made: Asset, fuel: nat): (r: Option<Reply>)
    ensures r.Some? ==> r.value.s.(bank := s.bank) == s
    decreases fuel
  {
    if fuel == 0 then None
    else
      var a := Attempt(s, Requested(s, shaderName), valid, made);
      if a.ptr.Ptr? then Some(a)
      else LoadShaderAsWritten(a.s, s.defaultShaderName, valid, made, fuel - 1)
  }

  /** When the default shader is neither registered nor loadable, the
      as-written `loadShader` of the default name never returns: it calls
      itself on the same name with nothing changed. */
  lemma {:induction false} DefaultFallbackDiverges(s: State, valid: set<ShaderRequest>, made: Asset, fuel: nat)
    requires Attempt(s, s.defaultShaderName, valid, made).ptr.Null?
    ensures LoadShaderAsWritten(s, s.defaultShaderName, valid, made, fuel).None?
    decreases fuel
  {
    if fuel > 0 {
      if s.defaultShaderName == "" {
        assert Requested(s, s.defaultShaderName) == s.defaultShaderName;
      }
      DefaultFallbackDiverges(s, valid, made, fuel - 1);
    }
  }

  /** A concrete instance: a renderer with no shaders whose default shader
      files do not yield valid data never returns from `loadShader("")`. */
  lemma EmptyNameDiverges(s: State, valid: set<ShaderRequest>, made: Asset, fuel: nat)
    requires Slot(s.bank, ShaderKind) == map[] && RequestFor(s, s.defaultShaderName) !in valid
    ensures LoadShaderAsWritten(s, "", valid, made, fuel).None?
  {
    if fuel > 0 {
      DefaultFallbackDiverges(s, valid, made, fuel - 1);
    }
  }

  /** `loadShader(shaderName)` with the default fallback taken once: the
      requested name is tried, then the default name; when both fail the
      answer is null and nothing changes. */
  function LoadShader(s: State, shaderName: string, valid: set<ShaderRequest>, made: Asset): (r: Reply)
    ensures var first := Attempt(s, Requested(s, shaderName), valid, made);
      && (first.ptr.Ptr? ==> r == first)
      && (first.ptr.Null? ==> r == Attempt(s, s.defaultShaderName, valid, made))
    ensures r.ptr.Null? ==> r.s == s
    ensures r.s.(bank := s.bank) == s
  {
    var first := Attempt(s, Requested(s, shaderName), valid, made);
    if first.ptr.Ptr? then first else Attempt(s, s.defaultShaderName, valid, made)
  }

  /** Whenever the as-written `loadShader` returns, it answers what the
      single-fallback `LoadShader` answers. */
  lemma LoadShaderAgrees(s: State, shaderName: string, valid: set<ShaderRequest>, made: Asset, fuel: nat)
    requires LoadShaderAsWritten(s, shaderName, valid, made, fuel).Some?
    ensures LoadShaderAsWritten(s, shaderName, valid, made, fuel).value == LoadShader(s, shaderName, valid, made)
  {
    var first := Attempt(s, Requested(s, shaderName), valid, made);
    if first.ptr.Null? {
      var second := Attempt(s, s.defaultShaderName, valid, made);
      if second.ptr.Null? {
        DefaultFallbackDiverges(s, valid, made, fuel - 1);
      } else {
        assert fuel - 1 > 0;
        assert Requested(s, s.defaultShaderName) == s.defaultShaderName || s.defaultShaderName == "";
      }
    }
  }

  /** `createMaterial(name, materialData, shader)`: as `Create`, and the
      new material's `initialize` loads every texture file the data names;
      `texMade` gives the texture each load would construct. */
  function CreateMaterial(s: State, name: string, md: ModelData.MaterialData, made: Asset, texMade: string -> Asset): (r: Reply)
    ensures MaterialCreatedIn(s.bank, r.s.bank, name, made, r.ptr, md.textures, texMade)
    ensures r.s.(bank := s.bank) == s
  {
    var o := BankCreateMaterial(s.bank, name, made, md.textures, texMade);
    Reply(o.ptr, s.(bank := o.bank))
  }

  /** `loadMaterial(fileName, materialName, shaderName)` with the
      single-fallback `LoadShader`: guarded by the MODEL registry,
      answering `_materials[materialName]` (default-inserting a null entry)
      when a model of that name exists; otherwise the shader of the given
      name, or of the material's name, is loaded and the material created
      from the data `md` read for it. */
  function LoadMaterial(
    s: State, materialName: string, shaderName: string, md: ModelData.MaterialData,
    valid: set<ShaderRequest>, shaderMade: Asset, made: Asset, texMade: string -> Asset): (r: Reply)
    ensures BankGet(s.bank, ModelKind, materialName).Ptr? ==>
      && r.ptr == BankGet(s.bank, MaterialKind, materialName)
      && Slot(r.s.bank, MaterialKind).Keys == Slot(s.bank, MaterialKind).Keys + {materialName}
      && (forall n :: n in Slot(s.bank, MaterialKind) ==> Slot(r.s.bank, MaterialKind)[n] == Slot(s.bank, MaterialKind)[n])
      && (materialName !in Slot(s.bank, MaterialKind) ==> Slot(r.s.bank, MaterialKind)[materialName].Null?)
      && OthersUnchanged(s.bank, r.s.bank, MaterialKind)
    ensures BankGet(s.bank, ModelKind, materialName).Null? ==>
      var sh := LoadShader(s, if shaderName == "" then materialName else shaderName, valid, shaderMade);
      MaterialCreatedIn(sh.s.bank, r.s.bank, materialName, made, r.ptr, md.textures, texMade)
    ensures r.s.(bank := s.bank) == s
  {
    if BankGet(s.bank, ModelKind, materialName).Ptr? then
      var o := BankSubscript(s.bank, MaterialKind, materialName);
      Reply(o.ptr, s.(bank := o.bank))
    else
      var sh := LoadShader(s, if shaderName == "" then materialName else shaderName, valid, shaderMade);
      CreateMaterial(sh.s, materialName, md, made, texMade)
  }

  /** `loadMaterial` as written, on the as-written `loadShader` (`None`:
      not returned within `fuel`). The model guard returns whatever the
      fuel; whenever the call returns it answers what `LoadMaterial`
      answers. */
  function LoadMaterialAsWritten(
    s: State, materialName: string, shaderName: string, md: ModelData.MaterialData,
    valid: set<ShaderRequest>, shaderMade: Asset, made: Asset, texMade: string -> Asset, fuel: nat): (r: Option<Reply>)
    ensures BankGet(s.bank, ModelKind, materialName).Ptr? ==> r.Some?
    ensures r.Some? ==> r.value == LoadMaterial(s, materialName, shaderName, md, valid, shaderMade, made, texMade)
  {
    if BankGet(s.bank, ModelKind, materialName).Ptr? then
      var o := BankSubscript(s.bank, MaterialKind, materialName);
      Some(Reply(o.ptr, s.(bank := o.bank)))
    else
      var shaderName' := if shaderName == "" then materialName else shaderName;
      match LoadShaderAsWritten(s, shaderName', valid, shaderMade, fuel)
      case None => None
      case Some(sh) =>
        LoadShaderAgrees(s, shaderName', valid, shaderMade, fuel);
        Some(CreateMaterial(sh.s, materialName, md, made, texMade))
  }

  /** A material whose shader and the default shader are both neither
      registered nor loadable is never loaded as written, where the
      single-fallback `LoadMaterial` answers: `loadShader` never returns. */
  lemma LoadMaterialDiverges(
    s: State, materialName: string, shaderName: string, md: ModelData.MaterialData,
    valid: set<ShaderRequest>, shaderMade: Asset, made: Asset, texMade: string -> Asset, fuel: nat)
    requires BankGet(s.bank, ModelKind, materialName).Null?
    requires Attempt(s, Requested(s, if shaderName == "" then materialName else shaderName), valid, shaderMade).ptr.Null?
    requires Attempt(s, s.defaultShaderName, valid, shaderMade).ptr.Null?
    ensures LoadMaterialAsWritten(s, materialName, shaderName, md, valid, shaderMade, made, texMade, fuel).None?
  {
    var shaderName' := if shaderName == "" then materialName else shaderName;
    if fuel > 0 {
      DefaultFallbackDiverges(s, valid, shaderMade, fuel - 1);
    }
    assert LoadShaderAsWritten(s, shaderName', valid, shaderMade, fuel).None?;
  }

  /** `loadModel(fileName, flipT, flipZ, shaderName)` with the
      single-fallback `LoadShader`: a model registered under the raw file
      name is answered and nothing changes; otherwise, for a non-empty
      shader name, that shader is loaded first; then the model is created.
      Building the model's materials is not part of this model. */
  function LoadModel(s: State, fileName: string, shaderName: string, valid: set<ShaderRequest>, shaderMade: Asset, made: Asset): (r: Reply)
    ensures var name := FileKey(fileName);
      && (BankGet(s.bank, ModelKind, name).Ptr? ==> r == Reply(BankGet(s.bank, ModelKind, name), s))
      && (BankGet(s.bank, ModelKind, name).Null? && shaderName == "" ==> CreatedIn(s.bank, r.s.bank, ModelKind, name, made, r.ptr))
      && (BankGet(s.bank, ModelKind, name).Null? && shaderName != "" ==>
            var sh := LoadShader(s, shaderName, valid, shaderMade);
            CreatedIn(sh.s.bank, r.s.bank, ModelKind, name, made, r.ptr))
    ensures r.s.(bank := s.bank) == s
  {
    var name := FileKey(fileName);
    if BankGet(s.bank, ModelKind, name).Ptr? then Reply(BankGet(s.bank, ModelKind, name), s)
    else if shaderName == "" then Create(s, ModelKind, name, made)
    else
      var sh := LoadShader(s, shaderName, valid, shaderMade);
      Create(sh.s, ModelKind, name, made)
  }

  /** `loadModel(fileName, flipT, flipZ, shaderName)` as written, on the
      as-written `loadShader`: without a shader to load it always returns,
      and whenever it returns it answers what `LoadModel` answers. */
  function LoadModelAsWritten(s: State, fileName: string, shaderName: string, valid: set<ShaderRequest>, shaderMade: Asset, made: Asset, fuel: nat): (r: Option<Reply>)
    ensures BankGet(s.bank, ModelKind, FileKey(fileName)).Ptr? || shaderName == "" ==> r.Some?
    ensures r.Some? ==> r.value == LoadModel(s, fileName, shaderName, valid, shaderMade, made)
  {
    var name := FileKey(fileName);
    if BankGet(s.bank, ModelKind, name).Ptr? then Some(Reply(BankGet(s.bank, ModelKind, name), s))
    else if shaderName == "" then Some(Create(s, ModelKind, name, made))
    else
      match LoadShaderAsWritten(s, shaderName, valid, shaderMade, fuel)
      case None => None
      case Some(sh) =>
        LoadShaderAgrees(s, shaderName, valid, shaderMade, fuel);
        Some(Create(sh.s, ModelKind, name, made))
  }

  /** The light uniforms `drawModel` sets for one geometry group. */
  datatype GroupDraw =
    | NoShader                                     // a warning; no uniforms
    | Lights(numLights: nat, names: seq<string>)   // lights 0 .. numLights-1
    | Undefined                                    // a null light dereferenced

  /** `numLights`: the number of light names, clamped to the shader's
      maximum. */
  function NumLights(names: nat, maxLights: nat): (n: nat)
    ensures n <= names && n <= maxLights
    ensures n == names || n == maxLights
  {
    if names > maxLights then maxLights else names
  }

  /** The uniform names set for light `i`: `light`, the attribute, `_`
      and the decimal digits of `i`. */
  function LightUniformNames(i: nat): (u: seq<string>)
    ensures |u| == 4
    ensures forall a :: 0 <= a < 4 ==>
      var n := |u[a]| - |NatToString(i)|;
      && n >= 6 && u[a][..5] == "light" && u[a][n - 1] == '_' && u[a][n..] == NatToString(i)
  {
    var pos := NatToString(i);
    ["lightPosition_" + pos, "lightColor_" + pos, "lightIntensity_" + pos, "lightAttenuation_" + pos]
  }

  /** Different lights never share a uniform name. */
  lemma LightUniformNamesDistinct(i: nat, j: nat, a: nat, b: nat)
    requires i != j && a < 4 && b < 4
    ensures LightUniformNames(i)[a] != LightUniformNames(j)[b]
  {
    var pi, pj := NatToString(i), NatToString(j);
    var prefixes := ["lightPosition_", "lightColor_", "lightIntensity_", "lightAttenuation_"];
    var x, y := prefixes[a] + pi, prefixes[b] + pj;
    assert LightUniformNames(i)[a] == x && LightUniformNames(j)[b] == y;
    if a == b {
      NatToStringInjective(i, j);
      assert x[|prefixes[a]|..] == pi && y[|prefixes[a]|..] == pj;
    } else {
      // the four prefixes differ in their sixth character: P, C, I, A
      assert x[5] == prefixes[a][5] && y[5] == prefixes[b][5];
    }
  }

  /** The light part of `drawModel` for one group whose material has a
      shader answering `maxLights` (or none): the first `numLights` names
      are dereferenced in order, and a name without a registered light is a
      null dereference. */
  function DrawGroup(shaderMaxLights: Option<nat>, lightNames: seq<string>, lights: Registry<Asset>): (d: GroupDraw)
    ensures shaderMaxLights.None? <==> d == NoShader
    ensures shaderMaxLights.Some? ==>
      var n := NumLights(|lightNames|, shaderMaxLights.value);
      && (d.Lights? <==> forall i :: 0 <= i < n ==> (lightNames[i] in lights && lights[lightNames[i]].Ptr?))
      && (d.Lights? ==> d.numLights == n && d.names == lightNames[..n])
  {
    match shaderMaxLights
    case None => NoShader
    case Some(maxLights) =>
      var n := NumLights(|lightNames|, maxLights);
      if forall i :: 0 <= i < n ==> (lightNames[i] in lights && lights[lightNames[i]].Ptr?) then Lights(n, lightNames[..n])
      else Undefined
  }

  /** `drawModel(model, camera, matrixStack)` passes every registered
      light: `order` is the iteration order of the unordered light map, a
      listing of its names without repetition. */
  lemma AllLightsAreRegistered(s: State, order: seq<string>, maxLights: nat)
    requires forall i, j :: 0 <= i < j < |order| ==> order[i] != order[j]
    requires forall i :: 0 <= i < |order| ==> order[i] in Slot(s.bank, LightKind)
    requires forall n :: n in Slot(s.bank, LightKind) ==> n in order
    requires forall n :: n in Slot(s.bank, LightKind) ==> Slot(s.bank, LightKind)[n].Ptr?
    ensures DrawGroup(Some(maxLights), order, Slot(s.bank, LightKind)) == Lights(NumLights(|order|, maxLights), order[..NumLights(|order|, maxLights)])
  {
  }
}
