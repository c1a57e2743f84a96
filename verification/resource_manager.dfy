/** `ResourceManager` (ResourceManager.cpp): thirteen named registries, the
    ambient colour and the two shader-version strings. Constructing assets
    (GL objects, files) is outside the model: each newly constructed asset
    is a parameter, and whether shader data read from files is valid is an
    input set of the requests that yield valid data. */
module ResourceManager {
  import opened Common
  import opened Config
  import opened Registry
  import ModelData

  /** The thirteen kinds of asset the manager keeps. */
  const Kinds: set<Kind> := {
    ShaderKind, TextureKind, CubeMapKind, DepthMapKind, FontKind, MaterialKind, PropertiesKind,
    ModelKind, TextSpriteKind, CameraKind, MatrixStackKind, LightKind, FramebufferKind}

  datatype Manager = Manager(bank: Bank, ambientColor: Vec3, shaderVersionDesktop: string, shaderVersionES: string)

  /** An operation's answer and the manager it leaves behind. */
  datatype Reply = Reply(ptr: Ptr<Asset>, m: Manager)

  /** The lighting features a shader read from files is built for. */
  datatype ShaderFlags = ShaderFlags(
    maxLights: nat,
    variableNumberOfLights: bool,
    ambientLighting: bool,
    diffuseLighting: bool,
    specularLighting: bool,
    cubicReflectionMap: bool)

  /** The arguments `loadShaderFile` hands to `ShaderDataFile`. */
  datatype FileRequest = FileRequest(shaderName: string, versionDesktop: string, versionES: string, flags: ShaderFlags)

  /** `createX(name, ...)` for every kind but shaders. */
  function Create(m: Manager, k: Kind, name: string, made: Asset): (r: Reply)
    requires k in Kinds - {ShaderKind}
    ensures CreatedIn(m.bank, r.m.bank, k, name, made, r.ptr)
    ensures r.m.(bank := m.bank) == m
  {
    var o := BankCreate(m.bank, k, name, made);
    Reply(o.ptr, m.(bank := o.bank))
  }

  /** `createShader(name, shaderData)`: invalid data answers null and
      registers nothing; valid data answers the registered shader or
      registers the new one. */
  function CreateShader(m: Manager, name: string, valid: bool, made: Asset): (r: Reply)
    ensures !valid ==> r == Reply(Null, m)
    ensures valid ==> CreatedIn(m.bank, r.m.bank, ShaderKind, name, made, r.ptr)
    ensures r.m.(bank := m.bank) == m
  {
    var o := BankCreateShader(m.bank, name, valid, made);
    Reply(o.ptr, m.(bank := o.bank))
  }

  /** `addX(name, ptr)`. */
  function Add(m: Manager, k: Kind, name: string, p: Ptr<Asset>): (r: (bool, Manager))
    requires k in Kinds
    ensures r.0 <==> BankGet(m.bank, k, name).Null?
    ensures !r.0 ==> r.1 == m
    ensures name !in Slot(m.bank, k) ==> Slot(r.1.bank, k) == Slot(m.bank, k)[name := p]
    ensures name in Slot(m.bank, k) ==> Slot(r.1.bank, k) == Slot(m.bank, k)
    ensures OthersUnchanged(m.bank, r.1.bank, k)
    ensures r.1.(bank := m.bank) == m
  {
    if BankGet(m.bank, k, name).Ptr? then (false, m)
    else
      var o := BankAdd(m.bank, k, name, p);
      (o.ok, m.(bank := o.bank))
  }

  /** `removeX(name)`. */
  function Remove(m: Manager, k: Kind, name: string): (m': Manager)
    requires k in Kinds
    ensures Slot(m'.bank, k) == Slot(m.bank, k) - {name}
    ensures OthersUnchanged(m.bank, m'.bank, k)
    ensures m'.(bank := m.bank) == m
  {
    m.(bank := BankRemove(m.bank, k, name))
  }

  /** `clear()`: empties all thirteen registries and restores the default
      ambient colour and shader versions. */
  function Clear(m: Manager): (m': Manager)
    ensures m'.bank.Keys == Kinds
    ensures forall k, n :: BankGet(m'.bank, k, n) == Null
    ensures m'.ambientColor == DefaultAmbientColor
    ensures m'.shaderVersionDesktop == DefaultShaderVersionDesktop && m'.shaderVersionES == DefaultShaderVersionES
  {
    Manager(EmptyBank(Kinds), DefaultAmbientColor, DefaultShaderVersionDesktop, DefaultShaderVersionES)
  }

  /** After `clear` every create constructs anew, and clearing twice is
      clearing once. */
  lemma ClearForgets(m: Manager, k: Kind, name: string, made: Asset)
    requires k in Kinds - {ShaderKind}
    ensures Create(Clear(m), k, name, made).ptr == Ptr(made)
    ensures Clear(Clear(m)) == Clear(m)
  {
  }

  /** `loadObjModel(fileName, ...)`, all three overloads: keyed by the raw
      file name, answering a registered model without reloading. */
  function LoadObjModel(m: Manager, fileName: string, made: Asset): (r: Reply)
    ensures CreatedIn(m.bank, r.m.bank, ModelKind, FileKey(fileName), made, r.ptr)
    ensures r.m.(bank := m.bank) == m
  {
    var o := BankLoad(m.bank, ModelKind, fileName, made);
    Reply(o.ptr, m.(bank := o.bank))
  }

  /** `loadTexture(fileName)`, keyed by the raw file name. */
  function LoadTexture(m: Manager, fileName: string, made: Asset): (r: Reply)
    ensures CreatedIn(m.bank, r.m.bank, TextureKind, FileKey(fileName), made, r.ptr)
    ensures r.m.(bank := m.bank) == m
  {
    var o := BankLoad(m.bank, TextureKind, fileName, made);
    Reply(o.ptr, m.(bank := o.bank))
  }

  /** `loadFont(fileName, size)`, keyed by the raw file name. */
  function LoadFont(m: Manager, fileName: string, made: Asset): (r: Reply)
    ensures CreatedIn(m.bank, r.m.bank, FontKind, FileKey(fileName), made, r.ptr)
    ensures r.m.(bank := m.bank) == m
  {
    var name := FileKey(fileName);
    if BankGet(m.bank, FontKind, name).Ptr? then Reply(BankGet(m.bank, FontKind, name), m)
    else Create(m, FontKind, name, made)
  }

  /** Where the pixels of one cube-map face come from. */
  datatype TextureSource =
    | FromFile(fileName: string)
    | FromImage(width: int, height: int, format: nat, image: Ptr<nat>)

  /** The face data `loadCubeMap` builds: the first six file names when at
      least six are given, none otherwise. */
  function CubeMapFiles(fileNames: seq<string>): (data: seq<TextureSource>)
    ensures |fileNames| >= 6 <==> |data| == 6
    ensures |fileNames| < 6 <==> data == []
    ensures forall i :: 0 <= i < |data| ==> data[i] == FromFile(fileNames[i])
  {
    if |fileNames| >= 6 then seq(6, i requires 0 <= i < 6 => FromFile(fileNames[i])) else []
  }

  /** The face data the sized `createCubeMap` builds: always six square
      faces, all without an image when fewer than six images are given,
      else with the first six. */
  function CubeMapImages(width: int, format: nat, images: seq<Ptr<nat>>): (data: seq<TextureSource>)
    ensures |data| == 6
    ensures forall i :: 0 <= i < 6 ==> data[i].FromImage? && data[i].width == width && data[i].height == width && data[i].format == format
    ensures |images| < 6 ==> forall i :: 0 <= i < 6 ==> data[i].image == Null
    ensures |images| >= 6 ==> forall i :: 0 <= i < 6 ==> data[i].image == images[i]
  {
    seq(6, i requires 0 <= i < 6 => FromImage(width, width, format, if |images| < 6 then Null else images[i]))
  }

  /** `loadCubeMap(name, fileNames)` and both `createCubeMap` overloads:
      keyed by the name as given (no raw-name step). */
  function CreateCubeMap(m: Manager, name: string, made: Asset): (r: Reply)
    ensures CreatedIn(m.bank, r.m.bank, CubeMapKind, name, made, r.ptr)
    ensures r.m.(bank := m.bank) == m
  {
    Create(m, CubeMapKind, name, made)
  }

  /** `loadShaderFile(shaderName, ...)`: keyed by the raw shader name; a
      registered shader is answered, otherwise the data read for the
      request is handed to `createShader`. */
  function LoadShaderFile(m: Manager, shaderName: string, flags: ShaderFlags, validFiles: set<FileRequest>, made: Asset): (r: Reply)
    ensures var name := FileKey(shaderName);
      var valid := FileRequest(shaderName, m.shaderVersionDesktop, m.shaderVersionES, flags) in validFiles;
      && (r.ptr.Ptr? <==> BankGet(m.bank, ShaderKind, name).Ptr? || valid)
      && (BankGet(m.bank, ShaderKind, name).Ptr? || valid ==> CreatedIn(m.bank, r.m.bank, ShaderKind, name, made, r.ptr))
      && (BankGet(m.bank, ShaderKind, name).Null? && !valid ==> r.m == m)
    ensures OthersUnchanged(m.bank, r.m.bank, ShaderKind)
    ensures r.m.(bank := m.bank) == m
  {
    var valid := FileRequest(shaderName, m.shaderVersionDesktop, m.shaderVersionES, flags) in validFiles;
    var o := BankShaderByName(m.bank, FileKey(shaderName), valid, made);
    Reply(o.ptr, m.(bank := o.bank))
  }

  /** `generateShader(shaderName, ...)`, both overloads: as
      `loadShaderFile`, with the validity of the generated data an input. */
  function GenerateShader(m: Manager, shaderName: string, valid: bool, made: Asset): (r: Reply)
    ensures var name := FileKey(shaderName);
      && (r.ptr.Ptr? <==> BankGet(m.bank, ShaderKind, name).Ptr? || valid)
      && (BankGet(m.bank, ShaderKind, name).Ptr? || valid ==> CreatedIn(m.bank, r.m.bank, ShaderKind, name, made, r.ptr))
      && (BankGet(m.bank, ShaderKind, name).Null? && !valid ==> r.m == m)
    ensures OthersUnchanged(m.bank, r.m.bank, ShaderKind)
    ensures r.m.(bank := m.bank) == m
  {
    var o := BankShaderByName(m.bank, FileKey(shaderName), valid, made);
    Reply(o.ptr, m.(bank := o.bank))
  }

  /** The shader features `loadObjMaterial` and
      `createMaterialShaderCombination` derive from a material: diffuse
      lighting when it has a diffuse colour or a diffuse map, specular
      lighting when lights are allowed and it has a specular exponent, and
      a cubic reflection map when it names at least six cube textures. */
  function MaterialShaderFlags(md: ModelData.MaterialData, maxLights: nat, variableNumberOfLights: bool, ambientLighting: bool): (f: ShaderFlags)
    ensures f.diffuseLighting <==> DiffuseColorKey in md.vectors || DiffuseMapUniform in md.textures
    ensures f.specularLighting <==> maxLights > 0 && SpecularExponentKey in md.scalars
    ensures f.cubicReflectionMap <==> |md.cubeTextures| >= 6
    ensures f.maxLights == maxLights && f.variableNumberOfLights == variableNumberOfLights && f.ambientLighting == ambientLighting
  {
    ShaderFlags(
      maxLights, variableNumberOfLights, ambientLighting,
      DiffuseMapUniform in md.textures || DiffuseColorKey in md.vectors,
      maxLights > 0 && SpecularExponentKey in md.scalars,
      |md.cubeTextures| >= 6)
  }

  /** The shader file name `loadObjMaterial` uses: the given one, or the
      material's name when none is given. */
  function ObjMaterialShaderName(materialName: string, shaderName: string): (s: string)
    ensures shaderName == "" ==> s == materialName
    ensures shaderName != "" ==> s == shaderName
    ensures s == "" <==> shaderName == "" && materialName == ""
  {
    if shaderName == "" then materialName else shaderName
  }

  /** The guard of `loadObjMaterial` looks at the MODEL registry and then
      answers `_materials[materialName]`, default-inserting a null entry
      into the material registry. */
  function MaterialByModelGuard(m: Manager, materialName: string): (r: Reply)
    requires BankGet(m.bank, ModelKind, materialName).Ptr?
    ensures r.ptr == BankGet(m.bank, MaterialKind, materialName)
    ensures Slot(r.m.bank, MaterialKind).Keys == Slot(m.bank, MaterialKind).Keys + {materialName}
    ensures forall n :: n in Slot(m.bank, MaterialKind) ==> Slot(r.m.bank, MaterialKind)[n] == Slot(m.bank, MaterialKind)[n]
    ensures materialName !in Slot(m.bank, MaterialKind) ==> Slot(r.m.bank, MaterialKind)[materialName].Null?
    ensures OthersUnchanged(m.bank, r.m.bank, MaterialKind)
    ensures r.m.(bank := m.bank) == m
  {
    var o := BankSubscript(m.bank, MaterialKind, materialName);
    Reply(o.ptr, m.(bank := o.bank))
  }

  /** `createMaterial(name, materialData, shader)`: as `Create`, and the
      new material's `initialize` loads every texture file the data names;
      `texMade` gives the texture each load would construct. (The overload
      without data, `createMaterial(name, shader)`, is `Create`.) */
  function CreateMaterial(m: Manager, name: string, md: ModelData.MaterialData, made: Asset, texMade: string -> Asset): (r: Reply)
    ensures MaterialCreatedIn(m.bank, r.m.bank, name, made, r.ptr, md.textures, texMade)
    ensures r.m.(bank := m.bank) == m
  {
    var o := BankCreateMaterial(m.bank, name, made, md.textures, texMade);
    Reply(o.ptr, m.(bank := o.bank))
  }

  /** `loadObjMaterial(fileName, materialName, shaderName, ...)`; `md` is
      what the OBJ loader reads for the material. */
  function LoadObjMaterial(
    m: Manager, materialName: string, shaderName: string, md: ModelData.MaterialData,
    maxLights: nat, variableNumberOfLights: bool, ambientLighting: bool,
    validFiles: set<FileRequest>, shaderMade: Asset, made: Asset, texMade: string -> Asset): (r: Reply)
    ensures BankGet(m.bank, ModelKind, materialName).Ptr? ==> r == MaterialByModelGuard(m, materialName)
    ensures BankGet(m.bank, ModelKind, materialName).Null? ==>
      MaterialLoadedIn(m.bank, r.m.bank, materialName, made, r.ptr, md.textures, texMade)
    ensures r.m.(bank := m.bank) == m
  {
    if BankGet(m.bank, ModelKind, materialName).Ptr? then MaterialByModelGuard(m, materialName)
    else
      var flags := MaterialShaderFlags(md, maxLights, variableNumberOfLights, ambientLighting);
      var shader := LoadShaderFile(m, ObjMaterialShaderName(materialName, shaderName), flags, validFiles, shaderMade);
      var r := CreateMaterial(shader.m, materialName, md, made, texMade);
      MaterialCreatedAfterShader(m.bank, shader.m.bank, r.m.bank, materialName, made, r.ptr, md.textures, texMade);
      r
  }

  /** The shader `loadObjMaterial` asks for: the file request it hands to
      `loadShaderFile` carries the derived features, and the shader
      registry ends as that call leaves it. */
  lemma LoadObjMaterialShader(
    m: Manager, materialName: string, shaderName: string, md: ModelData.MaterialData,
    maxLights: nat, variableNumberOfLights: bool, ambientLighting: bool,
    validFiles: set<FileRequest>, shaderMade: Asset, made: Asset, texMade: string -> Asset)
    requires BankGet(m.bank, ModelKind, materialName).Null?
    ensures var r := LoadObjMaterial(m, materialName, shaderName, md, maxLights, variableNumberOfLights, ambientLighting, validFiles, shaderMade, made, texMade);
      var s := LoadShaderFile(m, ObjMaterialShaderName(materialName, shaderName),
                              MaterialShaderFlags(md, maxLights, variableNumberOfLights, ambientLighting), validFiles, shaderMade);
      Slot(r.m.bank, ShaderKind) == Slot(s.m.bank, ShaderKind)
  {
  }

  /** `loadObjMaterial(fileName, materialName, shader)`: the same guard,
      then `createMaterial` with the given shader and the data read. */
  function LoadObjMaterialWithShader(m: Manager, materialName: string, md: ModelData.MaterialData, made: Asset, texMade: string -> Asset): (r: Reply)
    ensures BankGet(m.bank, ModelKind, materialName).Ptr? ==> r == MaterialByModelGuard(m, materialName)
    ensures BankGet(m.bank, ModelKind, materialName).Null? ==> MaterialCreatedIn(m.bank, r.m.bank, materialName, made, r.ptr, md.textures, texMade)
    ensures r.m.(bank := m.bank) == m
  {
    if BankGet(m.bank, ModelKind, materialName).Ptr? then MaterialByModelGuard(m, materialName)
    else CreateMaterial(m, materialName, md, made, texMade)
  }

  /** The guard quirk: with a model named like the material and no such
      material, `loadObjMaterial` answers null and leaves a null material
      entry behind instead of loading the material. */
  lemma ModelGuardAnswersNullMaterial(m: Manager, name: string, md: ModelData.MaterialData, made: Asset, texMade: string -> Asset)
    requires BankGet(m.bank, ModelKind, name).Ptr? && name !in Slot(m.bank, MaterialKind)
    ensures var r := LoadObjMaterialWithShader(m, name, md, made, texMade);
      r.ptr == Null && name in Slot(r.m.bank, MaterialKind) && BankGet(r.m.bank, MaterialKind, name) == Null
  {
  }

  /** The shader half of `createMaterialShaderCombination`: read from
      files with the features derived from the material, or generated. */
  function MaterialShader(
    m: Manager, name: string, md: ModelData.MaterialData, shaderFromFile: bool,
    maxLights: nat, variableNumberOfLights: bool, ambientLighting: bool,
    validFiles: set<FileRequest>, generatedValid: bool, shaderMade: Asset): (r: Reply)
    ensures OthersUnchanged(m.bank, r.m.bank, ShaderKind)
    ensures r.m.(bank := m.bank) == m
  {
    if shaderFromFile
    then LoadShaderFile(m, name, MaterialShaderFlags(md, maxLights, variableNumberOfLights, ambientLighting), validFiles, shaderMade)
    else GenerateShader(m, name, generatedValid, shaderMade)
  }

  /** The shader half reads only the shader registry and the versions. */
  lemma MaterialShaderReadsShaders(
    m: Manager, m1: Manager, name: string, md: ModelData.MaterialData, shaderFromFile: bool,
    maxLights: nat, variableNumberOfLights: bool, ambientLighting: bool,
    validFiles: set<FileRequest>, generatedValid: bool, shaderMade: Asset)
    requires Slot(m1.bank, ShaderKind) == Slot(m.bank, ShaderKind)
    requires m1.shaderVersionDesktop == m.shaderVersionDesktop && m1.shaderVersionES == m.shaderVersionES
    ensures Slot(MaterialShader(m1, name, md, shaderFromFile, maxLights, variableNumberOfLights, ambientLighting, validFiles, generatedValid, shaderMade).m.bank, ShaderKind)
         == Slot(MaterialShader(m, name, md, shaderFromFile, maxLights, variableNumberOfLights, ambientLighting, validFiles, generatedValid, shaderMade).m.bank, ShaderKind)
  {
    assert BankGet(m1.bank, ShaderKind, FileKey(name)) == BankGet(m.bank, ShaderKind, FileKey(name));
  }

  /** `createMaterialShaderCombination(name, md, shaderFromFile, ...)`: a
      registered material is answered untouched; otherwise the shader is
      read from files under the material's name with the derived features,
      or generated, a new material fills the slot, and its `initialize`
      loads every texture file the data names. */
  function CreateMaterialShaderCombination(
    m: Manager, name: string, md: ModelData.MaterialData, shaderFromFile: bool,
    maxLights: nat, variableNumberOfLights: bool, ambientLighting: bool,
    validFiles: set<FileRequest>, generatedValid: bool, shaderMade: Asset, made: Asset, texMade: string -> Asset): (r: Reply)
    ensures BankGet(m.bank, MaterialKind, name).Ptr? ==> r == Reply(BankGet(m.bank, MaterialKind, name), m)
    ensures BankGet(m.bank, MaterialKind, name).Null? ==>
      var s := MaterialShader(m, name, md, shaderFromFile, maxLights, variableNumberOfLights, ambientLighting, validFiles, generatedValid, shaderMade);
      && r.ptr == Ptr(made)
      && Slot(r.m.bank, MaterialKind) == Slot(m.bank, MaterialKind)[name := Ptr(made)]
      && Slot(r.m.bank, ShaderKind) == Slot(s.m.bank, ShaderKind)
      && KeysLoaded(m.bank, r.m.bank, TextureKeys(md.textures), texMade)
      && forall k :: k != MaterialKind && k != ShaderKind && k != TextureKind ==> Slot(r.m.bank, k) == Slot(m.bank, k)
    ensures r.m.(bank := m.bank) == m
  {
    if BankGet(m.bank, MaterialKind, name).Ptr? then Reply(BankGet(m.bank, MaterialKind, name), m)
    else
      // The null slot `_materials[name]` inserts first is overwritten
      // below, and the shader step never reads it (`MaterialShaderReadsShaders`).
      var s := MaterialShader(m, name, md, shaderFromFile, maxLights, variableNumberOfLights, ambientLighting, validFiles, generatedValid, shaderMade);
      assert Slot(s.m.bank, MaterialKind) == Slot(m.bank, MaterialKind);
      var b3 := BankFillMaterial(s.m.bank, name, made, md.textures, texMade);
      KeysLoadedFromSameTextures(m.bank, s.m.bank, b3, TextureKeys(md.textures), texMade);
      Reply(Ptr(made), s.m.(bank := b3))
  }
}
