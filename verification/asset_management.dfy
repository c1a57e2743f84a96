/** `AssetManagement` (AssetManagement.cpp): the older asset manager, with
    nine named registries, the ambient colour and the two shader-version
    strings. As in the resource manager, constructed assets are
    parameters and the validity of shader data is an input. */
module AssetManagement {
  import opened Common
  import opened Config
  import opened Registry
  import ModelData

  /** The nine kinds of asset this manager keeps. */
  const Kinds: set<Kind> := {
    ShaderKind, TextureKind, MaterialKind, PropertiesKind, ModelKind,
    CameraKind, MatrixStackKind, LightKind, FramebufferKind}

  datatype Manager = Manager(bank: Bank, ambientColor: Vec3, shaderVersionDesktop: string, shaderVersionES: string)

  datatype Reply = Reply(ptr: Ptr<Asset>, m: Manager)

  /** The lighting features a shader read from files is built for (this
      manager has no cubic reflection map). */
  datatype ShaderFlags = ShaderFlags(
    maxLights: nat,
    variableNumberOfLights: bool,
    ambientLighting: bool,
    diffuseLighting: bool,
    specularLighting: bool)

  /** The arguments `loadShaderFile` hands to `ShaderDataFile`. */
  datatype FileRequest = FileRequest(shaderName: string, versionDesktop: string, versionES: string, flags: ShaderFlags)

  /** `getX(name)`: null for an absent name; the manager is untouched. */
  function Get(m: Manager, k: Kind, name: string): (p: Ptr<Asset>)
    requires k in Kinds
    ensures name !in Slot(m.bank, k) ==> p == Null
    ensures name in Slot(m.bank, k) ==> p == Slot(m.bank, k)[name]
  {
    BankGet(m.bank, k, name)
  }

  /** `createX(name, ...)` for every kind but shaders. */
  function Create(m: Manager, k: Kind, name: string, made: Asset): (r: Reply)
    requires k in Kinds - {ShaderKind}
    ensures CreatedIn(m.bank, r.m.bank, k, name, made, r.ptr)
    ensures r.m.(bank := m.bank) == m
  {
    var o := BankCreate(m.bank, k, name, made);
    Reply(o.ptr, m.(bank := o.bank))
  }

  /** `createShader(name, shaderData)`: validity first. */
  function CreateShader(m: Manager, name: string, valid: bool, made: Asset): (r: Reply)
    ensures !valid ==> r == Reply(Null, m)
    ensures valid ==> CreatedIn(m.bank, r.m.bank, ShaderKind, name, made, r.ptr)
    ensures r.m.(bank := m.bank) == m
  {
    var o := BankCreateShader(m.bank, name, valid, made);
    Reply(o.ptr, m.(bank := o.bank))
  }

  /** Valid data under a registered name answers the registered shader
      and changes nothing. */
  lemma CreateShaderKeepsExisting(m: Manager, name: string, made: Asset)
    requires Get(m, ShaderKind, name).Ptr?
    ensures CreateShader(m, name, true, made) == Reply(Get(m, ShaderKind, name), m)
  {
  }

  /** `deleteX(name)`. */
  function Delete(m: Manager, k: Kind, name: string): (m': Manager)
    requires k in Kinds
    ensures Slot(m'.bank, k) == Slot(m.bank, k) - {name}
    ensures OthersUnchanged(m.bank, m'.bank, k)
    ensures m'.(bank := m.bank) == m
  {
    m.(bank := BankRemove(m.bank, k, name))
  }

  /** Deleting what a create on an absent name added restores the manager. */
  lemma DeleteUndoesCreate(m: Manager, k: Kind, name: string, made: Asset)
    requires k in Kinds - {ShaderKind} && k in m.bank && name !in Slot(m.bank, k)
    ensures Delete(Create(m, k, name, made).m, k, name) == m
  {
    var m' := Delete(Create(m, k, name, made).m, k, name);
    assert Slot(m'.bank, k) == Slot(m.bank, k);
    assert m'.bank.Keys == m.bank.Keys;
  }

  /** `clear()`: empties all nine registries and restores the default
      ambient colour and shader versions. */
  function Clear(m: Manager): (m': Manager)
    ensures m'.bank.Keys == Kinds
    ensures forall k, n :: BankGet(m'.bank, k, n) == Null
    ensures m'.ambientColor == DefaultAmbientColor
    ensures m'.shaderVersionDesktop == DefaultShaderVersionDesktop && m'.shaderVersionES == DefaultShaderVersionES
  {
    Manager(EmptyBank(Kinds), DefaultAmbientColor, DefaultShaderVersionDesktop, DefaultShaderVersionES)
  }

  /** `loadModel(fileName, ...)`, all three overloads. */
  function LoadModel(m: Manager, fileName: string, made: Asset): (r: Reply)
    ensures CreatedIn(m.bank, r.m.bank, ModelKind, FileKey(fileName), made, r.ptr)
    ensures r.m.(bank := m.bank) == m
  {
    var o := BankLoad(m.bank, ModelKind, fileName, made);
    Reply(o.ptr, m.(bank := o.bank))
  }

  /** `loadTexture(fileName)`. */
  function LoadTexture(m: Manager, fileName: string, made: Asset): (r: Reply)
    ensures CreatedIn(m.bank, r.m.bank, TextureKind, FileKey(fileName), made, r.ptr)
    ensures r.m.(bank := m.bank) == m
  {
    var o := BankLoad(m.bank, TextureKind, fileName, made);
    Reply(o.ptr, m.(bank := o.bank))
  }

  /** A second load of a file answers the asset of the first and changes
      nothing, whatever it would have constructed. */
  lemma LoadModelTwice(m: Manager, fileName: string, made1: Asset, made2: Asset)
    ensures var first := LoadModel(m, fileName, made1);
      LoadModel(first.m, fileName, made2) == first
  {
  }

  /** `loadShaderFile(shaderName, ...)`. */
  function LoadShaderFile(m: Manager, shaderName: string, flags: ShaderFlags, validFiles: set<FileRequest>, made: Asset): (r: Reply)
    ensures var name := FileKey(shaderName);
      var valid := FileRequest(shaderName, m.shaderVersionDesktop, m.shaderVersionES, flags) in validFiles;
      && (r.ptr.Ptr? <==> BankGet(m.bank, ShaderKind, name).Ptr? || valid)
      && (BankGet(m.bank, ShaderKind, name).Ptr? || valid ==> CreatedIn(m.bank, r.m.bank, ShaderKind, name, made, r.ptr))
      && (BankGet(m.bank, ShaderKind, name).Null? && !valid ==> r.m == m)
    ensures OthersUnchanged(m.bank, r.m.bank, ShaderKind)
    ensures r.m.(bank := m.bank) == m
  {
    var valid := FileRequest(shaderName, m.shaderVersionDesktop, m.shaderVersionES, flags) in validFiles;
    var o := BankShaderByName(m.bank, FileKey(shaderName), valid, made);
    Reply(o.ptr, m.(bank := o.bank))
  }

  /** `generateShader(shaderName, ...)`, both overloads. */
  function GenerateShader(m: Manager, shaderName: string, valid: bool, made: Asset): (r: Reply)
    ensures var name := FileKey(shaderName);
      && (r.ptr.Ptr? <==> BankGet(m.bank, ShaderKind, name).Ptr? || valid)
      && (BankGet(m.bank, ShaderKind, name).Ptr? || valid ==> CreatedIn(m.bank, r.m.bank, ShaderKind, name, made, r.ptr))
      && (BankGet(m.bank, ShaderKind, name).Null? && !valid ==> r.m == m)
    ensures OthersUnchanged(m.bank, r.m.bank, ShaderKind)
    ensures r.m.(bank := m.bank) == m
  {
    var o := BankShaderByName(m.bank, FileKey(shaderName), valid, made);
    Reply(o.ptr, m.(bank := o.bank))
  }

  /** The features `createMaterialShaderCombination` derives for a shader
      read from files: diffuse lighting for a diffuse colour or map,
      specular lighting for a specular exponent when lights are allowed. */
  function MaterialShaderFlags(md: ModelData.MaterialData, maxLights: nat, variableNumberOfLights: bool, ambientLighting: bool): (f: ShaderFlags)
    ensures f.diffuseLighting <==> DiffuseColorKey in md.vectors || DiffuseMapUniform in md.textures
    ensures f.specularLighting <==> maxLights > 0 && SpecularExponentKey in md.scalars
    ensures f.maxLights == maxLights && f.variableNumberOfLights == variableNumberOfLights && f.ambientLighting == ambientLighting
  {
    ShaderFlags(
      maxLights, variableNumberOfLights, ambientLighting,
      DiffuseMapUniform in md.textures || DiffuseColorKey in md.vectors,
      maxLights > 0 && SpecularExponentKey in md.scalars)
  }

  /** The shader half of `createMaterialShaderCombination`: read from
      files with the features derived from the material, or generated. */
  function MaterialShader(
    m: Manager, name: string, md: ModelData.MaterialData, shaderFromFile: bool,
    maxLights: nat, variableNumberOfLights: bool, ambientLighting: bool,
    validFiles: set<FileRequest>, generatedValid: bool, shaderMade: Asset): (r: Reply)
    ensures OthersUnchanged(m.bank, r.m.bank, ShaderKind)
    ensures r.m.(bank := m.bank) == m
  {
    if shaderFromFile
    then LoadShaderFile(m, name, MaterialShaderFlags(md, maxLights, variableNumberOfLights, ambientLighting), validFiles, shaderMade)
    else GenerateShader(m, name, generatedValid, shaderMade)
  }

  /** The shader half reads only the shader registry and the versions. */
  lemma MaterialShaderReadsShaders(
    m: Manager, m1: Manager, name: string, md: ModelData.MaterialData, shaderFromFile: bool,
    maxLights: nat, variableNumberOfLights: bool, ambientLighting: bool,
    validFiles: set<FileRequest>, generatedValid: bool, shaderMade: Asset)
    requires Slot(m1.bank, ShaderKind) == Slot(m.bank, ShaderKind)
    requires m1.shaderVersionDesktop == m.shaderVersionDesktop && m1.shaderVersionES == m.shaderVersionES
    ensures Slot(MaterialShader(m1, name, md, shaderFromFile, maxLights, variableNumberOfLights, ambientLighting, validFiles, generatedValid, shaderMade).m.bank, ShaderKind)
         == Slot(MaterialShader(m, name, md, shaderFromFile, maxLights, variableNumberOfLights, ambientLighting, validFiles, generatedValid, shaderMade).m.bank, ShaderKind)
  {
    assert BankGet(m1.bank, ShaderKind, FileKey(name)) == BankGet(m.bank, ShaderKind, FileKey(name));
  }

  /** `createMaterial(name, materialData, shader)`: as `Create`, and the
      new material's `initialize` loads every texture file the data names;
      `texMade` gives the texture each load would construct. */
  function CreateMaterial(m: Manager, name: string, md: ModelData.MaterialData, made: Asset, texMade: string -> Asset): (r: Reply)
    ensures MaterialCreatedIn(m.bank, r.m.bank, name, made, r.ptr, md.textures, texMade)
    ensures r.m.(bank := m.bank) == m
  {
    var o := BankCreateMaterial(m.bank, name, made, md.textures, texMade);
    Reply(o.ptr, m.(bank := o.bank))
  }

  /** `createMaterialShaderCombination(name, md, shaderFromFile, ...)`: a
      registered material is answered untouched; otherwise the shader is
      made, the new material fills the slot, and its `initialize` loads
      every texture file the data names. */
  function CreateMaterialShaderCombination(
    m: Manager, name: string, md: ModelData.MaterialData, shaderFromFile: bool,
    maxLights: nat, variableNumberOfLights: bool, ambientLighting: bool,
    validFiles: set<FileRequest>, generatedValid: bool, shaderMade: Asset, made: Asset, texMade: string -> Asset): (r: Reply)
    ensures BankGet(m.bank, MaterialKind, name).Ptr? ==> r == Reply(BankGet(m.bank, MaterialKind, name), m)
    ensures BankGet(m.bank, MaterialKind, name).Null? ==>
      var s := MaterialShader(m, name, md, shaderFromFile, maxLights, variableNumberOfLights, ambientLighting, validFiles, generatedValid, shaderMade);
      && r.ptr == Ptr(made)
      && Slot(r.m.bank, MaterialKind) == Slot(m.bank, MaterialKind)[name := Ptr(made)]
      && Slot(r.m.bank, ShaderKind) == Slot(s.m.bank, ShaderKind)
      && KeysLoaded(m.bank, r.m.bank, TextureKeys(md.textures), texMade)
      && forall k :: k != MaterialKind && k != ShaderKind && k != TextureKind ==> Slot(r.m.bank, k) == Slot(m.bank, k)
    ensures r.m.(bank := m.bank) == m
  {
    if BankGet(m.bank, MaterialKind, name).Ptr? then Reply(BankGet(m.bank, MaterialKind, name), m)
    else
      // The null slot `_materials[name]` inserts first is overwritten
      // below, and the shader step never reads it (`MaterialShaderReadsShaders`).
      var s := MaterialShader(m, name, md, shaderFromFile, maxLights, variableNumberOfLights, ambientLighting, validFiles, generatedValid, shaderMade);
      assert Slot(s.m.bank, MaterialKind) == Slot(m.bank, MaterialKind);
      var b3 := BankFillMaterial(s.m.bank, name, made, md.textures, texMade);
      KeysLoadedFromSameTextures(m.bank, s.m.bank, b3, TextureKeys(md.textures), texMade);
      Reply(Ptr(made), s.m.(bank := b3))
  }

  /** `loadMaterial(fileName, materialName, shaderName, ...)`: guarded by
      the MODEL registry, answering `_materials[materialName]` (which
      default-inserts a null entry) when a model of that name exists;
      otherwise the shader is read from files with the caller's features
      under the given name, or the material's when none is given, and the
      material is created from the data `md` read for it. */
  function LoadMaterial(
    m: Manager, materialName: string, shaderName: string, md: ModelData.MaterialData, flags: ShaderFlags,
    validFiles: set<FileRequest>, shaderMade: Asset, made: Asset, texMade: string -> Asset): (r: Reply)
    ensures BankGet(m.bank, ModelKind, materialName).Ptr? ==>
      && r.ptr == BankGet(m.bank, MaterialKind, materialName)
      && Slot(r.m.bank, MaterialKind).Keys == Slot(m.bank, MaterialKind).Keys + {materialName}
      && (forall n :: n in Slot(m.bank, MaterialKind) ==> Slot(r.m.bank, MaterialKind)[n] == Slot(m.bank, MaterialKind)[n])
      && (materialName !in Slot(m.bank, MaterialKind) ==> Slot(r.m.bank, MaterialKind)[materialName].Null?)
      && OthersUnchanged(m.bank, r.m.bank, MaterialKind)
    ensures BankGet(m.bank, ModelKind, materialName).Null? ==>
      var s := LoadShaderFile(m, if shaderName == "" then materialName else shaderName, flags, validFiles, shaderMade);
      MaterialCreatedIn(s.m.bank, r.m.bank, materialName, made, r.ptr, md.textures, texMade)
    ensures r.m.(bank := m.bank) == m
  {
    if BankGet(m.bank, ModelKind, materialName).Ptr? then
      var o := BankSubscript(m.bank, MaterialKind, materialName);
      Reply(o.ptr, m.(bank := o.bank))
    else
      var s := LoadShaderFile(m, if shaderName == "" then materialName else shaderName, flags, validFiles, shaderMade);
      CreateMaterial(s.m, materialName, md, made, texMade)
  }

  /** `loadMaterial(fileName, materialName, shader)`: the same guard, then
      `createMaterial` with the given shader. */
  function LoadMaterialWithShader(m: Manager, materialName: string, md: ModelData.MaterialData, made: Asset, texMade: string -> Asset): (r: Reply)
    ensures BankGet(m.bank, ModelKind, materialName).Ptr? ==>
      && r.ptr == BankGet(m.bank, MaterialKind, materialName)
      && Slot(r.m.bank, MaterialKind).Keys == Slot(m.bank, MaterialKind).Keys + {materialName}
      && (forall n :: n in Slot(m.bank, MaterialKind) ==> Slot(r.m.bank, MaterialKind)[n] == Slot(m.bank, MaterialKind)[n])
      && (materialName !in Slot(m.bank, MaterialKind) ==> Slot(r.m.bank, MaterialKind)[materialName].Null?)
      && OthersUnchanged(m.bank, r.m.bank, MaterialKind)
    ensures BankGet(m.bank, ModelKind, materialName).Null? ==>
      MaterialCreatedIn(m.bank, r.m.bank, materialName, made, r.ptr, md.textures, texMade)
    ensures r.m.(bank := m.bank) == m
  {
    if BankGet(m.bank, ModelKind, materialName).Ptr? then
      var o := BankSubscript(m.bank, MaterialKind, materialName);
      Reply(o.ptr, m.(bank := o.bank))
    else CreateMaterial(m, materialName, md, made, texMade)
  }
}
