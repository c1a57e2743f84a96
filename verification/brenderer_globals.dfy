/** The free functions of the `bRenderer` namespace (bRenderer.cpp): four
    global registries that are always read through `map[name]`, so every
    lookup default-inserts a null entry. Constructed assets are parameters;
    whether the shader data found under a name is valid is an input set. */
module BRendererGlobals {
  import opened Common
  import opened Config
  import opened Registry

  /** The four kinds of the global registries. */
  const Kinds: set<Kind> := {ShaderKind, TextureKind, MaterialKind, ModelKind}

  /** `defaultMaterialName`, the shader name `loadShader` falls back to. */
  const DefaultMaterialName: string := "default"

  /** An answer and the registries left behind. */
  datatype Reply = Reply(ptr: Ptr<Asset>, bank: Bank)

  /** `createModel(name, ...)` / `createTexture(name, ...)`: the slot is
      taken first (default-inserted), answered when non-null, and otherwise
      filled with the new asset. */
  function CreateInSlot(b: Bank, k: Kind, name: string, made: Asset): (r: Reply)
    requires k == ModelKind || k == TextureKind
    ensures CreatedIn(b, r.bank, k, name, made, r.ptr)
  {
    var slot := BankSubscript(b, k, name);
    if slot.ptr.Ptr? then Reply(slot.ptr, b)
    else Reply(Ptr(made), WithSlot(slot.bank, k, Slot(slot.bank, k)[name := Ptr(made)]))
  }

  /** `createShader(name, shaderData)`: the slot is taken first, so a
      registered shader is answered without looking at the data; invalid
      data answers null and leaves the (possibly new) null slot behind. */
  function CreateShader(b: Bank, name: string, valid: bool, made: Asset): (r: Reply)
    ensures r.ptr.Ptr? <==> BankGet(b, ShaderKind, name).Ptr? || valid
    ensures BankGet(b, ShaderKind, name).Ptr? ==> r == Reply(BankGet(b, ShaderKind, name), b)
    ensures BankGet(b, ShaderKind, name).Null? && valid ==> CreatedIn(b, r.bank, ShaderKind, name, made, r.ptr)
    ensures BankGet(b, ShaderKind, name).Null? && !valid ==>
      && r.ptr == Null
      && Slot(r.bank, ShaderKind) == Slot(b, ShaderKind)[name := Null]
      && OthersUnchanged(b, r.bank, ShaderKind)
  {
    var slot := BankSubscript(b, ShaderKind, name);
    if slot.ptr.Ptr? then Reply(slot.ptr, b)
    else if valid then Reply(Ptr(made), WithSlot(slot.bank, ShaderKind, Slot(slot.bank, ShaderKind)[name := Ptr(made)]))
    else Reply(Null, slot.bank)
  }

  /** Unlike the managers, an invalid shader never hides a registered one
      here, and a failed creation still leaves an entry. */
  lemma CreateShaderLeavesSlot(b: Bank, name: string, made: Asset)
    requires BankGet(b, ShaderKind, name).Null?
    ensures var r := CreateShader(b, name, false, made);
      r.ptr == Null && name in Slot(r.bank, ShaderKind)
  {
  }

  /** `loadModel(fileName, ...)` / `loadTexture(fileName)`: no early return,
      straight to the create of the raw file name. */
  function LoadFile(b: Bank, k: Kind, fileName: string, made: Asset): (r: Reply)
    requires k == ModelKind || k == TextureKind
    ensures CreatedIn(b, r.bank, k, FileKey(fileName), made, r.ptr)
  {
    CreateInSlot(b, k, FileKey(fileName), made)
  }

  /** The global loader agrees with the managers' loaders: the same raw-name
      key and the same create-if-absent answer. */
  lemma LoadFileAgreesWithManagers(b: Bank, k: Kind, fileName: string, made: Asset)
    requires k == ModelKind || k == TextureKind
    ensures LoadFile(b, k, fileName, made) == Reply(BankLoad(b, k, fileName, made).ptr, BankLoad(b, k, fileName, made).bank)
  {
  }

  /** `getModel(name)`: `_models[name]`, which leaves a null entry for an
      unknown name. */
  function GetModel(b: Bank, name: string): (r: Reply)
    ensures r.ptr == BankGet(b, ModelKind, name)
    ensures name in Slot(r.bank, ModelKind)
    ensures name !in Slot(b, ModelKind) ==> r.ptr == Null && Slot(r.bank, ModelKind) == Slot(b, ModelKind)[name := Null]
    ensures name in Slot(b, ModelKind) ==> r.bank == b
    ensures OthersUnchanged(b, r.bank, ModelKind)
  {
    var o := BankSubscript(b, ModelKind, name);
    if name in Slot(b, ModelKind) then Reply(o.ptr, b) else Reply(o.ptr, o.bank)
  }

  /** One attempt of `loadShader`: `createShader` on the raw name with the
      data read for the full name. */
  function Attempt(b: Bank, shaderName: string, valid: set<string>, made: Asset): (r: Reply)
    ensures r == CreateShader(b, FileKey(shaderName), shaderName in valid, made)
  {
    CreateShader(b, FileKey(shaderName), shaderName in valid, made)
  }

  /** `loadShader(shaderName)` as written, the recursion on
      `defaultMaterialName` bounded by `fuel` (`None`: not returned). */
  function LoadShaderAsWritten(b: Bank, shaderName: string, valid: set<string>, made: Asset, fuel: nat): (r: Option<Reply>)
    ensures r.Some? ==> OthersUnchanged(b, r.value.bank, ShaderKind)
    decreases fuel
  {
    if fuel == 0 then None
    else
      var a := Attempt(b, shaderName, valid, made);
      if a.ptr.Ptr? then Some(a)
      else LoadShaderAsWritten(a.bank, DefaultMaterialName, valid, made, fuel - 1)
  }

  /** With no usable default shader, the as-written `loadShader` of the
      default name never returns: each attempt fails and leaves the same
      null slot. */
  lemma {:induction false} DefaultFallbackDiverges(b: Bank, valid: set<string>, made: Asset, fuel: nat)
    requires BankGet(b, ShaderKind, FileKey(DefaultMaterialName)).Null? && DefaultMaterialName !in valid
    ensures LoadShaderAsWritten(b, DefaultMaterialName, valid, made, fuel).None?
    decreases fuel
  {
    if fuel > 0 {
      var a := Attempt(b, DefaultMaterialName, valid, made);
      assert BankGet(a.bank, ShaderKind, FileKey(DefaultMaterialName)).Null?;
      DefaultFallbackDiverges(a.bank, valid, made, fuel - 1);
    }
  }

  /** `loadShader(shaderName)` with the fallback to the default name taken
      once. */
  function LoadShader(b: Bank, shaderName: string, valid: set<string>, made: Asset): (r: Reply)
    ensures var first := Attempt(b, shaderName, valid, made);
      && (first.ptr.Ptr? ==> r == first)
      && (first.ptr.Null? ==> r == Attempt(first.bank, DefaultMaterialName, valid, made))
    ensures OthersUnchanged(b, r.bank, ShaderKind)
  {
    var first := Attempt(b, shaderName, valid, made);
    if first.ptr.Ptr? then first else Attempt(first.bank, DefaultMaterialName, valid, made)
  }

  /** `loadShader` reads nothing but the shader registry. */
  lemma LoadShaderReadsShaders(b: Bank, b1: Bank, shaderName: string, valid: set<string>, made: Asset)
    requires Slot(b1, ShaderKind) == Slot(b, ShaderKind)
    ensures Slot(LoadShader(b1, shaderName, valid, made).bank, ShaderKind) == Slot(LoadShader(b, shaderName, valid, made).bank, ShaderKind)
    ensures LoadShader(b1, shaderName, valid, made).ptr == LoadShader(b, shaderName, valid, made).ptr
  {
    var first := Attempt(b, shaderName, valid, made);
    var first1 := Attempt(b1, shaderName, valid, made);
    assert BankGet(b1, ShaderKind, FileKey(shaderName)) == BankGet(b, ShaderKind, FileKey(shaderName));
    assert first1.ptr == first.ptr && Slot(first1.bank, ShaderKind) == Slot(first.bank, ShaderKind);
    assert BankGet(first1.bank, ShaderKind, FileKey(DefaultMaterialName)) == BankGet(first.bank, ShaderKind, FileKey(DefaultMaterialName));
  }

  /** Whenever the as-written `loadShader` returns, it answers what the
      single-fallback `LoadShader` answers. */
  lemma LoadShaderAgrees(b: Bank, shaderName: string, valid: set<string>, made: Asset, fuel: nat)
    requires LoadShaderAsWritten(b, shaderName, valid, made, fuel).Some?
    ensures LoadShaderAsWritten(b, shaderName, valid, made, fuel).value == LoadShader(b, shaderName, valid, made)
  {
    var first := Attempt(b, shaderName, valid, made);
    if first.ptr.Null? {
      var second := Attempt(first.bank, DefaultMaterialName, valid, made);
      if second.ptr.Null? {
        DefaultFallbackDiverges(first.bank, valid, made, fuel - 1);
      } else {
        assert LoadShaderAsWritten(first.bank, DefaultMaterialName, valid, made, fuel - 1) == Some(second);
      }
    }
  }

  /** `createMaterial(name, materialData)`: the slot is taken first and
      answered when non-null; otherwise the material's shader is loaded
      under the material's name and a new material fills the slot. */
  function CreateMaterial(b: Bank, name: string, valid: set<string>, shaderMade: Asset, made: Asset): (r: Reply)
    ensures BankGet(b, MaterialKind, name).Ptr? ==> r == Reply(BankGet(b, MaterialKind, name), b)
    ensures BankGet(b, MaterialKind, name).Null? ==>
      && r.ptr == Ptr(made)
      && Slot(r.bank, MaterialKind) == Slot(b, MaterialKind)[name := Ptr(made)]
      && Slot(r.bank, ShaderKind) == Slot(LoadShader(b, name, valid, shaderMade).bank, ShaderKind)
      && forall k :: k != MaterialKind && k != ShaderKind ==> Slot(r.bank, k) == Slot(b, k)
  {
    var slot := BankSubscript(b, MaterialKind, name);
    if slot.ptr.Ptr? then Reply(slot.ptr, b)
    else
      var shader := LoadShader(slot.bank, name, valid, shaderMade);
      assert Slot(slot.bank, ShaderKind) == Slot(b, ShaderKind);
      LoadShaderReadsShaders(b, slot.bank, name, valid, shaderMade);
      assert Slot(shader.bank, MaterialKind) == Slot(slot.bank, MaterialKind);
      assert Slot(slot.bank, MaterialKind)[name := Ptr(made)] == Slot(b, MaterialKind)[name := Ptr(made)];
      Reply(Ptr(made), WithSlot(shader.bank, MaterialKind, Slot(shader.bank, MaterialKind)[name := Ptr(made)]))
  }

  /** `createMaterial(name, materialData)` as written, on the as-written
      `loadShader` (`None`: not returned within `fuel`): a registered
      material returns whatever the fuel, and whenever the call returns it
      answers what `CreateMaterial` answers. */
  function CreateMaterialAsWritten(b: Bank, name: string, valid: set<string>, shaderMade: Asset, made: Asset, fuel: nat): (r: Option<Reply>)
    ensures BankGet(b, MaterialKind, name).Ptr? ==> r == Some(Reply(BankGet(b, MaterialKind, name), b))
    ensures r.Some? ==> r.value == CreateMaterial(b, name, valid, shaderMade, made)
  {
    var slot := BankSubscript(b, MaterialKind, name);
    if slot.ptr.Ptr? then Some(Reply(slot.ptr, b))
    else
      match LoadShaderAsWritten(slot.bank, name, valid, shaderMade, fuel)
      case None => None
      case Some(shader) =>
        LoadShaderAgrees(slot.bank, name, valid, shaderMade, fuel);
        Some(Reply(Ptr(made), WithSlot(shader.bank, MaterialKind, Slot(shader.bank, MaterialKind)[name := Ptr(made)])))
  }

  /** A new material whose own shader and the default shader are both
      neither registered nor loadable is never created as written: its
      `loadShader` never returns. */
  lemma CreateMaterialDiverges(b: Bank, name: string, valid: set<string>, shaderMade: Asset, made: Asset, fuel: nat)
    requires BankGet(b, MaterialKind, name).Null?
    requires BankGet(b, ShaderKind, FileKey(name)).Null? && name !in valid
    requires BankGet(b, ShaderKind, FileKey(DefaultMaterialName)).Null? && DefaultMaterialName !in valid
    ensures CreateMaterialAsWritten(b, name, valid, shaderMade, made, fuel).None?
  {
    var slot := BankSubscript(b, MaterialKind, name);
    assert Slot(slot.bank, ShaderKind) == Slot(b, ShaderKind);
    if fuel > 0 {
      var a := Attempt(slot.bank, name, valid, shaderMade);
      assert a.ptr.Null?;
      assert BankGet(a.bank, ShaderKind, FileKey(DefaultMaterialName)).Null?;
      DefaultFallbackDiverges(a.bank, valid, shaderMade, fuel - 1);
    }
    assert LoadShaderAsWritten(slot.bank, name, valid, shaderMade, fuel).None?;
  }
}
