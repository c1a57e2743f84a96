/** The named asset registries every asset manager of the library keeps:
    maps from a name to a shared pointer, with the lookup, add-if-absent,
    create-if-absent and remove operations that the managers repeat for each
    kind of asset. Constructing the asset itself (GL objects, file loading)
    is outside the model: the newly constructed object is a parameter. */
module Registry {
  import opened Common
  import RawName

  /** A `std::map` / `std::unordered_map` from names to shared pointers. An
      entry may hold a null pointer. */
  type Registry<T> = map<string, Ptr<T>>

  /** `getX(name)`: `count(name) > 0 ? map[name] : nullptr`. */
  function Get<T>(reg: Registry<T>, name: string): (p: Ptr<T>)
    ensures name !in reg ==> p == Null
    ensures name in reg ==> p == reg[name]
  {
    if name in reg then reg[name] else Null
  }

  /** The outcome of an operation that answers with a pointer and leaves a
      new registry behind. */
  datatype Answer<T> = Answer(ptr: Ptr<T>, reg: Registry<T>)

  /** `map[name]` used as an expression: answers the entry and, when the
      name is absent, default-inserts a null entry for it. */
  function Subscript<T>(reg: Registry<T>, name: string): (a: Answer<T>)
    ensures a.ptr == Get(reg, name)
    ensures name in a.reg && a.reg.Keys == reg.Keys + {name}
    ensures forall n :: n in reg ==> a.reg[n] == reg[n]
    ensures name !in reg ==> a.reg[name] == Null
  {
    if name in reg then Answer(reg[name], reg) else Answer(Null, reg[name := Null])
  }

  /** `createX(name, ...)`: `if (getX(name)) return getX(name); X &x =
      map[name]; x = new X(...); return x;` -- the slot is default-inserted
      and then overwritten, so a null entry is replaced as well. */
  function Create<T>(reg: Registry<T>, name: string, made: T): (a: Answer<T>)
    ensures a.ptr.Ptr? && Get(a.reg, name) == a.ptr
    ensures Get(reg, name).Ptr? ==> a.ptr == Get(reg, name) && a.reg == reg
    ensures Get(reg, name).Null? ==> a.ptr == Ptr(made)
    ensures a.reg.Keys == reg.Keys + {name}
    ensures forall n :: n in reg && n != name ==> a.reg[n] == reg[n]
  {
    if Get(reg, name).Ptr? then Answer(Get(reg, name), reg)
    else Answer(Ptr(made), reg[name := Ptr(made)])
  }

  /** The answer of `addX`: whether it reported success, and the registry. */
  datatype Added<T> = Added(ok: bool, reg: Registry<T>)

  /** `addX(name, ptr)`: `if (getX(name)) return false; map.insert({name,
      ptr}); return true;`. `insert` never overwrites, so a name present
      with a null pointer reports success and keeps its null entry. */
  function Add<T>(reg: Registry<T>, name: string, p: Ptr<T>): (a: Added<T>)
    ensures a.ok <==> Get(reg, name).Null?
    ensures name in reg ==> a.reg == reg
    ensures name !in reg ==> a.reg.Keys == reg.Keys + {name} && a.reg[name] == p
    ensures forall n :: n in reg ==> n in a.reg && a.reg[n] == reg[n]
  {
    if Get(reg, name).Ptr? then Added(false, reg)
    else if name in reg then Added(true, reg)
    else Added(true, reg[name := p])
  }

  /** `removeX(name)` / `deleteX(name)`: `map.erase(name)`. */
  function Remove<T>(reg: Registry<T>, name: string): (r: Registry<T>)
    ensures name !in r && Get(r, name) == Null
    ensures r.Keys == reg.Keys - {name}
    ensures forall n :: n in r ==> r[n] == reg[n]
  {
    reg - {name}
  }

  /** Creating under a name twice creates once: the second call answers the
      asset of the first and changes nothing, whatever it would construct. */
  lemma CreateIdempotent<T>(reg: Registry<T>, name: string, made: T, other: T)
    ensures var first := Create(reg, name, made);
      Create(first.reg, name, other) == first
  {
  }

  /** Removing what a create added restores the registry: create on an
      absent name registers exactly one entry. */
  lemma RemoveUndoesCreate<T>(reg: Registry<T>, name: string, made: T)
    requires name !in reg
    ensures Remove(Create(reg, name, made).reg, name) == reg
  {
    var r := Remove(Create(reg, name, made).reg, name);
    assert r.Keys == reg.Keys;
  }

  /** Adding after a create reports failure and keeps the created asset. */
  lemma AddAfterCreateFails<T>(reg: Registry<T>, name: string, made: T, p: Ptr<T>)
    ensures var c := Create(reg, name, made);
      Add(c.reg, name, p) == Added(false, c.reg)
  {
  }

  /** Adding under an absent name and reading it back answers what was
      added; removing it again restores the registry. */
  lemma AddThenGet<T>(reg: Registry<T>, name: string, p: Ptr<T>)
    requires name !in reg
    ensures Get(Add(reg, name, p).reg, name) == p
    ensures Remove(Add(reg, name, p).reg, name) == reg
  {
    var r := Remove(Add(reg, name, p).reg, name);
    assert r.Keys == reg.Keys;
  }

  /** The kinds of asset a manager keeps a registry for. */
  datatype Kind =
    | ShaderKind | TextureKind | CubeMapKind | DepthMapKind | FontKind
    | MaterialKind | PropertiesKind | ModelKind | TextSpriteKind
    | CameraKind | MatrixStackKind | LightKind | FramebufferKind

  /** The identity of a constructed asset object. */
  datatype Asset = Asset(id: nat)

  /** One registry per kind; a kind without an entry reads as empty. */
  type Bank = map<Kind, Registry<Asset>>

  function Slot(b: Bank, k: Kind): (r: Registry<Asset>)
    ensures k !in b ==> r == map[]
  {
    if k in b then b[k] else map[]
  }

  /** The bank whose registries, one per kind of `kinds`, are all empty. */
  function EmptyBank(kinds: set<Kind>): (b: Bank)
    ensures b.Keys == kinds
    ensures forall k :: Slot(b, k) == map[]
  {
    map k | k in kinds :: map[]
  }

  /** Replaces the registry of one kind. */
  function WithSlot(b: Bank, k: Kind, r: Registry<Asset>): (b': Bank)
    ensures Slot(b', k) == r
    ensures forall k' :: k' != k ==> Slot(b', k') == Slot(b, k')
  {
    b[k := r]
  }

  /** `getX(name)` on the registry of kind `k`. */
  function BankGet(b: Bank, k: Kind, name: string): (p: Ptr<Asset>)
    ensures p.Ptr? ==> name in Slot(b, k) && Slot(b, k)[name] == p
  {
    Get(Slot(b, k), name)
  }

  /** Every registry other than the one of kind `k` is as it was. */
  predicate OthersUnchanged(b: Bank, b': Bank, k: Kind) {
    forall k' :: k' != k ==> Slot(b', k') == Slot(b, k')
  }

  /** An operation's answer and the bank it leaves behind. */
  datatype Outcome = Outcome(ptr: Ptr<Asset>, bank: Bank)

  /** What `createX(name, ...)` promises, stated on the banks before and
      after: the answer is the registered asset; a registered non-null
      asset is answered and nothing changes; otherwise the new asset fills
      exactly the slot of that name and nothing else changes. */
  predicate CreatedIn(b: Bank, b': Bank, k: Kind, name: string, made: Asset, p: Ptr<Asset>) {
    && p.Ptr? && BankGet(b', k, name) == p
    && (BankGet(b, k, name).Ptr? ==> p == BankGet(b, k, name) && b' == b)
    && (BankGet(b, k, name).Null? ==>
          && p == Ptr(made)
          && Slot(b', k) == Slot(b, k)[name := Ptr(made)]
          && b'.Keys == b.Keys + {k}
          && OthersUnchanged(b, b', k))
  }

  /** `createX(name, ...)` on the registry of kind `k`. */
  function BankCreate(b: Bank, k: Kind, name: string, made: Asset): (o: Outcome)
    ensures CreatedIn(b, o.bank, k, name, made, o.ptr)
  {
    var a := Create(Slot(b, k), name, made);
    if BankGet(b, k, name).Ptr? then Outcome(a.ptr, b) else Outcome(a.ptr, WithSlot(b, k, a.reg))
  }

  /** `createShader(name, shaderData)` of the resource managers and the
      renderer: validity is checked first, so invalid data answers null and
      registers nothing even when a shader of that name exists; valid data
      creates as any other asset. */
  function BankCreateShader(b: Bank, name: string, valid: bool, made: Asset): (o: Outcome)
    ensures !valid ==> o == Outcome(Null, b)
    ensures valid ==> CreatedIn(b, o.bank, ShaderKind, name, made, o.ptr)
  {
    if valid then BankCreate(b, ShaderKind, name, made) else Outcome(Null, b)
  }

  /** `loadShaderFile` / `generateShader`: a shader already registered
      under the name is answered without looking at the new data; otherwise
      the data is handed to `createShader`. */
  function BankShaderByName(b: Bank, name: string, valid: bool, made: Asset): (o: Outcome)
    ensures o.ptr.Ptr? <==> BankGet(b, ShaderKind, name).Ptr? || valid
    ensures BankGet(b, ShaderKind, name).Ptr? || valid ==> CreatedIn(b, o.bank, ShaderKind, name, made, o.ptr)
    ensures BankGet(b, ShaderKind, name).Null? && !valid ==> o.bank == b
  {
    if BankGet(b, ShaderKind, name).Ptr? then Outcome(BankGet(b, ShaderKind, name), b)
    else BankCreateShader(b, name, valid, made)
  }

  /** The answer of `addX`: whether it reported success, and the bank. */
  datatype AddOutcome = AddOutcome(ok: bool, bank: Bank)

  /** `addX(name, ptr)` on the registry of kind `k`: fails when a non-null
      asset is registered; otherwise inserts the pair unless the name is
      already present (with a null pointer), which `insert` leaves alone. */
  function BankAdd(b: Bank, k: Kind, name: string, p: Ptr<Asset>): (o: AddOutcome)
    ensures o.ok <==> BankGet(b, k, name).Null?
    ensures name in Slot(b, k) ==> Slot(o.bank, k) == Slot(b, k)
    ensures name !in Slot(b, k) ==> Slot(o.bank, k) == Slot(b, k)[name := p]
    ensures OthersUnchanged(b, o.bank, k)
  {
    var a := Add(Slot(b, k), name, p);
    AddOutcome(a.ok, WithSlot(b, k, a.reg))
  }

  /** `removeX(name)` / `deleteX(name)` on the registry of kind `k`. */
  function BankRemove(b: Bank, k: Kind, name: string): (b': Bank)
    ensures Slot(b', k) == Slot(b, k) - {name}
    ensures BankGet(b', k, name) == Null
    ensures OthersUnchanged(b, b', k)
  {
    WithSlot(b, k, Remove(Slot(b, k), name))
  }

  /** `map[name]` on the registry of kind `k`, default-inserting null. */
  function BankSubscript(b: Bank, k: Kind, name: string): (o: Outcome)
    ensures o.ptr == BankGet(b, k, name)
    ensures Slot(o.bank, k).Keys == Slot(b, k).Keys + {name}
    ensures forall n :: n in Slot(b, k) ==> Slot(o.bank, k)[n] == Slot(b, k)[n]
    ensures name !in Slot(b, k) ==> Slot(o.bank, k)[name].Null?
    ensures OthersUnchanged(b, o.bank, k)
  {
    var a := Subscript(Slot(b, k), name);
    Outcome(a.ptr, WithSlot(b, k, a.reg))
  }

  /** The registry key of a file: its raw name. */
  function FileKey(fileName: string): string {
    RawName.GetRawName(fileName).raw
  }

  /** `loadX(fileName)` of the resource managers and the renderer:
      `name = getRawName(fileName); if (getX(name)) return map[name];
      return createX(name, ...)`. */
  function BankLoad(b: Bank, k: Kind, fileName: string, made: Asset): (o: Outcome)
    ensures CreatedIn(b, o.bank, k, FileKey(fileName), made, o.ptr)
  {
    var name := FileKey(fileName);
    if BankGet(b, k, name).Ptr? then Outcome(BankSubscript(b, k, name).ptr, b)
    else BankCreate(b, k, name, made)
  }

  /** The registry keys of the texture files a material names: the raw
      names of the values of its `textures` map. */
  function TextureKeys(files: map<string, string>): (keys: set<string>)
    ensures forall f :: f in files.Values ==> FileKey(f) in keys
    ensures forall n :: n in keys ==> exists f :: f in files.Values && FileKey(f) == n
  {
    set f | f in files.Values :: FileKey(f)
  }

  /** What loading the textures with raw names `keys` does to the texture
      registry, in any order: every key ends with a non-null texture; a
      non-null texture stays; a key that held none gets the texture its
      load constructs, `texMade(key)`; no other name is added or changed. */
  ghost predicate KeysLoaded(b: Bank, b': Bank, keys: set<string>, texMade: string -> Asset) {
    && (forall n :: n in keys ==> BankGet(b', TextureKind, n).Ptr?)
    && (forall n :: BankGet(b, TextureKind, n).Ptr? ==> BankGet(b', TextureKind, n) == BankGet(b, TextureKind, n))
    && (forall n :: n in keys && BankGet(b, TextureKind, n).Null? ==> BankGet(b', TextureKind, n) == Ptr(texMade(n)))
    && (forall n :: n in Slot(b', TextureKind) <==> n in Slot(b, TextureKind) || n in keys)
    && (forall n :: n in Slot(b', TextureKind) && n !in keys ==> Slot(b', TextureKind)[n] == Slot(b, TextureKind)[n])
  }

  /** The loop of `Material::initialize`: `loadTexture` of every texture
      file the material data names, in the map's order. `texMade` gives
      the texture a load would construct for each raw name. */
  function LoadTextures(b: Bank, files: seq<string>, texMade: string -> Asset): (b': Bank)
    ensures OthersUnchanged(b, b', TextureKind)
    decreases |files|
  {
    if |files| == 0 then b
    else LoadTextures(BankLoad(b, TextureKind, files[0], texMade(FileKey(files[0]))).bank, files[1..], texMade)
  }

  /** The raw names of a list of files. */
  function FileKeys(files: seq<string>): (keys: set<string>)
    ensures forall i :: 0 <= i < |files| ==> FileKey(files[i]) in keys
    decreases |files|
  {
    if |files| == 0 then {}
    else
      var rest := FileKeys(files[1..]);
      assert forall i :: 1 <= i < |files| ==> files[i] == files[1..][i - 1];
      {FileKey(files[0])} + rest
  }

  /** `FileKeys` holds nothing but the raw names of the files. */
  lemma {:induction false} FileKeysOnly(files: seq<string>, n: string)
    requires n in FileKeys(files)
    ensures exists i :: 0 <= i < |files| && FileKey(files[i]) == n
    decreases |files|
  {
    if n != FileKey(files[0]) {
      FileKeysOnly(files[1..], n);
      var i :| 0 <= i < |files[1..]| && FileKey(files[1..][i]) == n;
      assert FileKey(files[i + 1]) == n;
    }
  }

  /** The texture registry after the loads depends only on the set of raw
      names loaded, not on the order of the files. */
  lemma {:induction false} LoadTexturesLoadsKeys(b: Bank, files: seq<string>, texMade: string -> Asset)
    ensures KeysLoaded(b, LoadTextures(b, files, texMade), FileKeys(files), texMade)
    decreases |files|
  {
    if |files| > 0 {
      var b1 := BankLoad(b, TextureKind, files[0], texMade(FileKey(files[0]))).bank;
      LoadTexturesLoadsKeys(b1, files[1..], texMade);
      KeysLoadedCompose(b, b1, LoadTextures(b, files, texMade), FileKey(files[0]), FileKeys(files[1..]), texMade);
    }
  }

  /** Loading one key and then a set of keys is loading their union. */
  lemma KeysLoadedCompose(b: Bank, b1: Bank, b2: Bank, k: string, rest: set<string>, texMade: string -> Asset)
    requires CreatedIn(b, b1, TextureKind, k, texMade(k), BankGet(b1, TextureKind, k))
    requires KeysLoaded(b1, b2, rest, texMade)
    ensures KeysLoaded(b, b2, rest + {k}, texMade)
  {
    forall n | n in rest + {k} && BankGet(b, TextureKind, n).Null?
      ensures BankGet(b2, TextureKind, n) == Ptr(texMade(n))
    {
      if n != k {
        assert BankGet(b1, TextureKind, n) == BankGet(b, TextureKind, n);
      }
    }
    forall n | n in Slot(b2, TextureKind) && n !in rest + {k}
      ensures Slot(b2, TextureKind)[n] == Slot(b, TextureKind)[n]
    {
      assert Slot(b1, TextureKind)[n] == Slot(b, TextureKind)[n];
    }
  }

  /** Two runs of loads over the same raw names leave the same texture
      registry. */
  lemma KeysLoadedUnique(b: Bank, b1: Bank, b2: Bank, keys: set<string>, texMade: string -> Asset)
    requires KeysLoaded(b, b1, keys, texMade) && KeysLoaded(b, b2, keys, texMade)
    ensures Slot(b1, TextureKind) == Slot(b2, TextureKind)
  {
    forall n | n in Slot(b1, TextureKind)
      ensures Slot(b1, TextureKind)[n] == Slot(b2, TextureKind)[n]
    {
      if n in keys {
        if BankGet(b, TextureKind, n).Ptr? {
          assert BankGet(b1, TextureKind, n) == BankGet(b2, TextureKind, n);
        } else {
          assert BankGet(b1, TextureKind, n) == BankGet(b2, TextureKind, n);
        }
      }
    }
  }

  /** The texture loads of `Material::initialize` stated on the set of raw
      names they load: the registry `KeysLoaded` describes. */
  function LoadTextureKeys(b: Bank, keys: set<string>, texMade: string -> Asset): (b': Bank)
    ensures KeysLoaded(b, b', keys, texMade)
    ensures OthersUnchanged(b, b', TextureKind)
  {
    var reg := Slot(b, TextureKind);
    WithSlot(b, TextureKind, map n | n in reg.Keys + keys :: if n in keys && Get(reg, n).Null? then Ptr(texMade(n)) else reg[n])
  }

  /** Loading the files one by one, in whatever order the material's map
      yields them, leaves the texture registry `LoadTextureKeys` leaves. */
  lemma LoadTexturesInAnyOrder(b: Bank, files: seq<string>, texMade: string -> Asset)
    ensures Slot(LoadTextures(b, files, texMade), TextureKind) == Slot(LoadTextureKeys(b, FileKeys(files), texMade), TextureKind)
  {
    var keys := FileKeys(files);
    LoadTexturesLoadsKeys(b, files, texMade);
    KeysLoadedUnique(b, LoadTextures(b, files, texMade), LoadTextureKeys(b, keys, texMade), keys, texMade);
  }

  /** `KeysLoaded` looks at nothing but the two texture registries. */
  lemma KeysLoadedFromSameTextures(b: Bank, c: Bank, b': Bank, keys: set<string>, texMade: string -> Asset)
    requires Slot(b, TextureKind) == Slot(c, TextureKind)
    requires KeysLoaded(c, b', keys, texMade)
    ensures KeysLoaded(b, b', keys, texMade)
  {
    assert forall n :: BankGet(b, TextureKind, n) == BankGet(c, TextureKind, n);
  }

  /** The last two steps of creating a material: the new material fills
      the slot, then `Material::initialize` loads the texture files. */
  function BankFillMaterial(b: Bank, name: string, made: Asset, files: map<string, string>, texMade: string -> Asset): (b': Bank)
    ensures Slot(b', MaterialKind) == Slot(b, MaterialKind)[name := Ptr(made)]
    ensures KeysLoaded(b, b', TextureKeys(files), texMade)
    ensures forall k :: k != MaterialKind && k != TextureKind ==> Slot(b', k) == Slot(b, k)
  {
    var b1 := WithSlot(b, MaterialKind, Slot(b, MaterialKind)[name := Ptr(made)]);
    var b2 := LoadTextureKeys(b1, TextureKeys(files), texMade);
    KeysLoadedFromSameTextures(b, b1, b2, TextureKeys(files), texMade);
    b2
  }

  /** What `createMaterial(name, materialData, shader)` promises: a
      registered non-null material is answered and nothing changes;
      otherwise the new material fills the slot, `Material::initialize`
      loads every texture file the data names, and no other registry
      changes. */
  ghost predicate MaterialCreatedIn(b: Bank, b': Bank, name: string, made: Asset, p: Ptr<Asset>, files: map<string, string>, texMade: string -> Asset) {
    && p.Ptr? && BankGet(b', MaterialKind, name) == p
    && (BankGet(b, MaterialKind, name).Ptr? ==> p == BankGet(b, MaterialKind, name) && b' == b)
    && (BankGet(b, MaterialKind, name).Null? ==>
          && p == Ptr(made)
          && Slot(b', MaterialKind) == Slot(b, MaterialKind)[name := Ptr(made)]
          && KeysLoaded(b, b', TextureKeys(files), texMade)
          && forall k :: k != MaterialKind && k != TextureKind ==> Slot(b', k) == Slot(b, k))
  }

  /** `createMaterial(name, materialData, shader)` of the managers and the
      renderer: the slot, then `initialize` with its texture loads. */
  function BankCreateMaterial(b: Bank, name: string, made: Asset, files: map<string, string>, texMade: string -> Asset): (o: Outcome)
    ensures MaterialCreatedIn(b, o.bank, name, made, o.ptr, files, texMade)
  {
    if BankGet(b, MaterialKind, name).Ptr? then Outcome(BankGet(b, MaterialKind, name), b)
    else Outcome(Ptr(made), BankFillMaterial(b, name, made, files, texMade))
  }

  /** A material loader's result seen from before its shader step: the
      answer is registered, an existing material is answered with the
      textures untouched, a new one has loaded its textures, and the
      models are untouched. */
  ghost predicate MaterialLoadedIn(b: Bank, b': Bank, name: string, made: Asset, p: Ptr<Asset>, files: map<string, string>, texMade: string -> Asset) {
    && p.Ptr? && BankGet(b', MaterialKind, name) == p
    && (BankGet(b, MaterialKind, name).Ptr? ==> p == BankGet(b, MaterialKind, name) && Slot(b', TextureKind) == Slot(b, TextureKind))
    && (BankGet(b, MaterialKind, name).Null? ==> p == Ptr(made) && KeysLoaded(b, b', TextureKeys(files), texMade))
    && Slot(b', ModelKind) == Slot(b, ModelKind)
  }

  /** A material created after a step that touched only the shaders, as
      the material loaders do, is loaded as seen from before that step. */
  lemma MaterialCreatedAfterShader(b: Bank, b1: Bank, b2: Bank, name: string, made: Asset, p: Ptr<Asset>, files: map<string, string>, texMade: string -> Asset)
    requires OthersUnchanged(b, b1, ShaderKind)
    requires MaterialCreatedIn(b1, b2, name, made, p, files, texMade)
    ensures MaterialLoadedIn(b, b2, name, made, p, files, texMade)
  {
    assert Slot(b1, MaterialKind) == Slot(b, MaterialKind) && Slot(b1, TextureKind) == Slot(b, TextureKind);
    if BankGet(b, MaterialKind, name).Null? {
      KeysLoadedFromSameTextures(b, b1, b2, TextureKeys(files), texMade);
    }
  }

  /** A material the managers create with data naming a texture file ends
      with that file's texture registered. */
  lemma CreateMaterialLoadsTexture(b: Bank, name: string, made: Asset, files: map<string, string>, texMade: string -> Asset, slot: string)
    requires BankGet(b, MaterialKind, name).Null? && slot in files
    ensures BankGet(BankCreateMaterial(b, name, made, files, texMade).bank, TextureKind, FileKey(files[slot])).Ptr?
  {
    assert files[slot] in files.Values;
  }

  /** Loading a file is creating under its raw name: the early return of
      `loadX` never answers anything `createX` would not. */
  lemma BankLoadIsCreate(b: Bank, k: Kind, fileName: string, made: Asset)
    ensures BankLoad(b, k, fileName, made) == BankCreate(b, k, FileKey(fileName), made)
  {
  }

  /** Two files that differ only in directory and extension share one
      asset: the second load answers what the first registered. */
  lemma LoadSharesRawName(b: Bank, k: Kind, file1: string, file2: string, made1: Asset, made2: Asset)
    requires FileKey(file1) == FileKey(file2)
    ensures var first := BankLoad(b, k, file1, made1);
      BankLoad(first.bank, k, file2, made2) == Outcome(first.ptr, first.bank)
  {
  }

  /** Once a valid shader is registered under a name, asking for it again
      answers the same shader, whatever the validity of the new data. */
  lemma ShaderByNameStable(b: Bank, name: string, made1: Asset, made2: Asset, valid2: bool)
    ensures var first := BankShaderByName(b, name, true, made1);
      BankShaderByName(first.bank, name, valid2, made2) == Outcome(first.ptr, first.bank)
  {
  }
}
