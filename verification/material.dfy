/** The accessors of Material.h: three name-keyed maps (textures, vectors,
    scalars), a shader and a name. Textures and shaders are shared pointers
    to opaque handles. */
module Material {
  import opened Common
  import KeyedStore

  datatype Material = Material(
    textures: map<string, Ptr<nat>>,
    vectors: map<string, Vec3>,
    scalars: map<string, real>,
    shader: Ptr<nat>,
    name: string)

  /** A default-constructed material. */
  const Empty: Material := Material(map[], map[], map[], Null, "")

  /** `getTexture(name)`: the stored texture, or a null pointer stored and
      returned for a new name. */
  function GetTexture(m: Material, name: string): (r: (Ptr<nat>, Material))
    ensures name !in m.textures ==> r.0 == Null && r.1.textures == m.textures[name := Null]
    ensures name in m.textures ==> r.0 == m.textures[name] && r.1 == m
    ensures r.1.(textures := m.textures) == m
  {
    var (t, ts) := KeyedStore.Get(m.textures, name, Null);
    (t, m.(textures := ts))
  }

  /** `setTexture(name, t)`: only the texture map changes. */
  function SetTexture(m: Material, name: string, t: Ptr<nat>): (r: Material)
    ensures r.(textures := m.textures) == m
    ensures name in r.textures && r.textures[name] == t
    ensures forall k :: k in m.textures && k != name ==> k in r.textures && r.textures[k] == m.textures[k]
  {
    m.(textures := KeyedStore.Set(m.textures, name, t))
  }

  /** `getVector(name)` with the default-constructed vector `default`. */
  function GetVector(m: Material, name: string, default: Vec3): (r: (Vec3, Material))
    ensures name !in m.vectors ==> r.0 == default && r.1.vectors == m.vectors[name := default]
    ensures name in m.vectors ==> r.0 == m.vectors[name] && r.1 == m
    ensures r.1.(vectors := m.vectors) == m
  {
    var (v, vs) := KeyedStore.Get(m.vectors, name, default);
    (v, m.(vectors := vs))
  }

  function SetVector(m: Material, name: string, v: Vec3): (r: Material)
    ensures r.(vectors := m.vectors) == m
    ensures name in r.vectors && r.vectors[name] == v
    ensures forall k :: k in m.vectors && k != name ==> k in r.vectors && r.vectors[k] == m.vectors[k]
  {
    m.(vectors := KeyedStore.Set(m.vectors, name, v))
  }

  /** `getScalar(name)`: 0 for a new name, which is then stored. */
  function GetScalar(m: Material, name: string): (r: (real, Material))
    ensures name !in m.scalars ==> r.0 == 0.0 && r.1.scalars == m.scalars[name := 0.0]
    ensures name in m.scalars ==> r.0 == m.scalars[name] && r.1 == m
    ensures r.1.(scalars := m.scalars) == m
  {
    var (s, ss) := KeyedStore.Get(m.scalars, name, 0.0);
    (s, m.(scalars := ss))
  }

  function SetScalar(m: Material, name: string, s: real): (r: Material)
    ensures r.(scalars := m.scalars) == m
    ensures name in r.scalars && r.scalars[name] == s
    ensures forall k :: k in m.scalars && k != name ==> k in r.scalars && r.scalars[k] == m.scalars[k]
  {
    m.(scalars := KeyedStore.Set(m.scalars, name, s))
  }

  /** `setTextures`, `setVectors`, `setScalars`: one whole map replaced. */
  function SetTextures(m: Material, arg: map<string, Ptr<nat>>): (r: Material)
    ensures r.textures == arg && r.(textures := m.textures) == m
  {
    m.(textures := arg)
  }

  function SetVectors(m: Material, arg: map<string, Vec3>): (r: Material)
    ensures r.vectors == arg && r.(vectors := m.vectors) == m
  {
    m.(vectors := arg)
  }

  function SetScalars(m: Material, arg: map<string, real>): (r: Material)
    ensures r.scalars == arg && r.(scalars := m.scalars) == m
  {
    m.(scalars := arg)
  }

  /** `setShader` / `getShader` and `setName` / `getName` */
  function SetShader(m: Material, s: Ptr<nat>): (r: Material)
    ensures r.(shader := m.shader) == m
  {
    m.(shader := s)
  }

  function GetShader(m: Material): Ptr<nat> {
    m.shader
  }

  function SetName(m: Material, n: string): (r: Material)
    ensures r.(name := m.name) == m
  {
    m.(name := n)
  }

  function GetName(m: Material): string {
    m.name
  }

  /** A texture written is the texture read back, other textures read as
      before, and reading an absent texture twice stores a single null. */
  lemma TextureRoundTrip(m: Material, name: string, t: Ptr<nat>, other: string)
    ensures GetTexture(SetTexture(m, name, t), name).0 == t
    ensures other != name ==> GetTexture(SetTexture(m, name, t), other).0 == GetTexture(m, other).0
    ensures var (t1, m1) := GetTexture(m, name); GetTexture(m1, name) == (t1, m1)
  {
    KeyedStore.SetThenGet(m.textures, name, t, Null);
    KeyedStore.GetTwice(m.textures, name, Null);
    if other != name {
      KeyedStore.SetOtherGet(m.textures, name, t, other, Null);
    }
  }

  /** The shader and the name read back what was last set. */
  lemma ShaderAndNameRoundTrip(m: Material, s: Ptr<nat>, n: string)
    ensures GetShader(SetShader(m, s)) == s
    ensures GetName(SetName(m, n)) == n
    ensures SetShader(m, GetShader(m)) == m && SetName(m, GetName(m)) == m
  {
  }
}
