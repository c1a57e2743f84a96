/** The per-model uniform values of Properties.h: five name-keyed maps, one
    per value type. Matrices and vectors whose default construction belongs
    to the vector library are read with the default passed in. */
module Properties {
  import opened Common
  import MatrixStack
  import KeyedStore

  /** `vmml::vec4f` */
  datatype Vec4 = Vec4(x: real, y: real, z: real, w: real)

  /** `vmml::mat3f`, row by row. */
  type Mat3 = seq<seq<real>>

  datatype Properties = Properties(
    matrices4x4: map<string, MatrixStack.Mat4>,
    matrices3x3: map<string, Mat3>,
    vectors4: map<string, Vec4>,
    vectors3: map<string, Vec3>,
    scalars: map<string, real>)

  const Empty: Properties := Properties(map[], map[], map[], map[], map[])

  /** `getScalar(name)`: the stored scalar, or 0 stored and returned for a
      new name; no other map changes. */
  function GetScalar(p: Properties, name: string): (r: (real, Properties))
    ensures name !in p.scalars ==> r.0 == 0.0 && r.1.scalars == p.scalars[name := 0.0]
    ensures name in p.scalars ==> r.0 == p.scalars[name] && r.1 == p
    ensures r.1.(scalars := p.scalars) == p
  {
    var (v, m) := KeyedStore.Get(p.scalars, name, 0.0);
    (v, p.(scalars := m))
  }

  /** `setScalar(name, v)`: only the scalar map changes. */
  function SetScalar(p: Properties, name: string, v: real): (r: Properties)
    ensures r.(scalars := p.scalars) == p
    ensures name in r.scalars && r.scalars[name] == v
    ensures forall k :: k in p.scalars && k != name ==> k in r.scalars && r.scalars[k] == p.scalars[k]
  {
    p.(scalars := KeyedStore.Set(p.scalars, name, v))
  }

  /** `getMatrix4x4(name)` with the default-constructed matrix `default`. */
  function GetMatrix4x4(p: Properties, name: string, default: MatrixStack.Mat4): (r: (MatrixStack.Mat4, Properties))
    ensures name !in p.matrices4x4 ==> r.0 == default && r.1.matrices4x4 == p.matrices4x4[name := default]
    ensures name in p.matrices4x4 ==> r.0 == p.matrices4x4[name] && r.1 == p
    ensures r.1.(matrices4x4 := p.matrices4x4) == p
  {
    var (v, m) := KeyedStore.Get(p.matrices4x4, name, default);
    (v, p.(matrices4x4 := m))
  }

  /** `getMatrix3x3(name)` */
  function GetMatrix3x3(p: Properties, name: string, default: Mat3): (r: (Mat3, Properties))
    ensures name !in p.matrices3x3 ==> r.0 == default && r.1.matrices3x3 == p.matrices3x3[name := default]
    ensures name in p.matrices3x3 ==> r.0 == p.matrices3x3[name] && r.1 == p
    ensures r.1.(matrices3x3 := p.matrices3x3) == p
  {
    var (v, m) := KeyedStore.Get(p.matrices3x3, name, default);
    (v, p.(matrices3x3 := m))
  }

  /** `getVector4(name)` */
  function GetVector4(p: Properties, name: string, default: Vec4): (r: (Vec4, Properties))
    ensures name !in p.vectors4 ==> r.0 == default && r.1.vectors4 == p.vectors4[name := default]
    ensures name in p.vectors4 ==> r.0 == p.vectors4[name] && r.1 == p
    ensures r.1.(vectors4 := p.vectors4) == p
  {
    var (v, m) := KeyedStore.Get(p.vectors4, name, default);
    (v, p.(vectors4 := m))
  }

  /** `getVector3(name)` */
  function GetVector3(p: Properties, name: string, default: Vec3): (r: (Vec3, Properties))
    ensures name !in p.vectors3 ==> r.0 == default && r.1.vectors3 == p.vectors3[name := default]
    ensures name in p.vectors3 ==> r.0 == p.vectors3[name] && r.1 == p
    ensures r.1.(vectors3 := p.vectors3) == p
  {
    var (v, m) := KeyedStore.Get(p.vectors3, name, default);
    (v, p.(vectors3 := m))
  }

  /** The two `setMatrix` overloads: the argument's type selects the map,
      and only that map changes. */
  function SetMatrix4x4(p: Properties, name: string, m: MatrixStack.Mat4): (r: Properties)
    ensures r.(matrices4x4 := p.matrices4x4) == p
    ensures name in r.matrices4x4 && r.matrices4x4[name] == m
    ensures forall k :: k in p.matrices4x4 && k != name ==> k in r.matrices4x4 && r.matrices4x4[k] == p.matrices4x4[k]
  {
    p.(matrices4x4 := KeyedStore.Set(p.matrices4x4, name, m))
  }

  function SetMatrix3x3(p: Properties, name: string, m: Mat3): (r: Properties)
    ensures r.(matrices3x3 := p.matrices3x3) == p
    ensures name in r.matrices3x3 && r.matrices3x3[name] == m
    ensures forall k :: k in p.matrices3x3 && k != name ==> k in r.matrices3x3 && r.matrices3x3[k] == p.matrices3x3[k]
  {
    p.(matrices3x3 := KeyedStore.Set(p.matrices3x3, name, m))
  }

  /** The two `setVector` overloads. */
  function SetVector4(p: Properties, name: string, v: Vec4): (r: Properties)
    ensures r.(vectors4 := p.vectors4) == p
    ensures name in r.vectors4 && r.vectors4[name] == v
    ensures forall k :: k in p.vectors4 && k != name ==> k in r.vectors4 && r.vectors4[k] == p.vectors4[k]
  {
    p.(vectors4 := KeyedStore.Set(p.vectors4, name, v))
  }

  function SetVector3(p: Properties, name: string, v: Vec3): (r: Properties)
    ensures r.(vectors3 := p.vectors3) == p
    ensures name in r.vectors3 && r.vectors3[name] == v
    ensures forall k :: k in p.vectors3 && k != name ==> k in r.vectors3 && r.vectors3[k] == p.vectors3[k]
  {
    p.(vectors3 := KeyedStore.Set(p.vectors3, name, v))
  }

  /** `setScalars`, `setVectors3`, `setMatrices4x4` and the other whole-map
      setters replace one map and keep the rest. */
  function SetScalars(p: Properties, arg: map<string, real>): (r: Properties)
    ensures r.scalars == arg && r.(scalars := p.scalars) == p
  {
    p.(scalars := arg)
  }

  function SetVectors3(p: Properties, arg: map<string, Vec3>): (r: Properties)
    ensures r.vectors3 == arg && r.(vectors3 := p.vectors3) == p
  {
    p.(vectors3 := arg)
  }

  function SetVectors4(p: Properties, arg: map<string, Vec4>): (r: Properties)
    ensures r.vectors4 == arg && r.(vectors4 := p.vectors4) == p
  {
    p.(vectors4 := arg)
  }

  function SetMatrices4x4(p: Properties, arg: map<string, MatrixStack.Mat4>): (r: Properties)
    ensures r.matrices4x4 == arg && r.(matrices4x4 := p.matrices4x4) == p
  {
    p.(matrices4x4 := arg)
  }

  function SetMatrices3x3(p: Properties, arg: map<string, Mat3>): (r: Properties)
    ensures r.matrices3x3 == arg && r.(matrices3x3 := p.matrices3x3) == p
  {
    p.(matrices3x3 := arg)
  }

  /** A scalar written is the scalar read back, and other names read as
      before. */
  lemma ScalarRoundTrip(p: Properties, name: string, v: real, other: string)
    ensures GetScalar(SetScalar(p, name, v), name).0 == v
    ensures other != name ==> GetScalar(SetScalar(p, name, v), other).0 == GetScalar(p, other).0
  {
    KeyedStore.SetThenGet(p.scalars, name, v, 0.0);
    if other != name {
      KeyedStore.SetOtherGet(p.scalars, name, v, other, 0.0);
    }
  }

  /** Writing a 4x4 matrix does not disturb the 3x3 matrix of the same name,
      nor any scalar or vector. */
  lemma SetMatrixSelectsMap(p: Properties, name: string, m: MatrixStack.Mat4, d3: Mat3)
    ensures GetMatrix3x3(SetMatrix4x4(p, name, m), name, d3).0 == GetMatrix3x3(p, name, d3).0
    ensures GetScalar(SetMatrix4x4(p, name, m), name).0 == GetScalar(p, name).0
  {
  }
}
