/** The name-keyed maps behind Properties and Material
    (`std::unordered_map<std::string, T>`): `operator[]` for reading, which
    inserts a default value under a missing name, assignment through
    `operator[]` for writing, and assignment of a whole map. */
module KeyedStore {

  /** `map[name]` read: the stored value, or the default value, which is
      then stored under that name. */
  function Get<V>(m: map<string, V>, name: string, default: V): (r: (V, map<string, V>))
    ensures name in r.1 && r.1[name] == r.0
    ensures r.1.Keys == m.Keys + {name}
    ensures forall k :: k in m ==> k in r.1 && r.1[k] == m[k]
    ensures name !in m ==> r.0 == default
  {
    if name in m then (m[name], m) else (default, m[name := default])
  }

  /** `map[name] = value` */
  function Set<V>(m: map<string, V>, name: string, value: V): (r: map<string, V>)
    ensures r.Keys == m.Keys + {name}
    ensures forall k :: k in m && k != name ==> r[k] == m[k]
  {
    m[name := value]
  }

  /** Reading a name just written gives the value written, and leaves the
      map as the write left it. */
  lemma SetThenGet<V>(m: map<string, V>, name: string, value: V, default: V)
    ensures Get(Set(m, name, value), name, default) == (value, Set(m, name, value))
  {
  }

  /** A write under one name does not change what is read under another. */
  lemma SetOtherGet<V>(m: map<string, V>, name: string, value: V, other: string, default: V)
    requires other != name
    ensures Get(Set(m, name, value), other, default).0 == Get(m, other, default).0
  {
  }

  /** Reading twice reads the same value, and the second read changes
      nothing. */
  lemma GetTwice<V>(m: map<string, V>, name: string, default: V)
    ensures var (v, m1) := Get(m, name, default);
      Get(m1, name, default) == (v, m1)
  {
  }

  /** Reading an absent name and then writing it is the same as writing it. */
  lemma GetThenSet<V>(m: map<string, V>, name: string, value: V, default: V)
    ensures Set(Get(m, name, default).1, name, value) == Set(m, name, value)
  {
  }
}
