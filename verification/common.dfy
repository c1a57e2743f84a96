/** Shared vocabulary of the model: nullable shared pointers, optional values,
    string concatenation, decimal rendering of counters and the 16-bit
    unsigned wrap-around of OpenGL index types. */
module Common {

  /** A `std::shared_ptr`: either null or pointing at a target. */
  datatype Ptr<+T> = Null | Ptr(target: T)

  /** An optional value (an out-parameter that may be left unwritten). */
  datatype Option<+T> = None | Some(value: T)

  /** A three-component vector of reals (`vmml::vec3f`, `Point3`, `Vector3`). */
  datatype Vec3 = Vec3(x: real, y: real, z: real)

  /** The zero vector, what a default-constructed vector holds in this model. */
  const Zero3: Vec3 := Vec3(0.0, 0.0, 0.0)

  /** Concatenation of a list of pieces (strings, token runs), in order. */
  function Concat<T>(parts: seq<seq<T>>): (s: seq<T>)
    ensures |parts| == 0 ==> s == []
  {
    if |parts| == 0 then [] else Concat(parts[..|parts| - 1]) + parts[|parts| - 1]
  }

  lemma {:induction false} ConcatAppend<T>(a: seq<seq<T>>, b: seq<seq<T>>)
    ensures Concat(a + b) == Concat(a) + Concat(b)
    decreases |b|
  {
    if |b| == 0 {
      assert a + b == a;
    } else {
      assert (a + b)[..|a + b| - 1] == a + b[..|b| - 1];
      ConcatAppend(a, b[..|b| - 1]);
    }
  }

  lemma ConcatSingle<T>(p: seq<T>)
    ensures Concat([p]) == p
  {
    assert [p][..0] == [];
  }

  /** An element of the concatenation comes from one of the pieces. */
  lemma {:induction false} ConcatMember<T>(x: T, parts: seq<seq<T>>)
    ensures x in Concat(parts) <==> exists i :: 0 <= i < |parts| && x in parts[i]
    decreases |parts|
  {
    if |parts| > 0 {
      var init := parts[..|parts| - 1];
      ConcatMember(x, init);
      if x in Concat(parts) && x !in parts[|parts| - 1] {
        var i :| 0 <= i < |init| && x in init[i];
        assert x in parts[i];
      }
      if exists i :: 0 <= i < |parts| && x in parts[i] {
        var i :| 0 <= i < |parts| && x in parts[i];
        if i < |parts| - 1 {
          assert x in init[i];
        }
      }
    }
  }

  /** A character of `0` to `9`. */
  predicate IsDigit(c: char) {
    '0' <= c <= '9'
  }

  function DigitValue(c: char): (d: nat)
    requires IsDigit(c)
    ensures d < 10
  {
    c as int - '0' as int
  }

  function DigitChar(d: nat): (c: char)
    requires d < 10
    ensures IsDigit(c) && c as int - '0' as int == d
  {
    "0123456789"[d]
  }

  /** Decimal rendering of a natural number without leading zeros, as
      `boost::lexical_cast<std::string>` of an unsigned value produces it. */
  function NatToString(n: nat): (s: string)
    ensures 0 < |s|
    ensures forall i :: 0 <= i < |s| ==> IsDigit(s[i])
    ensures 1 < |s| ==> s[0] != '0'
    decreases n
  {
    if n < 10 then [DigitChar(n)] else NatToString(n / 10) + [DigitChar(n % 10)]
  }

  /** Reads a string of digits as a decimal number (the inverse of
      `NatToString`). */
  function ParseDecimal(s: string): (n: nat)
    requires forall i :: 0 <= i < |s| ==> IsDigit(s[i])
  {
    if |s| == 0 then 0
    else ParseDecimal(s[..|s| - 1]) * 10 + DigitValue(s[|s| - 1])
  }

  lemma {:induction false} ParseNatToString(n: nat)
    ensures ParseDecimal(NatToString(n)) == n
    decreases n
  {
    if n >= 10 {
      var s := NatToString(n);
      assert s[..|s| - 1] == NatToString(n / 10);
      ParseNatToString(n / 10);
    }
  }

  /** Decimal rendering is injective: distinct counters give distinct names. */
  lemma NatToStringInjective(m: nat, n: nat)
    ensures NatToString(m) == NatToString(n) <==> m == n
  {
    if NatToString(m) == NatToString(n) {
      ParseNatToString(m);
      ParseNatToString(n);
    }
  }

  /** Number of distinct values of a `GLushort`. */
  const UshortModulus: nat := 65536

  /** The value an integer takes once stored in a `GLushort` (wraps modulo 2^16). */
  function Ushort(i: int): (u: nat)
    ensures u < UshortModulus
    ensures 0 <= i < UshortModulus ==> u == i
    ensures (u - i) % UshortModulus == 0
  {
    i % UshortModulus
  }
}
