/** The transformation stack of MatrixStack.cpp: paired stacks of model and
    normal entries, and the products taken over the model stack. Matrices are
    4x4 arrays of reals; a product of several matrices is kept as the word of
    its factors (the free monoid over matrices, the empty word being the
    identity), so that the order of multiplication is what the contracts
    speak about. */
module MatrixStack {

  predicate IsSquare4(m: seq<seq<real>>) {
    |m| == 4 && forall i :: 0 <= i < 4 ==> |m[i]| == 4
  }

  /** A 4x4 matrix, row by row (`vmml::mat4f`). */
  type Mat4 = m: seq<seq<real>> | IsSquare4(m)
    witness [[1.0, 0.0, 0.0, 0.0], [0.0, 1.0, 0.0, 0.0], [0.0, 0.0, 1.0, 0.0], [0.0, 0.0, 0.0, 1.0]]

  /** `vmml::mat4f::IDENTITY` */
  function Identity(): (m: Mat4)
    ensures forall i, j :: 0 <= i < 4 && 0 <= j < 4 ==> m[i][j] == if i == j then 1.0 else 0.0
  {
    seq(4, i requires 0 <= i < 4 => seq(4, j requires 0 <= j < 4 => if i == j then 1.0 else 0.0))
  }

  /** `transpose_to` */
  function Transpose(m: Mat4): (t: Mat4)
    ensures forall i, j :: 0 <= i < 4 && 0 <= j < 4 ==> t[i][j] == m[j][i]
  {
    seq(4, i requires 0 <= i < 4 => seq(4, j requires 0 <= j < 4 => m[j][i]))
  }

  /** The matrix product. */
  function Mul(a: Mat4, b: Mat4): (c: Mat4)
    ensures forall i, j :: 0 <= i < 4 && 0 <= j < 4 ==>
      c[i][j] == a[i][0] * b[0][j] + a[i][1] * b[1][j] + a[i][2] * b[2][j] + a[i][3] * b[3][j]
  {
    seq(4, i requires 0 <= i < 4 => seq(4, j requires 0 <= j < 4 =>
      a[i][0] * b[0][j] + a[i][1] * b[1][j] + a[i][2] * b[2][j] + a[i][3] * b[3][j]))
  }

  lemma TransposeInvolutive(m: Mat4)
    ensures Transpose(Transpose(m)) == m
  {
    var t := Transpose(Transpose(m));
    forall i | 0 <= i < 4
      ensures t[i] == m[i]
    {
    }
  }

  /** The normal entry pushed with a translation: the identity with the
      translation column negated. */
  function TranslationNormal(m: Mat4): (n: Mat4)
    ensures forall i, j :: 0 <= i < 4 && 0 <= j < 4 ==>
      n[i][j] == if i < 3 && j == 3 then -m[i][3] else if i == j then 1.0 else 0.0
  {
    seq(4, i requires 0 <= i < 4 => seq(4, j requires 0 <= j < 4 =>
      if i < 3 && j == 3 then -m[i][3] else if i == j then 1.0 else 0.0))
  }

  /** The normal entry pushed with a scaling: the identity with the
      reciprocal of every non-zero scale factor on the diagonal; a zero
      factor leaves its 1. */
  function ScalingNormal(m: Mat4): (n: Mat4)
    ensures forall i, j :: 0 <= i < 4 && 0 <= j < 4 ==>
      n[i][j] == if i == j && i < 3 && m[i][i] != 0.0 then 1.0 / m[i][i] else if i == j then 1.0 else 0.0
  {
    seq(4, i requires 0 <= i < 4 => seq(4, j requires 0 <= j < 4 =>
      if i == j && i < 3 && m[i][i] != 0.0 then 1.0 / m[i][i] else if i == j then 1.0 else 0.0))
  }

  /** A pure translation: the identity apart from the translation column. */
  predicate IsTranslation(m: Mat4) {
    forall i, j :: 0 <= i < 4 && 0 <= j < 4 && !(i < 3 && j == 3) ==> m[i][j] == if i == j then 1.0 else 0.0
  }

  /** A pure scaling: diagonal, with 1 in the last diagonal entry. */
  predicate IsScaling(m: Mat4) {
    && m[3][3] == 1.0
    && forall i, j :: 0 <= i < 4 && 0 <= j < 4 && i != j ==> m[i][j] == 0.0
  }

  /** For a pure translation the normal entry is its inverse. */
  lemma TranslationNormalInverts(m: Mat4)
    requires IsTranslation(m)
    ensures Mul(m, TranslationNormal(m)) == Identity()
  {
    var p := Mul(m, TranslationNormal(m));
    var n := TranslationNormal(m);
    forall i | 0 <= i < 4
      ensures p[i] == Identity()[i]
    {
      forall j | 0 <= j < 4
        ensures p[i][j] == Identity()[i][j]
      {
        assert p[i][j] == m[i][0] * n[0][j] + m[i][1] * n[1][j] + m[i][2] * n[2][j] + m[i][3] * n[3][j];
      }
    }
  }

  /** For a pure scaling without zero factors the normal entry is its
      inverse. */
  lemma ScalingNormalInverts(m: Mat4)
    requires IsScaling(m)
    requires m[0][0] != 0.0 && m[1][1] != 0.0 && m[2][2] != 0.0
    ensures Mul(m, ScalingNormal(m)) == Identity()
  {
    var p := Mul(m, ScalingNormal(m));
    forall i | 0 <= i < 4
      ensures p[i] == Identity()[i]
    {
      forall j | 0 <= j < 4
        ensures p[i][j] == Identity()[i][j]
      {
        ScalingEntry(m, i, j);
      }
    }
  }

  /** One entry of the product of a scaling and its normal entry. */
  lemma ScalingEntry(m: Mat4, i: nat, j: nat)
    requires IsScaling(m)
    requires m[0][0] != 0.0 && m[1][1] != 0.0 && m[2][2] != 0.0
    requires i < 4 && j < 4
    ensures Mul(m, ScalingNormal(m))[i][j] == if i == j then 1.0 else 0.0
  {
    var n := ScalingNormal(m);
    DiagonalProductEntry(m, n, i, j);
    if i == j && i < 3 {
      assert n[i][i] == 1.0 / m[i][i];
      assert m[i][i] * (1.0 / m[i][i]) == 1.0;
    } else if i != j {
      assert n[i][j] == 0.0;
    }
  }

  /** Multiplying by a diagonal matrix on the left scales each row. */
  lemma DiagonalProductEntry(m: Mat4, n: Mat4, i: nat, j: nat)
    requires forall a, b :: 0 <= a < 4 && 0 <= b < 4 && a != b ==> m[a][b] == 0.0
    requires i < 4 && j < 4
    ensures Mul(m, n)[i][j] == m[i][i] * n[i][j]
  {
    var row := m[i];
    assert i != 0 ==> row[0] == 0.0;
    assert i != 1 ==> row[1] == 0.0;
    assert i != 2 ==> row[2] == 0.0;
    assert i != 3 ==> row[3] == 0.0;
    var d := SingleTermDot(row[0], row[1], row[2], row[3], n[0][j], n[1][j], n[2][j], n[3][j], i);
    assert d == row[i] * n[i][j];
  }

  /** A dot product in which only the `k`-th factor on the left may be
      non-zero equals that factor's term. */
  lemma SingleTermDot(a0: real, a1: real, a2: real, a3: real, b0: real, b1: real, b2: real, b3: real, k: nat)
    returns (d: real)
    requires k < 4
    requires (k != 0 ==> a0 == 0.0) && (k != 1 ==> a1 == 0.0) && (k != 2 ==> a2 == 0.0) && (k != 3 ==> a3 == 0.0)
    ensures d == a0 * b0 + a1 * b1 + a2 * b2 + a3 * b3
    ensures d == if k == 0 then a0 * b0 else if k == 1 then a1 * b1 else if k == 2 then a2 * b2 else a3 * b3
  {
    d := a0 * b0 + a1 * b1 + a2 * b2 + a3 * b3;
  }

  /** A product of matrices as the word of its factors, leftmost first; the
      empty word is the identity. */
  type Product = seq<Mat4>

  /** The transpose of a product: the factors reversed, each transposed. */
  function TransposeProduct(w: Product): (t: Product)
    ensures |t| == |w|
    ensures forall k :: 0 <= k < |w| ==> t[k] == Transpose(w[|w| - 1 - k])
  {
    seq(|w|, k requires 0 <= k < |w| => Transpose(w[|w| - 1 - k]))
  }

  /** Transposing a product twice gives it back. */
  lemma TransposeProductInvolutive(w: Product)
    ensures TransposeProduct(TransposeProduct(w)) == w
  {
    var t := TransposeProduct(TransposeProduct(w));
    forall k | 0 <= k < |w|
      ensures t[k] == w[k]
    {
      TransposeInvolutive(w[k]);
    }
  }

  /** The transpose of `a * b` is the transpose of `b` times that of `a`. */
  lemma TransposeProductReverses(a: Product, b: Product)
    ensures TransposeProduct(a + b) == TransposeProduct(b) + TransposeProduct(a)
  {
  }

  /** The factors in reverse order. */
  function Reverse(w: Product): (r: Product)
    ensures |r| == |w|
    ensures forall k :: 0 <= k < |w| ==> r[k] == w[|w| - 1 - k]
  {
    seq(|w|, k requires 0 <= k < |w| => w[|w| - 1 - k])
  }

  /** The two stacks; `model` and `normal` grow and shrink together. */
  datatype MatrixStack = MatrixStack(model: seq<Mat4>, normal: seq<Mat4>)

  /** Both stacks hold the same number of entries. */
  predicate Paired(s: MatrixStack) {
    |s.model| == |s.normal|
  }

  /** A freshly constructed stack. */
  function Empty(): (s: MatrixStack)
    ensures Paired(s) && |s.model| == 0
  {
    MatrixStack([], [])
  }

  /** `pushTranslation(m)` */
  function PushTranslation(s: MatrixStack, m: Mat4): (r: MatrixStack)
    ensures |r.model| == |s.model| + 1 && |r.normal| == |s.normal| + 1
    ensures r.model[|s.model|] == m && r.model[..|s.model|] == s.model
    ensures r.normal[..|s.normal|] == s.normal
    ensures IsTranslation(m) ==> Mul(m, r.normal[|s.normal|]) == Identity()
  {
    var r := MatrixStack(s.model + [m], s.normal + [TranslationNormal(m)]);
    if IsTranslation(m) then TranslationNormalInverts(m); r else r
  }

  /** `pushScaling(m)` */
  function PushScaling(s: MatrixStack, m: Mat4): (r: MatrixStack)
    ensures |r.model| == |s.model| + 1 && |r.normal| == |s.normal| + 1
    ensures r.model[|s.model|] == m && r.model[..|s.model|] == s.model
    ensures r.normal[..|s.normal|] == s.normal
    ensures IsScaling(m) && m[0][0] != 0.0 && m[1][1] != 0.0 && m[2][2] != 0.0
      ==> Mul(m, r.normal[|s.normal|]) == Identity()
  {
    var r := MatrixStack(s.model + [m], s.normal + [ScalingNormal(m)]);
    if IsScaling(m) && m[0][0] != 0.0 && m[1][1] != 0.0 && m[2][2] != 0.0 then ScalingNormalInverts(m); r else r
  }

  /** `pushRotation(m)`: the normal entry is the transpose, which is the
      inverse for a rotation. */
  function PushRotation(s: MatrixStack, m: Mat4): (r: MatrixStack)
    ensures |r.model| == |s.model| + 1 && |r.normal| == |s.normal| + 1
    ensures r.model[|s.model|] == m && r.model[..|s.model|] == s.model
    ensures r.normal[..|s.normal|] == s.normal
    ensures Transpose(r.normal[|s.normal|]) == m
  {
    TransposeInvolutive(m);
    MatrixStack(s.model + [m], s.normal + [Transpose(m)])
  }

  /** `popMatrixStack`: both stacks must hold an entry. */
  function Pop(s: MatrixStack): (r: MatrixStack)
    requires |s.model| > 0 && |s.normal| > 0
    ensures |r.model| == |s.model| - 1 && |r.normal| == |s.normal| - 1
    ensures Paired(s) ==> Paired(r)
  {
    MatrixStack(s.model[..|s.model| - 1], s.normal[..|s.normal| - 1])
  }

  /** `clearMatrixStack` */
  function Clear(s: MatrixStack): (r: MatrixStack)
    ensures Paired(r) && |r.model| == 0
  {
    MatrixStack([], [])
  }

  /** Every push keeps the stacks paired, and a pop undoes it. */
  lemma PushPopRoundTrip(s: MatrixStack, m: Mat4)
    ensures Paired(s) ==> Paired(PushTranslation(s, m)) && Paired(PushScaling(s, m)) && Paired(PushRotation(s, m))
    ensures Pop(PushTranslation(s, m)) == s
    ensures Pop(PushScaling(s, m)) == s
    ensures Pop(PushRotation(s, m)) == s
  {
  }

  /** `getModelMatrix`: starting from the identity, multiplies on the right
      by the entries from the top of the stack down. */
  method GetModelMatrix(s: MatrixStack) returns (p: Product)
    ensures p == Reverse(s.model)
  {
    p := [];
    var k := |s.model|;
    while k > 0
      invariant 0 <= k <= |s.model|
      invariant |p| == |s.model| - k
      invariant forall t :: 0 <= t < |p| ==> p[t] == s.model[|s.model| - 1 - t]
    {
      k := k - 1;
      p := p + [s.model[k]];
    }
  }

  /** `getNormalMatrix`: the product of the model entries from the bottom of
      the stack up, transposed. The normal stack is not read. */
  method GetNormalMatrix(s: MatrixStack) returns (p: Product)
    ensures p == TransposeProduct(s.model)
  {
    var product: Product := [];
    var k := 0;
    while k < |s.model|
      invariant 0 <= k <= |s.model|
      invariant product == s.model[..k]
    {
      product := product + [s.model[k]];
      k := k + 1;
    }
    assert product == s.model;
    p := TransposeProduct(product);
  }

  /** The model matrix of an empty stack is the identity, and the entry
      pushed last is the leftmost factor. */
  lemma ModelMatrixOrder(s: MatrixStack, m: Mat4)
    ensures Reverse(Empty().model) == []
    ensures Reverse(PushTranslation(s, m).model) == [m] + Reverse(s.model)
    ensures Reverse(PushScaling(s, m).model) == [m] + Reverse(s.model)
    ensures Reverse(PushRotation(s, m).model) == [m] + Reverse(s.model)
  {
  }

  /** The normal matrix is the transpose of the product of the model
      entries taken bottom-up, which is the model matrix with its factors in
      the opposite order. */
  lemma NormalMatrixOfModel(s: MatrixStack)
    ensures TransposeProduct(Reverse(s.model)) == Reverse(TransposeProduct(s.model))
  {
  }

  /** A push multiplies the normal matrix on the left by the transposed
      entry, where the model matrix gains the entry itself. */
  lemma NormalMatrixOfPush(s: MatrixStack, m: Mat4)
    ensures TransposeProduct(PushTranslation(s, m).model) == [Transpose(m)] + TransposeProduct(s.model)
    ensures TransposeProduct(PushScaling(s, m).model) == [Transpose(m)] + TransposeProduct(s.model)
    ensures TransposeProduct(PushRotation(s, m).model) == [Transpose(m)] + TransposeProduct(s.model)
  {
    TransposeProductReverses(s.model, [m]);
  }
}
