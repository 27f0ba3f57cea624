/**
 * The values an EffectParameter's SetValue overloads take, the flat float layout each of
 * them writes, and the wrapping state-key counter, as pure definitions.
 */
module EffectLayout {
  import opened Numerics

  datatype EffectParameterClass = Scalar | Vector | Matrix | Object | Struct

  datatype EffectParameterType =
    | Void | Bool | Int32 | Single | String
    | Texture | Texture1D | Texture2D | Texture3D | TextureCube

  datatype Vector3 = Vector3(X: real, Y: real, Z: real)
  datatype Vector4 = Vector4(X: real, Y: real, Z: real, W: real)
  datatype Quaternion = Quaternion(X: real, Y: real, Z: real, W: real)

  /** A 4x4 matrix; `Mrc` is the entry in row r, column c (both counted from 1). */
  datatype Matrix4x4 = Matrix4x4(
    M11: real, M12: real, M13: real, M14: real,
    M21: real, M22: real, M23: real, M24: real,
    M31: real, M32: real, M33: real, M34: real,
    M41: real, M42: real, M43: real, M44: real)

  /** The entry in row i + 1 and column j + 1 of `m`: a reference reading of the matrix by index. */
  function At(m: Matrix4x4, i: nat, j: nat): real
    requires i < 4 && j < 4
  {
    if i == 0 then (if j == 0 then m.M11 else if j == 1 then m.M12 else if j == 2 then m.M13 else m.M14)
    else if i == 1 then (if j == 0 then m.M21 else if j == 1 then m.M22 else if j == 2 then m.M23 else m.M24)
    else if i == 2 then (if j == 0 then m.M31 else if j == 1 then m.M32 else if j == 2 then m.M33 else m.M34)
    else (if j == 0 then m.M41 else if j == 1 then m.M42 else if j == 2 then m.M43 else m.M44)
  }

  /** The components the vector overloads store, in the order they store them (X, Y, Z, W). */
  function Vector2Components(v: Vector2): seq<real> { [v.X, v.Y] }
  function Vector3Components(v: Vector3): seq<real> { [v.X, v.Y, v.Z] }
  function Vector4Components(v: Vector4): seq<real> { [v.X, v.Y, v.Z, v.W] }
  function QuaternionComponents(q: Quaternion): seq<real> { [q.X, q.Y, q.Z, q.W] }

  /** The component lists of each vector of an array, in array order. */
  function EachVector2(value: seq<Vector2>): (r: seq<seq<real>>)
  {
    seq(|value|, i requires 0 <= i < |value| => Vector2Components(value[i]))
  }

  function EachVector3(value: seq<Vector3>): (r: seq<seq<real>>)
  {
    seq(|value|, i requires 0 <= i < |value| => Vector3Components(value[i]))
  }

  function EachVector4(value: seq<Vector4>): (r: seq<seq<real>>)
  {
    seq(|value|, i requires 0 <= i < |value| => Vector4Components(value[i]))
  }

  /** The RowCount x ColumnCount shapes for which the matrix overloads store anything. */
  predicate SupportedShape(rows: int, columns: int)
  {
    (rows == 4 && columns == 4) || (rows == 4 && columns == 3) || (rows == 3 && columns == 4) ||
    (rows == 3 && columns == 3) || (rows == 3 && columns == 2)
  }

  /**
   * The floats a matrix overload stores for a parameter of shape rows x columns, in store
   * order: element k goes to Data[k]. The shapes are spelt out entry by entry, as the
   * unrolled stores do; an unsupported shape stores nothing.
   */
  function MatrixStores(m: Matrix4x4, rows: int, columns: int): seq<real>
  {
    if rows == 4 && columns == 4 then
      [m.M11, m.M21, m.M31, m.M41, m.M12, m.M22, m.M32, m.M42,
       m.M13, m.M23, m.M33, m.M43, m.M14, m.M24, m.M34, m.M44]
    else if rows == 4 && columns == 3 then
      [m.M11, m.M21, m.M31, m.M41, m.M12, m.M22, m.M32, m.M42,
       m.M13, m.M23, m.M33, m.M43]
    else if rows == 3 && columns == 4 then
      [m.M11, m.M21, m.M31, m.M12, m.M22, m.M32,
       m.M13, m.M23, m.M33, m.M14, m.M24, m.M34]
    else if rows == 3 && columns == 3 then
      [m.M11, m.M21, m.M31, m.M12, m.M22, m.M32, m.M13, m.M23, m.M33]
    else if rows == 3 && columns == 2 then
      [m.M11, m.M21, m.M31, m.M12, m.M22, m.M32]
    else
      []
  }

  /** The stores of one matrix overload for each matrix of an array, in array order. */
  function MatrixStoresEach(values: seq<Matrix4x4>, rows: int, columns: int): (r: seq<seq<real>>)
    ensures |r| == |values|
    ensures forall i :: 0 <= i < |values| ==> r[i] == MatrixStores(values[i], rows, columns)
  {
    if values == [] then [] else [MatrixStores(values[0], rows, columns)] + MatrixStoresEach(values[1..], rows, columns)
  }

  /**
   * The stores transpose the matrix into column-major order: for every supported shape,
   * Data[rows * j + i] receives the entry in row i + 1 and column j + 1, and exactly
   * rows * columns floats are stored; an unsupported shape stores none.
   */
  lemma MatrixStoresTransposed(m: Matrix4x4, rows: int, columns: int)
    ensures SupportedShape(rows, columns) ==>
      && |MatrixStores(m, rows, columns)| == rows * columns
      && forall i: nat, j: nat :: i < rows && j < columns ==>
           MatrixStores(m, rows, columns)[rows * j + i] == At(m, i, j)
    ensures !SupportedShape(rows, columns) ==> MatrixStores(m, rows, columns) == []
  {
    var s := MatrixStores(m, rows, columns);
    if rows == 4 && columns == 4 {
      forall i: nat, j: nat | i < 4 && j < 4 ensures s[4 * j + i] == At(m, i, j) {
        assert 4 * j + i < 16;
      }
    } else if rows == 4 && columns == 3 {
      forall i: nat, j: nat | i < 4 && j < 3 ensures s[4 * j + i] == At(m, i, j) {
        assert 4 * j + i < 12;
      }
    } else if rows == 3 && columns == 4 {
      forall i: nat, j: nat | i < 3 && j < 4 ensures s[3 * j + i] == At(m, i, j) {
        assert 3 * j + i < 12;
      }
    } else if rows == 3 && columns == 3 {
      forall i: nat, j: nat | i < 3 && j < 3 ensures s[3 * j + i] == At(m, i, j) {
        assert 3 * j + i < 9;
      }
    } else if rows == 3 && columns == 2 {
      forall i: nat, j: nat | i < 3 && j < 2 ensures s[3 * j + i] == At(m, i, j) {
        assert 3 * j + i < 6;
      }
    }
  }

  /**
   * The contents of a float array after storing `stores[k]` into index k, in order, for as
   * many k as the array has room: the stored prefix replaces the old entries, the rest stay.
   */
  function Overwrite(data: seq<real>, stores: seq<real>): (r: seq<real>)
    ensures |r| == |data|
    ensures forall k :: 0 <= k < |data| ==> r[k] == (if k < |stores| then stores[k] else data[k])
  {
    if |stores| <= |data| then stores + data[|stores|..] else stores[..|data|]
  }

  /**
   * A matrix store leaves Data in the transposed layout: the first rows * columns entries hold
   * the matrix column by column and every later entry is untouched.
   */
  lemma MatrixOverwriteLayout(data: seq<real>, m: Matrix4x4, rows: int, columns: int)
    requires SupportedShape(rows, columns)
    requires rows * columns <= |data|
    ensures var d := Overwrite(data, MatrixStores(m, rows, columns));
      && (forall i: nat, j: nat :: i < rows && j < columns ==> d[rows * j + i] == At(m, i, j))
      && (forall k :: rows * columns <= k < |data| ==> d[k] == data[k])
  {
    MatrixStoresTransposed(m, rows, columns);
    var d := Overwrite(data, MatrixStores(m, rows, columns));
    forall i: nat, j: nat | i < rows && j < columns ensures d[rows * j + i] == At(m, i, j) {
      assert rows * j + i < rows * columns by {
        assert j + 1 <= columns;
        assert rows * (j + 1) <= rows * columns;
      }
    }
  }

  /** StateKey and NextStateKey are 64-bit unsigned integers; `unchecked` makes them wrap. */
  const StateKeyModulus: int := 0x1_0000_0000_0000_0000

  type StateKey = k: int | 0 <= k < StateKeyModulus

  /** The counter value n increments after `start`, wrapping around at 2^64. */
  function Advance(start: StateKey, n: nat): StateKey
  {
    (start + n) % StateKeyModulus
  }

  /** One more increment of an advanced counter advances it one step further. */
  lemma AdvanceStep(start: StateKey, n: nat)
    ensures Advance(Advance(start, n), 1) == Advance(start, n + 1)
  {
    var q := (start + n) / StateKeyModulus;
    var a := (start + n) % StateKeyModulus;
    assert start + n == q * StateKeyModulus + a;
    if a + 1 == StateKeyModulus {
      assert start + n + 1 == (q + 1) * StateKeyModulus;
    } else {
      assert start + n + 1 == q * StateKeyModulus + (a + 1);
    }
  }

  /**
   * Change detection: fewer than 2^64 increments never bring the counter back to a value it
   * has already handed out.
   */
  lemma AdvanceDistinct(start: StateKey, m: nat, n: nat)
    requires m < n < StateKeyModulus + m
    ensures Advance(start, m) != Advance(start, n)
  {
    var q := (start + m) / StateKeyModulus;
    var a := Advance(start, m);
    var d := n - m;
    assert start + m == q * StateKeyModulus + a;
    if a + d < StateKeyModulus {
      assert start + n == q * StateKeyModulus + (a + d);
      assert Advance(start, n) == a + d;
    } else {
      assert start + n == (q + 1) * StateKeyModulus + (a + d - StateKeyModulus);
      assert Advance(start, n) == a + d - StateKeyModulus;
    }
  }
}
