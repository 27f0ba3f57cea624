/**
 * EffectParameter's SetValue overloads: type checks, flat float stores into Data, and the
 * StateKey stamp taken from the process-wide NextStateKey counter.
 */
module EffectParameters {
  import opened Wrappers
  import opened EffectLayout
  import opened Numerics

  /** The exceptions the overloads throw: a class/type mismatch, or an index past an array's end. */
  datatype SetValueError = InvalidCast | IndexOutOfRange

  /** The static NextStateKey, shared by every parameter of the process. */
  class StateKeyCounter {
    var NextStateKey: StateKey

    constructor (start: StateKey)
      ensures NextStateKey == start
    {
      NextStateKey := start;
    }
  }

  /**
   * Stores `stores[k]` into fData[k] for k = 0, 1, ... in that order, as the unrolled
   * assignments do; a store past the end of fData throws, leaving the stores before it done.
   */
  method StoreFloats(fData: array<real>, stores: seq<real>) returns (ok: bool)
    modifies fData
    ensures ok <==> |stores| <= fData.Length
    ensures fData[..] == Overwrite(old(fData[..]), stores)
  {
    var k := 0;
    while k < |stores|
      invariant 0 <= k <= |stores| && k <= fData.Length
      invariant fData[..] == Overwrite(old(fData[..]), stores[..k])
    {
      if k == fData.Length {
        assert Overwrite(old(fData[..]), stores[..k]) == Overwrite(old(fData[..]), stores);
        return false;
      }
      fData[k] := stores[k];
      k := k + 1;
      assert fData[..] == Overwrite(old(fData[..]), stores[..k]);
    }
    assert stores[..k] == stores;
    return true;
  }

  /**
   * Whether element `e` takes `stores` without throwing: it has room for them and, when its
   * own SetValue runs (`checkClass`), it is a vector of floats.
   */
  predicate Accepts(e: EffectParameter, stores: seq<real>, checkClass: bool)
  {
    (!checkClass || e.IsFloatVector()) && |stores| <= e.Data.Length
  }

  /**
   * The index at which an array overload stops: the first i from `from` on where the
   * element is missing or does not accept values[i], or |values| if there is none.
   */
  function FirstRejected(elements: seq<EffectParameter>, values: seq<seq<real>>, checkClass: bool, from: nat): (k: nat)
    requires from <= |values|
    ensures from <= k <= |values|
    ensures k == from || k <= |elements|
    ensures forall i :: from <= i < k ==> Accepts(elements[i], values[i], checkClass)
    ensures k < |values| ==> k >= |elements| || !Accepts(elements[k], values[k], checkClass)
    decreases |values| - from
  {
    if from == |values| then from
    else if from >= |elements| || !Accepts(elements[from], values[from], checkClass) then from
    else FirstRejected(elements, values, checkClass, from + 1)
  }

  /**
   * FirstRejected is the first rejection: an index before which every element accepts and
   * at which the values end or the element is missing or rejects, is the one it returns.
   */
  lemma {:induction false} FirstRejectedAt(elements: seq<EffectParameter>, values: seq<seq<real>>, checkClass: bool, from: nat, i: nat)
    requires from <= i <= |values|
    requires i == from || i <= |elements|
    requires forall j :: from <= j < i ==> Accepts(elements[j], values[j], checkClass)
    requires i == |values| || i >= |elements| || !Accepts(elements[i], values[i], checkClass)
    ensures FirstRejected(elements, values, checkClass, from) == i
    decreases i - from
  {
    if from < i {
      FirstRejectedAt(elements, values, checkClass, from + 1, i);
    }
  }

  class EffectParameter {
    const ParameterClass: EffectParameterClass
    const ParameterType: EffectParameterType
    const RowCount: int
    const ColumnCount: int
    /** The parameter's value as a float array (the `(float[])Data` the overloads cast to). */
    const Data: array<real>
    const Elements: seq<EffectParameter>
    const Counter: StateKeyCounter
    var StateKey: StateKey

    constructor (parameterClass: EffectParameterClass, parameterType: EffectParameterType,
                 rowCount: int, columnCount: int, data: array<real>,
                 elements: seq<EffectParameter>, counter: StateKeyCounter)
      requires forall i :: 0 <= i < |elements| ==> elements[i].Data != data && elements[i].Counter == counter
      requires forall i, j :: 0 <= i < j < |elements| ==>
        elements[i] != elements[j] && elements[i].Data != elements[j].Data
      ensures Valid()
      ensures ParameterClass == parameterClass && ParameterType == parameterType
      ensures RowCount == rowCount && ColumnCount == columnCount
      ensures Data == data && Elements == elements && Counter == counter && StateKey == 0
    {
      ParameterClass, ParameterType := parameterClass, parameterType;
      RowCount, ColumnCount := rowCount, columnCount;
      Data, Elements, Counter := data, elements, counter;
      StateKey := 0;
    }

    /**
     * The shape of an array parameter: its elements are distinct objects with distinct data
     * arrays, none of them is the parameter itself or shares its data, and all share its counter.
     */
    predicate Valid()
    {
      && (forall i :: 0 <= i < |Elements| ==>
            Elements[i] != this && Elements[i].Data != Data && Elements[i].Counter == Counter)
      && (forall i, j :: 0 <= i < j < |Elements| ==>
            Elements[i] != Elements[j] && Elements[i].Data != Elements[j].Data)
    }

    predicate IsFloatVector() { ParameterClass == Vector && ParameterType == Single }

    predicate IsFloatMatrix() { ParameterClass == Matrix && ParameterType == Single }

    /** The data arrays of the elements. */
    function ElementData(): set<array<real>>
    {
      set i | 0 <= i < |Elements| :: Elements[i].Data
    }

    /** `StateKey = unchecked(NextStateKey++)`. */
    method Stamp()
      modifies this`StateKey, Counter
      ensures StateKey == old(Counter.NextStateKey)
      ensures Counter.NextStateKey == Advance(old(Counter.NextStateKey), 1)
    {
      StateKey := Counter.NextStateKey;
      Counter.NextStateKey := Advance(Counter.NextStateKey, 1);
    }

    /**
     * The body shared by the Vector2, Vector3, Vector4 and Quaternion overloads: check that
     * the parameter is a float vector, store the components from Data[0] on, stamp StateKey.
     */
    method SetVectorComponents(components: seq<real>) returns (r: Outcome<SetValueError>)
      modifies Data, this`StateKey, Counter
      ensures r == (if !IsFloatVector() then Fail(InvalidCast)
                    else if |components| > Data.Length then Fail(IndexOutOfRange) else Pass)
      ensures Data[..] == (if IsFloatVector() then Overwrite(old(Data[..]), components) else old(Data[..]))
      ensures r.Pass? ==> (StateKey == old(Counter.NextStateKey)
                           && Counter.NextStateKey == Advance(old(Counter.NextStateKey), 1))
      ensures r.Fail? ==> StateKey == old(StateKey) && Counter.NextStateKey == old(Counter.NextStateKey)
    {
      if !IsFloatVector() {
        return Fail(InvalidCast);
      }
      var ok := StoreFloats(Data, components);
      if !ok {
        return Fail(IndexOutOfRange);
      }
      Stamp();
      r := Pass;
    }

    method SetValueVector2(value: Vector2) returns (r: Outcome<SetValueError>)
      modifies Data, this`StateKey, Counter
      ensures r == (if !IsFloatVector() then Fail(InvalidCast)
                    else if Data.Length < 2 then Fail(IndexOutOfRange) else Pass)
      ensures Data[..] == (if IsFloatVector() then Overwrite(old(Data[..]), [value.X, value.Y]) else old(Data[..]))
      ensures r.Pass? ==> (StateKey == old(Counter.NextStateKey)
                           && Counter.NextStateKey == Advance(old(Counter.NextStateKey), 1))
      ensures r.Fail? ==> StateKey == old(StateKey) && Counter.NextStateKey == old(Counter.NextStateKey)
    {
      r := SetVectorComponents(Vector2Components(value));
    }

    method SetValueVector3(value: Vector3) returns (r: Outcome<SetValueError>)
      modifies Data, this`StateKey, Counter
      ensures r == (if !IsFloatVector() then Fail(InvalidCast)
                    else if Data.Length < 3 then Fail(IndexOutOfRange) else Pass)
      ensures Data[..] == (if IsFloatVector() then Overwrite(old(Data[..]), [value.X, value.Y, value.Z]) else old(Data[..]))
      ensures r.Pass? ==> (StateKey == old(Counter.NextStateKey)
                           && Counter.NextStateKey == Advance(old(Counter.NextStateKey), 1))
      ensures r.Fail? ==> StateKey == old(StateKey) && Counter.NextStateKey == old(Counter.NextStateKey)
    {
      r := SetVectorComponents(Vector3Components(value));
    }

    method SetValueVector4(value: Vector4) returns (r: Outcome<SetValueError>)
      modifies Data, this`StateKey, Counter
      ensures r == (if !IsFloatVector() then Fail(InvalidCast)
                    else if Data.Length < 4 then Fail(IndexOutOfRange) else Pass)
      ensures Data[..] == (if IsFloatVector() then Overwrite(old(Data[..]), [value.X, value.Y, value.Z, value.W]) else old(Data[..]))
      ensures r.Pass? ==> (StateKey == old(Counter.NextStateKey)
                           && Counter.NextStateKey == Advance(old(Counter.NextStateKey), 1))
      ensures r.Fail? ==> StateKey == old(StateKey) && Counter.NextStateKey == old(Counter.NextStateKey)
    {
      r := SetVectorComponents(Vector4Components(value));
    }

    method SetValueQuaternion(value: Quaternion) returns (r: Outcome<SetValueError>)
      modifies Data, this`StateKey, Counter
      ensures r == (if !IsFloatVector() then Fail(InvalidCast)
                    else if Data.Length < 4 then Fail(IndexOutOfRange) else Pass)
      ensures Data[..] == (if IsFloatVector() then Overwrite(old(Data[..]), [value.X, value.Y, value.Z, value.W]) else old(Data[..]))
      ensures r.Pass? ==> (StateKey == old(Counter.NextStateKey)
                           && Counter.NextStateKey == Advance(old(Counter.NextStateKey), 1))
      ensures r.Fail? ==> StateKey == old(StateKey) && Counter.NextStateKey == old(Counter.NextStateKey)
    {
      r := SetVectorComponents(QuaternionComponents(value));
    }

    /** `this[i].SetValue(value)` for one element of the array: the other elements stay as they are. */
    method SetElement(i: nat, components: seq<real>) returns (r: Outcome<SetValueError>)
      requires Valid() && i < |Elements|
      modifies Elements[i].Data, Elements[i], Counter
      ensures r.Pass? <==> Accepts(Elements[i], components, true)
      ensures r.Fail? ==> r.error == (if !Elements[i].IsFloatVector() then InvalidCast else IndexOutOfRange)
      ensures Elements[i].Data[..] ==
        (if Elements[i].IsFloatVector() then Overwrite(old(Elements[i].Data[..]), components) else old(Elements[i].Data[..]))
      ensures r.Pass? ==> (Elements[i].StateKey == old(Counter.NextStateKey)
                           && Counter.NextStateKey == Advance(old(Counter.NextStateKey), 1))
      ensures r.Fail? ==> Elements[i].StateKey == old(Elements[i].StateKey) && Counter.NextStateKey == old(Counter.NextStateKey)
      ensures forall j :: 0 <= j < |Elements| && j != i ==>
        Elements[j].Data[..] == old(Elements[j].Data[..]) && Elements[j].StateKey == old(Elements[j].StateKey)
    {
      r := Elements[i].SetVectorComponents(components);
    }

    /**
     * The loop of the Vector2[], Vector3[] and Vector4[] overloads: run each element's own
     * SetValue on values[i] in order and stop at the first exception, which is returned
     * together with the index it came from.
     */
    method SetEachElement(values: seq<seq<real>>) returns (i: nat, r: Outcome<SetValueError>)
      requires Valid()
      modifies Counter, Elements, ElementData()
      ensures i <= |values|
      ensures i <= |Elements|
      ensures forall j :: 0 <= j < i ==> Accepts(Elements[j], values[j], true)
      ensures r.Pass? ==> i == |values|
      ensures r.Fail? ==> i < |values| && (i >= |Elements| || !Accepts(Elements[i], values[i], true))
      ensures r.Fail? ==> r.error == (if i < |Elements| && !Elements[i].IsFloatVector() then InvalidCast else IndexOutOfRange)
      ensures forall j :: 0 <= j < i ==>
        (Elements[j].Data[..] == Overwrite(old(Elements[j].Data[..]), values[j]) &&
         Elements[j].StateKey == Advance(old(Counter.NextStateKey), j))
      ensures r.Fail? && i < |Elements| ==>
        Elements[i].Data[..] == (if Elements[i].IsFloatVector() then Overwrite(old(Elements[i].Data[..]), values[i])
                                 else old(Elements[i].Data[..]))
      ensures forall j :: i <= j < |Elements| ==> Elements[j].StateKey == old(Elements[j].StateKey)
      ensures forall j :: i < j < |Elements| || (r.Pass? && i == j < |Elements|) ==>
        Elements[j].Data[..] == old(Elements[j].Data[..])
      ensures Counter.NextStateKey == Advance(old(Counter.NextStateKey), i)
    {
      i := 0;
      r := Pass;
      while i < |values|
        invariant 0 <= i <= |values| && i <= |Elements|
        invariant forall j :: 0 <= j < i ==> Accepts(Elements[j], values[j], true)
        invariant forall j :: 0 <= j < i ==>
          (Elements[j].Data[..] == Overwrite(old(Elements[j].Data[..]), values[j]) &&
           Elements[j].StateKey == Advance(old(Counter.NextStateKey), j))
        invariant forall j :: i <= j < |Elements| ==>
          Elements[j].Data[..] == old(Elements[j].Data[..]) && Elements[j].StateKey == old(Elements[j].StateKey)
        invariant Counter.NextStateKey == Advance(old(Counter.NextStateKey), i)
        invariant r.Pass?
      {
        if i >= |Elements| {
          r := Fail(IndexOutOfRange);
          return;
        }
        r := SetElement(i, values[i]);
        if r.Fail? {
          return;
        }
        AdvanceStep(old(Counter.NextStateKey), i);
        i := i + 1;
      }
    }

    /**
     * What the vector-array overloads leave behind, with k the index of the first element
     * that is missing or rejects its value (|values| if none): elements before k hold their
     * value and the k-th key of the counter; element k is left as its own failing SetValue
     * left it; later elements are untouched; the counter has moved k steps, plus one for this
     * parameter's own stamp when nothing was thrown.
     */
    twostate predicate VectorArraySet(values: seq<seq<real>>, new r: Outcome<SetValueError>)
      reads this, Counter, Elements, ElementData()
    {
      var k := FirstRejected(Elements, values, true, 0);
      && (r.Pass? <==> k == |values|)
      && (r.Fail? ==> r.error == (if k < |Elements| && !Elements[k].IsFloatVector() then InvalidCast else IndexOutOfRange))
      && (forall j :: 0 <= j < k ==>
            (Elements[j].Data[..] == Overwrite(old(Elements[j].Data[..]), values[j]) &&
             Elements[j].StateKey == Advance(old(Counter.NextStateKey), j)))
      && (r.Fail? && k < |Elements| ==>
            Elements[k].Data[..] == (if Elements[k].IsFloatVector() then Overwrite(old(Elements[k].Data[..]), values[k])
                                     else old(Elements[k].Data[..])))
      && (forall j :: k <= j < |Elements| ==> Elements[j].StateKey == old(Elements[j].StateKey))
      && (forall j :: k < j < |Elements| || (r.Pass? && k == j < |Elements|) ==>
            Elements[j].Data[..] == old(Elements[j].Data[..]))
      && Counter.NextStateKey == Advance(old(Counter.NextStateKey), if r.Pass? then k + 1 else k)
      && StateKey == (if r.Pass? then Advance(old(Counter.NextStateKey), k) else old(StateKey))
    }

    /**
     * The body shared by the Vector2[], Vector3[] and Vector4[] overloads (values[i] holds
     * the components of value[i]): each element's own SetValue runs on its value, in order,
     * and the first exception propagates; if none is thrown this parameter is stamped as
     * well. The parameter's own class and type are not checked, and its Data is not written.
     */
    method SetVectorArray(values: seq<seq<real>>) returns (r: Outcome<SetValueError>)
      requires Valid()
      modifies this`StateKey, Counter, Elements, ElementData()
      ensures VectorArraySet(values, r)
      ensures Data[..] == old(Data[..])
    {
      var i;
      i, r := SetEachElement(values);
      FirstRejectedAt(Elements, values, true, 0, i);
      if r.Pass? {
        AdvanceStep(old(Counter.NextStateKey), i);
        Stamp();
      }
    }

    method SetValueVector2Array(value: seq<Vector2>) returns (r: Outcome<SetValueError>)
      requires Valid()
      modifies this`StateKey, Counter, Elements, ElementData()
      ensures VectorArraySet(EachVector2(value), r)
      ensures Data[..] == old(Data[..])
    {
      r := SetVectorArray(EachVector2(value));
    }

    method SetValueVector3Array(value: seq<Vector3>) returns (r: Outcome<SetValueError>)
      requires Valid()
      modifies this`StateKey, Counter, Elements, ElementData()
      ensures VectorArraySet(EachVector3(value), r)
      ensures Data[..] == old(Data[..])
    {
      r := SetVectorArray(EachVector3(value));
    }

    method SetValueVector4Array(value: seq<Vector4>) returns (r: Outcome<SetValueError>)
      requires Valid()
      modifies this`StateKey, Counter, Elements, ElementData()
      ensures VectorArraySet(EachVector4(value), r)
      ensures Data[..] == old(Data[..])
    {
      r := SetVectorArray(EachVector4(value));
    }

    /**
     * The Matrix4x4 overload: check that the parameter is a float matrix, store the matrix
     * transposed for a supported RowCount x ColumnCount shape (nothing for any other shape),
     * and stamp StateKey.
     */
    method SetValueMatrix(value: Matrix4x4) returns (r: Outcome<SetValueError>)
      modifies Data, this`StateKey, Counter
      ensures r == (if !IsFloatMatrix() then Fail(InvalidCast)
                    else if |MatrixStores(value, RowCount, ColumnCount)| > Data.Length then Fail(IndexOutOfRange)
                    else Pass)
      ensures Data[..] == (if IsFloatMatrix() then Overwrite(old(Data[..]), MatrixStores(value, RowCount, ColumnCount))
                           else old(Data[..]))
      ensures IsFloatMatrix() && !SupportedShape(RowCount, ColumnCount) ==> r.Pass? && Data[..] == old(Data[..])
      ensures r.Pass? ==> (StateKey == old(Counter.NextStateKey)
                           && Counter.NextStateKey == Advance(old(Counter.NextStateKey), 1))
      ensures r.Fail? ==> StateKey == old(StateKey) && Counter.NextStateKey == old(Counter.NextStateKey)
    {
      if !IsFloatMatrix() {
        return Fail(InvalidCast);
      }
      MatrixStoresTransposed(value, RowCount, ColumnCount);
      if SupportedShape(RowCount, ColumnCount) {
        var ok := StoreFloats(Data, MatrixStores(value, RowCount, ColumnCount));
        if !ok {
          return Fail(IndexOutOfRange);
        }
      } else {
        assert Data[..] == Overwrite(old(Data[..]), []);
      }
      Stamp();
      r := Pass;
    }

    /**
     * The loop of the Matrix4x4[] overload for a supported shape: store stores[i] into
     * Elements[i].Data for each i in order, stopping at the first missing element or
     * overlong store. No element is type-checked and no element is stamped.
     */
    method StoreEachElement(stores: seq<seq<real>>) returns (i: nat, ok: bool)
      requires Valid()
      modifies ElementData()
      ensures i == FirstRejected(Elements, stores, false, 0)
      ensures ok <==> i == |stores|
      ensures forall j :: 0 <= j < i ==>
        (Elements[j].Data[..] == Overwrite(old(Elements[j].Data[..]), stores[j]))
      ensures !ok && i < |Elements| ==> Elements[i].Data[..] == Overwrite(old(Elements[i].Data[..]), stores[i])
      ensures forall j :: i < j < |Elements| || (ok && i == j < |Elements|) ==>
        Elements[j].Data[..] == old(Elements[j].Data[..])
    {
      i := 0;
      while i < |stores|
        invariant 0 <= i <= |stores| && i <= |Elements|
        invariant forall j :: 0 <= j < i ==> Accepts(Elements[j], stores[j], false)
        invariant forall j :: 0 <= j < i ==>
          (Elements[j].Data[..] == Overwrite(old(Elements[j].Data[..]), stores[j]))
        invariant forall j :: i <= j < |Elements| ==> Elements[j].Data[..] == old(Elements[j].Data[..])
      {
        if i >= |Elements| {
          FirstRejectedAt(Elements, stores, false, 0, i);
          ok := false;
          return;
        }
        ok := StoreFloats(Elements[i].Data, stores[i]);
        if !ok {
          FirstRejectedAt(Elements, stores, false, 0, i);
          return;
        }
        i := i + 1;
      }
      FirstRejectedAt(Elements, stores, false, 0, i);
      ok := true;
    }

    /**
     * The Matrix4x4[] overload: check this parameter's class and type once, then, for a
     * supported shape of this parameter, store each value[i] transposed into Elements[i].Data;
     * stamp this parameter (only) once at the end. An unsupported shape stores nothing and
     * still stamps.
     */
    method SetValueMatrixArray(value: seq<Matrix4x4>) returns (r: Outcome<SetValueError>)
      requires Valid()
      modifies this`StateKey, Counter, ElementData()
      ensures !IsFloatMatrix() ==> r == Fail(InvalidCast)
      ensures IsFloatMatrix() && !SupportedShape(RowCount, ColumnCount) ==> r == Pass
      ensures IsFloatMatrix() && SupportedShape(RowCount, ColumnCount) ==>
        var stores := MatrixStoresEach(value, RowCount, ColumnCount);
        var k := FirstRejected(Elements, stores, false, 0);
        && (r.Pass? <==> k == |value|)
        && (r.Fail? ==> r.error == IndexOutOfRange)
        && (forall j :: 0 <= j < k ==>
              (Elements[j].Data[..] == Overwrite(old(Elements[j].Data[..]), stores[j])))
        && (r.Fail? && k < |Elements| ==> Elements[k].Data[..] == Overwrite(old(Elements[k].Data[..]), stores[k]))
        && (forall j :: k < j < |Elements| || (r.Pass? && k == j < |Elements|) ==>
              Elements[j].Data[..] == old(Elements[j].Data[..]))
      ensures !(IsFloatMatrix() && SupportedShape(RowCount, ColumnCount)) ==>
        forall j :: 0 <= j < |Elements| ==> Elements[j].Data[..] == old(Elements[j].Data[..])
      ensures r.Pass? ==> (StateKey == old(Counter.NextStateKey)
                           && Counter.NextStateKey == Advance(old(Counter.NextStateKey), 1))
      ensures r.Fail? ==> StateKey == old(StateKey) && Counter.NextStateKey == old(Counter.NextStateKey)
      ensures forall j :: 0 <= j < |Elements| ==> Elements[j].StateKey == old(Elements[j].StateKey)
      ensures Data[..] == old(Data[..])
    {
      if !IsFloatMatrix() {
        return Fail(InvalidCast);
      }
      if SupportedShape(RowCount, ColumnCount) {
        var i, ok := StoreEachElement(MatrixStoresEach(value, RowCount, ColumnCount));
        if !ok {
          return Fail(IndexOutOfRange);
        }
      }
      Stamp();
      r := Pass;
    }
  }
}
