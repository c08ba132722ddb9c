/** `convert_to_serializable`: the recursive walk that turns an analysis result into values `jsonify` accepts.
    NumPy arrays become nested lists, NumPy `float32`/`int32` scalars become Python numbers, dicts and lists are
    rebuilt with converted members, sets become lists as they are, primitives pass unchanged and anything else
    becomes its `str`. */
module Serialization {
  import Common
  import RequestParams

  /** An element of a NumPy array, as `tolist()` hands it back. */
  datatype Scalar = IntScalar(i: int) | FloatScalar(x: real) | BoolScalar(b: bool)

  /** A NumPy array: a 0-d element, or an axis whose rows are arrays of one dimension less. */
  datatype ArrayTree = Elem(s: Scalar) | Axis(rows: seq<ArrayTree>)

  /** The Python values an analysis result holds. `NpFloat64` is a subclass of `float` and `NpInt64`, `NpBool` are
      not subclasses of `int` or `bool`; `Opaque` is any other object, with the text `str()` gives for it. A set is
      listed in its iteration order, which Python does not fix. */
  datatype PyValue =
    | PyNone
    | PyBool(b: bool)
    | PyInt(i: int)
    | PyFloat(x: real)
    | PyStr(s: string)
    | NpFloat32(x: real)
    | NpFloat64(x: real)
    | NpInt32(i: int)
    | NpInt64(i: int)
    | NpBool(b: bool)
    | NdArray(tree: ArrayTree)
    | PyDict(entries: seq<Entry>)
    | PyList(items: seq<PyValue>)
    | PySet(elems: seq<PyValue>)
    | Opaque(text: string)

  /** One `key: value` pair of a dict, in insertion order. */
  datatype Entry = Entry(key: string, value: PyValue)

  /** `ndarray.tolist()`: nested lists of Python scalars. */
  function ToList(t: ArrayTree): (r: PyValue)
    ensures Plain(r)
    ensures t.Axis? ==> r.PyList? && |r.items| == |t.rows|
    decreases t
  {
    match t
    case Elem(s) =>
      (match s
       case IntScalar(i) => PyInt(i)
       case FloatScalar(x) => PyFloat(x)
       case BoolScalar(b) => PyBool(b))
    case Axis(rows) => PyList(seq(|rows|, k requires 0 <= k < |rows| => ToList(rows[k])))
  }

  /** A value `jsonify` takes as it is: a primitive (a `float64` is a float), or a list or dict of such values. */
  predicate Plain(v: PyValue)
    decreases v
  {
    match v
    case PyNone => true
    case PyBool(_) => true
    case PyInt(_) => true
    case PyFloat(_) => true
    case PyStr(_) => true
    case NpFloat64(_) => true
    case PyList(items) => forall k :: 0 <= k < |items| ==> Plain(items[k])
    case PyDict(entries) => forall k :: 0 <= k < |entries| ==> Plain(entries[k].value)
    case _ => false
  }

  /** Every set anywhere in the value holds only plain elements. */
  predicate SetsHoldPlain(v: PyValue)
    decreases v
  {
    match v
    case PySet(elems) => forall k :: 0 <= k < |elems| ==> Plain(elems[k])
    case PyList(items) => forall k :: 0 <= k < |items| ==> SetsHoldPlain(items[k])
    case PyDict(entries) => forall k :: 0 <= k < |entries| ==> SetsHoldPlain(entries[k].value)
    case _ => true
  }

  function Keys(entries: seq<Entry>): (r: seq<string>)
    ensures |r| == |entries|
  {
    seq(|entries|, k requires 0 <= k < |entries| => entries[k].key)
  }

  /** `convert_to_serializable(data)`, with its `isinstance` tests in their order. */
  function Convert(v: PyValue): (r: PyValue)
    ensures v.PyDict? ==> r.PyDict? && Keys(r.entries) == Keys(v.entries)
    ensures v.PyList? ==> r.PyList? && |r.items| == |v.items|
    ensures v.PySet? ==> r == PyList(v.elems)
    ensures v.Opaque? ==> r == PyStr(v.text)
    decreases v
  {
    match v
    case NdArray(t) => ToList(t)
    case NpFloat32(x) => PyFloat(x)
    case NpInt32(i) => PyInt(i)
    case PyDict(entries) =>
      PyDict(seq(|entries|, k requires 0 <= k < |entries| => Entry(entries[k].key, Convert(entries[k].value))))
    case PyList(items) => PyList(seq(|items|, k requires 0 <= k < |items| => Convert(items[k])))
    case PySet(elems) => PyList(elems)
    case PyNone => v
    case PyBool(_) => v
    case PyInt(_) => v
    case PyFloat(_) => v
    case NpFloat64(_) => v
    case PyStr(_) => v
    case NpInt64(i) => PyStr(RequestParams.ShowInt(i))
    case NpBool(b) => PyStr(if b then "True" else "False")
    case Opaque(text) => PyStr(text)
  }

  /** Each dict value and each list element is converted on its own, in place. */
  lemma ConvertMembers(v: PyValue)
    ensures v.PyDict? ==> forall k :: 0 <= k < |v.entries| ==>
      Convert(v).entries[k] == Entry(v.entries[k].key, Convert(v.entries[k].value))
    ensures v.PyList? ==> forall k :: 0 <= k < |v.items| ==> Convert(v).items[k] == Convert(v.items[k])
  {
  }

  /** The conversion leaves values that are already plain exactly as they are. */
  lemma {:induction false} ConvertPlainIdentity(v: PyValue)
    requires Plain(v)
    ensures Convert(v) == v
    decreases v
  {
    match v
    case PyList(items) =>
      forall k | 0 <= k < |items|
        ensures Convert(items[k]) == items[k]
      {
        ConvertPlainIdentity(items[k]);
      }
      assert Convert(v).items == items;
    case PyDict(entries) =>
      forall k | 0 <= k < |entries|
        ensures Convert(entries[k].value) == entries[k].value
      {
        ConvertPlainIdentity(entries[k].value);
      }
      assert Convert(v).entries == entries;
    case _ =>
  }

  /** The result is plain whenever the sets in the input hold plain elements (sets are not walked into). */
  lemma {:induction false} ConvertMakesPlain(v: PyValue)
    requires SetsHoldPlain(v)
    ensures Plain(Convert(v))
    decreases v
  {
    match v
    case PyList(items) =>
      forall k | 0 <= k < |items|
        ensures Plain(Convert(items[k]))
      {
        ConvertMakesPlain(items[k]);
      }
    case PyDict(entries) =>
      forall k | 0 <= k < |entries|
        ensures Plain(Convert(entries[k].value))
      {
        ConvertMakesPlain(entries[k].value);
      }
    case _ =>
  }

  /** Under the same condition, converting twice gives what converting once does. */
  lemma ConvertIdempotent(v: PyValue)
    requires SetsHoldPlain(v)
    ensures Convert(Convert(v)) == Convert(v)
  {
    ConvertMakesPlain(v);
    ConvertPlainIdentity(Convert(v));
  }

  /** Sets are listed without converting their elements: a set holding a `float32` needs a second pass. */
  lemma SetsNotWalkedInto()
    ensures Convert(PySet([NpFloat32(0.5)])) == PyList([NpFloat32(0.5)])
    ensures !Plain(Convert(PySet([NpFloat32(0.5)])))
    ensures Convert(Convert(PySet([NpFloat32(0.5)]))) == PyList([PyFloat(0.5)])
  {
    assert !Plain(PyList([NpFloat32(0.5)]).items[0]);
  }

  /** A NumPy `int64` is not an `int`, so it reaches the fallback and becomes its decimal text. */
  lemma Int64BecomesText(i: int)
    requires -0x8000_0000_0000_0000 <= i < 0x8000_0000_0000_0000
    ensures Convert(NpInt64(i)) == PyStr(RequestParams.ShowInt(i))
    ensures RequestParams.ParseInt(Convert(NpInt64(i)).s) == Common.Some(i)
  {
    RequestParams.Int64Digits(i);
    RequestParams.IntRoundTrip(i);
  }
}
