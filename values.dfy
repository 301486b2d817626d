/** The Python values that flow through the ORM: field values, keyword
    arguments and MongoDB documents. Includes Python's class hierarchy (for
    `isinstance`), its truthiness rule and its `==` on these values. */
module PyValues {
  import opened Results

  /** A `datetime.date`. */
  datatype Date = Date(year: int, month: int, day: int)

  /** A `datetime.datetime` (a subclass of `datetime.date` in Python). */
  datatype DateTime = DateTime(date: Date, hour: int, minute: int, second: int, microsecond: int)

  /** A Python value as the ORM sees it. A float is represented by its
      (finite) numeric value; a `uuid.UUID` by its 128-bit integer; a BSON
      `ObjectId` by an opaque number. Dictionary keys are strings, as in
      MongoDB documents and keyword arguments. */
  datatype Value =
    | VNone
    | VStr(text: string)
    | VInt(intVal: int)
    | VBool(boolVal: bool)
    | VFloat(floatVal: real)
    | VList(items: seq<Value>)
    | VDict(entries: map<string, Value>)
    | VUUID(uuid: nat)
    | VDate(date: Date)
    | VDateTime(dateTime: DateTime)
    | VObjectId(oid: nat)

  /** The Python classes of the values above. */
  datatype PyType =
    | NoneType | StrType | IntType | BoolType | FloatType | ListType | DictType
    | UUIDType | DateType | DateTimeType | ObjectIdType

  /** `type(v)`: the exact class of a value. */
  function TypeOf(v: Value): PyType
  {
    match v
    case VNone => NoneType
    case VStr(_) => StrType
    case VInt(_) => IntType
    case VBool(_) => BoolType
    case VFloat(_) => FloatType
    case VList(_) => ListType
    case VDict(_) => DictType
    case VUUID(_) => UUIDType
    case VDate(_) => DateType
    case VDateTime(_) => DateTimeType
    case VObjectId(_) => ObjectIdType
  }

  /** `issubclass(t, u)`: `bool` derives from `int` and `datetime` from `date`;
      all other classes here are unrelated. */
  predicate IsSubclass(t: PyType, u: PyType)
  {
    t == u || (t == BoolType && u == IntType) || (t == DateTimeType && u == DateType)
  }

  /** `isinstance(v, u)`: the exact class, and besides it only `int` for a
      `bool` and `date` for a `datetime`. */
  predicate IsInstance(v: Value, u: PyType): (r: bool)
    ensures r <==> TypeOf(v) == u || (u == IntType && v.VBool?) || (u == DateType && v.VDateTime?)
    ensures u == BoolType ==> (r <==> v.VBool?)
    ensures u == FloatType ==> (r <==> v.VFloat?)
  {
    IsSubclass(TypeOf(v), u)
  }

  /** `bool(v)`: `None`, `False`, zero and empty containers are falsy;
      `UUID`, `date`, `datetime` and `ObjectId` objects are always truthy. */
  predicate Truthy(v: Value): (r: bool)
    ensures !r <==> v in {VNone, VStr(""), VInt(0), VBool(false), VFloat(0.0), VList([]), VDict(map[])}
  {
    match v
    case VNone => false
    case VStr(s) => s != ""
    case VInt(i) => i != 0
    case VBool(b) => b
    case VFloat(x) => x != 0.0
    case VList(xs) => xs != []
    case VDict(m) => m != map[]
    case VUUID(_) => true
    case VDate(_) => true
    case VDateTime(_) => true
    case VObjectId(_) => true
  }

  /** The numeric value of a `bool`, `int` or `float`; `None` for the rest. */
  function AsNumber(v: Value): (r: Option<real>)
    ensures r.Some? <==> IsInstance(v, IntType) || IsInstance(v, FloatType)
  {
    match v
    case VBool(b) => Some(if b then 1.0 else 0.0)
    case VInt(i) => Some(i as real)
    case VFloat(x) => Some(x)
    case _ => None
  }

  /** Python's `a == b`: numbers compare by value across `bool`, `int` and
      `float` (`True == 1 == 1.0`), lists element by element, dicts key by
      key; every other pair is equal only when it is the same value. */
  predicate PyEq(a: Value, b: Value): (r: bool)
    ensures r && AsNumber(a).None? ==> TypeOf(a) == TypeOf(b)
    ensures r && AsNumber(a).Some? ==> AsNumber(b).Some?
    decreases a
  {
    if AsNumber(a).Some? || AsNumber(b).Some? then AsNumber(a) == AsNumber(b)
    else if a.VList? && b.VList? then
      |a.items| == |b.items| && forall i :: 0 <= i < |a.items| ==> PyEq(a.items[i], b.items[i])
    else if a.VDict? && b.VDict? then
      a.entries.Keys == b.entries.Keys &&
      forall k :: k in a.entries ==> PyEq(a.entries[k], b.entries[k])
    else a == b
  }

  /** Every value equals itself. */
  lemma {:induction false} PyEqReflexive(v: Value)
    ensures PyEq(v, v)
    decreases v
  {
    if AsNumber(v).None? {
      match v
      case VList(xs) =>
        forall i | 0 <= i < |xs| ensures PyEq(xs[i], xs[i]) {
          PyEqReflexive(xs[i]);
        }
      case VDict(m) =>
        forall k | k in m ensures PyEq(m[k], m[k]) {
          PyEqReflexive(m[k]);
        }
      case _ =>
    }
  }

  /** Python's `==` is symmetric on these values. */
  lemma {:induction false} PyEqSymmetric(a: Value, b: Value)
    requires PyEq(a, b)
    ensures PyEq(b, a)
    decreases a
  {
    if AsNumber(a).None? && AsNumber(b).None? {
      if a.VList? && b.VList? {
        forall i | 0 <= i < |b.items| ensures PyEq(b.items[i], a.items[i]) {
          PyEqSymmetric(a.items[i], b.items[i]);
        }
      } else if a.VDict? && b.VDict? {
        forall k | k in b.entries ensures PyEq(b.entries[k], a.entries[k]) {
          PyEqSymmetric(a.entries[k], b.entries[k]);
        }
      }
    }
  }

  /** A `bool`, `int` or `float` equals exactly the values with the same
      numeric value, whatever their class: `True == 1 == 1.0`, although the
      three are different values. */
  lemma NumbersCompareByValue(a: Value, b: Value)
    requires AsNumber(a).Some?
    ensures PyEq(a, b) <==> AsNumber(b) == AsNumber(a)
    ensures PyEq(VBool(true), VInt(1)) && PyEq(VInt(1), VFloat(1.0)) && VBool(true) != VInt(1)
  {
  }
}
