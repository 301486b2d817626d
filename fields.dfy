/** The field declarations of a model (`Field` and its subclasses) and their
    `to_python` validators, which return the value or raise `ValueError`. */
module Fields {
  import opened Results
  import opened PyValues

  /** Which `Field` class declared the field. */
  datatype FieldKind =
    | PlainField | CharField | IntegerField | FloatField | BooleanField
    | ListField | JSONField | UUIDField | DateField | DateTimeField

  /** A field declaration: the attributes its constructor stores.
      `maxLength` is `max_length` (only a `CharField` has one; `None` there is
      Python's `None`). `blank` is stored and never consulted. */
  datatype Field = Field(kind: FieldKind, required: bool, default: Value, blank: bool, maxLength: Option<int>)

  /** `datetime.datetime.strptime` for the two formats the date fields use,
      `"%Y-%m-%d"` and `"%Y-%m-%d %H:%M:%S"`; `None` when the string does not
      parse. Library behaviour, so it is a parameter of the model. */
  datatype Strptime = Strptime(date: string -> Option<Date>, dateTime: string -> Option<DateTime>)

  // Constructors. Each stores what its `__init__` forwards to `Field.__init__`
  // and nothing else; omitted keywords take the source's defaults.

  /** `Field(required, default, blank)`. */
  function NewField(required: bool := false, default: Value := VNone, blank: bool := false): (f: Field)
    ensures f.kind == PlainField && f.required == required && f.default == default && f.blank == blank
    ensures f.maxLength == None
  {
    Field(PlainField, required, default, blank, None)
  }

  /** `CharField(max_length, blank, required, default)`: `blank` is taken by
      `CharField` itself, the rest of the keywords go to `Field`. */
  function NewCharField(maxLength: Option<int> := None, blank: bool := false, required: bool := false, default: Value := VNone): (f: Field)
    ensures f.kind == CharField && f.maxLength == maxLength && f.blank == blank
    ensures f.required == required && f.default == default
  {
    Field(CharField, required, default, blank, maxLength)
  }

  /** `IntegerField(default)`: it accepts only a default, so it is never required. */
  function NewIntegerField(default: Value := VNone): (f: Field)
    ensures f.kind == IntegerField && !f.required && f.default == default && !f.blank
  {
    Field(IntegerField, false, default, false, None)
  }

  /** `FloatField`, `BooleanField`, `UUIDField` and `DateField` take
      `(default, required)` and pass them on positionally. */
  function NewRequirableField(kind: FieldKind, default: Value := VNone, required: bool := false): (f: Field)
    requires kind in {FloatField, BooleanField, UUIDField, DateField}
    ensures f.kind == kind && f.required == required && f.default == default && !f.blank
    ensures f.maxLength == None
  {
    Field(kind, required, default, false, None)
  }

  /** `ListField`, `JSONField` and `DateTimeField` use `Field.__init__`'s
      keywords (for `DateTimeField`, after taking `auto_now`/`auto_now_add`). */
  function NewPlainKindField(kind: FieldKind, required: bool := false, default: Value := VNone, blank: bool := false): (f: Field)
    requires kind in {ListField, JSONField, DateTimeField}
    ensures f.kind == kind && f.required == required && f.default == default && f.blank == blank
    ensures f.maxLength == None
  {
    Field(kind, required, default, blank, None)
  }

  /** The value of a string of decimal digits. */
  function DigitsValue(s: string): nat
    requires forall i :: 0 <= i < |s| ==> '0' <= s[i] <= '9'
  {
    if s == [] then 0 else DigitsValue(s[..|s| - 1]) * 10 + (s[|s| - 1] as int - '0' as int)
  }

  /** The decimal text of an integer, as an f-string prints it: an optional
      minus sign, then digits without a leading zero, denoting `|n|`. */
  function IntToString(n: int): (s: string)
    ensures n >= 0 ==> (forall i :: 0 <= i < |s| ==> '0' <= s[i] <= '9') && DigitsValue(s) == n
    ensures n < 0 ==> |s| >= 2 && s[0] == '-' && (forall i :: 1 <= i < |s| ==> '0' <= s[i] <= '9') && DigitsValue(s[1..]) == -n
    ensures s != [] && (n > 0 ==> s[0] != '0') && (n < 0 ==> s[1] != '0') && (n == 0 ==> s == "0")
    decreases if n < 0 then 1 - n else n
  {
    if n < 0 then "-" + IntToString(-n)
    else if n < 10 then [(('0' as int) + n) as char]
    else IntToString(n / 10) + IntToString(n % 10)
  }

  /** Python's `max_length and len(value) > max_length`: a `None` or `0`
      bound does not bound anything. */
  predicate ExceedsMaxLength(maxLength: Option<int>, s: string): (r: bool)
    ensures maxLength == None || maxLength == Some(0) ==> !r
    ensures maxLength.Some? && maxLength.value > 0 ==> (r <==> |s| > maxLength.value)
    ensures maxLength.Some? && maxLength.value < 0 ==> r
  {
    maxLength.Some? && maxLength.value != 0 && |s| > maxLength.value
  }

  /** `CharField.to_python`. */
  function CharToPython(f: Field, v: Value): (r: Result<Value, string>)
    ensures v == VNone ==> r == Ok(VNone)
    ensures v != VNone && !v.VStr? ==> r == Err("Expected a string")
    ensures v.VStr? ==> (r.Ok? <==> (f.maxLength.None? || f.maxLength.value == 0 || |v.text| <= f.maxLength.value))
    ensures v.VStr? && r.Err? ==> r.error == "Value exceeds max length of " + IntToString(f.maxLength.value)
    ensures r.Ok? ==> r.value == v
  {
    if v == VNone then Ok(VNone)
    else if !IsInstance(v, StrType) then Err("Expected a string")
    else if ExceedsMaxLength(f.maxLength, v.text) then
      Err("Value exceeds max length of " + IntToString(f.maxLength.value))
    else Ok(v)
  }

  /** `IntegerField.to_python`: `isinstance(value, int)` admits booleans too. */
  function IntegerToPython(v: Value): (r: Result<Value, string>)
    ensures r.Ok? <==> v.VNone? || v.VInt? || v.VBool?
    ensures r.Err? ==> r.error == "Expected an integer"
    ensures r.Ok? ==> r.value == v
  {
    if v == VNone then Ok(VNone)
    else if !IsInstance(v, IntType) then Err("Expected an integer")
    else Ok(v)
  }

  /** The check `FloatField`, `BooleanField` and `UUIDField` make before
      their type test. */
  function RequiredCheck(f: Field, v: Value): (r: Option<string>)
    ensures r.Some? <==> f.required && v == VNone
    ensures r.Some? ==> r.value == "This field is required"
  {
    if f.required && v == VNone then Some("This field is required") else None
  }

  /** `FloatField.to_python`: only a float is accepted, an `int` is not. */
  function FloatToPython(f: Field, v: Value): (r: Result<Value, string>)
    ensures v == VNone ==> r == if f.required then Err("This field is required") else Ok(VNone)
    ensures v != VNone ==> (r.Ok? <==> v.VFloat?)
    ensures v != VNone && !v.VFloat? ==> r == Err("Expected an float")
    ensures r.Ok? ==> r.value == v
  {
    var req := RequiredCheck(f, v);
    if req.Some? then Err(req.value)
    else if v == VNone then Ok(VNone)
    else if !IsInstance(v, FloatType) then Err("Expected an float")
    else Ok(v)
  }

  /** `BooleanField.to_python`: only `True` and `False`, not `0` or `1`. */
  function BooleanToPython(f: Field, v: Value): (r: Result<Value, string>)
    ensures v == VNone ==> r == if f.required then Err("This field is required") else Ok(VNone)
    ensures v != VNone ==> (r.Ok? <==> v.VBool?)
    ensures v != VNone && !v.VBool? ==> r == Err("Expected an boolean")
    ensures r.Ok? ==> r.value == v
  {
    var req := RequiredCheck(f, v);
    if req.Some? then Err(req.value)
    else if v == VNone then Ok(VNone)
    else if !IsInstance(v, BoolType) then Err("Expected an boolean")
    else Ok(v)
  }

  /** `ListField.to_python`. */
  function ListToPython(v: Value): (r: Result<Value, string>)
    ensures r.Ok? <==> v.VNone? || v.VList?
    ensures r.Err? ==> r.error == "Expected an list"
    ensures r.Ok? ==> r.value == v
  {
    if v == VNone then Ok(VNone)
    else if !IsInstance(v, ListType) then Err("Expected an list")
    else Ok(v)
  }

  /** `JSONField.to_python`: the exact type must be `list` or `dict`. */
  function JSONToPython(v: Value): (r: Result<Value, string>)
    ensures r.Ok? <==> v.VNone? || v.VList? || v.VDict?
    ensures r.Err? ==> r.error == "Expected an list or dict"
    ensures r.Ok? ==> r.value == v
  {
    if v == VNone then Ok(VNone)
    else if TypeOf(v) !in {ListType, DictType} then Err("Expected an list or dict")
    else Ok(v)
  }

  /** `UUIDField.to_python`. */
  function UUIDToPython(f: Field, v: Value): (r: Result<Value, string>)
    ensures v == VNone ==> r == if f.required then Err("This field is required") else Ok(VNone)
    ensures v != VNone ==> (r.Ok? <==> v.VUUID?)
    ensures v != VNone && !v.VUUID? ==> r == Err("Expected an UUID")
    ensures r.Ok? ==> r.value == v
  {
    var req := RequiredCheck(f, v);
    if req.Some? then Err(req.value)
    else if v == VNone then Ok(VNone)
    else if !IsInstance(v, UUIDType) then Err("Expected an UUID")
    else Ok(v)
  }

  /** `DateField.to_python`: a string is parsed as `YYYY-MM-DD`; a `date`
      or a `datetime` (a subclass of `date`) passes unchanged. `required` is
      never consulted. */
  function DateToPython(v: Value, parse: Strptime): (r: Result<Value, string>)
    ensures v == VNone ==> r == Ok(VNone)
    ensures v.VStr? ==> r == match parse.date(v.text)
                             case Some(d) => Ok(VDate(d))
                             case None => Err("Expected a valid date string in 'YYYY-MM-DD' format")
    ensures !v.VNone? && !v.VStr? ==> (r.Ok? <==> v.VDate? || v.VDateTime?)
    ensures !v.VNone? && !v.VStr? && r.Err? ==> r.error == "Expected a date object or a valid date string"
    ensures !v.VStr? && r.Ok? ==> r.value == v
  {
    if v == VNone then Ok(VNone)
    else
      var parsed :=
        if IsInstance(v, StrType) then
          match parse.date(v.text)
          case Some(d) => Ok(VDate(d))
          case None => Err("Expected a valid date string in 'YYYY-MM-DD' format")
        else Ok(v);
      if parsed.Err? then parsed
      else if !IsInstance(parsed.value, DateType) then Err("Expected a date object or a valid date string")
      else parsed
  }

  /** `DateTimeField.to_python` with `auto_now` and `auto_now_add` off: a
      string is parsed as `YYYY-MM-DD HH:MM:SS`; only a `datetime` passes. */
  function DateTimeToPython(v: Value, parse: Strptime): (r: Result<Value, string>)
    ensures v == VNone ==> r == Ok(VNone)
    ensures v.VStr? ==> r == match parse.dateTime(v.text)
                             case Some(d) => Ok(VDateTime(d))
                             case None => Err("Expected a valid datetime string in 'YYYY-MM-DD HH:MM:SS' format")
    ensures !v.VNone? && !v.VStr? ==> (r.Ok? <==> v.VDateTime?)
    ensures !v.VNone? && !v.VStr? && r.Err? ==> r.error == "Expected a datetime object or a valid datetime string"
    ensures !v.VStr? && r.Ok? ==> r.value == v
  {
    if v == VNone then Ok(VNone)
    else
      var parsed :=
        if IsInstance(v, StrType) then
          match parse.dateTime(v.text)
          case Some(d) => Ok(VDateTime(d))
          case None => Err("Expected a valid datetime string in 'YYYY-MM-DD HH:MM:SS' format")
        else Ok(v);
      if parsed.Err? then parsed
      else if !IsInstance(parsed.value, DateTimeType) then Err("Expected a datetime object or a valid datetime string")
      else parsed
  }

  /** `field.to_python(value)`, dispatched on the field's class; `Field`
      itself returns the value as it is. */
  function ToPython(f: Field, v: Value, parse: Strptime): (r: Result<Value, string>)
    ensures r.Ok? && f.kind !in {DateField, DateTimeField} ==> r.value == v
    ensures r.Ok? && f.kind in {DateField, DateTimeField} && !v.VStr? ==> r.value == v
    ensures (v == VNone && f.kind in {CharField, IntegerField, ListField, JSONField, PlainField, DateField, DateTimeField})
      ==> r == Ok(VNone)
    ensures (v == VNone && f.kind in {FloatField, BooleanField, UUIDField})
      ==> r == if f.required then Err("This field is required") else Ok(VNone)
  {
    match f.kind
    case PlainField => Ok(v)
    case CharField => CharToPython(f, v)
    case IntegerField => IntegerToPython(v)
    case FloatField => FloatToPython(f, v)
    case BooleanField => BooleanToPython(f, v)
    case ListField => ListToPython(v)
    case JSONField => JSONToPython(v)
    case UUIDField => UUIDToPython(f, v)
    case DateField => DateToPython(v, parse)
    case DateTimeField => DateTimeToPython(v, parse)
  }

  /** A worked example of the length message: a three-character string
      against `max_length=2` raises "Value exceeds max length of 2". The
      general fact is `CharToPython`'s contract with `IntToString`'s. */
  lemma CharFieldLengthMessage(parse: Strptime)
    ensures ToPython(NewCharField(Some(2)), VStr("abc"), parse) == Err("Value exceeds max length of 2")
  {
    var digits := IntToString(2);
    assert digits[..0] == [];
    assert digits == "2";
    assert "Value exceeds max length of " + digits == "Value exceeds max length of 2";
  }

  /** Validating an already validated value gives it back again: every
      validator returns its input, or (for a date string) a `date`/`datetime`
      object that the same validator accepts unchanged. */
  lemma ToPythonIdempotent(f: Field, v: Value, parse: Strptime)
    requires ToPython(f, v, parse).Ok?
    ensures ToPython(f, ToPython(f, v, parse).value, parse) == ToPython(f, v, parse)
  {
  }

  /** A required float, boolean or UUID field rejects `None`. */
  lemma RequiredRejectsNone(f: Field, parse: Strptime)
    requires f.required && f.kind in {FloatField, BooleanField, UUIDField}
    ensures ToPython(f, VNone, parse) == Err("This field is required")
  {
  }

  /** `CharField` is unbounded when `max_length` is `None` or `0`. */
  lemma CharFieldUnbounded(f: Field, s: string, parse: Strptime)
    requires f.kind == CharField && (f.maxLength == None || f.maxLength == Some(0))
    ensures ToPython(f, VStr(s), parse) == Ok(VStr(s))
  {
  }
}
