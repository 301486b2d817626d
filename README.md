# MongoPyORM core, modelled in Dafny

MongoPyORM is a small object-document mapper for MongoDB. Its one
implementation file, `MongoPyORM/orm/mongo_orm.py`, wraps pymongo calls
around a little pure logic, and that logic is what this project models and
proves things about:

- **Field validators.** Each `Field` subclass has a `to_python`. It passes a
  value through unchanged or raises `ValueError`, depending on Python's
  runtime type of the value, on `required`, and, for `CharField`, on
  `max_length`; `DateField` and `DateTimeField` instead return the parsed
  `date`/`datetime` for a string.
- **The exclude filter.** `QuerySet.exclude` and `MongoManager.exclude`
  drop a document when every keyword argument appears among its items.
- **`QuerySet` over a cursor.** `first`, `__iter__` and `exclude` consume
  documents from a shared cursor. So does `count` when no filter criteria
  are set; with criteria it asks the server and leaves the cursor alone.
- **Building instances.** `model_class(**doc)` raises `TypeError` for a
  document with the key `self`, which `__init__(self, **kwargs)` already
  binds.
- **`MongoModel`.** `__init__` fills the declared fields from keyword
  arguments or defaults. `save` chooses between an update and an insert.
  `delete` refuses an unsaved object.

The packaging descriptor `setup.py` holds no behaviour. Everything here
comes from `mongo_orm.py` itself.

Files, one module each:

- `results.dfy` (`Results`): `Option` and `Result`.
- `values.dfy` (`PyValues`): Python values (`None`, `str`, `int`, `bool`,
  `float`, `list`, `dict`, `uuid.UUID`, `date`, `datetime`, `ObjectId`),
  `type(...)`, `isinstance` with `bool` ⊂ `int` and `datetime` ⊂ `date`,
  truthiness, and Python's `==`. `True == 1 == 1.0`, and lists and dicts
  compare element by element.
- `fields.dfy` (`Fields`): the `Field` datatype, one constructor function
  per `__init__`, one validator function per `to_python`, and `ToPython`
  dispatching on the field's class.
- `models.dfy` (`Models`): the attribute dictionary `InitAttrs` built by
  `MongoModel.__init__`, the data `save` sends, and the operation
  (`Update`, `Insert` or `Delete`) that `save` and `delete` issue. The class
  `ModelInstance` holds an instance's attributes.
- `query.dfy` (`Query`): the `ExcludeDocs` filter and its properties, and
  the class `QuerySet`, whose cursor is a sequence of documents plus a
  position.

Boundaries:

- The database is not modelled. Operations are returned as `DbOp` values.
- The id given to an inserted document is a parameter of `Save`.
- The server's `count_documents` answer is a parameter of `Count`.
- `strptime` for the two date formats is a parameter of type `Strptime`.

## Model

| member | source | states |
|---|---|---|
| `Fields.NewField` | MongoPyORM/orm/mongo_orm.py:10-13 | `Field(required, default, blank)` stores exactly those three attributes, defaulting to `False`, `None` and `False` |
| `Fields.NewCharField` | MongoPyORM/orm/mongo_orm.py:20-23 | `max_length` and `blank` are kept by `CharField`; `required` and `default` are passed on to `Field`; all default to `None`/`False` as in the source |
| `Fields.NewIntegerField` | MongoPyORM/orm/mongo_orm.py:36-37 | an `IntegerField` takes only a default, so it is never required |
| `Fields.NewRequirableField` | MongoPyORM/orm/mongo_orm.py:48-108 | `FloatField`, `BooleanField`, `UUIDField` and `DateField` store `(default, required)` (lines 48-49, 62-63, 94-95 and 107-108), defaulting to `None` and `False`, and are not blank |
| `Fields.NewPlainKindField` | MongoPyORM/orm/mongo_orm.py:10-13 | `ListField` and `JSONField` inherit `Field.__init__`, and `DateTimeField` forwards its keywords to it (lines 125-126), so all three store `Field`'s keywords unchanged |
| `Fields.CharToPython` | MongoPyORM/orm/mongo_orm.py:25-32 | `None` gives `None`; a non-string is rejected; a string is accepted exactly when `max_length` is `None`, `0`, or at least its length, and is then returned unchanged |
| `Fields.IntegerToPython` | MongoPyORM/orm/mongo_orm.py:39-44 | accepts exactly `None`, ints and bools (bool is an int subclass), unchanged; any other value gives "Expected an integer" |
| `Fields.RequiredCheck` | MongoPyORM/orm/mongo_orm.py:52-53 | reports "This field is required" exactly for `None` on a required field |
| `Fields.FloatToPython` | MongoPyORM/orm/mongo_orm.py:51-58 | `None` is rejected if required and passed through otherwise; among other values only floats are accepted, so ints are rejected; an accepted value is unchanged |
| `Fields.BooleanToPython` | MongoPyORM/orm/mongo_orm.py:65-72 | `None` is rejected if required and passed through otherwise; among other values only bools are accepted (not `0` or `1`); an accepted value is unchanged |
| `Fields.ListToPython` | MongoPyORM/orm/mongo_orm.py:76-81 | accepts exactly `None` and lists, unchanged, whatever `required` says |
| `Fields.JSONToPython` | MongoPyORM/orm/mongo_orm.py:85-90 | accepts exactly `None`, lists and dicts, unchanged, whatever `required` says |
| `Fields.UUIDToPython` | MongoPyORM/orm/mongo_orm.py:97-104 | `None` is rejected if required and passed through otherwise; among other values only `uuid.UUID` is accepted; an accepted value is unchanged |
| `Fields.DateToPython` | MongoPyORM/orm/mongo_orm.py:110-121 | `None` gives `None` (`required` is never checked); a string gives the parsed date or the "YYYY-MM-DD" error; other values are accepted, unchanged, exactly when they are a `date` or a `datetime`, and otherwise raise "Expected a date object or a valid date string" |
| `Fields.DateTimeToPython` | MongoPyORM/orm/mongo_orm.py:135-146 | `None` gives `None`; a string gives the parsed datetime or the "YYYY-MM-DD HH:MM:SS" error; other values are accepted, unchanged, exactly when they are a `datetime`, and otherwise raise "Expected a datetime object or a valid datetime string" |
| `Fields.ToPython` | MongoPyORM/orm/mongo_orm.py:15-16 | base `Field` returns its input; across all classes a success returns the input unchanged, except a date string; `None` passes for char, integer, list, JSON and date fields and for non-required float, boolean and UUID fields |
| `Fields.ToPythonIdempotent` | MongoPyORM/orm/mongo_orm.py:15-146 | validating a successfully validated value again gives the same result |
| `Fields.RequiredRejectsNone` | MongoPyORM/orm/mongo_orm.py:52-99 | a required float, boolean or UUID field (lines 52-53, 66-67 and 98-99) rejects `None` with "This field is required" |
| `Fields.CharFieldUnbounded` | MongoPyORM/orm/mongo_orm.py:30 | a `CharField` whose `max_length` is `None` or `0` accepts every string |
| `Fields.ExceedsMaxLength` | MongoPyORM/orm/mongo_orm.py:30 | a `None` or `0` bound is never exceeded; a positive bound is exceeded exactly by a longer string; a negative bound by every string |
| `Fields.IntToString` | MongoPyORM/orm/mongo_orm.py:31 | the f-string text of an integer: an optional minus sign, then decimal digits without a leading zero (after the sign too) that denote its absolute value |
| `Fields.CharFieldLengthMessage` | MongoPyORM/orm/mongo_orm.py:30-31 | a worked example only, not a property of its own: a three-character string against `max_length=2` raises "Value exceeds max length of 2"; the general message is the contract of `Fields.CharToPython` together with that of `Fields.IntToString` |
| `PyValues.PyEqReflexive` | MongoPyORM/orm/mongo_orm.py:171 | Python's `==`, used for `item in doc.items()`, holds of every value and itself, nested lists and dicts included |
| `PyValues.PyEqSymmetric` | MongoPyORM/orm/mongo_orm.py:207 | Python's `==` on these values is symmetric, so the order of comparison inside `doc.items()` does not matter |
| `PyValues.NumbersCompareByValue` | MongoPyORM/orm/mongo_orm.py:171 | a `bool`, `int` or `float` is `==` exactly to the values with the same numeric value, so `True == 1 == 1.0` although they are different values |
| `PyValues.PyEq` | MongoPyORM/orm/mongo_orm.py:171 | Python's `==`: apart from numbers, values of different classes are never equal; a number equals only numbers |
| `PyValues.Truthy` | MongoPyORM/orm/mongo_orm.py:237 | the falsy values are exactly `None`, `""`, `0`, `False`, `0.0`, `[]` and `{}` |
| `PyValues.IsInstance` | MongoPyORM/orm/mongo_orm.py:42 | `isinstance` holds for the exact class, and besides it only `int` for a bool and `date` for a datetime; `bool` and `float` admit nothing else |
| `Models.Names` | MongoPyORM/orm/mongo_orm.py:256-263 | the set of declared field names holds exactly the names in the declaration list |
| `Models.Get` | MongoPyORM/orm/mongo_orm.py:232 | `kwargs.get(key, fallback)` is the keyword's value when given, the fallback otherwise |
| `Models.InitAttrs` | MongoPyORM/orm/mongo_orm.py:229-233 | the attributes `__init__` leaves include `_id` and every declared field |
| `Models.InitAttrsKeys` | MongoPyORM/orm/mongo_orm.py:229-233 | a new instance has exactly `_id` and the declared fields as attributes; an undeclared keyword sets nothing |
| `Models.InitAttrsField` | MongoPyORM/orm/mongo_orm.py:231-233 | each declared field holds `kwargs[name]` when given and the field's default otherwise |
| `Models.InitAttrsId` | MongoPyORM/orm/mongo_orm.py:230 | unless a field is itself named `_id`, `_id` is `kwargs["_id"]` when given and `None` otherwise |
| `Models.ModelInstance.constructor` | MongoPyORM/orm/mongo_orm.py:229-233 | once the arguments are bound, the loop over the fields leaves exactly the attributes `InitAttrs` describes |
| `Models.BindError` | MongoPyORM/orm/mongo_orm.py:229 | `model_class(**kwargs)` fails to bind exactly when `kwargs` has the key `self`, with `TypeError` |
| `Models.Instantiate` | MongoPyORM/orm/mongo_orm.py:229-233 | `model_class(**kwargs)` raises `TypeError` exactly when `BindError` says so, and otherwise gives a new instance of that class with the attributes `InitAttrs` describes |
| `Models.SaveData` | MongoPyORM/orm/mongo_orm.py:236 | the data `save` sends has exactly the declared fields as keys, each with the instance's current value |
| `Models.SaveOutcome` | MongoPyORM/orm/mongo_orm.py:235-243 | a truthy `_id` gives an update keyed by that `_id` and leaves the attributes alone; otherwise an insert of the same data, after which `_id` is the inserted id |
| `Models.ModelInstance.Save` | MongoPyORM/orm/mongo_orm.py:237-243 | the operation issued and the new attributes are those `SaveOutcome` gives for the old attributes |
| `Models.SaveThenSaveUpdates` | MongoPyORM/orm/mongo_orm.py:235-249 | after the first save inserts an unsaved instance, a second save updates that document with the same data, and delete removes it |
| `Models.SaveAfterInit` | MongoPyORM/orm/mongo_orm.py:232-236 | a freshly built instance saves each declared field with its keyword argument or its default |
| `Models.DeleteOutcome` | MongoPyORM/orm/mongo_orm.py:245-249 | a truthy `_id` gives a delete of that id; a falsy one raises "Cannot delete an unsaved object." and issues nothing |
| `Models.ModelInstance.Delete` | MongoPyORM/orm/mongo_orm.py:246-249 | the method returns `DeleteOutcome` of the instance's `_id` and changes nothing |
| `Query.Matches` | MongoPyORM/orm/mongo_orm.py:171 | every document matches empty kwargs; a matching document has every keyword as a key; a document holding every keyword's exact value matches |
| `Query.ExcludeDocs` | MongoPyORM/orm/mongo_orm.py:169-172 | the kept documents come from the input, none of them matches, and there are no more of them than input documents |
| `Query.ExcludeMembership` | MongoPyORM/orm/mongo_orm.py:169-172 | a document is kept exactly when it is in the input and some keyword is missing from it or maps to a value that is not `==` |
| `Query.ExcludeIsSubsequence` | MongoPyORM/orm/mongo_orm.py:170-171 | the kept documents are an ordered subsequence of the input |
| `Query.ExcludeAppend` | MongoPyORM/orm/mongo_orm.py:169-172 | filtering a concatenation is the concatenation of the filtered parts, so the input order is kept |
| `Query.ExcludeMultiplicity` | MongoPyORM/orm/mongo_orm.py:169-172 | a kept document occurs as often as in the input; a matching one does not occur at all |
| `Query.ExcludeNoKwargs` | MongoPyORM/orm/mongo_orm.py:171 | with no keyword arguments `all(...)` is true of every document, so nothing is kept |
| `Query.ExcludeKeepsAll` | MongoPyORM/orm/mongo_orm.py:169-172 | the result is the whole input exactly when no document matches |
| `Query.ManagerExcludeDocs` | MongoPyORM/orm/mongo_orm.py:200-209 | the manager's filter over the whole collection keeps, in order, exactly the documents that do not match |
| `Query.FirstSelfKey` | MongoPyORM/orm/mongo_orm.py:158 | the position of the first document with the key `self`: none before it has the key, and it has it unless it is the end |
| `Query.BuildModels` | MongoPyORM/orm/mongo_orm.py:158 | fails with `TypeError` exactly when some document has the key `self`; otherwise one new instance per document, in order, each of the model class, each a different object, each with the attributes `InitAttrs` gives |
| `Query.QuerySet.constructor` | MongoPyORM/orm/mongo_orm.py:151-154 | the cursor is unread, and `filter_criteria or {}` becomes `{}` when no criteria are given |
| `Query.QuerySet.First` | MongoPyORM/orm/mongo_orm.py:160-165 | consumes exactly one document if there is one; `None` when the cursor is exhausted or the next document is empty; `TypeError` when it has the key `self`; otherwise a new instance of the model class built from that document |
| `Query.QuerySet.Iterate` | MongoPyORM/orm/mongo_orm.py:156-158 | returns one new, distinct instance of the model class per remaining document, in order, exhausting the cursor; a document with the key `self` raises `TypeError` after the cursor has produced it and nothing after it |
| `Query.QuerySet.Exclude` | MongoPyORM/orm/mongo_orm.py:167-173 | exhausts the cursor, then returns one new, distinct instance of the model class per document `ExcludeDocs` keeps, in order, or `TypeError` when a kept document has the key `self` |
| `Query.QuerySet.Count` | MongoPyORM/orm/mongo_orm.py:175-181 | with filter criteria, the server's count and an untouched cursor; without them, the number of remaining documents, and the cursor is exhausted |

## Left out

- The module-level connection `db = Client().connect()` and the `mongo_client` package: foreign I/O.
- `MongoManager.__init__`, `all` and `filter`: they only forward to pymongo collection calls.
- `MongoManager.get` and `create`: left out together with the database they query. Not modelled are `get`'s truthiness test on the found document, its `model_class(**document)` (with the same `self`-key `TypeError`) and its `ValueError("No document found matching: ...")`, nor `create`'s writing `_id` into the caller's keyword dictionary and building an instance from it.
- `QuerySet.count`'s `count_documents` call: the server's answer is the `serverCount` parameter of `Count`.
- Exceptions that pymongo raises from `insert_one`, `update_one` and `delete_one`: foreign I/O.
- `ObjectId(...)` around the id in `save` and `delete`: a BSON library conversion. The id is passed on as stored. Its raising path is lost too: for a truthy id that is not a valid ObjectId (such as `5` or `"abc"`), the source raises, while the model issues `Update` or `Delete`.
- The insert's id comes from the database: it is the `insertedId` parameter of `Save`.
- `strptime` parsing in `DateField` and `DateTimeField`: library format semantics. It is the `Strptime` parameter.
- The `auto_now` / `auto_now_add` branches of `DateTimeField.to_python`: they read the clock. As written they call `datetime.now()` on the module, which raises `AttributeError`.
- `_get_fields` reads the class `__dict__`. Here it is an explicit list of `(name, Field)` pairs. Like `_get_fields`, the list holds no inherited fields.
- `_initialize_manager` and the `objects` class attribute: `objects = None` until `_initialize_manager` assigns a `MongoManager`, and until then `save` raises `AttributeError` on `self.objects.collection`, as does `delete` on a saved instance. Like the rest of the database handle this is not modelled: `ModelInstance.Save` always issues its operation and, on the insert path, takes the new `_id`, and `ModelInstance.Delete` always issues its delete.
- `MongoManager.exclude` wraps its list in a `QuerySet`, where a cursor is expected. `next` would then fail in `first`. Only the filter, `ManagerExcludeDocs`, is modelled.
- Aliasing of mutable values: Dafny `Value`s are immutable. In the source, `kwargs.get(key, value.default)` hands the same default object to every instance built without that keyword, so `ListField(default=[])` shares one list among those instances and the field, and an instance shares its list and dict objects with the document it was built from. No modelled operation mutates a value in place, so no contract depends on this.
- Key order of the dictionaries (`data`, documents): they are Dafny maps, which have no order.
- Floats are their finite real value. NaN, infinities and the identity shortcut inside Python's `==` are not represented.
- No subclass of a built-in class is representable except `bool` (of `int`) and `datetime` (of `date`); this includes `str`/`list`/`dict` subclasses and BSON's `Int64`. So `isinstance` and `type(...) in [list, dict]` cannot differ here.
- Python and BSON types outside `Value`: tuples, sets, `bytes`/`Binary`, `Decimal128`, regular expressions and the other BSON types have no representation. In the source every `to_python` except the base `Field`'s rejects them and `==` compares them; the model can express neither.
- Dictionary keys other than strings: documents and keyword arguments have string keys.
- `required` and `blank` are `bool`, and `max_length` is an `Option<int>`. Python would test any value for truthiness (`required=1`, `max_length=5.5`): values other than these are not modelled.
- Python `str` can hold lone surrogate code points, which a Dafny `char` cannot represent.
- A model class that defines its own `__init__`, or a `self` key reaching `__init__` in some other way, is not modelled: `BindError` covers only the `self` keyword of `MongoModel.__init__`. The text of the `TypeError` message is simplified. Likewise `QuerySet.exclude(self, **kwargs)` and `MongoManager.exclude(self, **kwargs)` raise `TypeError` at the call for a keyword named `self`; `Query.QuerySet.Exclude` and `Query.ManagerExcludeDocs` accept such a key and filter by it.
- `setup.py`: packaging metadata only.
