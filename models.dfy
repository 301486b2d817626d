/** `MongoModel`: building an instance from keyword arguments, and the
    database operation that `save` and `delete` issue. The collection itself
    is not modelled; each operation is returned as a `DbOp` value. */
module Models {
  import opened Results
  import opened PyValues
  import opened Fields

  /** The fields a model class declares, in declaration order: what
      `_get_fields` collects from the class body. */
  type FieldDecls = seq<(string, Field)>

  /** A document or a keyword-argument dictionary. */
  type Document = map<string, Value>

  /** The names of the declared fields. */
  function Names(decls: FieldDecls): (names: set<string>)
    ensures forall i :: 0 <= i < |decls| ==> decls[i].0 in names
    ensures forall n :: n in names ==> exists i :: 0 <= i < |decls| && decls[i].0 == n
  {
    set i | 0 <= i < |decls| :: decls[i].0
  }

  /** The class body is a dictionary, so no name is declared twice. */
  predicate DistinctNames(decls: FieldDecls)
  {
    forall i, j :: 0 <= i < j < |decls| ==> decls[i].0 != decls[j].0
  }

  /** `kwargs.get(key, fallback)`. */
  function Get(kwargs: Document, key: string, fallback: Value): (v: Value)
    ensures key in kwargs ==> v == kwargs[key]
    ensures key !in kwargs ==> v == fallback
  {
    if key in kwargs then kwargs[key] else fallback
  }

  /** The attributes of `Model(**kwargs)`: `_id` is set first, then each
      declared field in turn (a later `setattr` overwrites an earlier one). */
  function InitAttrs(decls: FieldDecls, kwargs: Document): (attrs: Document)
    ensures "_id" in attrs
    ensures forall i :: 0 <= i < |decls| ==> decls[i].0 in attrs
    decreases |decls|
  {
    if decls == [] then map["_id" := Get(kwargs, "_id", VNone)]
    else
      var last := decls[|decls| - 1];
      InitAttrs(decls[..|decls| - 1], kwargs)[last.0 := Get(kwargs, last.0, last.1.default)]
  }

  /** The constructor sets `_id` and the declared fields and nothing else:
      an undeclared keyword argument sets no attribute. */
  lemma {:induction false} InitAttrsKeys(decls: FieldDecls, kwargs: Document)
    ensures InitAttrs(decls, kwargs).Keys == {"_id"} + Names(decls)
    decreases |decls|
  {
    if decls != [] {
      var init := decls[..|decls| - 1];
      InitAttrsKeys(init, kwargs);
      assert Names(decls) == Names(init) + {decls[|decls| - 1].0} by {
        forall n | n in Names(decls) ensures n in Names(init) + {decls[|decls| - 1].0} {
          var i :| 0 <= i < |decls| && decls[i].0 == n;
          if i < |decls| - 1 { assert init[i].0 == n; }
        }
      }
    }
  }

  /** Each declared field holds `kwargs[name]` when given, else its default. */
  lemma {:induction false} InitAttrsField(decls: FieldDecls, kwargs: Document, i: nat)
    requires DistinctNames(decls) && i < |decls|
    ensures decls[i].0 in InitAttrs(decls, kwargs)
    ensures InitAttrs(decls, kwargs)[decls[i].0] == Get(kwargs, decls[i].0, decls[i].1.default)
    decreases |decls|
  {
    InitAttrsKeys(decls, kwargs);
    if i < |decls| - 1 {
      var init := decls[..|decls| - 1];
      assert DistinctNames(init);
      InitAttrsField(init, kwargs, i);
      assert init[i] == decls[i];
    }
  }

  /** Unless a field is itself named `_id`, the instance's `_id` is
      `kwargs["_id"]` when given and `None` otherwise. */
  lemma {:induction false} InitAttrsId(decls: FieldDecls, kwargs: Document)
    requires "_id" !in Names(decls)
    ensures "_id" in InitAttrs(decls, kwargs)
    ensures InitAttrs(decls, kwargs)["_id"] == Get(kwargs, "_id", VNone)
    decreases |decls|
  {
    InitAttrsKeys(decls, kwargs);
    if decls != [] {
      var init := decls[..|decls| - 1];
      assert Names(init) <= Names(decls) by {
        forall n | n in Names(init) ensures n in Names(decls) {
          var i :| 0 <= i < |init| && init[i].0 == n;
          assert decls[i].0 == n;
        }
      }
      InitAttrsId(init, kwargs);
    }
  }

  /** The attributes the model's methods rely on: `_id` and every declared field. */
  predicate HasAttrs(decls: FieldDecls, attrs: Document)
  {
    "_id" in attrs && Names(decls) <= attrs.Keys
  }

  /** `{key: getattr(self, key) for key in self._get_fields()}`: the document
      `save` sends. */
  function SaveData(decls: FieldDecls, attrs: Document): (data: Document)
    requires Names(decls) <= attrs.Keys
    ensures data.Keys == Names(decls)
    ensures forall n :: n in data ==> data[n] == attrs[n]
  {
    map n | n in Names(decls) :: attrs[n]
  }

  /** What the model asks of the collection: `update_one` with `$set`,
      `insert_one`, or `delete_one`. `ObjectId(...)` around the id is not
      modelled: the id is passed as it is stored. */
  datatype DbOp =
    | Update(id: Value, data: Document)
    | Insert(data: Document)
    | Delete(id: Value)

  /** What `save` does to an instance with attributes `attrs`, given the id
      the collection assigns to an inserted document: the operation issued
      and the attributes afterwards. */
  function SaveOutcome(decls: FieldDecls, attrs: Document, insertedId: Value): (out: (DbOp, Document))
    requires HasAttrs(decls, attrs)
    ensures Truthy(attrs["_id"]) ==> out.0 == Update(attrs["_id"], SaveData(decls, attrs)) && out.1 == attrs
    ensures !Truthy(attrs["_id"]) ==> out.0 == Insert(SaveData(decls, attrs)) && out.1 == attrs["_id" := insertedId]
    ensures HasAttrs(decls, out.1)
  {
    var data := SaveData(decls, attrs);
    if Truthy(attrs["_id"]) then (Update(attrs["_id"], data), attrs)
    else (Insert(data), attrs["_id" := insertedId])
  }

  /** `delete`: an instance whose `_id` is falsy was never saved. */
  function DeleteOutcome(id: Value): (r: Result<DbOp, string>)
    ensures r.Ok? <==> Truthy(id)
    ensures r.Ok? ==> r.value == Delete(id)
    ensures r.Err? ==> r.error == "Cannot delete an unsaved object."
  {
    if Truthy(id) then Ok(Delete(id)) else Err("Cannot delete an unsaved object.")
  }

  /** Saving an instance that was never saved inserts it; once the collection
      has given it a (truthy) id, saving again updates that same document
      with the same data, and deleting it deletes that document. */
  lemma SaveThenSaveUpdates(decls: FieldDecls, attrs: Document, insertedId: Value, anotherId: Value)
    requires HasAttrs(decls, attrs) && "_id" !in Names(decls)
    requires !Truthy(attrs["_id"]) && Truthy(insertedId)
    ensures var (first, after) := SaveOutcome(decls, attrs, insertedId);
            first == Insert(SaveData(decls, attrs)) &&
            SaveOutcome(decls, after, anotherId) == (Update(insertedId, SaveData(decls, attrs)), after) &&
            DeleteOutcome(after["_id"]) == Ok(Delete(insertedId))
  {
    var after := attrs["_id" := insertedId];
    assert SaveData(decls, after) == SaveData(decls, attrs);
  }

  /** A freshly constructed instance saves exactly the declared fields, each
      with its keyword argument or its default. */
  lemma {:induction false} SaveAfterInit(decls: FieldDecls, kwargs: Document, i: nat)
    requires DistinctNames(decls) && i < |decls|
    ensures HasAttrs(decls, InitAttrs(decls, kwargs))
    ensures SaveData(decls, InitAttrs(decls, kwargs))[decls[i].0] == Get(kwargs, decls[i].0, decls[i].1.default)
  {
    InitAttrsKeys(decls, kwargs);
    InitAttrsField(decls, kwargs, i);
  }

  /** The `TypeError` Python raises for `model_class(**kwargs)` when
      `kwargs` has the key `self`, which `__init__(self, **kwargs)` already
      binds positionally. */
  const SelfKeyError: string := "TypeError: __init__() got multiple values for argument 'self'"

  /** Whether `model_class(**kwargs)` fails while binding its arguments,
      before `__init__`'s body runs. */
  function BindError(kwargs: Document): (e: Option<string>)
    ensures e.Some? <==> "self" in kwargs
    ensures e.Some? ==> e.value == SelfKeyError
  {
    if "self" in kwargs then Some(SelfKeyError) else None
  }

  /** An instance of a model class: its attribute dictionary, which holds
      `_id` and one entry per declared field. */
  class ModelInstance {
    const decls: FieldDecls
    var attrs: Document

    ghost predicate Valid()
      reads this
    {
      HasAttrs(decls, attrs)
    }

    /** `self._id`. */
    function Id(): Value
      reads this
      requires Valid()
    {
      attrs["_id"]
    }

    /** The body of `MongoModel.__init__(**kwargs)`, once the arguments are
        bound; `Instantiate` is the call `model_class(**kwargs)`. */
    constructor (decls: FieldDecls, kwargs: Document)
      ensures Valid()
      ensures this.decls == decls && attrs == InitAttrs(decls, kwargs)
    {
      this.decls := decls;
      var a := map["_id" := Get(kwargs, "_id", VNone)];
      var i := 0;
      while i < |decls|
        invariant 0 <= i <= |decls|
        invariant a == InitAttrs(decls[..i], kwargs)
      {
        var (name, field) := decls[i];
        assert decls[..i + 1][..i] == decls[..i];
        a := a[name := Get(kwargs, name, field.default)];
        i := i + 1;
      }
      assert decls[..|decls|] == decls;
      attrs := a;
      new;
      InitAttrsKeys(decls, kwargs);
    }

    /** `save()`: update by `_id` when it is truthy, otherwise insert and
        take the id the collection assigned. */
    method Save(insertedId: Value) returns (op: DbOp)
      requires Valid()
      modifies this
      ensures Valid()
      ensures (op, attrs) == SaveOutcome(decls, old(attrs), insertedId)
    {
      var data := SaveData(decls, attrs);
      if Truthy(attrs["_id"]) {
        op := Update(attrs["_id"], data);
      } else {
        op := Insert(data);
        attrs := attrs["_id" := insertedId];
      }
    }

    /** `delete()`: issues nothing and raises when the instance was never saved. */
    method Delete() returns (r: Result<DbOp, string>)
      requires Valid()
      ensures r == DeleteOutcome(Id())
    {
      if Truthy(attrs["_id"]) {
        r := Ok(DbOp.Delete(attrs["_id"]));
      } else {
        r := Err("Cannot delete an unsaved object.");
      }
    }
  }

  /** `model_class(**kwargs)`: raises `TypeError` when `kwargs` holds the
      key `self`, otherwise a new instance built by `__init__`. */
  method Instantiate(decls: FieldDecls, kwargs: Document) returns (r: Result<ModelInstance, string>)
    ensures r.Err? <==> BindError(kwargs).Some?
    ensures r.Err? ==> r.error == SelfKeyError
    ensures r.Ok? ==> fresh(r.value) && r.value.Valid() && r.value.decls == decls && r.value.attrs == InitAttrs(decls, kwargs)
  {
    var e := BindError(kwargs);
    if e.Some? {
      r := Err(e.value);
    } else {
      var m := new ModelInstance(decls, kwargs);
      r := Ok(m);
    }
  }
}
