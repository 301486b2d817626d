/** `QuerySet`: a wrapper around a MongoDB cursor, and the `exclude` filter
    that `QuerySet.exclude` and `MongoManager.exclude` share. A cursor is
    the sequence of documents the query returned plus the position of the
    next one; reading from it consumes documents. */
module Query {
  import opened Results
  import opened PyValues
  import opened Models

  /** `all(item in doc.items() for item in kwargs.items())`: every keyword
      argument is a key of the document whose value is `==` to it. */
  predicate Matches(doc: Document, kwargs: Document): (r: bool)
    ensures kwargs == map[] ==> r
    ensures r ==> kwargs.Keys <= doc.Keys
    ensures kwargs.Keys <= doc.Keys && (forall k :: k in kwargs ==> doc[k] == kwargs[k]) ==> r
  {
    assert forall k :: k in kwargs && k in doc && doc[k] == kwargs[k] ==> PyEq(doc[k], kwargs[k]) by {
      forall k | k in kwargs && k in doc && doc[k] == kwargs[k] ensures PyEq(doc[k], kwargs[k]) {
        PyEqReflexive(kwargs[k]);
      }
    }
    forall k :: k in kwargs ==> k in doc && PyEq(doc[k], kwargs[k])
  }

  /** `[doc for doc in docs if not all(...)]`: the documents that do not
      match `kwargs`, in their original order. */
  function ExcludeDocs(docs: seq<Document>, kwargs: Document): (kept: seq<Document>)
    ensures |kept| <= |docs|
    ensures forall i :: 0 <= i < |kept| ==> kept[i] in docs && !Matches(kept[i], kwargs)
  {
    if docs == [] then []
    else if Matches(docs[0], kwargs) then ExcludeDocs(docs[1..], kwargs)
    else [docs[0]] + ExcludeDocs(docs[1..], kwargs)
  }

  /** `r` is `s` with some elements removed, the rest in order. */
  predicate IsSubsequence(r: seq<Document>, s: seq<Document>)
    decreases |s|
  {
    r == [] || (s != [] && ((r[0] == s[0] && IsSubsequence(r[1..], s[1..])) || IsSubsequence(r, s[1..])))
  }

  /** A document is kept exactly when it is in the input and some keyword
      argument is missing from it or maps to a value that is not `==`. */
  lemma {:induction false} ExcludeMembership(docs: seq<Document>, kwargs: Document, d: Document)
    ensures d in ExcludeDocs(docs, kwargs) <==>
            d in docs && exists k :: k in kwargs && (k !in d || !PyEq(d[k], kwargs[k]))
  {
    if docs != [] {
      ExcludeMembership(docs[1..], kwargs, d);
      assert docs == [docs[0]] + docs[1..];
    }
  }

  /** The result keeps the input's order: it is a subsequence of it. */
  lemma {:induction false} ExcludeIsSubsequence(docs: seq<Document>, kwargs: Document)
    ensures IsSubsequence(ExcludeDocs(docs, kwargs), docs)
  {
    if docs != [] {
      ExcludeIsSubsequence(docs[1..], kwargs);
      var rest := ExcludeDocs(docs[1..], kwargs);
      if !Matches(docs[0], kwargs) {
        assert ([docs[0]] + rest)[1..] == rest;
      }
    }
  }

  /** Filtering a concatenation filters each part: the order of the kept
      documents is the order of the input. */
  lemma {:induction false} ExcludeAppend(a: seq<Document>, b: seq<Document>, kwargs: Document)
    ensures ExcludeDocs(a + b, kwargs) == ExcludeDocs(a, kwargs) + ExcludeDocs(b, kwargs)
  {
    if a == [] {
      assert a + b == b;
    } else {
      assert (a + b)[0] == a[0] && (a + b)[1..] == a[1..] + b;
      ExcludeAppend(a[1..], b, kwargs);
    }
  }

  /** Each kept document occurs as often as in the input; a matching one
      not at all. */
  lemma {:induction false} ExcludeMultiplicity(docs: seq<Document>, kwargs: Document, d: Document)
    ensures multiset(ExcludeDocs(docs, kwargs))[d] == if Matches(d, kwargs) then 0 else multiset(docs)[d]
  {
    if docs != [] {
      ExcludeMultiplicity(docs[1..], kwargs, d);
      assert docs == [docs[0]] + docs[1..];
    }
  }

  /** With no keyword arguments every document matches, so nothing is kept. */
  lemma {:induction false} ExcludeNoKwargs(docs: seq<Document>)
    ensures ExcludeDocs(docs, map[]) == []
  {
    if docs != [] {
      assert Matches(docs[0], map[]);
      ExcludeNoKwargs(docs[1..]);
    }
  }

  /** Nothing is removed exactly when no document matches. */
  lemma {:induction false} ExcludeKeepsAll(docs: seq<Document>, kwargs: Document)
    ensures ExcludeDocs(docs, kwargs) == docs <==> forall i :: 0 <= i < |docs| ==> !Matches(docs[i], kwargs)
  {
    if docs != [] {
      ExcludeKeepsAll(docs[1..], kwargs);
      if Matches(docs[0], kwargs) {
        assert |ExcludeDocs(docs, kwargs)| < |docs|;
      } else {
        assert forall i :: 1 <= i < |docs| ==> docs[i] == docs[1..][i - 1];
      }
    }
  }

  /** `MongoManager.exclude`: the same filter over every document of the
      collection (`collection.find()`, given here as `found`). */
  function ManagerExcludeDocs(found: seq<Document>, kwargs: Document): (r: seq<Document>)
    ensures IsSubsequence(r, found)
    ensures forall d :: d in r <==> d in found && !Matches(d, kwargs)
  {
    ExcludeIsSubsequence(found, kwargs);
    assert forall d :: d in ExcludeDocs(found, kwargs) <==> d in found && !Matches(d, kwargs) by {
      forall d ensures d in ExcludeDocs(found, kwargs) <==> d in found && !Matches(d, kwargs) {
        ExcludeMembership(found, kwargs, d);
      }
    }
    ExcludeDocs(found, kwargs)
  }

  /** The position of the first document with the key `self`, the first one
      that `model_class(**doc)` cannot take; `|docs|` when there is none. */
  function FirstSelfKey(docs: seq<Document>): (k: nat)
    ensures k <= |docs|
    ensures forall j :: 0 <= j < k ==> "self" !in docs[j]
    ensures k < |docs| ==> "self" in docs[k]
  {
    if docs == [] || "self" in docs[0] then 0 else 1 + FirstSelfKey(docs[1..])
  }

  /** `[self.model_class(**doc) for doc in docs]`: a new instance per
      document, in order, each of the model class and each a different
      object; the `TypeError` of the first document with the key `self`. */
  method BuildModels(decls: FieldDecls, docs: seq<Document>) returns (r: Result<seq<ModelInstance>, string>)
    ensures r.Err? <==> FirstSelfKey(docs) < |docs|
    ensures r.Err? <==> exists i :: 0 <= i < |docs| && "self" in docs[i]
    ensures r.Err? ==> r.error == SelfKeyError
    ensures r.Ok? ==> |r.value| == |docs|
    ensures r.Ok? ==> forall i :: 0 <= i < |r.value| ==>
              fresh(r.value[i]) && r.value[i].Valid() && r.value[i].decls == decls &&
              r.value[i].attrs == InitAttrs(decls, docs[i])
    ensures r.Ok? ==> forall i, j :: 0 <= i < j < |r.value| ==> r.value[i] != r.value[j]
  {
    var ms: seq<ModelInstance> := [];
    var i := 0;
    while i < |docs|
      invariant 0 <= i <= |docs| && |ms| == i
      invariant forall j :: 0 <= j < i ==> "self" !in docs[j]
      invariant forall j :: 0 <= j < i ==>
                  fresh(ms[j]) && ms[j].Valid() && ms[j].decls == decls && ms[j].attrs == InitAttrs(decls, docs[j])
      invariant forall j, k :: 0 <= j < k < i ==> ms[j] != ms[k]
    {
      var m := Instantiate(decls, docs[i]);
      if m.Err? {
        r := Err(m.error);
        return;
      }
      ms := ms + [m.value];
      i := i + 1;
    }
    r := Ok(ms);
  }

  /** A query result: the model class, the cursor, and the filter that
      produced it (`filter_criteria or {}`). */
  class QuerySet {
    const decls: FieldDecls
    const docs: seq<Document>
    var pos: nat
    const filterCriteria: Document

    ghost predicate Valid()
      reads this
    {
      pos <= |docs|
    }

    /** The documents the cursor has not yet produced. */
    function Remaining(): seq<Document>
      reads this
      requires Valid()
    {
      docs[pos..]
    }

    /** `QuerySet(model_class, documents_cursor, filter_criteria)`. */
    constructor (decls: FieldDecls, cursor: seq<Document>, filterCriteria: Option<Document> := None)
      ensures Valid() && Remaining() == cursor
      ensures this.decls == decls
      ensures this.filterCriteria == if filterCriteria.Some? then filterCriteria.value else map[]
    {
      this.decls := decls;
      this.docs := cursor;
      this.pos := 0;
      this.filterCriteria := if filterCriteria.Some? then filterCriteria.value else map[];
    }

    /** `first()`: consumes one document if there is one; `None` (here
        `null`) when the cursor is exhausted or the document is empty; the
        `TypeError` when the document has the key `self`. */
    method First() returns (r: Result<ModelInstance?, string>)
      requires Valid()
      modifies this
      ensures Valid()
      ensures Remaining() == if old(Remaining()) == [] then [] else old(Remaining())[1..]
      ensures r.Err? <==> old(Remaining()) != [] && "self" in old(Remaining())[0]
      ensures r.Err? ==> r.error == SelfKeyError
      ensures r.Ok? ==> (r.value == null <==> old(Remaining()) == [] || old(Remaining())[0] == map[])
      ensures r.Ok? && r.value != null ==>
                fresh(r.value) && r.value.Valid() && r.value.decls == decls &&
                r.value.attrs == InitAttrs(decls, old(Remaining())[0])
    {
      if pos == |docs| {
        r := Ok(null);
      } else {
        var doc := docs[pos];
        pos := pos + 1;
        if doc != map[] {
          var m := Instantiate(decls, doc);
          if m.Err? {
            r := Err(m.error);
          } else {
            r := Ok(m.value);
          }
        } else {
          r := Ok(null);
        }
      }
    }

    /** `__iter__()`: builds an instance per remaining document, exhausting
        the cursor; on a document with the key `self` the comprehension
        stops with `TypeError`, having consumed up to that document. */
    method Iterate() returns (r: Result<seq<ModelInstance>, string>)
      requires Valid()
      modifies this
      ensures Valid()
      ensures r.Err? <==> exists i :: 0 <= i < |old(Remaining())| && "self" in old(Remaining())[i]
      ensures r.Err? ==> r.error == SelfKeyError && Remaining() == old(Remaining())[FirstSelfKey(old(Remaining())) + 1..]
      ensures r.Ok? ==> Remaining() == [] && |r.value| == |old(Remaining())|
      ensures r.Ok? ==> forall i :: 0 <= i < |r.value| ==>
                fresh(r.value[i]) && r.value[i].Valid() && r.value[i].decls == decls &&
                r.value[i].attrs == InitAttrs(decls, old(Remaining())[i])
      ensures r.Ok? ==> forall i, j :: 0 <= i < j < |r.value| ==> r.value[i] != r.value[j]
    {
      var rest := docs[pos..];
      assert rest == old(Remaining());
      r := BuildModels(decls, rest);
      if r.Err? {
        pos := pos + FirstSelfKey(rest) + 1;
      } else {
        pos := |docs|;
      }
    }

    /** `exclude(**kwargs)`: the remaining documents that do not match, as
        instances; the cursor is exhausted before any instance is built. */
    method Exclude(kwargs: Document) returns (r: Result<seq<ModelInstance>, string>)
      requires Valid()
      modifies this
      ensures Valid() && Remaining() == []
      ensures r.Err? <==> exists i :: 0 <= i < |ExcludeDocs(old(Remaining()), kwargs)| && "self" in ExcludeDocs(old(Remaining()), kwargs)[i]
      ensures r.Err? ==> r.error == SelfKeyError
      ensures r.Ok? ==> |r.value| == |ExcludeDocs(old(Remaining()), kwargs)|
      ensures r.Ok? ==> forall i :: 0 <= i < |r.value| ==>
                fresh(r.value[i]) && r.value[i].Valid() && r.value[i].decls == decls &&
                r.value[i].attrs == InitAttrs(decls, ExcludeDocs(old(Remaining()), kwargs)[i])
      ensures r.Ok? ==> forall i, j :: 0 <= i < j < |r.value| ==> r.value[i] != r.value[j]
    {
      var kept := ExcludeDocs(docs[pos..], kwargs);
      assert kept == ExcludeDocs(old(Remaining()), kwargs);
      pos := |docs|;
      r := BuildModels(decls, kept);
    }

    /** `count()`: with a filter, the count the server reports for it
        (`serverCount`), leaving the cursor alone; without one, the number
        of remaining documents, exhausting the cursor. */
    method Count(serverCount: nat) returns (n: nat)
      requires Valid()
      modifies this
      ensures Valid()
      ensures filterCriteria != map[] ==> n == serverCount && pos == old(pos)
      ensures filterCriteria == map[] ==> n == |old(Remaining())| && Remaining() == []
    {
      if filterCriteria != map[] {
        n := serverCount;
      } else {
        n := |docs| - pos;
        pos := |docs|;
      }
    }
  }
}
