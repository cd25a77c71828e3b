/**
 * The document collections behind the three resource routers.
 *
 * A collection is a sequence of documents in the store's natural (insertion)
 * order. The helpers every router defines over it (count, find by id,
 * `updateOne` with `$set`, `deleteOne`, insert) are pure functions here; the
 * routers' classes hold the sequence and reassign it.
 */
module Store {

  datatype Option<+T> = None | Some(value: T)

  /** A scalar JSON value as it appears in a request body or a stored document. */
  datatype Value = Num(n: int) | Str(s: string) | Bool(b: bool)

  /** A request body or a stored document: field name to value. */
  type Doc = map<string, Value>

  /** `doc.field`; an absent field reads as `None`, JavaScript's `undefined`. */
  function Get(doc: Doc, field: string): Option<Value>
  {
    if field in doc then Some(doc[field]) else None
  }

  /** The query filter `{ id: id }`. */
  predicate HasId(doc: Doc, id: int)
  {
    Get(doc, "id") == Some(Num(id))
  }

  /**
   * The check the review and photo updates make before writing: the update
   * carries the same businessid and userid as the stored document (`===`, so
   * two absent fields count as equal).
   */
  predicate KeepsOwners(existing: Doc, updated: Doc)
  {
    Get(updated, "businessid") == Get(existing, "businessid") && Get(updated, "userid") == Get(existing, "userid")
  }

  /** `doc.id = id`: the record a handler builds before it is stored. */
  function WithId(doc: Doc, id: int): (r: Doc)
    ensures HasId(r, id)
    ensures r.Keys == doc.Keys + {"id"}
    ensures forall f :: f in doc && f != "id" ==> r[f] == doc[f]
  {
    doc["id" := Num(id)]
  }

  /**
   * `findOne({ id: id })`: the position of the first document whose `id` is
   * `id`, or `None` when there is none. Ids are not unique in general, so
   * "first" matters.
   */
  function FindById(docs: seq<Doc>, id: int): (r: Option<nat>)
    ensures r.Some? ==> r.value < |docs| && HasId(docs[r.value], id)
    ensures r.Some? ==> forall j :: 0 <= j < r.value ==> !HasId(docs[j], id)
    ensures r.None? <==> forall j :: 0 <= j < |docs| ==> !HasId(docs[j], id)
  {
    if |docs| == 0 then None
    else if HasId(docs[0], id) then Some(0)
    else match FindById(docs[1..], id)
      case None => None
      case Some(k) => Some(k + 1)
  }

  /** The update `{ $set: patch }` applied to one document. */
  function Set(doc: Doc, patch: Doc): (r: Doc)
    ensures r.Keys == doc.Keys + patch.Keys
    ensures forall f :: f in patch ==> r[f] == patch[f]
    ensures forall f :: f in doc && f !in patch ==> r[f] == doc[f]
  {
    doc + patch
  }

  /**
   * `updateOne({ id: id }, { $set: patch })`: the first document with that
   * id gets the fields of `patch`; every other document is left alone.
   */
  function SetById(docs: seq<Doc>, id: int, patch: Doc): (r: seq<Doc>)
    ensures |r| == |docs|
    ensures FindById(docs, id).None? ==> r == docs
    ensures FindById(docs, id).Some? ==>
              var i := FindById(docs, id).value;
              && r[i].Keys == docs[i].Keys + patch.Keys
              && (forall f :: f in patch ==> r[i][f] == patch[f])
              && (forall f :: f in docs[i] && f !in patch ==> r[i][f] == docs[i][f])
              && (forall j :: 0 <= j < |docs| && j != i ==> r[j] == docs[j])
  {
    match FindById(docs, id)
    case None => docs
    case Some(i) => docs[i := Set(docs[i], patch)]
  }

  /**
   * `deleteOne({ id: id })`: the first document with that id is removed and
   * the others keep their order.
   */
  function DeleteById(docs: seq<Doc>, id: int): (r: seq<Doc>)
    ensures FindById(docs, id).None? ==> r == docs
    ensures FindById(docs, id).Some? ==>
              var i := FindById(docs, id).value;
              && |r| == |docs| - 1
              && (forall j :: 0 <= j < i ==> r[j] == docs[j])
              && (forall j :: i <= j < |r| ==> r[j] == docs[j + 1])
              && multiset(r) + multiset{docs[i]} == multiset(docs)
  {
    match FindById(docs, id)
    case None => docs
    case Some(i) =>
      assert docs == docs[..i] + [docs[i]] + docs[i + 1..];
      docs[..i] + docs[i + 1..]
  }
}
