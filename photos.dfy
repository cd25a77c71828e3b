/**
 * The photos router: creation, an existence lookup, owner-preserving update
 * and deletion. Unlike reviews, photos carry no uniqueness rule.
 */
module Photos {
  import opened Store
  import opened Validation
  import opened Http

  const PhotoSchema: Schema := map["userid" := true, "businessid" := true, "caption" := false]

  /** The `photos` collection together with the handlers that read and change it. */
  class PhotoStore {
    var photos: seq<Doc>
    const validation: Validator

    constructor (validation: Validator, photos: seq<Doc>)
      ensures this.validation == validation && this.photos == photos
    {
      this.validation := validation;
      this.photos := photos;
    }

    /**
     * POST /photos: a valid body is stored with `id` set to the number of
     * photos before it; nothing else is checked.
     */
    method Post(body: Doc) returns (status: Status)
      modifies this
      ensures !validation.validate(body, PhotoSchema) ==>
                status == BadRequest && photos == old(photos)
      ensures validation.validate(body, PhotoSchema) ==>
                && status == Created(|old(photos)|)
                && photos == old(photos) + [WithId(validation.extract(body, PhotoSchema), |old(photos)|)]
      ensures status.Created? && ExtractsWithinSchema(validation) ==>
                photos[|photos| - 1].Keys <= PhotoSchema.Keys + {"id"}
    {
      if validation.validate(body, PhotoSchema) {
        var photo := validation.extract(body, PhotoSchema);
        var id := |photos|;
        photo := WithId(photo, id);
        photos := photos + [photo];
        status := Created(id);
      } else {
        status := BadRequest;
      }
    }

    /** GET /photos/id, as far as its status goes: 200 exactly when a photo has that id. */
    method GetOne(id: int) returns (status: Status)
      ensures status == Ok || status == NotFound
      ensures status == Ok <==> exists i :: 0 <= i < |photos| && HasId(photos[i], id)
    {
      if FindById(photos, id).Some? {
        status := Ok;
      } else {
        status := NotFound;
      }
    }

    /**
     * PUT /photos/id: when the photo exists and the body is valid, the body's
     * schema fields are `$set` on it, provided they keep its businessid and
     * userid; otherwise 403.
     */
    method Put(id: int, body: Doc) returns (status: Status)
      modifies this
      ensures FindById(old(photos), id).None? ==>
                status == NotFound && photos == old(photos)
      ensures FindById(old(photos), id).Some? && !validation.validate(body, PhotoSchema) ==>
                status == BadRequest && photos == old(photos)
      ensures FindById(old(photos), id).Some? && validation.validate(body, PhotoSchema) ==>
                var updated := validation.extract(body, PhotoSchema);
                if KeepsOwners(old(photos)[FindById(old(photos), id).value], updated) then
                  status == Ok && photos == SetById(old(photos), id, updated)
                else
                  status == Forbidden && photos == old(photos)
      ensures status == Ok ==>
                var i := FindById(old(photos), id).value;
                KeepsOwners(old(photos)[i], photos[i])
    {
      match FindById(photos, id)
      case None =>
        status := NotFound;
      case Some(i) =>
        if validation.validate(body, PhotoSchema) {
          var updated := validation.extract(body, PhotoSchema);
          var existing := photos[i];
          if KeepsOwners(existing, updated) {
            photos := SetById(photos, id, updated);
            status := Ok;
          } else {
            status := Forbidden;
          }
        } else {
          status := BadRequest;
        }
    }

    /** DELETE /photos/id: removes the first photo with that id. */
    method Delete(id: int) returns (status: Status)
      modifies this
      ensures FindById(old(photos), id).None? ==>
                status == NotFound && photos == old(photos)
      ensures FindById(old(photos), id).Some? ==>
                status == NoContent && photos == DeleteById(old(photos), id)
    {
      match FindById(photos, id)
      case None =>
        status := NotFound;
      case Some(_) =>
        photos := DeleteById(photos, id);
        status := NoContent;
    }
  }

  /**
   * Posting the same valid photo twice to an empty store: both are accepted,
   * with ids 0 and 1, and both are stored for the same user and business.
   */
  method PostSamePhotoTwice(validation: Validator, body: Doc)
    returns (first: Status, second: Status, stored: seq<Doc>)
    requires validation.validate(body, PhotoSchema)
    ensures first == Created(0) && second == Created(1)
    ensures |stored| == 2 && KeepsOwners(stored[0], stored[1])
    ensures stored == [WithId(validation.extract(body, PhotoSchema), 0), WithId(validation.extract(body, PhotoSchema), 1)]
  {
    var store := new PhotoStore(validation, []);
    first := store.Post(body);
    second := store.Post(body);
    stored := store.photos;
  }

  /**
   * Count-based ids are reused: after two photos are posted and the first is
   * deleted, the next photo gets id 1 again. Two photos then share that id and
   * lookups by it reach only the older one.
   */
  method IdReusedAfterDelete(validation: Validator, a: Doc, b: Doc, c: Doc)
    returns (third: Status, stored: seq<Doc>)
    requires validation.validate(a, PhotoSchema) && validation.validate(b, PhotoSchema)
    requires validation.validate(c, PhotoSchema)
    ensures third == Created(1)
    ensures |stored| == 2 && HasId(stored[0], 1) && HasId(stored[1], 1)
    ensures stored[0] == WithId(validation.extract(b, PhotoSchema), 1)
    ensures FindById(stored, 1) == Some(0)
  {
    var store := new PhotoStore(validation, []);
    var first := store.Post(a);
    var second := store.Post(b);
    var deleted := store.Delete(0);
    third := store.Post(c);
    stored := store.photos;
  }
}
