/**
 * The reviews router: creation under the one-review-per-user-per-business
 * rule, lookup, owner-preserving update and deletion.
 */
module Reviews {
  import opened Store
  import opened Validation
  import opened Http

  const ReviewSchema: Schema := map[
    "userid" := true, "businessid" := true, "dollars" := true, "stars" := true,
    "review" := false]

  /**
   * `getReviewsByBusinessID(businessid)`: `find({ businessid: businessid })`,
   * every review of one business, each as often as it is stored.
   */
  function ReviewsByBusinessId(reviews: seq<Doc>, businessid: Option<Value>): (r: seq<Doc>)
    ensures |r| <= |reviews|
    ensures forall d :: d in r <==> d in reviews && Get(d, "businessid") == businessid
  {
    if |reviews| == 0 then []
    else if Get(reviews[0], "businessid") == businessid then [reviews[0]] + ReviewsByBusinessId(reviews[1..], businessid)
    else ReviewsByBusinessId(reviews[1..], businessid)
  }

  /**
   * `find({ businessid })` returns every matching review as many times as it
   * is stored, and no other review.
   */
  lemma {:induction false} ReviewsByBusinessIdCounts(reviews: seq<Doc>, businessid: Option<Value>, d: Doc)
    ensures multiset(ReviewsByBusinessId(reviews, businessid))[d] ==
              if Get(d, "businessid") == businessid then multiset(reviews)[d] else 0
  {
    if |reviews| > 0 {
      ReviewsByBusinessIdCounts(reviews[1..], businessid, d);
      assert reviews == [reviews[0]] + reviews[1..];
    }
  }

  /** `reviews.some(review => review.userid === userid)` */
  function SomeByUser(reviews: seq<Doc>, userid: Option<Value>): (r: bool)
    ensures r <==> exists d :: d in reviews && Get(d, "userid") == userid
  {
    if |reviews| == 0 then false
    else Get(reviews[0], "userid") == userid || SomeByUser(reviews[1..], userid)
  }

  /** The pair a review is unique on. */
  predicate SameAuthorAndBusiness(a: Doc, b: Doc)
  {
    Get(a, "userid") == Get(b, "userid") && Get(a, "businessid") == Get(b, "businessid")
  }

  /** `hasUserReviewedBusiness(userid, businessid)` */
  function HasUserReviewedBusiness(reviews: seq<Doc>, userid: Option<Value>, businessid: Option<Value>): (r: bool)
    ensures r <==> exists i :: 0 <= i < |reviews| && Get(reviews[i], "userid") == userid && Get(reviews[i], "businessid") == businessid
  {
    SomeByUser(ReviewsByBusinessId(reviews, businessid), userid)
  }

  /** At most one review per (userid, businessid). */
  predicate OneReviewPerPair(reviews: seq<Doc>)
  {
    forall i, j :: 0 <= i < j < |reviews| ==> !SameAuthorAndBusiness(reviews[i], reviews[j])
  }

  /** Storing a review for a pair that has none keeps the rule. */
  lemma InsertKeepsOneReviewPerPair(reviews: seq<Doc>, review: Doc)
    requires OneReviewPerPair(reviews)
    requires !HasUserReviewedBusiness(reviews, Get(review, "userid"), Get(review, "businessid"))
    ensures OneReviewPerPair(reviews + [review])
  {
  }

  /** `$set`ting a patch that passed the owner check keeps the rule. */
  lemma SetKeepsOneReviewPerPair(reviews: seq<Doc>, id: int, patch: Doc)
    requires OneReviewPerPair(reviews)
    requires FindById(reviews, id).Some? ==> KeepsOwners(reviews[FindById(reviews, id).value], patch)
    ensures OneReviewPerPair(SetById(reviews, id, patch))
  {
  }

  /** Deleting a review keeps the rule. */
  lemma DeleteKeepsOneReviewPerPair(reviews: seq<Doc>, id: int)
    requires OneReviewPerPair(reviews)
    ensures OneReviewPerPair(DeleteById(reviews, id))
  {
  }

  /** The `reviews` collection together with the handlers that read and change it. */
  class ReviewStore {
    var reviews: seq<Doc>
    const validation: Validator

    constructor (validation: Validator, reviews: seq<Doc>)
      ensures this.validation == validation && this.reviews == reviews
    {
      this.validation := validation;
      this.reviews := reviews;
    }

    /**
     * POST /reviews: a valid body whose (userid, businessid) has no review yet
     * is stored with `id` set to the number of reviews before it.
     */
    method Post(body: Doc) returns (status: Status)
      modifies this
      ensures !validation.validate(body, ReviewSchema) ==>
                status == BadRequest && reviews == old(reviews)
      ensures validation.validate(body, ReviewSchema) ==>
                var review := validation.extract(body, ReviewSchema);
                if HasUserReviewedBusiness(old(reviews), Get(review, "userid"), Get(review, "businessid")) then
                  status == Forbidden && reviews == old(reviews)
                else
                  status == Created(|old(reviews)|) && reviews == old(reviews) + [WithId(review, |old(reviews)|)]
      ensures status.Created? && ExtractsWithinSchema(validation) ==>
                reviews[|reviews| - 1].Keys <= ReviewSchema.Keys + {"id"}
      ensures OneReviewPerPair(old(reviews)) ==> OneReviewPerPair(reviews)
    {
      if validation.validate(body, ReviewSchema) {
        var review := validation.extract(body, ReviewSchema);
        if HasUserReviewedBusiness(reviews, Get(review, "userid"), Get(review, "businessid")) {
          status := Forbidden;
        } else {
          var id := |reviews|;
          var stored := WithId(review, id);
          if OneReviewPerPair(reviews) {
            InsertKeepsOneReviewPerPair(reviews, stored);
          }
          reviews := reviews + [stored];
          status := Created(id);
        }
      } else {
        status := BadRequest;
      }
    }

    /** GET /reviews/id: the first review with that id, or 404. */
    method GetOne(id: int) returns (status: Status, review: Option<Doc>)
      ensures review.Some? <==> status == Ok
      ensures status == Ok || status == NotFound
      ensures review.Some? ==> review.value in reviews && HasId(review.value, id)
      ensures review.Some? ==> review.value == reviews[FindById(reviews, id).value]
      ensures review.None? <==> forall i :: 0 <= i < |reviews| ==> !HasId(reviews[i], id)
    {
      match FindById(reviews, id)
      case None =>
        status, review := NotFound, None;
      case Some(i) =>
        status, review := Ok, Some(reviews[i]);
    }

    /**
     * PUT /reviews/id: when the review exists and the body is valid, the body's
     * schema fields are `$set` on it, provided they keep its businessid and
     * userid; otherwise 403.
     */
    method Put(id: int, body: Doc) returns (status: Status)
      modifies this
      ensures FindById(old(reviews), id).None? ==>
                status == NotFound && reviews == old(reviews)
      ensures FindById(old(reviews), id).Some? && !validation.validate(body, ReviewSchema) ==>
                status == BadRequest && reviews == old(reviews)
      ensures FindById(old(reviews), id).Some? && validation.validate(body, ReviewSchema) ==>
                var updated := validation.extract(body, ReviewSchema);
                if KeepsOwners(old(reviews)[FindById(old(reviews), id).value], updated) then
                  status == Ok && reviews == SetById(old(reviews), id, updated)
                else
                  status == Forbidden && reviews == old(reviews)
      ensures status == Ok ==>
                var i := FindById(old(reviews), id).value;
                KeepsOwners(old(reviews)[i], reviews[i])
      ensures OneReviewPerPair(old(reviews)) ==> OneReviewPerPair(reviews)
    {
      match FindById(reviews, id)
      case None =>
        status := NotFound;
      case Some(i) =>
        if validation.validate(body, ReviewSchema) {
          var updated := validation.extract(body, ReviewSchema);
          var existing := reviews[i];
          if KeepsOwners(existing, updated) {
            if OneReviewPerPair(reviews) {
              SetKeepsOneReviewPerPair(reviews, id, updated);
            }
            reviews := SetById(reviews, id, updated);
            status := Ok;
          } else {
            status := Forbidden;
          }
        } else {
          status := BadRequest;
        }
    }

    /** DELETE /reviews/id: removes the first review with that id. */
    method Delete(id: int) returns (status: Status)
      modifies this
      ensures FindById(old(reviews), id).None? ==>
                status == NotFound && reviews == old(reviews)
      ensures FindById(old(reviews), id).Some? ==>
                status == NoContent && reviews == DeleteById(old(reviews), id)
      ensures OneReviewPerPair(old(reviews)) ==> OneReviewPerPair(reviews)
    {
      match FindById(reviews, id)
      case None =>
        status := NotFound;
      case Some(_) =>
        if OneReviewPerPair(reviews) {
          DeleteKeepsOneReviewPerPair(reviews, id);
        }
        reviews := DeleteById(reviews, id);
        status := NoContent;
    }
  }

  /**
   * Posting the same valid review twice to an empty store: the first is
   * stored with id 0, the second is refused with 403, and the store holds
   * exactly the first.
   */
  method PostSameReviewTwice(validation: Validator, body: Doc)
    returns (first: Status, second: Status, stored: seq<Doc>)
    requires validation.validate(body, ReviewSchema)
    ensures first == Created(0) && second == Forbidden
    ensures stored == [WithId(validation.extract(body, ReviewSchema), 0)]
  {
    var store := new ReviewStore(validation, []);
    first := store.Post(body);
    second := store.Post(body);
    stored := store.reviews;
  }

  /** A request to the reviews router. */
  datatype Request = PostReview(body: Doc) | PutReview(id: int, body: Doc) | DeleteReview(id: int)

  /**
   * Serving any sequence of requests, one at a time, from an empty
   * collection: every request gets one of the statuses its route can send,
   * and no (userid, businessid) ever has two reviews.
   */
  method Serve(validation: Validator, requests: seq<Request>)
    returns (statuses: seq<Status>, stored: seq<Doc>)
    ensures |statuses| == |requests|
    ensures forall k :: 0 <= k < |requests| && requests[k].PostReview? ==>
              statuses[k].Code() in {201, 400, 403}
    ensures forall k :: 0 <= k < |requests| && requests[k].PutReview? ==>
              statuses[k].Code() in {200, 400, 403, 404}
    ensures forall k :: 0 <= k < |requests| && requests[k].DeleteReview? ==>
              statuses[k].Code() in {204, 404}
    ensures OneReviewPerPair(stored)
  {
    var store := new ReviewStore(validation, []);
    statuses := [];
    for k := 0 to |requests|
      invariant |statuses| == k
      invariant forall j :: 0 <= j < k && requests[j].PostReview? ==>
                  statuses[j].Code() in {201, 400, 403}
      invariant forall j :: 0 <= j < k && requests[j].PutReview? ==>
                  statuses[j].Code() in {200, 400, 403, 404}
      invariant forall j :: 0 <= j < k && requests[j].DeleteReview? ==>
                  statuses[j].Code() in {204, 404}
      invariant OneReviewPerPair(store.reviews)
    {
      var status;
      match requests[k] {
        case PostReview(body) =>
          status := store.Post(body);
        case PutReview(id, body) =>
          status := store.Put(id, body);
        case DeleteReview(id) =>
          status := store.Delete(id);
      }
      statuses := statuses + [status];
    }
    stored := store.reviews;
  }
}
