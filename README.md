# Business review API: pagination and write handlers

This project models the application logic of a small REST API for a local
business review service. The API stores businesses, reviews and photos in
three document collections. Underneath the routing it has two kinds of logic:

- the page arithmetic of the business listing (`GET /businesses?page=N`):
  default page, clamping to `[1, lastPage]`, skip/limit, and which HATEOAS
  links are emitted;
- the POST/PUT/DELETE handlers of the three routers. They validate the body
  against a schema and assign `id = current count`. They enforce one review
  per (userid, businessid), refuse updates that change a review's or photo's
  businessid/userid, and fall through to 404 for an absent id.

Layout:

- `store.dfy` (module `Store`): documents as maps from field name to scalar
  value. A collection is a `seq<Doc>` in store order. The store helpers each
  router defines become pure functions over it: `findOne({id})` is
  `FindById`, `updateOne({id}, {$set})` is `SetById`, `deleteOne({id})` is
  `DeleteById`. All three act on the FIRST document with that id, because
  count-based ids are not unique.
- `validation.dfy` (module `Validation`): schemas, and the validator from
  `lib/validation`. Its implementation is not part of this model, so it is a
  pair of uninterpreted functions held by each store. Handler contracts are
  stated in terms of what it answered.
- `http.dfy` (module `Http`): the response statuses. `NotFound` stands for a
  handler calling `next()`, which the catch-all route answers with 404.
- `businesses.dfy`, `reviews.dfy`, `photos.dfy`: one module per router. Pure
  functions hold the listing arithmetic and the review lookup. Each router
  has a class whose `seq<Doc>` field is its collection, with one method per
  mutating route.

Reading a field gives `Option<Value>`: an absent field is `None`, like
JavaScript's `undefined`. So the `===` comparisons of the source are Option
equality, and two absent fields compare equal, as in the source.

The route `PUT /businesses/:id` is described as a full replacement, but the
code writes with `$set`. Stored fields missing from the body therefore
survive. The model follows the code (`SetById`).

## Model

| member | source | states |
|---|---|---|
| `Store.FindById` | api/businesses.js:43-47 | `findOne({id})` (also api/reviews.js:23-27, api/photos.js:25-29): returns the position of a document with that id, no earlier document has it, and `None` exactly when no document has it |
| `Store.WithId` | api/businesses.js:122 | `x.id = n`: the record then has id `n`, its fields are the old ones plus `id`, and every other field keeps its value |
| `Store.Set` | api/businesses.js:58 | `$set: patch` on one document: the result has the union of the fields, each patch field takes the patch value, and every other field keeps its stored value |
| `Store.SetById` | api/businesses.js:55-59 | `updateOne({id}, {$set})` (also api/reviews.js:35-39, api/photos.js:37-41): the length is unchanged, only the first match gets the `$set` fields (others keep their stored values), every other document is unchanged, and with no match nothing changes |
| `Store.DeleteById` | api/businesses.js:49-53 | `deleteOne({id})` (also api/reviews.js:29-33, api/photos.js:31-35): removes exactly the first match, keeps the order of the rest, and removes one copy of it from the multiset; with no match nothing changes |
| `Businesses.LastPage` | api/businesses.js:79 | `Math.ceil(count/10)`: the smallest number of 10-record pages that holds `count` records, and 0 exactly when `count` is 0 |
| `Businesses.ClampPage` | api/businesses.js:77-81 | the shown page is always at least 1, and at most `lastPage` when there are businesses; a missing, unparsable, zero or negative page gives 1; an in-range page is kept; a page at or past a non-zero `lastPage` gives `lastPage`; with no businesses every page gives 1 |
| `Businesses.Page` | api/businesses.js:34-40 | `skip(pageNum*n).limit(n)`: at most `n` records, each at offset `pageNum*n + k` of the store, as many as remain up to `n`, and none past the end; a limit of 0 keeps all the rest |
| `Businesses.ListBusinesses` | api/businesses.js:71-114 | the listing: the page shown is `ClampPage` of the requested page, so it lies in `[1, totalPages]` (1 when empty), at most 10 records starting at `(page-1)*10`, a full page before the last and a non-empty one when the store is not empty; `nextPage`/`lastPage` present iff `page < lastPage`, `prevPage`/`firstPage` iff `page > 1`, with the page numbers they point at; totals equal the store's count; empty store gives page 1, 0 pages, no records, no links |
| `Businesses.LowPagesShowFirst` | api/businesses.js:77-81 | asking for no page, page 0 or a negative page gives the same response as page 1 |
| `Businesses.HighPagesShowLast` | api/businesses.js:80-81 | asking for any page at or beyond `lastPage` gives the same response as `lastPage` |
| `Businesses.BrowsePrefix` | api/businesses.js:87 | for n up to `lastPage`, pages 1..n fetched in turn are exactly the first `min(10n, count)` stored businesses |
| `Businesses.BrowseAllPages` | api/businesses.js:87-96 | pages 1..lastPage fetched in turn return every stored business exactly once, in store order |
| `Businesses.BusinessStore.Post` | api/businesses.js:119-136 | invalid body: 400 and the store is unchanged; valid body: 201 with id = prior count, and the extracted fields plus that id are appended; if the validator keeps only schema fields, the new record holds only schema fields and `id` |
| `Businesses.BusinessStore.Put` | api/businesses.js:165-184 | absent id: 404 and unchanged; invalid body: 400 and unchanged; otherwise 200, and the extracted fields with `id` forced to the path id are `$set` on the first match only (other stored fields survive) |
| `Businesses.BusinessStore.Delete` | api/businesses.js:211-218 | present id: 204 and the first match is removed; absent id: 404 and the store is unchanged |
| `Reviews.ReviewsByBusinessId` | api/reviews.js:54-59 | `find({businessid})`: a review is listed iff it is stored with that businessid, and the list is no longer than the store |
| `Reviews.ReviewsByBusinessIdCounts` | api/reviews.js:54-59 | `find({businessid})` lists each matching review exactly as many times as it is stored, and no other review |
| `Reviews.SomeByUser` | api/reviews.js:63 | `.some(r => r.userid === userid)`: true iff some listed review has that userid |
| `Reviews.HasUserReviewedBusiness` | api/reviews.js:61-64 | true iff some stored review has both that userid and that businessid |
| `Reviews.InsertKeepsOneReviewPerPair` | api/reviews.js:75-81 | appending a review whose (userid, businessid) has no review yet keeps at most one review per pair |
| `Reviews.SetKeepsOneReviewPerPair` | api/reviews.js:124-125 | `$set`ting a patch that passed the same-businessid-and-userid check keeps at most one review per pair |
| `Reviews.DeleteKeepsOneReviewPerPair` | api/reviews.js:153-154 | deleting a review keeps at most one review per pair |
| `Reviews.ReviewStore.Post` | api/reviews.js:70-96 | invalid body: 400 and unchanged; an already-reviewed (userid, businessid): 403 and unchanged; otherwise 201 with id = prior count and exactly that review appended; at most one review per pair is preserved; with a schema-respecting validator the record holds only schema fields and `id` |
| `Reviews.ReviewStore.GetOne` | api/reviews.js:101-108 | 200 with the first review having that id, or 404 exactly when no review has it |
| `Reviews.ReviewStore.Put` | api/reviews.js:113-146 | absent id: 404 and unchanged; invalid body: 400 and unchanged; an update changing businessid or userid: 403 and unchanged; otherwise 200 and the fields are `$set` on the first match only, which keeps its businessid/userid; at most one review per pair is preserved |
| `Reviews.ReviewStore.Delete` | api/reviews.js:151-159 | present id: 204 and the first match is removed; absent id: 404 and unchanged; at most one review per pair is preserved |
| `Reviews.PostSameReviewTwice` | api/reviews.js:75-88 | posting one valid review twice to an empty store: 201 with id 0, then 403, and the store holds exactly the first review |
| `Reviews.Serve` | api/reviews.js:70-159 | serving any sequence of review POST/PUT/DELETE requests one at a time from an empty collection: each POST answers 201, 400 or 403, each PUT 200, 400, 403 or 404, each DELETE 204 or 404, and no (userid, businessid) ever has two reviews |
| `Photos.PhotoStore.Post` | api/photos.js:52-69 | invalid body: 400 and unchanged; valid body: 201 with id = prior count and the extracted fields plus that id appended, with no uniqueness check; with a schema-respecting validator the record holds only schema fields and `id` |
| `Photos.PhotoStore.GetOne` | api/photos.js:74-81 | status 200 exactly when some photo has that id, else 404 |
| `Photos.PhotoStore.Put` | api/photos.js:86-119 | absent id: 404 and unchanged; invalid body: 400 and unchanged; an update changing businessid or userid: 403 and unchanged; otherwise 200 and the fields are `$set` on the first match only, which keeps its businessid/userid |
| `Photos.PhotoStore.Delete` | api/photos.js:124-132 | present id: 204 and the first match is removed; absent id: 404 and unchanged |
| `Photos.PostSamePhotoTwice` | api/photos.js:52-56 | posting one valid photo twice: both are accepted (ids 0 and 1) and two photos for the same (userid, businessid) are stored |
| `Photos.IdReusedAfterDelete` | api/photos.js:55 | count-based ids collide: post two photos, delete id 0, and the next post gets id 1 again; two photos then have id 1 and lookups reach only the older one |

## Left out

- `lib/validation` is not part of this model. `validateAgainstSchema` and `extractValidFields` are uninterpreted functions, and nothing is proved about them. "Only schema fields" is proved on condition that the extractor keeps only schema fields (`ExtractsWithinSchema`).
- `GET /businesses/:id` is not modelled. It tests an in-memory data array, not the collection. Its `reviews.filter` (api/businesses.js:150) also reads a `reviews` export that the reviews router does not have.
- `GET /photos/:id` is modelled only for its status. Its body is the in-memory `photos[photoID]`, not the stored photo.
- `api/users.js`, `getBusinessesByOwnerID` and `getReviewsByUserID` are not modelled. They are pass-through queries for the users router, which also imports a `getPhotosByUserID` that the photos router does not export.
- `Reviews.ReviewsByBusinessId`: the store order of the listed reviews is not stated, because its only caller, `.some`, does not depend on order.
- `server.js` (Express setup, database connection, environment configuration, logging, static files, the 500 handler) is I/O plumbing and is left out.
- Async execution and concurrency are not modelled; every request runs to completion before the next one starts. So the race between the review uniqueness check and the insert is not modelled. The un-awaited `insertOne` of `POST /businesses` is treated as done before the next request.
- The listing counts the businesses twice; in the sequential model both counts agree.
- Path ids are already-parsed integers. A path id that does not parse (`NaN`) matches no document; it is not a separate input here. The `page` parameter is an `Option<int>`, with `None` for a missing or unparsable value.
- Values are JSON integers, strings and booleans. Floating-point numbers, `null`, nested objects and arrays are not modelled, and neither are MongoDB's matching rules for them (array-element matching, `null` matching a missing field, dotted `$set` paths). Mongo's `_id` field is not modelled.
- Link URLs are not modelled as strings: the listing's links are page numbers, and the handlers return only the status (with the new id for 201).
- Error responses carry only their status; the JSON error messages and the generic 500 path for store failures are left out.
