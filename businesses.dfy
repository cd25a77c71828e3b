/**
 * The businesses router: the paginated listing, and creation, replacement
 * and deletion of businesses.
 */
module Businesses {
  import opened Store
  import opened Validation
  import opened Http

  const BusinessSchema: Schema := map[
    "ownerid" := true, "name" := true, "address" := true, "city" := true,
    "state" := true, "zip" := true, "phone" := true, "category" := true,
    "subcategory" := true, "website" := false, "email" := false]

  /** The listing's fixed page size. */
  const NumPerPage: nat := 10

  function Min(a: int, b: int): int
  {
    if a <= b then a else b
  }

  /** `Math.ceil(count / numPerPage)`: how many pages `count` businesses fill. */
  function LastPage(count: nat): (last: nat)
    ensures count <= last * NumPerPage
    ensures count > 0 ==> (last - 1) * NumPerPage < count
    ensures last == 0 <==> count == 0
  {
    (count + NumPerPage - 1) / NumPerPage
  }

  /**
   * The page number the listing shows. `requested` is the `page` query
   * parameter after `parseInt`, `None` when it is missing or not a number.
   * `parseInt(...) || 1` turns a missing, unparsable or zero page into 1; the
   * page is then capped at `lastPage` and afterwards raised to 1.
   */
  function ClampPage(requested: Option<int>, lastPage: nat): (page: int)
    ensures 1 <= page
    ensures lastPage > 0 ==> page <= lastPage
    ensures lastPage == 0 ==> page == 1
    ensures requested.Some? && 1 <= requested.value <= lastPage ==> page == requested.value
    ensures requested.None? || requested.value <= 1 ==> page == 1
    ensures requested.Some? && 0 < lastPage <= requested.value ==> page == lastPage
  {
    var parsed := if requested.None? || requested.value == 0 then 1 else requested.value;
    var capped := if parsed > lastPage then lastPage else parsed;
    if capped < 1 then 1 else capped
  }

  /**
   * `getBusinessesPage(pageNum, numPerPage)`: `find({})`, skipping
   * `pageNum * numPerPage` documents and keeping at most `numPerPage` of the
   * rest (a limit of 0 is no limit at all).
   */
  function Page(docs: seq<Doc>, pageNum: nat, numPerPage: nat): (r: seq<Doc>)
    ensures pageNum * numPerPage >= |docs| ==> r == []
    ensures numPerPage > 0 ==> |r| <= numPerPage
    ensures pageNum * numPerPage <= |docs| ==>
              |r| == if numPerPage == 0 then |docs| else Min(numPerPage, |docs| - pageNum * numPerPage)
    ensures forall k :: 0 <= k < |r| ==> pageNum * numPerPage + k < |docs| && r[k] == docs[pageNum * numPerPage + k]
  {
    var skip := pageNum * numPerPage;
    if skip >= |docs| then []
    else if numPerPage == 0 then docs[skip..]
    else docs[skip..Min(skip + numPerPage, |docs|)]
  }

  /** The HATEOAS links of a listing, as the page numbers they point at. */
  datatype Links = Links(nextPage: Option<int>, lastPage: Option<int>, prevPage: Option<int>, firstPage: Option<int>)

  /** The body of the listing's response. */
  datatype Listing = Listing(
    businesses: seq<Doc>,
    pageNumber: int,
    totalPages: nat,
    pageSize: nat,
    totalCount: nat,
    links: Links)

  function PageLinks(page: int, lastPage: nat): Links
  {
    Links(
      if page < lastPage then Some(page + 1) else None,
      if page < lastPage then Some(lastPage) else None,
      if page > 1 then Some(page - 1) else None,
      if page > 1 then Some(1) else None)
  }

  /** GET /businesses?page=requested over the stored `businesses`. */
  function ListBusinesses(businesses: seq<Doc>, requested: Option<int>): (r: Listing)
    ensures r.totalCount == |businesses| && r.pageSize == NumPerPage
    ensures r.totalPages == LastPage(|businesses|)
    ensures 1 <= r.pageNumber
    ensures r.pageNumber == ClampPage(requested, LastPage(|businesses|))
    ensures |businesses| > 0 ==> r.pageNumber <= r.totalPages && 1 <= |r.businesses|
    ensures |r.businesses| <= NumPerPage
    ensures r.pageNumber < r.totalPages ==> |r.businesses| == NumPerPage
    ensures forall k :: 0 <= k < |r.businesses| ==>
              (r.pageNumber - 1) * NumPerPage + k < |businesses| &&
              r.businesses[k] == businesses[(r.pageNumber - 1) * NumPerPage + k]
    ensures r.links.nextPage.Some? <==> r.pageNumber < r.totalPages
    ensures r.links.lastPage.Some? <==> r.pageNumber < r.totalPages
    ensures r.links.nextPage.Some? ==> r.links.nextPage.value == r.pageNumber + 1 && r.links.lastPage.value == r.totalPages
    ensures r.links.prevPage.Some? <==> r.pageNumber > 1
    ensures r.links.firstPage.Some? <==> r.pageNumber > 1
    ensures r.links.prevPage.Some? ==> r.links.prevPage.value == r.pageNumber - 1 && r.links.firstPage.value == 1
    ensures |businesses| == 0 ==>
              r.pageNumber == 1 && r.totalPages == 0 && r.businesses == [] && r.links == Links(None, None, None, None)
  {
    var lastPage := LastPage(|businesses|);
    var page := ClampPage(requested, lastPage);
    var pageBusinesses := Page(businesses, page - 1, NumPerPage);
    Listing(pageBusinesses, page, lastPage, NumPerPage, |businesses|, PageLinks(page, lastPage))
  }

  /** Asking for page 0, a negative page or no page at all shows page 1. */
  lemma LowPagesShowFirst(businesses: seq<Doc>, p: int)
    requires p <= 1
    ensures ListBusinesses(businesses, Some(p)) == ListBusinesses(businesses, Some(1))
    ensures ListBusinesses(businesses, None) == ListBusinesses(businesses, Some(1))
  {
  }

  /** Asking for a page at or beyond the last one shows the last page. */
  lemma HighPagesShowLast(businesses: seq<Doc>, p: int)
    requires p >= LastPage(|businesses|)
    ensures ListBusinesses(businesses, Some(p)) == ListBusinesses(businesses, Some(LastPage(|businesses|)))
  {
  }

  /** The businesses a client sees by fetching pages 1 to n in turn. */
  function Browse(businesses: seq<Doc>, n: nat): seq<Doc>
  {
    if n == 0 then [] else Browse(businesses, n - 1) + ListBusinesses(businesses, Some(n)).businesses
  }

  lemma {:induction false} BrowsePrefix(businesses: seq<Doc>, n: nat)
    requires n <= LastPage(|businesses|)
    ensures Min(n * NumPerPage, |businesses|) <= |businesses|
    ensures Browse(businesses, n) == businesses[..Min(n * NumPerPage, |businesses|)]
  {
    if n > 0 {
      BrowsePrefix(businesses, n - 1);
      var before := (n - 1) * NumPerPage;
      var upTo := Min(n * NumPerPage, |businesses|);
      var page := ListBusinesses(businesses, Some(n)).businesses;
      assert ListBusinesses(businesses, Some(n)).pageNumber == n;
      assert page == businesses[before..upTo];
      assert businesses[..before] + businesses[before..upTo] == businesses[..upTo];
    }
  }

  /**
   * Fetching pages 1 to `lastPage` in turn returns every stored business
   * exactly once, in store order.
   */
  lemma {:induction false} BrowseAllPages(businesses: seq<Doc>)
    ensures Browse(businesses, LastPage(|businesses|)) == businesses
  {
    BrowsePrefix(businesses, LastPage(|businesses|));
    assert businesses[..|businesses|] == businesses;
  }

  /** The `businesses` collection together with the handlers that change it. */
  class BusinessStore {
    var businesses: seq<Doc>
    const validation: Validator

    constructor (validation: Validator, businesses: seq<Doc>)
      ensures this.validation == validation && this.businesses == businesses
    {
      this.validation := validation;
      this.businesses := businesses;
    }

    /**
     * POST /businesses: a valid body is stored with `id` set to the number of
     * businesses before it; an invalid one is refused with 400.
     */
    method Post(body: Doc) returns (status: Status)
      modifies this
      ensures !validation.validate(body, BusinessSchema) ==>
                status == BadRequest && businesses == old(businesses)
      ensures validation.validate(body, BusinessSchema) ==>
                && status == Created(|old(businesses)|)
                && businesses == old(businesses) + [WithId(validation.extract(body, BusinessSchema), |old(businesses)|)]
      ensures status.Created? && ExtractsWithinSchema(validation) ==>
                businesses[|businesses| - 1].Keys <= BusinessSchema.Keys + {"id"}
    {
      if validation.validate(body, BusinessSchema) {
        var business := validation.extract(body, BusinessSchema);
        var id := |businesses|;
        business := WithId(business, id);
        businesses := businesses + [business];
        status := Created(id);
      } else {
        status := BadRequest;
      }
    }

    /**
     * PUT /businesses/id: when a business with that id exists and the body is
     * valid, `$set`s the body's schema fields, with `id` forced to the path
     * id, on the first business with that id.
     */
    method Put(id: int, body: Doc) returns (status: Status)
      modifies this
      ensures FindById(old(businesses), id).None? ==>
                status == NotFound && businesses == old(businesses)
      ensures FindById(old(businesses), id).Some? && !validation.validate(body, BusinessSchema) ==>
                status == BadRequest && businesses == old(businesses)
      ensures FindById(old(businesses), id).Some? && validation.validate(body, BusinessSchema) ==>
                && status == Ok
                && businesses == SetById(old(businesses), id, WithId(validation.extract(body, BusinessSchema), id))
                && HasId(businesses[FindById(old(businesses), id).value], id)
    {
      match FindById(businesses, id)
      case None =>
        status := NotFound;
      case Some(_) =>
        if validation.validate(body, BusinessSchema) {
          var business := validation.extract(body, BusinessSchema);
          business := WithId(business, id);
          businesses := SetById(businesses, id, business);
          status := Ok;
        } else {
          status := BadRequest;
        }
    }

    /** DELETE /businesses/id: removes the first business with that id. */
    method Delete(id: int) returns (status: Status)
      modifies this
      ensures FindById(old(businesses), id).None? ==>
                status == NotFound && businesses == old(businesses)
      ensures FindById(old(businesses), id).Some? ==>
                status == NoContent && businesses == DeleteById(old(businesses), id)
    {
      match FindById(businesses, id)
      case None =>
        status := NotFound;
      case Some(_) =>
        businesses := DeleteById(businesses, id);
        status := NoContent;
    }
  }
}
