/** The search-parameter model shared by rest/pages.go, rest/pages-api.go and
    rest/response.go (three revisions of the same code): turning the request's
    form values into SearchParams, the single-scope check, and the page-count
    arithmetic that SetTotalPages writes back into the receiver. */
module Pages {
  import opened Wrappers
  import opened GoInt
  import opened StrConv
  import opened GoStrings
  import opened RestErrors

  /** `PageInfo`; `pageIndex` is 1-based. Go's `int` is 64 bits wide here. */
  datatype PageInfo = PageInfo(pageIndex: Int64, itemsPerPage: Int64, totalItemCount: Int64, totalPageCount: Int64)

  /** The form values `ExtractSearchParamsFromUrl` reads; an absent value is "". */
  datatype Form = Form(scopes: string, terms: string, sort: string, pageIndex: string, itemsPerPage: string)

  const DefaultPageIndex: Int64 := 1
  const DefaultItemsPerPage: Int64 := 100
  const MinItemsPerPage: Int64 := 20
  const MaxItemsPerPage: Int64 := 250

  const MultipleScopesMessage := "We currently only support a single scope."
  const NoScopeMessage := "No scope specified."

  /** A comma-separated form value as a list: empty when the value is empty,
      otherwise every piece between commas, empty pieces included. */
  function FormList(value: string): (r: seq<string>)
    ensures value == "" <==> r == []
    ensures value != "" ==> Join(r, ',') == value && |r| == Count(',', value) + 1
    ensures forall i :: 0 <= i < |r| ==> ',' !in r[i]
  {
    if value == "" then []
    else
      JoinSplit(value, ',');
      Split(value, ',')
  }

  /** The pageIndex form value: 1 when absent, otherwise whatever `Atoi`
      yields (no range check), or a BadRequest naming the input. */
  function ParsePageIndex(s: string): (r: Result<Int64, ErrorData>)
    ensures s == "" ==> r == Ok(DefaultPageIndex)
    ensures s != "" ==> (r.Ok? <==> ParseInt64(s).Some?)
    ensures s != "" && r.Ok? ==> r.value == ParseInt64(s).value
    ensures r.Err? ==> r.error == BadRequestError("Could not parse pageIndex: " + s, Some(NumError("Atoi", s)))
  {
    if s == "" then Ok(DefaultPageIndex)
    else
      match ParseInt64(s)
      case Some(n) => Ok(n)
      case None => Err(BadRequestError("Could not parse pageIndex: " + s, Some(NumError("Atoi", s))))
  }

  /** `n` forced into [MinItemsPerPage, MaxItemsPerPage]. */
  function ClampItemsPerPage(n: Int64): (r: Int64)
    ensures MinItemsPerPage <= r <= MaxItemsPerPage
    ensures MinItemsPerPage <= n <= MaxItemsPerPage ==> r == n
    ensures n < MinItemsPerPage ==> r == MinItemsPerPage
    ensures n > MaxItemsPerPage ==> r == MaxItemsPerPage
  {
    if n < MinItemsPerPage then MinItemsPerPage
    else if n > MaxItemsPerPage then MaxItemsPerPage
    else n
  }

  /** The itemsPerPage form value: 100 when absent, a BadRequest naming the
      input when `Atoi` rejects it, otherwise the parsed value clamped. */
  function ParseItemsPerPage(s: string): (r: Result<Int64, ErrorData>)
    ensures r.Ok? ==> MinItemsPerPage <= r.value <= MaxItemsPerPage
    ensures s == "" ==> r == Ok(DefaultItemsPerPage)
    ensures s != "" ==> (r.Ok? <==> ParseInt64(s).Some?)
    ensures s != "" && r.Ok? ==> r.value == ClampItemsPerPage(ParseInt64(s).value)
    ensures r.Err? ==> r.error == BadRequestError("Could not parse itemsPerPage: " + s, Some(NumError("Atoi", s)))
  {
    if s == "" then Ok(DefaultItemsPerPage)
    else
      match ParseInt64(s)
      case Some(n) => Ok(ClampItemsPerPage(n))
      case None => Err(BadRequestError("Could not parse itemsPerPage: " + s, Some(NumError("Atoi", s))))
  }

  /** The PageInfo built from the two paging form values; pageIndex is
      checked first, so its error wins when both are malformed. */
  function PageInfoFromForm(pageIndex: string, itemsPerPage: string): (r: Result<PageInfo, ErrorData>)
    ensures r.Ok? ==> MinItemsPerPage <= r.value.itemsPerPage <= MaxItemsPerPage
    ensures r.Ok? ==> r.value.totalItemCount == 0 && r.value.totalPageCount == 0
    ensures r.Err? ==> r.error.code == StatusBadRequest
    ensures r.Ok? <==> ParsePageIndex(pageIndex).Ok? && ParseItemsPerPage(itemsPerPage).Ok?
    ensures r.Ok? ==> r.value == PageInfo(ParsePageIndex(pageIndex).value, ParseItemsPerPage(itemsPerPage).value, 0, 0)
    ensures ParsePageIndex(pageIndex).Err? ==> r == Err(ParsePageIndex(pageIndex).error)
    ensures ParsePageIndex(pageIndex).Ok? && ParseItemsPerPage(itemsPerPage).Err? ==> r == Err(ParseItemsPerPage(itemsPerPage).error)
  {
    match ParsePageIndex(pageIndex)
    case Err(e) => Err(e)
    case Ok(index) =>
      match ParseItemsPerPage(itemsPerPage)
      case Err(e) => Err(e)
      case Ok(count) => Ok(PageInfo(index, count, 0, 0))
  }

  /** Whatever number `Itoa` prints comes back unchanged as the page index:
      zero and negative indexes are accepted as they are. */
  lemma PageIndexAcceptsEveryInt64(n: Int64)
    ensures ParsePageIndex(FormatInt(n)) == Ok(n)
  {
    ParseFormatRoundTrip(n);
  }

  /** Whatever number `Itoa` prints is accepted as items-per-page and clamped. */
  lemma ItemsPerPageClampsEveryInt64(n: Int64)
    ensures ParseItemsPerPage(FormatInt(n)) == Ok(ClampItemsPerPage(n))
  {
    ParseFormatRoundTrip(n);
  }

  /** The largest page index whose zero-based row offset, at the largest page
      size, still fits a 64-bit `int`. */
  const MaxPageIndex: Int64 := MaxInt64 / MaxItemsPerPage

  /** The pageIndex parse the LIMIT arithmetic relies on: as ParsePageIndex,
      but a parsed index outside [1, MaxPageIndex] is a BadRequest too. */
  function ParsePageIndexChecked(s: string): (r: Result<Int64, ErrorData>)
    ensures r.Ok? ==> 1 <= r.value <= MaxPageIndex
    ensures r.Ok? <==> ParsePageIndex(s).Ok? && 1 <= ParsePageIndex(s).value <= MaxPageIndex
    ensures r.Ok? ==> r == ParsePageIndex(s)
    ensures ParsePageIndex(s).Err? ==> r == ParsePageIndex(s)
    ensures r.Err? ==> r.error.code == StatusBadRequest
  {
    match ParsePageIndex(s)
    case Err(e) => Err(e)
    case Ok(n) =>
      if 1 <= n <= MaxPageIndex then Ok(n)
      else Err(BadRequestError("pageIndex out of range: " + s, None))
  }

  /** PageInfoFromForm with the range-checked page index. */
  function PageInfoFromFormChecked(pageIndex: string, itemsPerPage: string): (r: Result<PageInfo, ErrorData>)
    ensures r.Ok? ==> 1 <= r.value.pageIndex <= MaxPageIndex
    ensures r.Ok? ==> MinItemsPerPage <= r.value.itemsPerPage <= MaxItemsPerPage
    ensures r.Ok? <==> PageInfoFromForm(pageIndex, itemsPerPage).Ok? && 1 <= PageInfoFromForm(pageIndex, itemsPerPage).value.pageIndex <= MaxPageIndex
    ensures r.Ok? ==> r == PageInfoFromForm(pageIndex, itemsPerPage)
    ensures PageInfoFromForm(pageIndex, itemsPerPage).Ok? && r.Err? ==> r.error.code == StatusBadRequest
  {
    match ParsePageIndexChecked(pageIndex)
    case Err(e) => Err(e)
    case Ok(index) =>
      match ParseItemsPerPage(itemsPerPage)
      case Err(e) => Err(e)
      case Ok(count) => Ok(PageInfo(index, count, 0, 0))
  }

  /** The single-scope rule: too many scopes and no scope are distinct
      BadRequests; exactly one scope passes. */
  function SingleScopeCheck(scopes: seq<string>): (r: Option<ErrorData>)
    ensures r.None? <==> |scopes| == 1
    ensures |scopes| > 1 ==> r == Some(BadRequestError(MultipleScopesMessage, None))
    ensures |scopes| == 0 ==> r == Some(BadRequestError(NoScopeMessage, None))
  {
    if |scopes| > 1 then Some(BadRequestError(MultipleScopesMessage, None))
    else if |scopes| == 0 then Some(BadRequestError(NoScopeMessage, None))
    else None
  }

  /** Number of pages needed for `count` items, `itemsPerPage` to a page:
      Go's truncating quotient, plus one when the remainder is positive. */
  function PageCount(count: Int64, itemsPerPage: Int64): (pages: Int64)
    requires itemsPerPage != 0
    ensures count >= 0 && itemsPerPage > 0 ==> pages >= 0
  {
    var q := Quo64(count, itemsPerPage);
    if Rem64(count, itemsPerPage) > 0 then
      PageCountNoOverflow(count, itemsPerPage);
      q + 1
    else q
  }

  lemma PageCountNoOverflow(count: Int64, itemsPerPage: Int64)
    requires itemsPerPage != 0
    requires Rem64(count, itemsPerPage) > 0
    ensures Quo64(count, itemsPerPage) < MaxInt64
  {
    assert count > 0;
    if itemsPerPage > 0 {
      if itemsPerPage > 1 {
        assert count / itemsPerPage <= count / 2 by {
          QuotientAntitone(count, 2, itemsPerPage);
        }
      }
    } else {
      assert TruncQuo(count, itemsPerPage) <= 0;
    }
  }

  /** For a non-negative count, the page count is the ceiling of
      count / itemsPerPage: enough pages for every item, and not one more. */
  lemma PageCountIsCeiling(count: Int64, itemsPerPage: Int64)
    requires count >= 0 && itemsPerPage > 0
    ensures PageCount(count, itemsPerPage) == (count + itemsPerPage - 1) / itemsPerPage
    ensures PageCount(count, itemsPerPage) * itemsPerPage >= count
    ensures (PageCount(count, itemsPerPage) - 1) * itemsPerPage < count
  {
    var q, r := count / itemsPerPage, count % itemsPerPage;
    assert count == itemsPerPage * q + r;
    var p := PageCount(count, itemsPerPage);
    if r > 0 {
      assert p == q + 1;
      assert count + itemsPerPage - 1 == itemsPerPage * (q + 1) + (r - 1);
      DivUnique(count + itemsPerPage - 1, itemsPerPage, q + 1, r - 1);
    } else {
      assert p == q;
      assert count + itemsPerPage - 1 == itemsPerPage * q + (itemsPerPage - 1);
      DivUnique(count + itemsPerPage - 1, itemsPerPage, q, itemsPerPage - 1);
    }
  }

  /** `SearchParams`: the caller's search request; SetTotalPages replaces its
      PageInfo in place once the total count is known. */
  class SearchParams {
    var scopes: seq<string>
    var terms: seq<string>
    var sort: string
    var pageInfo: PageInfo

    constructor (scopes: seq<string>, terms: seq<string>, sort: string, pageInfo: PageInfo)
      ensures this.scopes == scopes && this.terms == terms && this.sort == sort
      ensures this.pageInfo == pageInfo
    {
      this.scopes := scopes;
      this.terms := terms;
      this.sort := sort;
      this.pageInfo := pageInfo;
    }

    /** `EnsureSingleScope`: nil exactly when there is one scope; reads only. */
    function EnsureSingleScope(): (r: Option<ErrorData>)
      reads this
      ensures r.None? <==> |scopes| == 1
      ensures r.Some? ==> r.value.code == StatusBadRequest && r.value.cause.None?
    {
      SingleScopeCheck(scopes)
    }

    /** `SetTotalPages`: records the total and the page count, keeping the
        page index and the page size; nothing but PageInfo changes. */
    method SetTotalPages(count: Int64)
      requires pageInfo.itemsPerPage != 0
      modifies this`pageInfo
      ensures pageInfo.pageIndex == old(pageInfo.pageIndex)
      ensures pageInfo.itemsPerPage == old(pageInfo.itemsPerPage)
      ensures pageInfo.totalItemCount == count
      ensures pageInfo.totalPageCount == PageCount(count, pageInfo.itemsPerPage)
    {
      var itemsPerPage := pageInfo.itemsPerPage;
      var pageIndex := pageInfo.pageIndex;
      var pageCount := Quo64(count, itemsPerPage);
      if Rem64(count, itemsPerPage) > 0 {
        PageCountNoOverflow(count, itemsPerPage);
        pageCount := pageCount + 1;
      }
      pageInfo := PageInfo(pageIndex, itemsPerPage, count, pageCount);
    }
  }

  /** `ExtractSearchParamsFromUrl`: scopes and terms are comma lists, sort is
      copied verbatim, and the paging values are parsed with their defaults
      and clamping; a malformed number is returned as a BadRequest and no
      SearchParams is built. */
  method ExtractSearchParamsFromUrl(form: Form) returns (sp: SearchParams?, err: Option<ErrorData>)
    ensures sp == null <==> err.Some?
    ensures err.Some? ==> PageInfoFromForm(form.pageIndex, form.itemsPerPage) == Err(err.value)
    ensures sp != null ==>
      && fresh(sp)
      && sp.scopes == FormList(form.scopes)
      && sp.terms == FormList(form.terms)
      && sp.sort == form.sort
      && PageInfoFromForm(form.pageIndex, form.itemsPerPage) == Ok(sp.pageInfo)
  {
    var scopes := if form.scopes != "" then Split(form.scopes, ',') else [];
    var terms := if form.terms != "" then Split(form.terms, ',') else [];
    var sort := form.sort;

    var pageIndex: Int64;
    if form.pageIndex != "" {
      var parsed := ParseInt64(form.pageIndex);
      if parsed.None? {
        return null, Some(BadRequestError("Could not parse pageIndex: " + form.pageIndex, Some(NumError("Atoi", form.pageIndex))));
      }
      pageIndex := parsed.value;
    } else {
      pageIndex := DefaultPageIndex;
    }

    var itemsPerPage: Int64;
    if form.itemsPerPage != "" {
      var parsed := ParseInt64(form.itemsPerPage);
      if parsed.None? {
        return null, Some(BadRequestError("Could not parse itemsPerPage: " + form.itemsPerPage, Some(NumError("Atoi", form.itemsPerPage))));
      }
      itemsPerPage := parsed.value;
      if itemsPerPage < MinItemsPerPage {
        itemsPerPage := MinItemsPerPage;
      } else if itemsPerPage > MaxItemsPerPage {
        itemsPerPage := MaxItemsPerPage;
      }
    } else {
      itemsPerPage := DefaultItemsPerPage;
    }

    sp := new SearchParams(scopes, terms, sort, PageInfo(pageIndex, itemsPerPage, 0, 0));
    err := None;
  }
}
