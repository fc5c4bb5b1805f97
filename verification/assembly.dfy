/** Query assembly (rest/pages-db.go ProcessPageStmt and its fragment-returning
    twin ProcessSearchParams in rest/pages.go): the single scope becomes a JOIN,
    each search term a LIKE filter whose text travels only as bound parameters,
    the sort key an ORDER BY from a two-entry whitelist, and the page a LIMIT. */
module QueryAssembly {
  import opened Wrappers
  import opened GoInt
  import opened StrConv
  import opened GoStrings
  import opened RestErrors
  import opened Pages

  /** A bound parameter. The assembler only appends text; a caller's own
      parameters may be numbers as well. */
  datatype SqlArg = Text(text: string) | Number(n: int)

  const ActiveScope := "Active"
  const AllScope := "All"
  /** The packages join of the "Active" scope: customers with a package in
      one of the seven live statuses. Written in pieces so that each one is
      short enough for the verifier to inspect character by character. */
  const JoinPackages := "JOIN packages p ON p.customer_id=c.id"
  const StatusIn := " AND p.status IN ("
  const EarlyStatuses := "'CREATED', 'REJECTED', 'ACCEPTED', "
  const HandledStatuses := "'PACKAGED', 'PICKED_UP', 'SORTED', "
  const LastStatus := "'OUT_FOR_DELIVERY') "
  const ActiveJoin := JoinPackages + StatusIn + EarlyStatuses + HandledStatuses + LastStatus
  /** `AND (<first> LIKE ? OR <second> LIKE ?) `: one term matched against
      two columns through two placeholders. */
  function EitherLike(first: string, second: string): string
  {
    "AND (" + first + " LIKE " + "?" + " OR " + second + " LIKE " + "?" + ") "
  }

  const PhoneFilter := EitherLike("c.phone", "c.phone_backup")
  const NameFilter := EitherLike("c.name", "c.email")
  const SortAscending := "name-asc"
  const SortDescending := "name-desc"

  /** The JOIN a scope adds: the packages join for "Active", nothing for
      "All", and a BadRequest naming any other scope. */
  function ScopeJoin(scope: string): (r: Result<string, ErrorData>)
    ensures r.Ok? <==> scope == ActiveScope || scope == AllScope
    ensures scope == ActiveScope ==> r == Ok(ActiveJoin)
    ensures scope == AllScope ==> r == Ok("")
    ensures r.Err? ==> r.error == BadRequestError("Found unknown scope: '" + scope + "'.", None)
  {
    if scope == ActiveScope then Ok(ActiveJoin)
    else if scope != AllScope then Err(BadRequestError("Found unknown scope: '" + scope + "'.", None))
    else Ok("")
  }

  /** A term is searched as a phone number exactly when ParseInt(term, 10, 64)
      accepts it. */
  predicate IsNumericTerm(term: string) { ParseInt64(term).Some? }

  /** The WHERE fragment for one term; it mentions the term only through two
      placeholders. */
  function TermFilter(term: string): (r: string)
    ensures r == PhoneFilter || r == NameFilter
    ensures r == PhoneFilter <==> IsNumericTerm(term)
    ensures Count('?', r) == 2
  {
    FilterPlaceholders();
    FiltersDiffer();
    if IsNumericTerm(term) then PhoneFilter else NameFilter
  }

  function LikePattern(term: string): string { "%" + term + "%" }

  /** The WHERE fragments of all terms, in term order: exactly two
      placeholders per term. */
  function TermFilters(terms: seq<string>): (r: string)
    ensures Count('?', r) == 2 * |terms|
    decreases |terms|
  {
    if terms == [] then ""
    else
      var prefix, last := TermFilters(terms[..|terms| - 1]), TermFilter(terms[|terms| - 1]);
      CountAppend('?', prefix, last);
      prefix + last
  }

  /** The parameters the terms bind: each term's LIKE pattern, twice, in term order. */
  function TermArgs(terms: seq<string>): (args: seq<SqlArg>)
    ensures |args| == 2 * |terms|
    decreases |terms|
  {
    if terms == [] then []
    else
      var last := LikePattern(terms[|terms| - 1]);
      TermArgs(terms[..|terms| - 1]) + [Text(last), Text(last)]
  }

  /** The ORDER BY key for a sort value: only "name-asc" and "name-desc" are
      known; anything else, the empty string included, is an
      UnprocessableEntity naming the value. */
  function OrderBy(sort: string): (r: Result<string, ErrorData>)
    ensures r.Ok? <==> sort == SortAscending || sort == SortDescending
    ensures sort == SortAscending ==> r == Ok("c.name ASC ")
    ensures sort == SortDescending ==> r == Ok("c.name DESC ")
    ensures r.Err? ==> r.error == UnprocessableEntityError("Bad sort value: '" + sort + "'.", None)
  {
    if sort == SortAscending then Ok("c.name ASC ")
    else if sort == SortDescending then Ok("c.name DESC ")
    else Err(UnprocessableEntityError("Bad sort value: '" + sort + "'.", None))
  }

  /** The zero-based row offset, computed in Go's 64-bit `int` as
      `(PageIndex - 1) * ItemsPerPage`, wrap-around included: exact whenever
      the product fits. */
  function LimitOffset(page: PageInfo): (r: Int64)
    ensures MinInt64 <= (page.pageIndex - 1) * page.itemsPerPage <= MaxInt64 ==> r == (page.pageIndex - 1) * page.itemsPerPage
  {
    Wrap64(Wrap64(page.pageIndex - 1) * page.itemsPerPage)
  }

  /** `ORDER BY <key> LIMIT <offset>, <itemsPerPage>`. */
  function OrderAndLimit(sort: string, page: PageInfo): (r: Result<string, ErrorData>)
    ensures r.Ok? <==> OrderBy(sort).Ok?
    ensures r.Err? ==> r == Err(OrderBy(sort).error)
    ensures r.Ok? ==> r.value == "ORDER BY " + OrderBy(sort).value + "LIMIT " + FormatInt(LimitOffset(page)) + ", " + FormatInt(page.itemsPerPage)
  {
    match OrderBy(sort)
    case Err(e) => Err(e)
    case Ok(key) => Ok("ORDER BY " + key + "LIMIT " + FormatInt(LimitOffset(page)) + ", " + FormatInt(page.itemsPerPage))
  }

  /** What ProcessSearchParams returns on success. */
  datatype Fragments = Fragments(join: string, where: string, orderAndLimit: string, args: seq<SqlArg>)

  /** The specification of ProcessSearchParams: scope count, then scope, then
      sort; terms never fail. */
  function SearchFragments(scopes: seq<string>, terms: seq<string>, sort: string, page: PageInfo): (r: Result<Fragments, ErrorData>)
    ensures SingleScopeCheck(scopes).Some? ==> r == Err(SingleScopeCheck(scopes).value)
    ensures r.Ok? <==> |scopes| == 1 && ScopeJoin(scopes[0]).Ok? && OrderBy(sort).Ok?
    ensures r.Ok? ==> r.value.args == TermArgs(terms) && |r.value.args| == 2 * |terms|
    ensures r.Err? ==> r.error.code == StatusBadRequest || r.error.code == StatusUnprocessableEntity
    ensures r.Err? && r.error.code == StatusUnprocessableEntity <==>
      |scopes| == 1 && ScopeJoin(scopes[0]).Ok? && OrderBy(sort).Err?
    ensures |scopes| == 1 && ScopeJoin(scopes[0]).Err? ==> r == Err(ScopeJoin(scopes[0]).error)
    ensures |scopes| == 1 && ScopeJoin(scopes[0]).Ok? && OrderBy(sort).Err? ==> r == Err(OrderBy(sort).error)
    ensures r.Ok? ==>
      && |scopes| == 1 && ScopeJoin(scopes[0]).Ok? && OrderAndLimit(sort, page).Ok?
      && r.value == Fragments(ScopeJoin(scopes[0]).value, TermFilters(terms), OrderAndLimit(sort, page).value, TermArgs(terms))
  {
    match SingleScopeCheck(scopes)
    case Some(e) => Err(e)
    case None =>
      match ScopeJoin(scopes[0])
      case Err(e) => Err(e)
      case Ok(join) =>
        match OrderAndLimit(sort, page)
        case Err(e) => Err(e)
        case Ok(tail) => Ok(Fragments(join, TermFilters(terms), tail, TermArgs(terms)))
  }

  /** What ProcessPageStmt returns on success. */
  datatype PageQuery = PageQuery(sql: string, args: seq<SqlArg>)

  /** The specification of ProcessPageStmt: the same rules as
      SearchFragments, with the fragments placed around the caller's query and
      WHERE bases and the term parameters appended to the caller's. */
  function PageStmt(queryBase: string, whereBase: string, scopes: seq<string>, terms: seq<string>, sort: string,
                    page: PageInfo, params: seq<SqlArg>): (r: Result<PageQuery, ErrorData>)
    ensures |scopes| > 1 ==> r == Err(BadRequestError(MultipleScopesMessage, None))
    ensures |scopes| == 0 ==> r == Err(BadRequestError(NoScopeMessage, None))
    ensures r.Ok? ==> |scopes| == 1 && (scopes[0] == ActiveScope || scopes[0] == AllScope)
    ensures r.Ok? ==> sort == SortAscending || sort == SortDescending
    ensures r.Ok? ==> |r.value.args| == |params| + 2 * |terms| && r.value.args[..|params|] == params
    ensures r.Ok? <==> SearchFragments(scopes, terms, sort, page).Ok?
    ensures r.Err? ==> r.error == SearchFragments(scopes, terms, sort, page).error
    ensures r.Ok? ==>
      && |scopes| == 1 && ScopeJoin(scopes[0]).Ok? && OrderAndLimit(sort, page).Ok?
      && r.value.sql == queryBase + ScopeJoin(scopes[0]).value + whereBase + TermFilters(terms) + OrderAndLimit(sort, page).value
      && r.value.args == params + TermArgs(terms)
  {
    match SearchFragments(scopes, terms, sort, page)
    case Err(e) => Err(e)
    case Ok(f) => Ok(PageQuery(queryBase + f.join + whereBase + f.where + f.orderAndLimit, params + f.args))
  }

  lemma TermsStep(terms: seq<string>, i: nat)
    requires i < |terms|
    ensures TermFilters(terms[..i + 1]) == TermFilters(terms[..i]) + TermFilter(terms[i])
    ensures TermArgs(terms[..i + 1]) == TermArgs(terms[..i]) + [Text(LikePattern(terms[i])), Text(LikePattern(terms[i]))]
  {
    assert terms[..i + 1][..i] == terms[..i];
  }

  lemma AppendAssociates<T>(a: seq<T>, b: seq<T>, c: seq<T>)
    ensures a + b + c == a + (b + c)
  {
  }

  /** The loop both assemblers run over the terms: one filter and two
      parameters per term, appended to what the caller passed. */
  method AppendTermFilters(terms: seq<string>, params: seq<SqlArg>) returns (where: string, args: seq<SqlArg>)
    ensures where == TermFilters(terms)
    ensures args == params + TermArgs(terms)
  {
    where, args := "", params;
    var i := 0;
    while i < |terms|
      invariant 0 <= i <= |terms|
      invariant where == TermFilters(terms[..i])
      invariant args == params + TermArgs(terms[..i])
    {
      var term := terms[i];
      var likeTerm := "%" + term + "%";
      TermsStep(terms, i);
      if IsNumericTerm(term) {
        assert TermFilter(term) == PhoneFilter;
        where := where + PhoneFilter;
      } else {
        assert TermFilter(term) == NameFilter;
        where := where + NameFilter;
      }
      AppendAssociates(params, TermArgs(terms[..i]), [Text(likeTerm), Text(likeTerm)]);
      args := args + [Text(likeTerm), Text(likeTerm)];
      i := i + 1;
    }
    assert terms[..i] == terms;
  }

  /** `ProcessPageStmt`: the whole statement and its parameters, or an error
      with an empty statement and no parameters. */
  method ProcessPageStmt(queryBase: string, whereBase: string, sp: SearchParams, params: seq<SqlArg>)
    returns (stmt: string, args: seq<SqlArg>, err: Option<ErrorData>)
    ensures err.Some? ==>
      && stmt == "" && args == []
      && PageStmt(queryBase, whereBase, sp.scopes, sp.terms, sp.sort, sp.pageInfo, params) == Err(err.value)
    ensures err.None? ==>
      PageStmt(queryBase, whereBase, sp.scopes, sp.terms, sp.sort, sp.pageInfo, params) == Ok(PageQuery(stmt, args))
  {
    if |sp.scopes| > 1 {
      return "", [], Some(BadRequestError(MultipleScopesMessage, None));
    } else if |sp.scopes| == 0 {
      return "", [], Some(BadRequestError(NoScopeMessage, None));
    }

    var customJoin := "";
    if sp.scopes[0] == "Active" {
      customJoin := ActiveJoin;
    } else if sp.scopes[0] != "All" {
      return "", [], Some(BadRequestError("Found unknown scope: '" + sp.scopes[0] + "'.", None));
    }

    var customWhere, bound := AppendTermFilters(sp.terms, params);

    var pageIndex := Wrap64(sp.pageInfo.pageIndex - 1);
    var itemsPerPage := sp.pageInfo.itemsPerPage;

    var limitAndOrderBy := "ORDER BY ";
    if sp.sort == "name-asc" {
      limitAndOrderBy := limitAndOrderBy + "c.name ASC ";
    } else if sp.sort == "name-desc" {
      limitAndOrderBy := limitAndOrderBy + "c.name DESC ";
    } else {
      return "", [], Some(UnprocessableEntityError("Bad sort value: '" + sp.sort + "'.", None));
    }
    limitAndOrderBy := limitAndOrderBy + "LIMIT " + FormatInt(Wrap64((pageIndex as int) * (itemsPerPage as int))) + ", " + FormatInt(itemsPerPage);

    stmt := queryBase + customJoin + whereBase + customWhere + limitAndOrderBy;
    args := bound;
    err := None;
  }

  /** `ProcessSearchParams`: the join, where and order/limit fragments and
      the term parameters (starting from none), or an error with three empty
      fragments and no parameters. */
  method ProcessSearchParams(sp: SearchParams)
    returns (join: string, where: string, orderAndLimit: string, args: seq<SqlArg>, err: Option<ErrorData>)
    ensures err.Some? ==>
      && join == "" && where == "" && orderAndLimit == "" && args == []
      && SearchFragments(sp.scopes, sp.terms, sp.sort, sp.pageInfo) == Err(err.value)
    ensures err.None? ==>
      SearchFragments(sp.scopes, sp.terms, sp.sort, sp.pageInfo) == Ok(Fragments(join, where, orderAndLimit, args))
  {
    if |sp.scopes| > 1 {
      return "", "", "", [], Some(BadRequestError(MultipleScopesMessage, None));
    } else if |sp.scopes| == 0 {
      return "", "", "", [], Some(BadRequestError(NoScopeMessage, None));
    }

    var customJoin := "";
    if sp.scopes[0] == "Active" {
      customJoin := ActiveJoin;
    } else if sp.scopes[0] != "All" {
      return "", "", "", [], Some(BadRequestError("Found unknown scope: '" + sp.scopes[0] + "'.", None));
    }

    var customWhere, bound := AppendTermFilters(sp.terms, []);
    assert [] + TermArgs(sp.terms) == TermArgs(sp.terms);

    var pageIndex := Wrap64(sp.pageInfo.pageIndex - 1);
    var itemsPerPage := sp.pageInfo.itemsPerPage;

    var limitAndOrderBy := "ORDER BY ";
    if sp.sort == "name-asc" {
      limitAndOrderBy := limitAndOrderBy + "c.name ASC ";
    } else if sp.sort == "name-desc" {
      limitAndOrderBy := limitAndOrderBy + "c.name DESC ";
    } else {
      return "", "", "", [], Some(UnprocessableEntityError("Bad sort value: '" + sp.sort + "'.", None));
    }
    limitAndOrderBy := limitAndOrderBy + "LIMIT " + FormatInt(Wrap64((pageIndex as int) * (itemsPerPage as int))) + ", " + FormatInt(itemsPerPage);

    assert ScopeJoin(sp.scopes[0]) == Ok(customJoin);
    assert OrderAndLimit(sp.sort, sp.pageInfo) == Ok(limitAndOrderBy);
    join, where, orderAndLimit, args, err := customJoin, customWhere, limitAndOrderBy, bound, None;
  }

  // ---------------------------------------------------------------------------
  // Properties of the assembled statement
  // ---------------------------------------------------------------------------

  /** Term k's pattern sits at positions 2k and 2k+1 of the term parameters. */
  lemma {:induction false} TermArgsAt(terms: seq<string>, k: nat)
    requires k < |terms|
    ensures TermArgs(terms)[2 * k] == Text(LikePattern(terms[k]))
    ensures TermArgs(terms)[2 * k + 1] == Text(LikePattern(terms[k]))
    decreases |terms|
  {
    var n := |terms| - 1;
    if k < n {
      TermArgsAt(terms[..n], k);
      assert terms[..n][k] == terms[k];
    }
  }

  lemma EitherLikePlaceholders(first: string, second: string)
    requires '?' !in first && '?' !in second
    ensures Count('?', EitherLike(first, second)) == 2
  {
    var a, b, c, d := "AND (", " LIKE ", " OR ", ") ";
    CountAbsent('?', a);
    CountAbsent('?', b);
    CountAbsent('?', c);
    CountAbsent('?', d);
    CountAbsent('?', first);
    CountAbsent('?', second);
    CountAppend('?', a, first);
    CountAppend('?', a + first, b);
    CountAppend('?', a + first + b, "?");
    CountAppend('?', a + first + b + "?", c);
    CountAppend('?', a + first + b + "?" + c, second);
    CountAppend('?', a + first + b + "?" + c + second, b);
    CountAppend('?', a + first + b + "?" + c + second + b, "?");
    CountAppend('?', a + first + b + "?" + c + second + b + "?", d);
  }

  lemma FiltersDiffer()
    ensures PhoneFilter != NameFilter
  {
    assert PhoneFilter[8] != NameFilter[8];
  }

  /** Both term filters hold exactly two placeholders. */
  lemma FilterPlaceholders()
    ensures Count('?', PhoneFilter) == 2 && Count('?', NameFilter) == 2
  {
    EitherLikePlaceholders("c.phone", "c.phone_backup");
    EitherLikePlaceholders("c.name", "c.email");
  }

  lemma JoinHeadHasNoPlaceholder()
    ensures Count('?', JoinPackages) == 0 && Count('?', StatusIn) == 0
  {
    assert '?' !in JoinPackages && '?' !in StatusIn;
    CountAbsent('?', JoinPackages);
    CountAbsent('?', StatusIn);
  }

  lemma StatusesHaveNoPlaceholder()
    ensures Count('?', EarlyStatuses) == 0 && Count('?', HandledStatuses) == 0 && Count('?', LastStatus) == 0
  {
    assert '?' !in EarlyStatuses && '?' !in HandledStatuses && '?' !in LastStatus;
    CountAbsent('?', EarlyStatuses);
    CountAbsent('?', HandledStatuses);
    CountAbsent('?', LastStatus);
  }

  lemma ActiveJoinHasNoPlaceholder()
    ensures Count('?', ActiveJoin) == 0
  {
    JoinHeadHasNoPlaceholder();
    StatusesHaveNoPlaceholder();
    NoPlaceholderInConcat(JoinPackages, StatusIn, EarlyStatuses, HandledStatuses, LastStatus);
  }

  lemma NoPlaceholderInConcat(a: string, b: string, c: string, d: string, e: string)
    requires Count('?', a) == 0 && Count('?', b) == 0 && Count('?', c) == 0
    requires Count('?', d) == 0 && Count('?', e) == 0
    ensures Count('?', a + b + c + d + e) == 0
  {
    CountAppend('?', a, b);
    CountAppend('?', a + b, c);
    CountAppend('?', a + b + c, d);
    CountAppend('?', a + b + c + d, e);
  }

  lemma NumberHasNoPlaceholder(n: int)
    ensures Count('?', FormatInt(n)) == 0
  {
    var s := FormatInt(n);
    assert forall i :: 0 <= i < |s| ==> s[i] != '?';
    CountAbsent('?', s);
  }

  /** Neither scope join holds a placeholder. */
  lemma ScopeJoinHasNoPlaceholder(scope: string)
    requires ScopeJoin(scope).Ok?
    ensures Count('?', ScopeJoin(scope).value) == 0
  {
    if scope == ActiveScope {
      ActiveJoinHasNoPlaceholder();
    } else {
      CountAbsent('?', "");
    }
  }

  /** The ORDER BY / LIMIT tail holds no placeholder: the key comes from the
      whitelist and the two numbers are decimal numerals. */
  lemma OrderAndLimitHasNoPlaceholder(sort: string, page: PageInfo)
    requires OrderBy(sort).Ok?
    ensures Count('?', OrderAndLimit(sort, page).value) == 0
  {
    var head := "ORDER BY " + OrderBy(sort).value + "LIMIT ";
    var offset, size := FormatInt(LimitOffset(page)), FormatInt(page.itemsPerPage);
    assert '?' !in head;
    CountAbsent('?', head);
    CountAbsent('?', ", ");
    NumberHasNoPlaceholder(LimitOffset(page));
    NumberHasNoPlaceholder(page.itemsPerPage);
    CountAppend('?', head, offset);
    CountAppend('?', head + offset, ", ");
    CountAppend('?', head + offset + ", ", size);
  }

  /** Placeholder arity: the statement holds exactly one `?` more than the
      caller's bases for every parameter the assembler appended, so the
      parameters line up with the placeholders whenever the caller's did. */
  lemma PlaceholderArity(queryBase: string, whereBase: string, scopes: seq<string>, terms: seq<string>, sort: string,
                         page: PageInfo, params: seq<SqlArg>)
    requires PageStmt(queryBase, whereBase, scopes, terms, sort, page, params).Ok?
    ensures var q := PageStmt(queryBase, whereBase, scopes, terms, sort, page, params).value;
      Count('?', q.sql) == Count('?', queryBase) + Count('?', whereBase) + (|q.args| - |params|)
  {
    var f := SearchFragments(scopes, terms, sort, page).value;
    ScopeJoinHasNoPlaceholder(scopes[0]);
    OrderAndLimitHasNoPlaceholder(sort, page);
    CountAppend('?', queryBase, f.join);
    CountAppend('?', queryBase + f.join, whereBase);
    CountAppend('?', queryBase + f.join + whereBase, f.where);
    CountAppend('?', queryBase + f.join + whereBase + f.where, f.orderAndLimit);
  }

  /** Two term lists with the same shape: equally long, and numeric at the
      same positions. */
  predicate SameTermKinds(terms: seq<string>, terms': seq<string>)
  {
    |terms| == |terms'| && forall k :: 0 <= k < |terms| ==> IsNumericTerm(terms[k]) == IsNumericTerm(terms'[k])
  }

  lemma {:induction false} TermFiltersIgnoreText(terms: seq<string>, terms': seq<string>)
    requires SameTermKinds(terms, terms')
    ensures TermFilters(terms) == TermFilters(terms')
    decreases |terms|
  {
    if terms != [] {
      var n := |terms| - 1;
      TermFiltersIgnoreText(terms[..n], terms'[..n]);
    }
  }

  /** Injection safety: the SQL text depends on the terms only through
      whether each one parses as a number. Two requests whose terms agree on
      that get the same statement (or the same error), whatever the terms
      say; the text itself reaches only the parameter list. */
  lemma SqlIgnoresTermText(queryBase: string, whereBase: string, scopes: seq<string>, terms: seq<string>,
                           terms': seq<string>, sort: string, page: PageInfo, params: seq<SqlArg>)
    requires SameTermKinds(terms, terms')
    ensures var r, r' := PageStmt(queryBase, whereBase, scopes, terms, sort, page, params),
                         PageStmt(queryBase, whereBase, scopes, terms', sort, page, params);
      && r.Ok? == r'.Ok?
      && (r.Err? ==> r.error == r'.error)
      && (r.Ok? ==> r.value.sql == r'.value.sql)
  {
    TermFiltersIgnoreText(terms, terms');
  }

  /** Terms that are not plain signed decimal numerals, such as a phone
      number written with a dash, are searched in the name and email
      columns. */
  lemma TermClassificationExamples()
    ensures TermFilter("555-1234") == NameFilter
    ensures TermFilter("") == NameFilter
    ensures TermFilter("+") == NameFilter
  {
    assert !AllDigits("555-1234") by { assert !IsDigit("555-1234"[3]); }
  }

  /** A phone number with a leading zero is a numeral to ParseInt and is
      searched in the phone columns. */
  lemma LeadingZeroPhoneIsNumeric()
    ensures TermFilter("0301234567") == PhoneFilter
  {
    var s := "0301234567";
    assert AllDigits(s);
    DigitsValueBound(s);
    assert Pow10(|s|) == 10_000_000_000;
    DigitRunParses(s);
  }

  /** Every decimal numeral Itoa can print is searched in the phone columns. */
  lemma NumeralsAreNumericTerms(n: Int64)
    ensures TermFilter(FormatInt(n)) == PhoneFilter
  {
    ParseFormatRoundTrip(n);
  }

  /** A page index of 0 passes the form parse unchanged. */
  lemma PageIndexZeroIsAccepted()
    ensures PageInfoFromForm("0", "") == Ok(PageInfo(0, 100, 0, 0))
  {
    assert ParseInt64("0") == Some(0);
  }

  /** ... and yields a negative LIMIT offset: the database is asked for
      `LIMIT -100, 100`. */
  lemma PageIndexZeroGivesNegativeOffset()
    ensures OrderAndLimit(SortAscending, PageInfo(0, 100, 0, 0)) == Ok("ORDER BY c.name ASC LIMIT -100, 100")
  {
    var page := PageInfo(0, 100, 0, 0);
    assert LimitOffset(page) == -100;
    HundredNumerals();
    assert "ORDER BY " + "c.name ASC " + "LIMIT " + "-100" + ", " + "100" == "ORDER BY c.name ASC LIMIT -100, 100";
  }

  lemma HundredNumerals()
    ensures FormatInt(-100) == "-100" && FormatInt(100) == "100"
  {
    assert FormatNat(100) == "100";
  }

  /** The largest page index the form parse accepts makes
      `(PageIndex - 1) * ItemsPerPage` wrap around. */
  lemma HugePageIndexWrapsOffset()
    ensures ParsePageIndex(FormatInt(MaxInt64)) == Ok(MaxInt64)
    ensures LimitOffset(PageInfo(MaxInt64, MaxItemsPerPage, 0, 0)) != (MaxInt64 - 1) * MaxItemsPerPage
  {
    PageIndexAcceptsEveryInt64(MaxInt64);
  }

  /** With the range-checked page index the LIMIT offset is exact and never
      negative: the first row of page `i` is row `(i - 1) * itemsPerPage`. */
  lemma CheckedPageOffsetIsExact(pageIndex: string, itemsPerPage: string)
    requires PageInfoFromFormChecked(pageIndex, itemsPerPage).Ok?
    ensures var page := PageInfoFromFormChecked(pageIndex, itemsPerPage).value;
      LimitOffset(page) == (page.pageIndex - 1) * page.itemsPerPage && LimitOffset(page) >= 0
  {
    var page := PageInfoFromFormChecked(pageIndex, itemsPerPage).value;
    OffsetFits(page.pageIndex - 1, page.itemsPerPage);
  }

  /** ... so that the statement's tail reads `LIMIT <(i - 1) * n>, <n>` for
      page `i` of size `n`, with the exact product printed. */
  lemma CheckedPageLimitClause(pageIndex: string, itemsPerPage: string, sort: string)
    requires PageInfoFromFormChecked(pageIndex, itemsPerPage).Ok? && OrderBy(sort).Ok?
    ensures var page := PageInfoFromFormChecked(pageIndex, itemsPerPage).value;
      OrderAndLimit(sort, page) ==
        Ok("ORDER BY " + OrderBy(sort).value + "LIMIT " + FormatInt((page.pageIndex - 1) * page.itemsPerPage) + ", " + FormatInt(page.itemsPerPage))
  {
    CheckedPageOffsetIsExact(pageIndex, itemsPerPage);
  }

  lemma OffsetFits(k: int, n: int)
    requires 0 <= k < MaxPageIndex && 0 <= n <= MaxItemsPerPage
    ensures 0 <= k * n <= MaxInt64
  {
    MulNonNeg(k, n);
    MulAtLeast(k, MaxItemsPerPage, n);
    MulAtLeast(MaxItemsPerPage, MaxPageIndex, k);
  }
}
