/** The query of the workspace-list modules: a direct link used as it is, or a
    page of the organization's workspaces with an optional name filter, sent as
    ordered `page[number]`, `page[size]` and search parameters. */
module ListQuery {
  import opened Optional
  import opened Client

  const DefaultPageNumber: int := 1
  const DefaultPageSize: int := 20

  /** At most one filter: `search_name` or `search_wildcard_name`. */
  datatype Search = NoSearch | SearchName(name: string) | SearchWildcard(pattern: string)

  datatype PageQuery = PageQuery(number: int, size: int, search: Search)

  /** `search_name` wins when both were somehow given. */
  function SearchOf(name: Option<string>, wildcard: Option<string>): (s: Search)
    ensures name.Some? ==> s == SearchName(name.value)
    ensures name.None? && wildcard.Some? ==> s == SearchWildcard(wildcard.value)
    ensures s.NoSearch? <==> name.None? && wildcard.None?
  {
    if name.Some? then SearchName(name.value)
    else if wildcard.Some? then SearchWildcard(wildcard.value)
    else NoSearch
  }

  /** The ordered pairs the modules build: page number, page size, then the
      filter if there is one. */
  function QueryParams(q: PageQuery): (ps: Params)
    ensures |ps| == (if q.search.NoSearch? then 2 else 3)
    ensures ps[0] == ("page[number]", PInt(q.number))
    ensures ps[1] == ("page[size]", PInt(q.size))
  {
    var page := [("page[number]", PInt(q.number)), ("page[size]", PInt(q.size))];
    match q.search
    case NoSearch => page
    case SearchName(n) => page + [("search[name]", PStr(n))]
    case SearchWildcard(w) => page + [("search[wildcard-name]", PStr(w))]
  }

  /** Reads the pairs back into the query they describe. */
  function ParseQueryParams(ps: Params): Option<PageQuery> {
    if |ps| < 2 || ps[0].0 != "page[number]" || ps[1].0 != "page[size]"
       || !ps[0].1.PInt? || !ps[1].1.PInt? then None
    else
      var number := ps[0].1.i;
      var size := ps[1].1.i;
      if |ps| == 2 then Some(PageQuery(number, size, NoSearch))
      else if |ps| == 3 && ps[2].1.PStr? && ps[2].0 == "search[name]"
      then Some(PageQuery(number, size, SearchName(ps[2].1.s)))
      else if |ps| == 3 && ps[2].1.PStr? && ps[2].0 == "search[wildcard-name]"
      then Some(PageQuery(number, size, SearchWildcard(ps[2].1.s)))
      else None
  }

  /** The pairs lose nothing: they read back as the query. */
  lemma QueryParamsRoundTrip(q: PageQuery)
    ensures ParseQueryParams(QueryParams(q)) == Some(q)
  {
    assert "search[name]" != "search[wildcard-name]" by {
      assert "search[name]"[7] != "search[wildcard-name]"[7];
    }
  }

  /** The example of page 2 of size 5 filtered by the name `foo`. */
  lemma QueryParamsExample()
    ensures QueryParams(PageQuery(2, 5, SearchOf(Some("foo"), None)))
         == [("page[number]", PInt(2)), ("page[size]", PInt(5)), ("search[name]", PStr("foo"))]
  {
  }

  // ---------------------------------------------------------------------------
  // What a list request addresses.

  /** A direct link, or a page of an organization's workspaces. */
  datatype ListTarget = DirectLink(link: string) | Page(organization: string, query: PageQuery)

  /** The argument-spec constraints of both list modules: `direct_link`
      excludes every page and search option, and the two search options
      exclude each other. The page options are those the caller gave, before
      their defaults are filled in. */
  predicate ListParamsAccepted(directLink: Option<string>, pageNumber: Option<int>, pageSize: Option<int>,
                               searchName: Option<string>, searchWildcard: Option<string>) {
    && !(directLink.Some? && pageNumber.Some?)
    && !(directLink.Some? && pageSize.Some?)
    && !(directLink.Some? && searchName.Some?)
    && !(directLink.Some? && searchWildcard.Some?)
    && !(searchName.Some? && searchWildcard.Some?)
  }

  /** The target the modules' `if`s select, with the page defaults applied. */
  function TargetOf(directLink: Option<string>, organization: string, pageNumber: Option<int>,
                    pageSize: Option<int>, searchName: Option<string>, searchWildcard: Option<string>)
    : (t: ListTarget)
    ensures directLink.Some? <==> t.DirectLink?
    ensures directLink.Some? ==> t.link == directLink.value
    ensures t.Page? ==>
      && t.organization == organization
      && t.query.number == pageNumber.GetOr(DefaultPageNumber)
      && t.query.size == pageSize.GetOr(DefaultPageSize)
      && t.query.search == SearchOf(searchName, searchWildcard)
  {
    if directLink.Some? then DirectLink(directLink.value)
    else Page(organization, PageQuery(pageNumber.GetOr(DefaultPageNumber), pageSize.GetOr(DefaultPageSize),
                                      SearchOf(searchName, searchWildcard)))
  }

  /** For accepted parameters the precedence between the two filters is never
      exercised, and a direct link comes with no option that would be dropped. */
  lemma AcceptedTargetKeepsEverything(directLink: Option<string>, organization: string,
                                      pageNumber: Option<int>, pageSize: Option<int>,
                                      searchName: Option<string>, searchWildcard: Option<string>)
    requires ListParamsAccepted(directLink, pageNumber, pageSize, searchName, searchWildcard)
    ensures var t := TargetOf(directLink, organization, pageNumber, pageSize, searchName, searchWildcard);
      && (t.DirectLink? ==> pageNumber.None? && pageSize.None? && searchName.None? && searchWildcard.None?)
      && (t.Page? && t.query.search.SearchName? ==> searchWildcard.None?)
      && (t.Page? ==> (t.query.search.NoSearch? <==> searchName.None? && searchWildcard.None?))
  {
  }
}
