/** Request assembly (webserver/pkg/search/request.go): a search request's filter, sort and
    page become a bleve search request. */
module Requests {
  import opened Results
  import opened Indexes
  import opened Filters
  import opened Sorting

  /** Paging: how many hits and from which one. Zero leaves bleve's default in place. */
  datatype Page = Page(count: int, offset: int)

  /** The search request as received; each part may be absent (a Go nil pointer). */
  datatype Request = Request(filter: Option<Filter>, sort: Option<Sort>, page: Option<Page>)

  /** A bleve request's ordering: by score (bleve's default) or by the given fields. */
  datatype Ordering = ByScore | Custom(fields: seq<SortField>)

  /** The parts of a bleve search request this package sets. */
  datatype SearchView = SearchView(query: Query, sort: Ordering, from: int, size: int)

  /** bleve.NewSearchRequest's default page size; its default start is 0. */
  const DefaultSize := 10

  /** A bleve.SearchRequest, built and then adjusted in place. */
  class SearchRequest {
    var query: Query
    var sort: Ordering
    var from: int
    var size: int

    function View(): SearchView
      reads this
    {
      SearchView(query, sort, from, size)
    }

    /** bleve.NewSearchRequest: the query, ordered by score, the first ten hits. */
    constructor (q: Query)
      ensures View() == SearchView(q, ByScore, 0, DefaultSize)
    {
      query := q;
      sort := ByScore;
      from := 0;
      size := DefaultSize;
    }

    /** SortByCustom: replaces the ordering and nothing else. */
    method SortByCustom(order: seq<SortField>)
      modifies this
      ensures View() == old(View()).(sort := Custom(order))
    {
      sort := Custom(order);
    }
  }

  /** The request ToBleveSearchRequest produces from req over an index with the given field
      tables: the filter's error first, then the sort's; a custom ordering only for a
      non-empty sort order; paging values only where they are non-zero. */
  function Assemble(req: Request, tables: FieldTables, parsers: LiteralParsers): Result<SearchView>
  {
    match CompileFilter(req.filter, tables, parsers)
    case Failure(e) => Failure(e)
    case Success(q) =>
      match CompileSort(req.sort, tables)
      case Failure(e) => Failure(e)
      case Success(order) =>
        var ordering := if |order| == 0 then ByScore else Custom(order);
        var from := if req.page.Some? && req.page.value.offset != 0 then req.page.value.offset else 0;
        var size := if req.page.Some? && req.page.value.count != 0 then req.page.value.count else DefaultSize;
        Success(SearchView(q, ordering, from, size))
  }

  /** ToBleveSearchRequest. The compiled query is never nil here (the compiler always yields
      a query on success), so the source's fallback to match-all has no counterpart. */
  method ToBleveSearchRequest(req: Request, index: Index, parsers: LiteralParsers) returns (r: Result<SearchRequest>)
    ensures r.Success? <==> Assemble(req, index.Schema(), parsers).Success?
    ensures r.Failure? ==> r.error == Assemble(req, index.Schema(), parsers).error
    ensures r.Success? ==> fresh(r.value) && r.value.View() == Assemble(req, index.Schema(), parsers).value
  {
    var q := ParseFilter(req.filter, index, parsers);
    if q.Failure? {
      return Failure(q.error);
    }
    var out := new SearchRequest(q.value);
    var s := ParseSort(req.sort, index);
    if s.Failure? {
      return Failure(s.error);
    }
    if |s.value| != 0 {
      out.SortByCustom(s.value);
    }
    if req.page.Some? && req.page.value.offset != 0 {
      out.from := req.page.value.offset;
    }
    if req.page.Some? && req.page.value.count != 0 {
      out.size := req.page.value.count;
    }
    return Success(out);
  }

  // ---------------------------------------------------------------------------------------
  // Properties

  /** A filter error is reported whatever the sort and page; a sort error only once the
      filter compiled; the request is built exactly when both compile. */
  lemma ErrorPrecedence(req: Request, tables: FieldTables, parsers: LiteralParsers)
    ensures CompileFilter(req.filter, tables, parsers).Failure? ==>
      Assemble(req, tables, parsers) == Failure(CompileFilter(req.filter, tables, parsers).error)
    ensures CompileFilter(req.filter, tables, parsers).Success? && CompileSort(req.sort, tables).Failure? ==>
      Assemble(req, tables, parsers) == Failure(CompileSort(req.sort, tables).error)
    ensures Assemble(req, tables, parsers).Success? <==>
      CompileFilter(req.filter, tables, parsers).Success? && CompileSort(req.sort, tables).Success?
  {
  }

  /** The built request searches with the compiled query and orders by the compiled sort
      fields when there are any, by score otherwise. */
  lemma QueryAndOrdering(req: Request, tables: FieldTables, parsers: LiteralParsers)
    requires Assemble(req, tables, parsers).Success?
    ensures Assemble(req, tables, parsers).value.query == CompileFilter(req.filter, tables, parsers).value
    ensures Assemble(req, tables, parsers).value.sort == ByScore <==> CompileSort(req.sort, tables).value == []
    ensures Assemble(req, tables, parsers).value.sort.Custom? ==>
      Assemble(req, tables, parsers).value.sort.fields == CompileSort(req.sort, tables).value
  {
  }

  /** Paging only moves the window: the query and ordering do not depend on the page, and a
      zero count or offset keeps bleve's default (10 hits from the first). */
  lemma PagingOnlyMovesWindow(req: Request, page: Option<Page>, tables: FieldTables, parsers: LiteralParsers)
    ensures Assemble(req.(page := page), tables, parsers).Success? <==> Assemble(req, tables, parsers).Success?
    ensures Assemble(req, tables, parsers).Success? ==>
      && Assemble(req.(page := page), tables, parsers).value.query == Assemble(req, tables, parsers).value.query
      && Assemble(req.(page := page), tables, parsers).value.sort == Assemble(req, tables, parsers).value.sort
    ensures Assemble(req, tables, parsers).Success? ==>
      && (req.page.Some? && req.page.value.offset != 0 ==> Assemble(req, tables, parsers).value.from == req.page.value.offset)
      && (req.page.None? || req.page.value.offset == 0 ==> Assemble(req, tables, parsers).value.from == 0)
      && (req.page.Some? && req.page.value.count != 0 ==> Assemble(req, tables, parsers).value.size == req.page.value.count)
      && (req.page.None? || req.page.value.count == 0 ==> Assemble(req, tables, parsers).value.size == DefaultSize)
  {
  }

  /** A zero page is the same as no page at all. */
  lemma ZeroPageIsNoPage(req: Request, tables: FieldTables, parsers: LiteralParsers)
    ensures Assemble(req.(page := Some(Page(0, 0))), tables, parsers) == Assemble(req.(page := None), tables, parsers)
  {
  }

  /** An empty request over any index searches everything, by score, first ten hits. */
  lemma EmptyRequestIsDefault(tables: FieldTables, parsers: LiteralParsers)
    ensures Assemble(Request(None, None, None), tables, parsers) == Success(SearchView(MatchAll, ByScore, 0, DefaultSize))
  {
  }
}
