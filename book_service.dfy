/** The query objects the book service hands to the records API: the fields it selects,
    the page window, the genre clause, the title-or-author search group and the sort key.
    The API call itself, and the client it is made with, are outside the model. */
module BookService {
  import opened Wrappers
  import BrowseBooks

  /** The columns both queries select. */
  const BookFields: seq<string> := [
    "Id", "Name", "Tags", "title", "author", "description", "price", "cover", "rating",
    "genre", "condition", "publishDate", "publisher", "pages", "isbn", "language"]

  datatype Condition = Condition(fieldName: string, operator: string, values: seq<string>)
  datatype SubGroup = SubGroup(conditions: seq<Condition>)
  datatype WhereGroup = WhereGroup(operator: string, subGroups: seq<SubGroup>)
  datatype OrderKey = OrderKey(field: string, direction: string)
  datatype PagingInfo = PagingInfo(limit: int, offset: int)

  /** `params`; a property the code never assigns is `None`. */
  datatype QueryParams = QueryParams(
    fields: seq<string>,
    pagingInfo: PagingInfo,
    where: Option<seq<Condition>>,
    whereGroups: Option<seq<WhereGroup>>,
    orderBy: Option<seq<OrderKey>>)

  /** The `filters` object; a missing property is `None`. */
  datatype Filters = Filters(genre: Option<string>, searchQuery: Option<string>, sort: Option<string>)

  /** JavaScript truthiness of a possibly missing string. */
  predicate Truthy(v: Option<string>) {
    v.Some? && v.value != ""
  }

  /** The search group: the query must be contained in the title or in the author. */
  function SearchGroup(query: string): (g: WhereGroup)
    ensures g.operator == "OR" && |g.subGroups| == 2
    ensures g.subGroups[0].conditions == [Condition("title", "Contains", [query])]
    ensures g.subGroups[1].conditions == [Condition("author", "Contains", [query])]
  {
    WhereGroup("OR", [
      SubGroup([Condition("title", "Contains", [query])]),
      SubGroup([Condition("author", "Contains", [query])])])
  }

  /** The `switch` on the sort control: price ascending or descending, rating descending,
      and newest first for any other value. */
  function SortOrder(sort: string): (k: OrderKey)
    ensures sort == "price-low" ==> k == OrderKey("price", "ASC")
    ensures sort == "price-high" ==> k == OrderKey("price", "DESC")
    ensures sort == "rating" ==> k == OrderKey("rating", "DESC")
    ensures sort !in {"price-low", "price-high", "rating"} ==> k == OrderKey("CreatedOn", "DESC")
  {
    if sort == "price-low" then OrderKey("price", "ASC")
    else if sort == "price-high" then OrderKey("price", "DESC")
    else if sort == "rating" then OrderKey("rating", "DESC")
    else OrderKey("CreatedOn", "DESC")
  }

  /** The query `getBooks` sends: what each part of it depends on. */
  function BooksQuery(filters: Filters, page: int, pageSize: int): (q: QueryParams)
    ensures q.fields == BookFields
    ensures q.pagingInfo.limit == pageSize && q.pagingInfo.offset == (page - 1) * pageSize
    ensures q.where.Some? <==> Truthy(filters.genre) && filters.genre.value != "all"
    ensures q.where.Some? ==> q.where.value == [Condition("genre", "ExactMatch", [filters.genre.value])]
    ensures q.whereGroups.Some? <==> Truthy(filters.searchQuery)
    ensures q.whereGroups.Some? ==> q.whereGroups.value == [SearchGroup(filters.searchQuery.value)]
    ensures q.orderBy.Some? <==> Truthy(filters.sort)
    ensures q.orderBy.Some? ==> q.orderBy.value == [SortOrder(filters.sort.value)]
  {
    QueryParams(
      BookFields,
      PagingInfo(pageSize, (page - 1) * pageSize),
      if Truthy(filters.genre) && filters.genre.value != "all"
      then Some([Condition("genre", "ExactMatch", [filters.genre.value])]) else None,
      if Truthy(filters.searchQuery) then Some([SearchGroup(filters.searchQuery.value)]) else None,
      if Truthy(filters.sort) then Some([SortOrder(filters.sort.value)]) else None)
  }

  /** `getBooks(filters = {}, page = 1, pageSize = 20)` up to the fetch: `params` is
      assembled property by property, and the search group and the sort key are pushed
      onto arrays created empty. */
  method GetBooksParams(filters: Filters := Filters(None, None, None), page: int := 1, pageSize: int := 20)
    returns (params: QueryParams)
    ensures params == BooksQuery(filters, page, pageSize)
  {
    params := QueryParams(BookFields, PagingInfo(pageSize, (page - 1) * pageSize), None, None, None);
    if Truthy(filters.genre) && filters.genre.value != "all" {
      params := params.(where := Some([Condition("genre", "ExactMatch", [filters.genre.value])]));
    }
    if Truthy(filters.searchQuery) {
      if params.whereGroups.None? {
        params := params.(whereGroups := Some([]));
      }
      params := params.(whereGroups := Some(params.whereGroups.value + [SearchGroup(filters.searchQuery.value)]));
      assert params.whereGroups.value == [SearchGroup(filters.searchQuery.value)];
    }
    if Truthy(filters.sort) {
      params := params.(orderBy := Some([]));
      var key := SortOrder(filters.sort.value);
      params := params.(orderBy := Some(params.orderBy.value + [key]));
      assert params.orderBy.value == [key];
    }
  }

  /** With no arguments the first twenty books are asked for, unfiltered and unsorted. */
  lemma DefaultQuery()
    ensures BooksQuery(Filters(None, None, None), 1, 20)
      == QueryParams(BookFields, PagingInfo(20, 0), None, None, None)
  {
  }

  /** With a positive page size every record index falls in exactly one page: page
      `k / pageSize + 1`. */
  lemma PagesPartitionRecords(pageSize: int, k: int, page: int)
    requires pageSize > 0 && k >= 0 && page >= 1
    ensures var w := BooksQuery(Filters(None, None, None), page, pageSize).pagingInfo;
      w.offset <= k < w.offset + w.limit <==> page == k / pageSize + 1
  {
    var q, r := k / pageSize, k % pageSize;
    assert k == q * pageSize + r && 0 <= r < pageSize;
    assert (page - 1) * pageSize + pageSize == page * pageSize;
    if page <= q {
      MulMonotone(page, q, pageSize);
    } else if page > q + 1 {
      MulMonotone(q + 1, page - 1, pageSize);
    }
  }

  lemma MulMonotone(a: int, b: int, c: int)
    requires a <= b && c >= 0
    ensures a * c <= b * c
  {
    assert b * c - a * c == (b - a) * c;
  }

  /** For the three recognised sort values the server-side key and direction are those of
      the browse page's comparator; any other value is the page's catalogue order and the
      server's `CreatedOn` descending. The two code paths are independent: the browse page
      sorts its own list and does not call `getBooks`. */
  lemma SortOrderAgreesWithPage(sort: string)
    ensures BrowseBooks.ParseSort(sort) == BrowseBooks.PriceLow <==> SortOrder(sort) == OrderKey("price", "ASC")
    ensures BrowseBooks.ParseSort(sort) == BrowseBooks.PriceHigh <==> SortOrder(sort) == OrderKey("price", "DESC")
    ensures BrowseBooks.ParseSort(sort) == BrowseBooks.Rating <==> SortOrder(sort) == OrderKey("rating", "DESC")
    ensures BrowseBooks.ParseSort(sort) == BrowseBooks.Featured <==> SortOrder(sort) == OrderKey("CreatedOn", "DESC")
  {
  }

  /** `getFeaturedBooks(limit = 8)` up to the fetch: the first `limit` books by rating,
      highest first. */
  function FeaturedBooksParams(limit: int := 8): (q: QueryParams)
    ensures q.fields == BookFields && q.where == None && q.whereGroups == None
    ensures q.orderBy == Some([OrderKey("rating", "DESC")])
    ensures q.pagingInfo == PagingInfo(limit, 0)
  {
    QueryParams(BookFields, PagingInfo(limit, 0), None, None, Some([OrderKey("rating", "DESC")]))
  }

  /** The featured query is the first page of the catalogue sorted by rating, with the page
      size set to `limit`. */
  lemma FeaturedIsFirstPageByRating(limit: int)
    ensures FeaturedBooksParams(limit) == BooksQuery(Filters(None, None, Some("rating")), 1, limit)
  {
  }
}
