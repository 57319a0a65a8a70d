/** The filter-and-sort pipeline of the browse page: a case-insensitive search over title
    and author, an exact genre filter, then one of three sorts applied in place to a copy,
    or the catalogue order. Prices are integer cents and ratings integer tenths. */
module BrowseBooks {
  import opened Books
  import opened Text
  import Seqs

  /** `title.toLowerCase().includes(q.toLowerCase()) || author.toLowerCase().includes(...)` */
  predicate MatchesQuery(b: Book, query: string) {
    Includes(Lower(b.title), Lower(query)) || Includes(Lower(b.author), Lower(query))
  }

  /** The callbacks of the two `.filter` calls. */
  function QueryTest(query: string): Book -> bool {
    (b: Book) => MatchesQuery(b, query)
  }

  function GenreTest(genre: string): Book -> bool {
    (b: Book) => b.genre == genre
  }

  /** The two `.filter` calls, each applied only when its control is set. */
  function FilterBooks(books: seq<Book>, query: string, genre: string): (r: seq<Book>)
    ensures |r| <= |books|
    ensures forall b :: b in r ==> b in books && Selected(b, query, genre)
    ensures multiset(r) <= multiset(books)
    ensures forall i :: 0 <= i < |books| && Selected(books[i], query, genre) ==> multiset(r)[books[i]] == multiset(books)[books[i]]
  {
    var searched := if query != "" then Seqs.Filter(books, QueryTest(query)) else books;
    if genre != "all" then Seqs.Filter(searched, GenreTest(genre)) else searched
  }

  /** Whether a book passes both filters. */
  predicate Selected(b: Book, query: string, genre: string) {
    (query == "" || MatchesQuery(b, query)) && (genre == "all" || b.genre == genre)
  }

  /** The filtered list is a sub-list of the catalogue: nothing is added or reordered. */
  lemma FilterBooksSublist(books: seq<Book>, query: string, genre: string)
    ensures Seqs.IsSublist(FilterBooks(books, query, genre), books)
  {
    var p := QueryTest(query);
    var g := GenreTest(genre);
    if query != "" && genre != "all" {
      var both := (b: Book) => p(b) && g(b);
      Seqs.FilterTwice(books, p, g, both);
      Seqs.FilterIsSublist(books, both);
    } else if query != "" {
      Seqs.FilterIsSublist(books, p);
    } else if genre != "all" {
      Seqs.FilterIsSublist(books, g);
    } else {
      SublistOfSelf(books);
    }
  }

  lemma {:induction false} SublistOfSelf(books: seq<Book>)
    ensures Seqs.IsSublist(books, books)
  {
    if books != [] {
      SublistOfSelf(books[1..]);
    }
  }

  /** A book is shown exactly when it is in the catalogue and passes both filters. */
  lemma FilterBooksMembers(books: seq<Book>, query: string, genre: string)
    ensures forall i :: 0 <= i < |books| && Selected(books[i], query, genre) ==>
      books[i] in FilterBooks(books, query, genre)
    ensures forall b :: b in FilterBooks(books, query, genre) ==> b in books && Selected(b, query, genre)
  {
    var r := FilterBooks(books, query, genre);
    forall i | 0 <= i < |books| && Selected(books[i], query, genre) ensures books[i] in r {
      assert books[i] in multiset(books);
    }
  }

  /** The sorts of the `switch`; any other value keeps the filtered order. */
  datatype SortMode = PriceLow | PriceHigh | Rating | Featured

  function ParseSort(sort: string): (m: SortMode)
    ensures m == PriceLow <==> sort == "price-low"
    ensures m == PriceHigh <==> sort == "price-high"
    ensures m == Rating <==> sort == "rating"
    ensures m == Featured <==> sort !in {"price-low", "price-high", "rating"}
  {
    if sort == "price-low" then PriceLow
    else if sort == "price-high" then PriceHigh
    else if sort == "rating" then Rating
    else Featured
  }

  /** The comparators `a.price - b.price`, `b.price - a.price` and `b.rating - a.rating`
      all order by this key, ascending. */
  function SortKey(b: Book, mode: SortMode): int {
    match mode
    case PriceLow => b.price
    case PriceHigh => -b.price
    case Rating => -b.rating
    case Featured => 0
  }

  predicate SortedBy(s: seq<Book>, mode: SortMode) {
    forall p, q :: 0 <= p < q < |s| ==> SortKey(s[p], mode) <= SortKey(s[q], mode)
  }

  /** `result.sort(comparator)`: insertion sort by adjacent swaps, which keeps books with
      equal keys in their filtered order, as the stable sort of the runtime does. */
  method SortInPlace(a: array<Book>, mode: SortMode)
    modifies a
    ensures SortedBy(a[..], mode)
    ensures multiset(a[..]) == multiset(old(a[..]))
  {
    var i := 0;
    while i < a.Length
      invariant 0 <= i <= a.Length
      invariant SortedPrefix(a[..], i, mode)
      invariant multiset(a[..]) == multiset(old(a[..]))
    {
      Insert(a, i, mode);
      i := i + 1;
    }
  }

  /** The first `n` books are in key order. */
  predicate SortedPrefix(s: seq<Book>, n: int, mode: SortMode)
    requires 0 <= n <= |s|
  {
    forall p, q :: 0 <= p < q < n ==> SortKey(s[p], mode) <= SortKey(s[q], mode)
  }

  /** The state of one insertion pass: the book being inserted sits at `j`, the other
      books up to `i` are in order, and every book between `j` and `i` has a larger key. */
  predicate Inserting(s: seq<Book>, i: int, j: int, mode: SortMode)
    requires 0 <= j <= i < |s|
  {
    (forall p, q :: 0 <= p < q <= i && p != j && q != j ==> SortKey(s[p], mode) <= SortKey(s[q], mode))
    && (forall q :: j < q <= i ==> SortKey(s[j], mode) < SortKey(s[q], mode))
  }

  lemma InsertStart(s: seq<Book>, i: int, mode: SortMode)
    requires 0 <= i < |s| && SortedPrefix(s, i, mode)
    ensures Inserting(s, i, i, mode)
  {
  }

  /** Swapping the inserted book with a larger left neighbour keeps the pass's state. */
  lemma InsertStep(s: seq<Book>, t: seq<Book>, i: int, j: int, mode: SortMode)
    requires 0 < j <= i < |s| && Inserting(s, i, j, mode)
    requires SortKey(s[j - 1], mode) > SortKey(s[j], mode)
    requires t == s[j - 1 := s[j]][j := s[j - 1]]
    ensures Inserting(t, i, j - 1, mode)
  {
    forall p, q | 0 <= p < q <= i && p != j - 1 && q != j - 1
      ensures SortKey(t[p], mode) <= SortKey(t[q], mode)
    {
      if q == j {
        assert t[q] == s[j - 1];
      }
    }
  }

  /** When the left neighbour is no larger, the first `i + 1` books are in order. */
  lemma InsertDone(s: seq<Book>, i: int, j: int, mode: SortMode)
    requires 0 <= j <= i < |s| && Inserting(s, i, j, mode)
    requires j == 0 || SortKey(s[j - 1], mode) <= SortKey(s[j], mode)
    ensures SortedPrefix(s, i + 1, mode)
  {
    forall p, q | 0 <= p < q < i + 1
      ensures SortKey(s[p], mode) <= SortKey(s[q], mode)
    {
      if q == j && p < j - 1 {
        assert SortKey(s[p], mode) <= SortKey(s[j - 1], mode);
      }
    }
  }

  /** One pass of insertion sort: the book at `i` moves left past every book with a larger
      key, so that the first `i + 1` books are in order. */
  method Insert(a: array<Book>, i: int, mode: SortMode)
    requires 0 <= i < a.Length
    requires SortedPrefix(a[..], i, mode)
    modifies a
    ensures SortedPrefix(a[..], i + 1, mode)
    ensures multiset(a[..]) == multiset(old(a[..]))
  {
    var j := i;
    InsertStart(a[..], i, mode);
    while j > 0 && SortKey(a[j - 1], mode) > SortKey(a[j], mode)
      invariant 0 <= j <= i
      invariant Inserting(a[..], i, j, mode)
      invariant multiset(a[..]) == multiset(old(a[..]))
    {
      SwapDown(a, i, j, mode);
      j := j - 1;
    }
    InsertDone(a[..], i, j, mode);
  }

  /** One step of the pass: the inserted book changes places with its larger left neighbour. */
  method SwapDown(a: array<Book>, i: int, j: int, mode: SortMode)
    requires 0 < j <= i < a.Length && Inserting(a[..], i, j, mode)
    requires SortKey(a[j - 1], mode) > SortKey(a[j], mode)
    modifies a
    ensures Inserting(a[..], i, j - 1, mode)
    ensures multiset(a[..]) == multiset(old(a[..]))
  {
    ghost var before := a[..];
    Swap(a, j - 1, j);
    InsertStep(before, a[..], i, j, mode);
  }

  /** Exchanges two neighbours. */
  method Swap(a: array<Book>, j: int, k: int)
    requires 0 <= j < k < a.Length
    modifies a
    ensures a[..] == old(a[..])[j := old(a[k])][k := old(a[j])]
    ensures multiset(a[..]) == multiset(old(a[..]))
  {
    a[j], a[k] := a[k], a[j];
  }

  /** The effect that recomputes `filteredBooks` from the catalogue and the three controls. */
  method ApplyFilters(books: seq<Book>, query: string, genre: string, sort: string) returns (result: seq<Book>)
    ensures multiset(result) == multiset(FilterBooks(books, query, genre))
    ensures forall b :: b in result ==> b in books && Selected(b, query, genre)
    ensures ParseSort(sort) == PriceLow ==> forall p, q :: 0 <= p < q < |result| ==> result[p].price <= result[q].price
    ensures ParseSort(sort) == PriceHigh ==> forall p, q :: 0 <= p < q < |result| ==> result[p].price >= result[q].price
    ensures ParseSort(sort) == Rating ==> forall p, q :: 0 <= p < q < |result| ==> result[p].rating >= result[q].rating
    ensures ParseSort(sort) == Featured ==> result == FilterBooks(books, query, genre)
    ensures query == "" && genre == "all" && ParseSort(sort) == Featured ==> result == books
  {
    var filtered := FilterBooks(books, query, genre);
    var mode := ParseSort(sort);
    result := SortedCopy(filtered, mode);
    FilterBooksMembers(books, query, genre);
    SameMembers(result, filtered);
    if mode != Featured {
      SortedByMeaning(result, mode);
    }
  }

  /** `[...books]` followed by the in-place sort of the chosen mode, if any. */
  method SortedCopy(books: seq<Book>, mode: SortMode) returns (result: seq<Book>)
    ensures multiset(result) == multiset(books)
    ensures mode != Featured ==> SortedBy(result, mode)
    ensures mode == Featured ==> result == books
  {
    var a := new Book[|books|](i requires 0 <= i < |books| => books[i]);
    assert a[..] == books;
    if mode != Featured {
      SortInPlace(a, mode);
    }
    result := a[..];
  }

  lemma SameMembers(s: seq<Book>, t: seq<Book>)
    requires multiset(s) == multiset(t)
    ensures forall b :: b in s ==> b in t
  {
    forall b | b in s ensures b in t {
      assert b in multiset(s);
    }
  }

  /** What each key order says about prices and ratings. */
  lemma SortedByMeaning(s: seq<Book>, mode: SortMode)
    requires SortedBy(s, mode)
    ensures mode == PriceLow ==> forall p, q :: 0 <= p < q < |s| ==> s[p].price <= s[q].price
    ensures mode == PriceHigh ==> forall p, q :: 0 <= p < q < |s| ==> s[p].price >= s[q].price
    ensures mode == Rating ==> forall p, q :: 0 <= p < q < |s| ==> s[p].rating >= s[q].rating
  {
  }

  /** The page's three controls. */
  datatype Controls = Controls(searchQuery: string, selectedGenre: string, selectedSort: string)

  /** The Reset Filters button: empty query, all genres, featured order. */
  function ResetFilters(c: Controls): (r: Controls)
    ensures r == Controls("", "all", "featured")
    ensures r.searchQuery == "" && r.selectedGenre == "all" && ParseSort(r.selectedSort) == Featured
    ensures forall books :: FilterBooks(books, r.searchQuery, r.selectedGenre) == books
  {
    Controls("", "all", "featured")
  }
}
