/** Page options from the query string, LIMIT and OFFSET, and the page counts sent to clients, with
    64-bit arithmetic written out. */
module Pagination {
  import opened Options
  import opened Decimals
  import Text

  const MAX_INT64 := 0x7FFF_FFFF_FFFF_FFFF
  const TWO_TO_64 := 0x1_0000_0000_0000_0000

  /** Two's complement wrap-around of int64. */
  function Wrap(x: int): (r: int)
    ensures -MAX_INT64 - 1 <= r <= MAX_INT64
    ensures -MAX_INT64 - 1 <= x <= MAX_INT64 ==> r == x
  {
    (x + MAX_INT64 + 1) % TWO_TO_64 - MAX_INT64 - 1
  }

  /** Go's integer division, which truncates towards zero. */
  function Quotient(a: int, b: int): int
    requires b > 0
  {
    if a >= 0 then a / b else -((-a) / b)
  }

  // ---- Numbers in the query string ----

  /** strconv.ParseInt in base 10 for 64 bits. */
  function ParseInt64(s: string): Option<int> {
    var signed := s != "" && (s[0] == '+' || s[0] == '-');
    var digits := if signed then s[1..] else s;
    if digits == "" || !AllDigits(digits) then None
    else
      var value := if signed && s[0] == '-' then 0 - Number(digits) else Number(digits);
      if -MAX_INT64 - 1 <= value <= MAX_INT64 then Some(value) else None
  }

  /** parsePositiveInt64. */
  function ParsePositive(value: string): (r: Option<int>)
    ensures r.Some? ==> 1 <= r.value <= MAX_INT64
  {
    var parsed := ParseInt64(Text.TrimSpace(value));
    if parsed.Some? && parsed.value >= 1 then parsed else None
  }

  type Query = map<string, seq<string>>

  function First(values: seq<string>): string {
    if values == [] then "" else values[0]
  }

  const DEFAULT_PAGE := 1
  const DEFAULT_PAGE_SIZE := 10
  const MAX_PAGE_SIZE := 100

  function PageOf(query: Query): (r: Option<int>)
    ensures r.Some? ==> 1 <= r.value <= MAX_INT64
  {
    if "page" in query then ParsePositive(First(query["page"])) else Some(DEFAULT_PAGE)
  }

  function PageSizeOf(query: Query): (r: Option<int>)
    ensures r.Some? ==> 1 <= r.value <= MAX_PAGE_SIZE
  {
    if "pageSize" !in query then Some(DEFAULT_PAGE_SIZE)
    else
      var parsed := ParsePositive(First(query["pageSize"]));
      if parsed.Some? && parsed.value <= MAX_PAGE_SIZE then parsed else None
  }

  predicate OffsetFits(page: int, pageSize: int) {
    (page - 1) * pageSize <= MAX_INT64
  }

  /** A number is accepted exactly when its trimmed text is decimal digits, with a plus sign or none,
      that spell an int64 of at least one. */
  lemma PositiveNumbers(value: string, n: int)
    ensures ParsePositive(value) == Some(n)
            <==> (var t := Text.TrimSpace(value);
                  var digits := if t != "" && t[0] == '+' then t[1..] else t;
                  digits != "" && AllDigits(digits) && Number(digits) == n && 1 <= n <= 0x7FFF_FFFF_FFFF_FFFF)
  {
    hide Text.TrimSpace, Number;
    var t := Text.TrimSpace(value);
    assert t != "" && t[0] == '-' ==> !AllDigits(t);
  }

  /** What each page parameter stands for: absent ones are page 1 of size 10, and a size above 100 is
      refused. */
  lemma PageDefaults(query: Query)
    ensures "page" !in query ==> PageOf(query) == Some(1)
    ensures "page" in query && query["page"] != [] ==> PageOf(query) == ParsePositive(query["page"][0])
    ensures "pageSize" !in query ==> PageSizeOf(query) == Some(10)
    ensures "pageSize" in query && query["pageSize"] != [] ==>
              forall n :: PageSizeOf(query) == Some(n) <==> ParsePositive(query["pageSize"][0]) == Some(n) && n <= 100
  {
    hide ParsePositive;
  }

  /** The page is no positive int64, or its offset, with the default size for an invalid one, is too large. */
  predicate PageRefused(query: Query) {
    PageOf(query).None?
    || !OffsetFits(PageOf(query).value, if PageSizeOf(query).Some? then PageSizeOf(query).value else DEFAULT_PAGE_SIZE)
  }

  /** The query parameters an error can name. */
  datatype Field = SortByField | FilterField | PageField | PageSizeField

  type FieldErrors = map<Field, seq<string>>

  /** FieldErrors.Add. */
  function Added(errors: FieldErrors, field: Field, message: string): FieldErrors {
    errors[field := (if field in errors then errors[field] else []) + [message]]
  }

  lemma OverflowGuard(page: int, pageSize: int)
    requires 1 <= pageSize
    ensures page - 1 > MAX_INT64 / pageSize <==> !OffsetFits(page, pageSize)
  {
    var q := MAX_INT64 / pageSize;
    assert q * pageSize <= MAX_INT64 < (q + 1) * pageSize;
    if page - 1 > q {
      assert (page - 1) * pageSize >= (q + 1) * pageSize by {
        Monotone(q + 1, page - 1, pageSize);
      }
    } else {
      Monotone(page - 1, q, pageSize);
    }
  }

  lemma Monotone(a: int, b: int, c: int)
    requires a <= b && c >= 0
    ensures a * c <= b * c
  {
  }

  /** The page part of both list-option parsers: the defaults stay in place for an invalid field, and
      page is refused exactly when it is no positive int64 or its offset does not fit in one. */
  method ParsePage(query: Query, before: FieldErrors) returns (page: int, pageSize: int, errors: FieldErrors)
    requires PageField !in before && PageSizeField !in before
    ensures page == if PageOf(query).Some? then PageOf(query).value else DEFAULT_PAGE
    ensures pageSize == if PageSizeOf(query).Some? then PageSizeOf(query).value else DEFAULT_PAGE_SIZE
    ensures PageField in errors <==> PageRefused(query)
    ensures PageSizeField in errors <==> PageSizeOf(query).None?
    ensures SortByField in errors <==> SortByField in before
    ensures FilterField in errors <==> FilterField in before
  {
    hide Text.TrimSpace, ParseInt64;
    page, pageSize, errors := DEFAULT_PAGE, DEFAULT_PAGE_SIZE, before;
    if "page" in query {
      var parsed := ParsePositive(First(query["page"]));
      if parsed.None? {
        errors := Added(errors, PageField, "page must be a positive integer!");
      } else {
        page := parsed.value;
      }
    }
    if "pageSize" in query {
      var parsed := ParsePositive(First(query["pageSize"]));
      if parsed.None? || parsed.value > MAX_PAGE_SIZE {
        errors := Added(errors, PageSizeField, "pageSize must be an integer between 1 and 100!");
      } else {
        pageSize := parsed.value;
      }
    }
    OverflowGuard(page, pageSize);
    if PageField !in errors && page - 1 > MAX_INT64 / pageSize {
      errors := Added(errors, PageField, "page is too large!");
    }
  }

  // ---- Pages of a list ----

  /** LIMIT pageSize OFFSET offset. */
  function Limited<T>(list: seq<T>, pageSize: nat, offset: nat): seq<T> {
    if offset >= |list| then []
    else if offset + pageSize <= |list| then list[offset..offset + pageSize]
    else list[offset..]
  }

  /** The rows of one page; the offset is computed in int64 and a negative one is an error of the
      database, so it never yields rows. */
  function Page<T>(list: seq<T>, page: int, pageSize: int): seq<T>
    requires 1 <= pageSize
  {
    var offset := Wrap(Wrap(page - 1) * pageSize);
    if offset < 0 then [] else Limited(list, pageSize, offset)
  }

  /** NewPagination's page count. */
  function TotalPages(pageSize: int, totalItems: int): int {
    if pageSize > 0 && totalItems > 0
    then Quotient(Wrap(Wrap(totalItems + pageSize) - 1), pageSize) else 0
  }

  /** The number of pages of that size that hold all items. */
  predicate HoldsAll(pages: int, pageSize: int, totalItems: int) {
    (pages - 1) * pageSize < totalItems <= pages * pageSize
  }

  /** The page count is the right one exactly when the rounded-up sum stays within int64. */
  lemma TotalPagesExact(pageSize: int, totalItems: int)
    requires 1 <= pageSize <= MAX_INT64 && 1 <= totalItems <= MAX_INT64
    ensures HoldsAll(TotalPages(pageSize, totalItems), pageSize, totalItems) <==> totalItems <= MAX_INT64 - pageSize + 1
  {
    hide Quotient;
    var sum := totalItems + pageSize - 1;
    if sum <= MAX_INT64 {
      assert Wrap(Wrap(totalItems + pageSize) - 1) == sum;
      QuotientBounds(sum, pageSize);
      var q := Quotient(sum, pageSize);
      assert q * pageSize <= sum < q * pageSize + pageSize;
      assert (q - 1) * pageSize == q * pageSize - pageSize;
    } else {
      var wrapped := Wrap(Wrap(totalItems + pageSize) - 1);
      assert wrapped == sum - TWO_TO_64 < 0;
      NegativeQuotient(wrapped, pageSize);
      Monotone(TotalPages(pageSize, totalItems), 0, pageSize);
    }
  }

  lemma QuotientBounds(a: int, b: int)
    requires a >= 0 && b > 0
    ensures Quotient(a, b) * b <= a < Quotient(a, b) * b + b
  {
  }

  lemma NegativeQuotient(a: int, b: int)
    requires a < 0 && b > 0
    ensures Quotient(a, b) <= 0
  {
  }

  /** The offset of an accepted page is computed without wrap-around. */
  lemma AcceptedOffset<T>(list: seq<T>, page: int, pageSize: int)
    requires 1 <= page <= MAX_INT64 && 1 <= pageSize && OffsetFits(page, pageSize)
    ensures 0 <= (page - 1) * pageSize
    ensures Page(list, page, pageSize) == Limited(list, pageSize, (page - 1) * pageSize)
  {
    Monotone(0, page - 1, pageSize);
    assert Wrap(page - 1) == page - 1;
  }

  function Pages<T>(list: seq<T>, n: nat, pageSize: int): seq<T>
    requires 1 <= pageSize
  {
    if n == 0 then [] else Pages(list, n - 1, pageSize) + Page(list, n, pageSize)
  }

  lemma {:induction false} PagesArePrefix<T>(list: seq<T>, n: nat, pageSize: int)
    requires 1 <= pageSize && n <= MAX_INT64
    requires n > 0 ==> (n - 1) * pageSize < |list| && |list| <= MAX_INT64
    ensures Pages(list, n, pageSize) == list[..if n * pageSize <= |list| then n * pageSize else |list|]
  {
    if n > 0 {
      hide Page;
      Monotone(0, n - 1, pageSize);
      assert n * pageSize == (n - 1) * pageSize + pageSize;
      if n > 1 {
        assert (n - 2) * pageSize == (n - 1) * pageSize - pageSize;
      }
      PagesArePrefix(list, n - 1, pageSize);
      AcceptedOffset(list, n, pageSize);
    }
  }

  /** Pages 1 to TotalPages are accepted and not empty, and one after another they are the list. */
  lemma PagesPartition<T>(list: seq<T>, pageSize: int)
    requires 1 <= pageSize <= MAX_PAGE_SIZE && |list| <= MAX_INT64 - pageSize + 1
    ensures var n := TotalPages(pageSize, |list|);
            && n >= 0 && Pages(list, n, pageSize) == list
            && forall page :: 1 <= page <= n ==> OffsetFits(page, pageSize) && Page(list, page, pageSize) != []
  {
    hide Page, TotalPages, Limited;
    var n := TotalPages(pageSize, |list|);
    if |list| == 0 {
      NoItems(pageSize);
    } else {
      TotalPagesExact(pageSize, |list|);
      Count(n, pageSize, |list|);
      PagesArePrefix(list, n, pageSize);
      forall page | 1 <= page <= n
        ensures OffsetFits(page, pageSize) && Page(list, page, pageSize) != []
      {
        Monotone(page - 1, n - 1, pageSize);
        AcceptedOffset(list, page, pageSize);
        LimitedSize(list, pageSize, (page - 1) * pageSize);
      }
    }
  }

  lemma NoItems(pageSize: int)
    ensures TotalPages(pageSize, 0) == 0
  {
  }

  lemma Count(n: int, pageSize: int, items: int)
    requires 1 <= pageSize && 1 <= items <= MAX_INT64 && HoldsAll(n, pageSize, items)
    ensures 1 <= n <= items
  {
    if n <= 0 {
      Monotone(n, 0, pageSize);
    } else if n > items {
      Monotone(items, n - 1, pageSize);
      assert items * pageSize >= items by { Monotone(1, pageSize, items); }
    }
  }

  lemma LimitedSize<T>(list: seq<T>, pageSize: nat, offset: nat)
    requires pageSize > 0
    ensures Limited(list, pageSize, offset) == [] <==> offset >= |list|
  {
  }

  /** Every later page that the parsers accept is empty. */
  lemma LaterPagesEmpty<T>(list: seq<T>, page: int, pageSize: int)
    requires 1 <= pageSize <= MAX_PAGE_SIZE && |list| <= MAX_INT64 - pageSize + 1
    requires TotalPages(pageSize, |list|) < page <= MAX_INT64 && 1 <= page && OffsetFits(page, pageSize)
    ensures Page(list, page, pageSize) == []
  {
    hide Page, TotalPages, Limited;
    AcceptedOffset(list, page, pageSize);
    LimitedSize(list, pageSize, (page - 1) * pageSize);
    if |list| > 0 {
      TotalPagesExact(pageSize, |list|);
      Monotone(TotalPages(pageSize, |list|), page - 1, pageSize);
    }
  }

  /** No row is on two pages. */
  lemma PagesDisjoint<T>(list: seq<T>, p: int, q: int, pageSize: int, i: nat, j: nat)
    requires forall k, l :: 0 <= k < l < |list| ==> list[k] != list[l]
    requires 1 <= p < q <= MAX_INT64 && 1 <= pageSize && OffsetFits(q, pageSize)
    requires i < |Page(list, p, pageSize)| && j < |Page(list, q, pageSize)|
    ensures Page(list, p, pageSize)[i] != Page(list, q, pageSize)[j]
  {
    hide Page;
    Monotone(p, q - 1, pageSize);
    Monotone(p - 1, p, pageSize);
    AcceptedOffset(list, p, pageSize);
    AcceptedOffset(list, q, pageSize);
    var k, l := (p - 1) * pageSize + i, (q - 1) * pageSize + j;
    assert p * pageSize == (p - 1) * pageSize + pageSize;
    assert Page(list, p, pageSize)[i] == list[k] && Page(list, q, pageSize)[j] == list[l];
  }

  // ---- Pages fetched by separate queries ----

  /** Page k + 1 taken from the k-th execution of the query. */
  function Fetched<T>(lists: seq<seq<T>>, n: nat, pageSize: int): seq<T>
    requires 1 <= pageSize && n <= |lists|
  {
    if n == 0 then [] else Fetched(lists, n - 1, pageSize) + Page(lists[n - 1], n, pageSize)
  }

  lemma {:induction false} FetchedFromOne<T>(lists: seq<seq<T>>, list: seq<T>, n: nat, pageSize: int)
    requires 1 <= pageSize && n <= |lists| && forall k :: 0 <= k < n ==> lists[k] == list
    ensures Fetched(lists, n, pageSize) == Pages(list, n, pageSize)
  {
    if n > 0 {
      FetchedFromOne(lists, list, n - 1, pageSize);
    }
  }

  lemma FetchedCoversList<T>(lists: seq<seq<T>>, list: seq<T>, pageSize: int)
    requires 1 <= pageSize <= MAX_PAGE_SIZE && |list| <= MAX_INT64 - pageSize + 1
    requires |lists| == TotalPages(pageSize, |list|) && forall k :: 0 <= k < |lists| ==> lists[k] == list
    ensures Fetched(lists, |lists|, pageSize) == list
    ensures forall k :: 0 <= k < |lists| ==> Page(lists[k], k + 1, pageSize) != []
  {
    hide TotalPages, Page;
    FetchedFromOne(lists, list, |lists|, pageSize);
    PagesPartition(list, pageSize);
  }
}
