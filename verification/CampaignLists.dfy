/** Campaign lists: the option parser, the ORDER BY clauses, and pages fetched by separate queries. */
module CampaignLists {
  import opened Options
  import opened Uuid
  import opened Domain
  import opened Ordering
  import opened Pagination
  import Text

  datatype Sort = Random | Newest | Oldest | CloseToGoal | MostDonated

  datatype ListOptions = ListOptions(search: string, sort: Sort, status: Option<CampaignStatus>, page: int, pageSize: int)

  // ---- Options ----

  function StatusName(status: CampaignStatus): string {
    match status
    case Pending => "pending"
    case Active => "active"
    case Completed => "completed"
    case Cancelled => "cancelled"
    case Failed => "failed"
  }

  /** The sort a query asks for; None when it names no known one. Clients cannot ask for Random. */
  function SortOf(query: Query): Option<Sort> {
    var name := if "sortBy" in query then Text.TrimSpace(First(query["sortBy"])) else "";
    if name == "" || name == "newest" then Some(Newest)
    else if name == "oldest" then Some(Oldest)
    else if name == "close-to-goal" then Some(CloseToGoal)
    else if name == "most-donated" then Some(MostDonated)
    else None
  }

  function FilterOf(query: Query): string {
    if "filter" in query then Text.TrimSpace(First(query["filter"])) else ""
  }

  predicate FilterAllowed(query: Query, allowed: seq<CampaignStatus>) {
    FilterOf(query) == "" || exists i :: 0 <= i < |allowed| && StatusName(allowed[i]) == FilterOf(query)
  }

  predicate PageAccepted(query: Query) {
    PageOf(query).Some? && PageSizeOf(query).Some? && OffsetFits(PageOf(query).value, PageSizeOf(query).value)
  }

  /** campaignStatusFromAllowed. */
  method StatusFromAllowed(filter: string, allowed: seq<CampaignStatus>) returns (status: Option<CampaignStatus>)
    ensures status.Some? <==> exists i :: 0 <= i < |allowed| && StatusName(allowed[i]) == filter
    ensures status.Some? ==> status.value in allowed && StatusName(status.value) == filter
  {
    for i := 0 to |allowed|
      invariant forall k :: 0 <= k < i ==> StatusName(allowed[k]) != filter
    {
      if filter == StatusName(allowed[i]) {
        return Some(allowed[i]);
      }
    }
    return None;
  }

  /** strings.Join with a comma and a space. */
  function JoinNames(allowed: seq<CampaignStatus>): string {
    if allowed == [] then ""
    else if |allowed| == 1 then StatusName(allowed[0])
    else StatusName(allowed[0]) + ", " + JoinNames(allowed[1..])
  }

  /** campaignListFilterError. */
  function FilterError(allowed: seq<CampaignStatus>): string {
    var n := |allowed|;
    if n == 0 then "filter is invalid!"
    else if n == 1 then "filter must be " + StatusName(allowed[0]) + "!"
    else if n == 2 then "filter must be one of " + StatusName(allowed[0]) + " or " + StatusName(allowed[1]) + "!"
    else "filter must be one of " + JoinNames(allowed[..n - 1]) + ", or " + StatusName(allowed[n - 1]) + "!"
  }

  method ParseSort(query: Query, before: FieldErrors) returns (sort: Sort, errors: FieldErrors)
    requires SortByField !in before
    ensures sort == if SortOf(query).Some? then SortOf(query).value else Newest
    ensures SortByField in errors <==> SortOf(query).None?
    ensures forall field :: field != SortByField ==> (field in errors <==> field in before)
  {
    hide Text.TrimSpace;
    sort, errors := Newest, before;
    if "sortBy" in query {
      var name := Text.TrimSpace(First(query["sortBy"]));
      if name == "" || name == "newest" {
        sort := Newest;
      } else if name == "oldest" {
        sort := Oldest;
      } else if name == "close-to-goal" {
        sort := CloseToGoal;
      } else if name == "most-donated" {
        sort := MostDonated;
      } else {
        errors := Added(errors, SortByField, "sortBy must be one of newest, oldest, close-to-goal, or most-donated!");
      }
    }
  }

  method ParseFilter(query: Query, allowed: seq<CampaignStatus>, before: FieldErrors)
    returns (status: Option<CampaignStatus>, errors: FieldErrors)
    requires FilterField !in before
    ensures FilterField in errors <==> !FilterAllowed(query, allowed)
    ensures status.Some? <==> FilterOf(query) != "" && FilterAllowed(query, allowed)
    ensures status.Some? ==> status.value in allowed && StatusName(status.value) == FilterOf(query)
    ensures forall field :: field != FilterField ==> (field in errors <==> field in before)
  {
    hide Text.TrimSpace, StatusName, FilterError;
    status, errors := None, before;
    if "filter" in query {
      var filter := Text.TrimSpace(First(query["filter"]));
      if filter != "" {
        status := StatusFromAllowed(filter, allowed);
        if status.None? {
          errors := Added(errors, FilterField, FilterError(allowed));
        }
      }
    }
  }

  const NO_OPTIONS := ListOptions("", Random, None, 0, 0)

  predicate Acceptable(query: Query, allowed: seq<CampaignStatus>) {
    SortOf(query).Some? && FilterAllowed(query, allowed) && PageAccepted(query)
  }

  /** campaignListOptionsFromQuery: it hands out options exactly when every field is acceptable, and
      then an offset that fits in an int64; otherwise it names the fields it refuses. */
  method ListOptionsFromQuery(query: Query, allowed: seq<CampaignStatus>)
    returns (options: ListOptions, errors: FieldErrors)
    ensures errors == map[] <==> Acceptable(query, allowed)
    ensures Acceptable(query, allowed) ==>
              && options.sort == SortOf(query).value && options.sort != Random
              && (options.status.None? <==> FilterOf(query) == "")
              && (options.status.Some? ==> options.status.value in allowed && StatusName(options.status.value) == FilterOf(query))
              && options.page == PageOf(query).value && options.pageSize == PageSizeOf(query).value
              && options.search == if "search" in query then Text.TrimSpace(First(query["search"])) else ""
    ensures !Acceptable(query, allowed) ==> options == NO_OPTIONS
    ensures SortByField in errors <==> SortOf(query).None?
    ensures FilterField in errors <==> !FilterAllowed(query, allowed)
    ensures PageSizeField in errors <==> PageSizeOf(query).None?
    ensures PageField in errors <==> PageRefused(query)
  {
    hide Text.TrimSpace, StatusName, PageOf, PageSizeOf, OffsetFits, FilterAllowed, FilterOf;
    var search := if "search" in query then Text.TrimSpace(First(query["search"])) else "";
    var sort, status;
    sort, errors := ParseSort(query, map[]);
    status, errors := ParseFilter(query, allowed, errors);
    var page, pageSize;
    page, pageSize, errors := ParsePage(query, errors);
    if errors == map[] {
      options := ListOptions(search, sort, status, page, pageSize);
    } else {
      options := NO_OPTIONS;
    }
  }

  // ---- ORDER BY ----

  /** A UUID as a number, the order of the uuid type. */
  function IdValue(digits: seq<Nibble>): nat {
    if digits == [] then 0 else 16 * IdValue(digits[..|digits| - 1]) + digits[|digits| - 1] as int
  }

  lemma {:induction false} IdValueInjective(a: seq<Nibble>, b: seq<Nibble>)
    requires |a| == |b| && IdValue(a) == IdValue(b)
    ensures a == b
  {
    if a != [] {
      var n := |a| - 1;
      IdValueInjective(a[..n], b[..n]);
      assert a == a[..n] + [a[n]] && b == b[..n] + [b[n]];
    }
  }

  /** Of two ids of one length, the one with the greater digit where they first differ has the greater value. */
  lemma {:induction false} IdValueOrder(a: seq<Nibble>, b: seq<Nibble>, k: nat)
    requires |a| == |b| && k < |a| && a[..k] == b[..k] && a[k] > b[k]
    ensures IdValue(a) > IdValue(b)
  {
    var n := |a| - 1;
    if k < n {
      assert a[..n][..k] == a[..k] && b[..n][..k] == b[..k];
      IdValueOrder(a[..n], b[..n], k);
    }
  }

  /** campaignListOrderBy; ratio is raised_amount::numeric / goal_amount as the database rounds it. */
  function SortKey(sort: Sort, ratio: (int, int) -> real, c: Campaign): Key {
    var id := IdValue(c.id.digits);
    match sort
    case Oldest => Key(0.0, c.createdAt, id)
    case CloseToGoal => Key(-ratio(c.raisedAmount, c.goalAmount), -c.createdAt, 0 - id)
    case MostDonated => Key(-(c.raisedAmount as real), -c.createdAt, 0 - id)
    case _ => Key(0.0, -c.createdAt, 0 - id)
  }

  lemma KeyTellsId(sort: Sort, ratio: (int, int) -> real, a: Campaign, b: Campaign)
    requires SortKey(sort, ratio, a) == SortKey(sort, ratio, b)
    ensures a.id == b.id
  {
    hide IdValue;
    IdValueInjective(a.id.digits, b.id.digits);
  }

  /** A result of the list query: the selected rows of the table, each once, in order. */
  ghost predicate IsListing(
    table: map<UUID, Campaign>, selected: Campaign -> bool, key: Campaign -> Key, list: seq<Campaign>)
  {
    && InOrder(list, key)
    && (forall i, j :: 0 <= i < j < |list| ==> list[i].id != list[j].id)
    && (forall c :: c in list <==> c.id in table && table[c.id] == c && selected(c))
  }

  /** A key that tells ids apart leaves the query no choice. */
  lemma OneListing(
    table: map<UUID, Campaign>, selected: Campaign -> bool, key: Campaign -> Key, a: seq<Campaign>, b: seq<Campaign>)
    requires forall c, d :: key(c) == key(d) ==> c.id == d.id
    requires IsListing(table, selected, key, a) && IsListing(table, selected, key, b)
    ensures a == b
  {
    StrictListing(table, selected, key, a);
    StrictListing(table, selected, key, b);
    SortedUnique(a, b, key);
  }

  lemma StrictListing(table: map<UUID, Campaign>, selected: Campaign -> bool, key: Campaign -> Key, list: seq<Campaign>)
    requires forall c, d :: key(c) == key(d) ==> c.id == d.id
    requires IsListing(table, selected, key, list)
    ensures Sorted(list, key)
  {
    assert KeysDiffer(list, key);
    InOrderIsSorted(list, key);
  }

  /** Which of two rows a sort lists first, by the rows' own columns. */
  predicate Precedes(sort: Sort, ratio: (int, int) -> real, a: Campaign, b: Campaign)
    requires sort != Random
  {
    var idGreater := IdValue(a.id.digits) > IdValue(b.id.digits);
    var newer := a.createdAt > b.createdAt || (a.createdAt == b.createdAt && idGreater);
    match sort
    case Newest => newer
    case Oldest =>
      a.createdAt < b.createdAt || (a.createdAt == b.createdAt && IdValue(a.id.digits) < IdValue(b.id.digits))
    case CloseToGoal =>
      var ra, rb := ratio(a.raisedAmount, a.goalAmount), ratio(b.raisedAmount, b.goalAmount);
      ra > rb || (ra == rb && newer)
    case MostDonated => a.raisedAmount > b.raisedAmount || (a.raisedAmount == b.raisedAmount && newer)
  }

  /** Every listing has its rows in the order of the sort's columns: newest by descending creation time,
      oldest by ascending, close-to-goal by descending ratio, most-donated by descending amount, with
      ties broken by creation time and id. */
  lemma ListedInOrder(
    table: map<UUID, Campaign>, selected: Campaign -> bool, sort: Sort, ratio: (int, int) -> real, list: seq<Campaign>,
    i: nat, j: nat)
    requires sort != Random && i < j < |list|
    requires IsListing(table, selected, (c: Campaign) => SortKey(sort, ratio, c), list)
    ensures Precedes(sort, ratio, list[i], list[j])
  {
    hide IdValue, IsListing;
    var key := (c: Campaign) => SortKey(sort, ratio, c);
    forall c: Campaign, d: Campaign | key(c) == key(d)
      ensures c.id == d.id
    {
      KeyTellsId(sort, ratio, c, d);
    }
    StrictListing(table, selected, key, list);
    assert Less(key(list[i]), key(list[j]));
  }

  /** The names a client can sort by. */
  lemma SortNames(query: Query)
    ensures
      var name := if "sortBy" in query then Text.TrimSpace(First(query["sortBy"])) else "newest";
      && (SortOf(query) == Some(Newest) <==> name == "newest" || name == "")
      && (SortOf(query) == Some(Oldest) <==> name == "oldest")
      && (SortOf(query) == Some(CloseToGoal) <==> name == "close-to-goal")
      && (SortOf(query) == Some(MostDonated) <==> name == "most-donated")
      && SortOf(query) != Some(Random)
  {
    hide Text.TrimSpace;
  }

  /** The names of the statuses. */
  lemma StatusNames(status: CampaignStatus)
    ensures StatusName(status) == "pending" <==> status == Pending
    ensures StatusName(status) == "active" <==> status == Active
    ensures StatusName(status) == "completed" <==> status == Completed
    ensures StatusName(status) == "cancelled" <==> status == Cancelled
    ensures StatusName(status) == "failed" <==> status == Failed
  {
    var name := StatusName(status);
    assert name[0] == match status case Pending => 'p' case Active => 'a' case Failed => 'f' case _ => 'c';
    assert status.Completed? ==> name[1] == 'o';
    assert status.Cancelled? ==> name[1] == 'a';
  }

  /** For every sort a client can ask for, fetching pages 1 to TotalPages with one query each, over a
      table that does not change, yields the whole ordered list and every page has rows. */
  lemma PagesCoverList(
    table: map<UUID, Campaign>, selected: Campaign -> bool, sort: Sort, ratio: (int, int) -> real,
    list: seq<Campaign>, lists: seq<seq<Campaign>>, pageSize: int)
    requires sort != Random && 1 <= pageSize <= MAX_PAGE_SIZE && |list| <= MAX_INT64 - pageSize + 1
    requires |lists| == TotalPages(pageSize, |list|)
    requires var key := (c: Campaign) => SortKey(sort, ratio, c);
             IsListing(table, selected, key, list) && forall k :: 0 <= k < |lists| ==> IsListing(table, selected, key, lists[k])
    ensures Fetched(lists, |lists|, pageSize) == list
    ensures forall k :: 0 <= k < |lists| ==> Page(lists[k], k + 1, pageSize) != []
  {
    hide IsListing, SortKey, TotalPages, Page;
    var key := (c: Campaign) => SortKey(sort, ratio, c);
    forall c: Campaign, d: Campaign | key(c) == key(d)
      ensures c.id == d.id
    {
      KeyTellsId(sort, ratio, c, d);
    }
    forall k | 0 <= k < |lists|
      ensures lists[k] == list
    {
      OneListing(table, selected, key, list, lists[k]);
    }
    FetchedCoversList(lists, list, pageSize);
  }
}
