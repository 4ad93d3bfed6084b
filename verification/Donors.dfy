/** The donor list of a campaign: donations grouped by lower-cased address, joined with the live
    supporters that use the address. */
module Donors {
  import opened Options
  import opened Uuid
  import opened Timestamp
  import opened Domain
  import opened Ordering
  import opened Pagination
  import Text
  import CampaignLists

  /** A donation with the columns of its event that the query orders by. */
  datatype Donation = Donation(
    id: UUID, donorAddress: string, amount: int, createdAt: Instant, blockNumber: int, logIndex: int)

  /** One row of the answer; supporter is the joined user, if any. */
  datatype Donor = Donor(
    normalized: string, supporter: Option<UUID>, walletAddress: string, amount: int, donatedAt: Instant)

  function KeyOf(d: Donation): string {
    Text.Lower(d.donorAddress)
  }

  // ---- Grouping ----

  /** The distinct lower-cased addresses; countDonors reports how many there are. */
  function Addresses(ds: seq<Donation>): set<string> {
    set i | 0 <= i < |ds| :: KeyOf(ds[i])
  }

  function Sum(ds: seq<Donation>): int {
    if ds == [] then 0 else Sum(ds[..|ds| - 1]) + ds[|ds| - 1].amount
  }

  /** SUM(d.amount) of one group. */
  function SumFor(ds: seq<Donation>, key: string): int {
    if ds == [] then 0
    else
      var d := ds[|ds| - 1];
      SumFor(ds[..|ds| - 1], key) + if KeyOf(d) == key then d.amount else 0
  }

  /** The order of ARRAY_AGG: later by time, block, log index, id. */
  predicate Later(a: Donation, b: Donation) {
    || a.createdAt > b.createdAt
    || (a.createdAt == b.createdAt && a.blockNumber > b.blockNumber)
    || (a.createdAt == b.createdAt && a.blockNumber == b.blockNumber && a.logIndex > b.logIndex)
    || (a.createdAt == b.createdAt && a.blockNumber == b.blockNumber && a.logIndex == b.logIndex
        && CampaignLists.IdValue(a.id.digits) > CampaignLists.IdValue(b.id.digits))
  }

  /** The donation whose spelling of the address the group shows. */
  function LatestFor(ds: seq<Donation>, key: string): Option<Donation> {
    if ds == [] then None
    else
      var d, best := ds[|ds| - 1], LatestFor(ds[..|ds| - 1], key);
      if KeyOf(d) == key && (best.None? || Later(d, best.value)) then Some(d) else best
  }

  /** It belongs to the group and no donation of the group is later. */
  lemma {:induction false} LatestIsLast(ds: seq<Donation>, key: string)
    ensures LatestFor(ds, key).Some? <==> key in Addresses(ds)
    ensures LatestFor(ds, key).Some? ==>
              var best := LatestFor(ds, key).value;
              && best in ds && KeyOf(best) == key
              && forall d :: d in ds && KeyOf(d) == key ==> !Later(d, best)
  {
    hide KeyOf, CampaignLists.IdValue;
    if ds != [] {
      var n := |ds| - 1;
      LatestIsLast(ds[..n], key);
      assert ds == ds[..n] + [ds[n]];
      AddressesGrow(ds);
    }
  }

  /** No greater by time, then block, then log index, then id. */
  predicate NoGreater(d: Donation, best: Donation) {
    || d.createdAt < best.createdAt
    || (d.createdAt == best.createdAt && d.blockNumber < best.blockNumber)
    || (d.createdAt == best.createdAt && d.blockNumber == best.blockNumber && d.logIndex < best.logIndex)
    || (d.createdAt == best.createdAt && d.blockNumber == best.blockNumber && d.logIndex == best.logIndex
        && CampaignLists.IdValue(d.id.digits) <= CampaignLists.IdValue(best.id.digits))
  }

  /** The shown donation has the greatest time, block, log index and id of its group, in this order. */
  lemma LatestIsGreatest(ds: seq<Donation>, key: string)
    requires key in Addresses(ds)
    ensures LatestFor(ds, key).Some?
    ensures
      var best := LatestFor(ds, key).value;
      && best in ds && Text.Lower(best.donorAddress) == key
      && forall d :: d in ds && Text.Lower(d.donorAddress) == key ==> NoGreater(d, best)
  {
    hide Text.Lower, CampaignLists.IdValue, Addresses;
    LatestIsLast(ds, key);
    var best := LatestFor(ds, key).value;
    forall d | d in ds && Text.Lower(d.donorAddress) == key
      ensures NoGreater(d, best)
    {
      assert KeyOf(d) == key && !Later(d, best);
    }
  }

  lemma AddressesGrow(ds: seq<Donation>)
    requires ds != []
    ensures Addresses(ds) == Addresses(ds[..|ds| - 1]) + {KeyOf(ds[|ds| - 1])}
  {
    hide KeyOf;
    var n := |ds| - 1;
    forall key | key in Addresses(ds)
      ensures key in Addresses(ds[..n]) + {KeyOf(ds[n])}
    {
      var i :| 0 <= i < |ds| && KeyOf(ds[i]) == key;
      assert i < n ==> ds[..n][i] == ds[i];
    }
    forall key | key in Addresses(ds[..n])
      ensures key in Addresses(ds)
    {
      var i :| 0 <= i < |ds[..n]| && KeyOf(ds[..n][i]) == key;
      assert ds[i] == ds[..n][i];
    }
    assert KeyOf(ds[n]) in Addresses(ds);
  }

  // ---- Joining ----

  predicate LiveSupporter(user: User, key: string) {
    user.role == Supporter && !user.deleted && Text.Lower(user.walletAddress) == key
  }

  /** A row the query may produce. */
  predicate IsDonor(ds: seq<Donation>, users: map<UUID, User>, row: Donor) {
    && LatestFor(ds, row.normalized).Some?
    && row.amount == SumFor(ds, row.normalized)
    && row.donatedAt == LatestFor(ds, row.normalized).value.createdAt
    && match row.supporter
       case Some(u) =>
         u in users && LiveSupporter(users[u], row.normalized) && row.walletAddress == users[u].walletAddress
       case None =>
         && (forall u :: u in users ==> !LiveSupporter(users[u], row.normalized))
         && row.walletAddress == LatestFor(ds, row.normalized).value.donorAddress
  }

  /** The whole answer: each possible row once. */
  ghost predicate IsDonorList(ds: seq<Donation>, users: map<UUID, User>, rows: seq<Donor>) {
    && (forall row :: row in rows <==> IsDonor(ds, users, row))
    && (forall i, j :: 0 <= i < j < |rows| ==> rows[i] != rows[j])
  }

  /** Whatever it shows, a row's address is one spelling of its group's address. */
  lemma RowShowsItsAddress(ds: seq<Donation>, users: map<UUID, User>, row: Donor)
    requires IsDonor(ds, users, row)
    ensures Text.Lower(row.walletAddress) == row.normalized && row.normalized in Addresses(ds)
  {
    hide Text.Lower, Addresses, CampaignLists.IdValue;
    LatestIsLast(ds, row.normalized);
  }

  /** What a row shows, from the donations and users alone: the time of the last donation of its group,
      and either a live supporter who spells the group's address, as stored, or, when there is none, the
      spelling of the last donation. */
  lemma RowShowsLastDonation(ds: seq<Donation>, users: map<UUID, User>, row: Donor)
    requires IsDonor(ds, users, row)
    ensures forall d :: d in ds && Text.Lower(d.donorAddress) == row.normalized ==> d.createdAt <= row.donatedAt
    ensures exists best ::
              && best in ds && Text.Lower(best.donorAddress) == row.normalized && best.createdAt == row.donatedAt
              && (forall d :: d in ds && Text.Lower(d.donorAddress) == row.normalized ==> NoGreater(d, best))
              && (row.supporter.None? ==> row.walletAddress == best.donorAddress)
    ensures row.supporter.None? <==>
              forall u :: u in users && users[u].role == Supporter && !users[u].deleted
                ==> Text.Lower(users[u].walletAddress) != row.normalized
    ensures row.supporter.Some? ==>
              var u := row.supporter.value;
              && u in users && users[u].role == Supporter && !users[u].deleted
              && Text.Lower(users[u].walletAddress) == row.normalized && row.walletAddress == users[u].walletAddress
  {
    hide Text.Lower, CampaignLists.IdValue, Addresses, LatestFor, SumFor;
    LatestIsLast(ds, row.normalized);
    LatestIsGreatest(ds, row.normalized);
    var best := LatestFor(ds, row.normalized).value;
    assert forall d :: d in ds && Text.Lower(d.donorAddress) == row.normalized ==> NoGreater(d, best);
  }

  // ---- Conservation ----

  /** The table's CHECK constraint. */
  predicate PositiveAmounts(ds: seq<Donation>) {
    forall i :: 0 <= i < |ds| ==> ds[i].amount > 0
  }

  function Total(rows: seq<Donor>): int {
    if rows == [] then 0 else Total(rows[..|rows| - 1]) + rows[|rows| - 1].amount
  }

  function KeysOf(rows: seq<Donor>): set<string> {
    if rows == [] then {} else KeysOf(rows[..|rows| - 1]) + {rows[|rows| - 1].normalized}
  }

  predicate OneRowEach(rows: seq<Donor>) {
    forall i, j :: 0 <= i < j < |rows| ==> rows[i].normalized != rows[j].normalized
  }

  /** The donations whose address is in a set. */
  function SumWhere(ds: seq<Donation>, keys: set<string>): int {
    if ds == [] then 0
    else
      var d := ds[|ds| - 1];
      SumWhere(ds[..|ds| - 1], keys) + if KeyOf(d) in keys then d.amount else 0
  }

  lemma {:induction false} SumWhereAdds(ds: seq<Donation>, keys: set<string>, key: string)
    requires key !in keys
    ensures SumWhere(ds, keys + {key}) == SumWhere(ds, keys) + SumFor(ds, key)
  {
    hide KeyOf;
    if ds != [] {
      SumWhereAdds(ds[..|ds| - 1], keys, key);
    }
  }

  lemma {:induction false} SumWhereNone(ds: seq<Donation>)
    ensures SumWhere(ds, {}) == 0
  {
    if ds != [] {
      SumWhereNone(ds[..|ds| - 1]);
    }
  }

  lemma {:induction false} SumWhereAll(ds: seq<Donation>, keys: set<string>)
    requires forall i :: 0 <= i < |ds| ==> KeyOf(ds[i]) in keys
    ensures SumWhere(ds, keys) == Sum(ds)
  {
    if ds != [] {
      SumWhereAll(ds[..|ds| - 1], keys);
    }
  }

  lemma {:induction false} GroupIsPositive(ds: seq<Donation>, key: string)
    requires PositiveAmounts(ds)
    ensures SumFor(ds, key) >= 0
    ensures key in Addresses(ds) ==> SumFor(ds, key) > 0
  {
    hide KeyOf, Addresses;
    if ds == [] {
      AddressesOfNone();
    } else {
      GroupIsPositive(ds[..|ds| - 1], key);
      AddressesGrow(ds);
    }
  }

  lemma AddressesOfNone()
    ensures Addresses([]) == {}
  {
  }

  lemma {:induction false} KeysAreRows(rows: seq<Donor>, key: string)
    ensures key in KeysOf(rows) <==> exists i :: 0 <= i < |rows| && rows[i].normalized == key
  {
    if rows != [] {
      var n := |rows| - 1;
      KeysAreRows(rows[..n], key);
      if i :| 0 <= i < |rows[..n]| && rows[..n][i].normalized == key {
        assert rows[i].normalized == key;
      }
      if i :| 0 <= i < |rows| && rows[i].normalized == key {
        assert i < n ==> rows[..n][i].normalized == key;
      }
    }
  }

  /** A row list never sums to less than the donations of its groups, nor is it shorter than the
      number of groups; it is exact in both respects when and only when no group has two rows. */
  lemma {:induction false} ExactIffOneEach(ds: seq<Donation>, rows: seq<Donor>)
    requires forall i :: 0 <= i < |rows| ==> rows[i].amount == SumFor(ds, rows[i].normalized) > 0
    ensures Total(rows) >= SumWhere(ds, KeysOf(rows)) && |rows| >= |KeysOf(rows)|
    ensures Total(rows) == SumWhere(ds, KeysOf(rows)) <==> OneRowEach(rows)
    ensures |rows| == |KeysOf(rows)| <==> OneRowEach(rows)
  {
    if rows == [] {
      SumWhereNone(ds);
    } else {
      var n := |rows| - 1;
      var rest, key := rows[..n], rows[n].normalized;
      ExactIffOneEach(ds, rest);
      KeysAreRows(rest, key);
      LastMayRepeat(rows);
      if key !in KeysOf(rest) {
        SumWhereAdds(ds, KeysOf(rest), key);
      } else {
        assert KeysOf(rows) == KeysOf(rest);
      }
    }
  }

  lemma LastMayRepeat(rows: seq<Donor>)
    requires rows != []
    ensures
      var n := |rows| - 1;
      OneRowEach(rows) <==> OneRowEach(rows[..n])
                            && !exists i :: 0 <= i < |rows[..n]| && rows[..n][i].normalized == rows[n].normalized
  {
    var n := |rows| - 1;
    assert forall i :: 0 <= i < n ==> rows[..n][i] == rows[i];
    if i :| 0 <= i < n && rows[i].normalized == rows[n].normalized {
      assert rows[..n][i].normalized == rows[n].normalized;
    }
  }

  /** No two live supporters spell the same address. */
  predicate AtMostOneSupporter(ds: seq<Donation>, users: map<UUID, User>) {
    forall u, v ::
      u in users && v in users && u != v
      && users[u].role == Supporter && !users[u].deleted && Text.Lower(users[u].walletAddress) in Addresses(ds)
      && users[v].role == Supporter && !users[v].deleted
      ==> Text.Lower(users[u].walletAddress) != Text.Lower(users[v].walletAddress)
  }

  /** Every group has a row, and every row a group. */
  lemma ListCoversGroups(ds: seq<Donation>, users: map<UUID, User>, rows: seq<Donor>)
    requires IsDonorList(ds, users, rows)
    ensures KeysOf(rows) == Addresses(ds)
  {
    hide Addresses, KeysOf, LatestFor, SumFor, Text.Lower;
    forall key
      ensures key in KeysOf(rows) <==> key in Addresses(ds)
    {
      KeysAreRows(rows, key);
      LatestIsLast(ds, key);
      if key in Addresses(ds) {
        GroupHasRow(ds, users, rows, key);
      }
      if i :| 0 <= i < |rows| && rows[i].normalized == key {
        assert IsDonor(ds, users, rows[i]);
      }
    }
  }

  /** The rows of a group: one per matching supporter, or a single one without. */
  function RowFor(ds: seq<Donation>, users: map<UUID, User>, key: string, u: Option<UUID>): Donor
    requires LatestFor(ds, key).Some? && (u.Some? ==> u.value in users)
  {
    var latest := LatestFor(ds, key).value;
    Donor(key, u, if u.Some? then users[u.value].walletAddress else latest.donorAddress, SumFor(ds, key), latest.createdAt)
  }

  lemma GroupHasRow(ds: seq<Donation>, users: map<UUID, User>, rows: seq<Donor>, key: string)
    requires IsDonorList(ds, users, rows) && LatestFor(ds, key).Some?
    ensures exists i :: 0 <= i < |rows| && rows[i].normalized == key
  {
    hide LatestFor, SumFor, Text.Lower;
    var row;
    if u :| u in users && LiveSupporter(users[u], key) {
      row := RowFor(ds, users, key, Some(u));
    } else {
      row := RowFor(ds, users, key, None);
    }
    assert IsDonor(ds, users, row);
  }

  lemma OneEachIffOneSupporter(ds: seq<Donation>, users: map<UUID, User>, rows: seq<Donor>)
    requires IsDonorList(ds, users, rows)
    ensures OneRowEach(rows) <==> AtMostOneSupporter(ds, users)
  {
    hide LatestFor, SumFor, Text.Lower, Addresses;
    if AtMostOneSupporter(ds, users) {
      forall i, j | 0 <= i < j < |rows|
        ensures rows[i].normalized != rows[j].normalized
      {
        assert rows[i] in rows && rows[j] in rows;
        assert IsDonor(ds, users, rows[i]) && IsDonor(ds, users, rows[j]);
        RowShowsItsAddress(ds, users, rows[i]);
      }
    } else {
      var u, v :|
        u in users && v in users && u != v
        && users[u].role == Supporter && !users[u].deleted && Text.Lower(users[u].walletAddress) in Addresses(ds)
        && users[v].role == Supporter && !users[v].deleted
        && Text.Lower(users[u].walletAddress) == Text.Lower(users[v].walletAddress);
      var key := Text.Lower(users[u].walletAddress);
      LatestIsLast(ds, key);
      var a, b := RowFor(ds, users, key, Some(u)), RowFor(ds, users, key, Some(v));
      assert IsDonor(ds, users, a) && IsDonor(ds, users, b);
      assert a in rows && b in rows && a != b;
    }
  }

  /** The answer has as many rows as countDonors reports, and its amounts add up to the donations,
      exactly when no two live supporters spell a donor's address; otherwise it overstates both. */
  lemma DonorListConserves(ds: seq<Donation>, users: map<UUID, User>, rows: seq<Donor>)
    requires PositiveAmounts(ds) && IsDonorList(ds, users, rows)
    ensures |rows| == |Addresses(ds)| <==> AtMostOneSupporter(ds, users)
    ensures Total(rows) == Sum(ds) <==> AtMostOneSupporter(ds, users)
    ensures |rows| >= |Addresses(ds)| && Total(rows) >= Sum(ds)
  {
    hide IsDonorList, OneRowEach, AtMostOneSupporter, KeysOf, Addresses, SumFor;
    forall i | 0 <= i < |rows|
      ensures rows[i].amount == SumFor(ds, rows[i].normalized) > 0
    {
      RowAmount(ds, users, rows, i);
    }
    ExactIffOneEach(ds, rows);
    ListCoversGroups(ds, users, rows);
    OneEachIffOneSupporter(ds, users, rows);
    EveryKeyListed(ds);
    SumWhereAll(ds, Addresses(ds));
  }

  lemma EveryKeyListed(ds: seq<Donation>)
    ensures forall i :: 0 <= i < |ds| ==> KeyOf(ds[i]) in Addresses(ds)
  {
    hide KeyOf;
  }

  lemma RowAmount(ds: seq<Donation>, users: map<UUID, User>, rows: seq<Donor>, i: nat)
    requires PositiveAmounts(ds) && IsDonorList(ds, users, rows) && i < |rows|
    ensures rows[i].amount == SumFor(ds, rows[i].normalized) > 0
  {
    hide SumFor, Addresses, LatestFor, PositiveAmounts, Text.Lower;
    assert rows[i] in rows && IsDonor(ds, users, rows[i]);
    LatestIsLast(ds, rows[i].normalized);
    GroupIsPositive(ds, rows[i].normalized);
  }

  // ---- The wallet index does not prevent it ----

  /** Two supporters whose wallets differ only in case satisfy the index, and one donation from that
      wallet is then listed twice and counted twice. */
  lemma CaseVariantsAreCountedTwice(u: UUID, v: UUID, d: Donation, rows: seq<Donor>)
    requires u != v && d.donorAddress == "0xab" && d.amount > 0
    requires IsDonorList([d], map[u := User(Supporter, "0xab", false), v := User(Supporter, "0xAB", false)], rows)
    ensures WalletIndexHolds(map[u := User(Supporter, "0xab", false), v := User(Supporter, "0xAB", false)])
    ensures |rows| > |Addresses([d])| && Total(rows) > Sum([d])
  {
    hide IsDonorList, Text.Lower, Total, Sum, LatestFor;
    var users := map[u := User(Supporter, "0xab", false), v := User(Supporter, "0xAB", false)];
    CaseVariants();
    assert KeyOf([d][0]) in Addresses([d]);
    assert u in users && v in users && users[u].walletAddress == "0xab" && users[v].walletAddress == "0xAB";
    DonorListConserves([d], users, rows);
  }

  lemma CaseVariants()
    ensures "0xab" != "0xAB" && Text.Lower("0xab") == Text.Lower("0xAB")
  {
    assert "0xab"[2] != "0xAB"[2];
  }

  /** Scanning the donations in another order shows the same spelling: nothing ties with the latest. */
  lemma LatestUnique(ds: seq<Donation>, key: string, d: Donation)
    requires forall i, j :: 0 <= i < j < |ds| ==> ds[i].id != ds[j].id
    requires d in ds && KeyOf(d) == key && forall e :: e in ds && KeyOf(e) == key ==> !Later(e, d)
    ensures LatestFor(ds, key) == Some(d)
  {
    hide KeyOf, CampaignLists.IdValue, Addresses, LatestFor;
    var k :| 0 <= k < |ds| && ds[k] == d;
    EveryKeyListed(ds);
    LatestIsLast(ds, key);
    var best := LatestFor(ds, key).value;
    assert !Later(best, d) && !Later(d, best);
    CampaignLists.IdValueInjective(best.id.digits, d.id.digits);
  }

  // ---- Options, order and pages ----

  datatype DonorSort = Recent | Top

  function DonorSortOf(query: Query): Option<DonorSort> {
    var name := if "sortBy" in query then Text.TrimSpace(First(query["sortBy"])) else "";
    if name == "" || name == "recent" then Some(Recent) else if name == "top" then Some(Top) else None
  }

  datatype DonorListOptions = DonorListOptions(sort: DonorSort, page: int, pageSize: int)

  lemma NoErrors(errors: FieldErrors)
    ensures errors == map[]
            <==> SortByField !in errors && FilterField !in errors && PageField !in errors && PageSizeField !in errors
  {
    if errors != map[] {
      var field :| field in errors;
      assert field.SortByField? || field.FilterField? || field.PageField? || field.PageSizeField?;
    }
  }

  /** campaignDonorListOptionsFromQuery. */
  method DonorListOptionsFromQuery(query: Query) returns (options: DonorListOptions, errors: FieldErrors)
    ensures errors == map[] <==> DonorSortOf(query).Some? && CampaignLists.PageAccepted(query)
    ensures errors == map[] ==>
              options == DonorListOptions(DonorSortOf(query).value, PageOf(query).value, PageSizeOf(query).value)
    ensures errors != map[] ==> options == DonorListOptions(Recent, 0, 0)
    ensures (SortByField in errors <==> DonorSortOf(query).None?) && FilterField !in errors
    ensures PageSizeField in errors <==> PageSizeOf(query).None?
    ensures PageField in errors <==> PageRefused(query)
  {
    hide Text.TrimSpace, PageOf, PageSizeOf, OffsetFits;
    var sort := Recent;
    errors := map[];
    if "sortBy" in query {
      var name := Text.TrimSpace(First(query["sortBy"]));
      if name == "" || name == "recent" {
        sort := Recent;
      } else if name == "top" {
        sort := Top;
      } else {
        errors := Added(errors, SortByField, "sortBy must be one of recent or top!");
      }
    }
    var page, pageSize;
    page, pageSize, errors := ParsePage(query, errors);
    NoErrors(errors);
    options := if errors == map[] then DonorListOptions(sort, page, pageSize) else DonorListOptions(Recent, 0, 0);
  }

  /** campaignDonorListOrderBy; collation ranks texts as the database orders them. */
  function DonorKey(sort: DonorSort, collation: string -> int, row: Donor): Key {
    match sort
    case Recent => Key(-(row.donatedAt as real), -row.amount, collation(row.normalized))
    case Top => Key(-(row.amount as real), -row.donatedAt, collation(row.normalized))
  }

  /** Which of two rows a sort lists first, by the rows' own columns. */
  predicate DonorPrecedes(sort: DonorSort, collation: string -> int, a: Donor, b: Donor) {
    var byAddress := collation(a.normalized) < collation(b.normalized);
    match sort
    case Recent =>
      || a.donatedAt > b.donatedAt
      || (a.donatedAt == b.donatedAt && (a.amount > b.amount || (a.amount == b.amount && byAddress)))
    case Top =>
      || a.amount > b.amount
      || (a.amount == b.amount && (a.donatedAt > b.donatedAt || (a.donatedAt == b.donatedAt && byAddress)))
  }

  /** The donor list has its rows in the order of the sort's columns: recent by descending time and then
      amount, top by descending amount and then time, with ties broken by ascending address. */
  lemma DonorsListedInOrder(
    ds: seq<Donation>, users: map<UUID, User>, sort: DonorSort, collation: string -> int, rows: seq<Donor>, i: nat, j: nat)
    requires AtMostOneSupporter(ds, users) && i < j < |rows|
    requires forall a, b :: collation(a) == collation(b) ==> a == b
    requires IsDonorListing(ds, users, (row: Donor) => DonorKey(sort, collation, row), rows)
    ensures DonorPrecedes(sort, collation, rows[i], rows[j])
  {
    hide IsDonor, AtMostOneSupporter;
    OneEachIffOneSupporter(ds, users, rows);
    var key := (row: Donor) => DonorKey(sort, collation, row);
    assert !Less(key(rows[j]), key(rows[i]));
    assert rows[i].normalized != rows[j].normalized;
  }

  /** The names a client can sort donors by. */
  lemma DonorSortNames(query: Query)
    ensures
      var name := if "sortBy" in query then Text.TrimSpace(First(query["sortBy"])) else "recent";
      && (DonorSortOf(query) == Some(Recent) <==> name == "recent" || name == "")
      && (DonorSortOf(query) == Some(Top) <==> name == "top")
  {
    hide Text.TrimSpace;
  }

  ghost predicate IsDonorListing(ds: seq<Donation>, users: map<UUID, User>, key: Donor -> Key, rows: seq<Donor>) {
    IsDonorList(ds, users, rows) && InOrder(rows, key)
  }

  lemma OneDonorListing(ds: seq<Donation>, users: map<UUID, User>, key: Donor -> Key, a: seq<Donor>, b: seq<Donor>)
    requires AtMostOneSupporter(ds, users)
    requires forall r: Donor, t: Donor :: key(r) == key(t) ==> r.normalized == t.normalized
    requires IsDonorListing(ds, users, key, a) && IsDonorListing(ds, users, key, b)
    ensures a == b
  {
    hide IsDonor, AtMostOneSupporter;
    OneEachIffOneSupporter(ds, users, a);
    OneEachIffOneSupporter(ds, users, b);
    assert KeysDiffer(a, key) && KeysDiffer(b, key);
    InOrderIsSorted(a, key);
    InOrderIsSorted(b, key);
    SortedUnique(a, b, key);
  }

  /** With at most one live supporter per donor address, fetching the number of pages that the
      reported total announces, with one query each, yields every donor once, in order. */
  lemma DonorPagesCoverList(
    ds: seq<Donation>, users: map<UUID, User>, sort: DonorSort, collation: string -> int,
    list: seq<Donor>, lists: seq<seq<Donor>>, pageSize: int)
    requires PositiveAmounts(ds) && AtMostOneSupporter(ds, users)
    requires forall a, b :: collation(a) == collation(b) ==> a == b
    requires 1 <= pageSize <= MAX_PAGE_SIZE && |Addresses(ds)| <= MAX_INT64 - pageSize + 1
    requires |lists| == TotalPages(pageSize, |Addresses(ds)|)
    requires var key := (row: Donor) => DonorKey(sort, collation, row);
             IsDonorListing(ds, users, key, list) && forall k :: 0 <= k < |lists| ==> IsDonorListing(ds, users, key, lists[k])
    ensures Fetched(lists, |lists|, pageSize) == list && |list| == |Addresses(ds)|
    ensures forall k :: 0 <= k < |lists| ==> Page(lists[k], k + 1, pageSize) != []
  {
    hide TotalPages, Page, AtMostOneSupporter, PositiveAmounts, IsDonorList, Addresses;
    var key := (row: Donor) => DonorKey(sort, collation, row);
    forall k | 0 <= k < |lists|
      ensures lists[k] == list
    {
      OneDonorListing(ds, users, key, list, lists[k]);
    }
    DonorListConserves(ds, users, list);
    FetchedCoversList(lists, list, pageSize);
  }
}
