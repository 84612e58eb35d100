/** The administration back office: site statistics, paged lists of users
    and listings, and the administrator's role, status and delete actions.
    These operations do not check that the target row exists: a missing row
    surfaces as the database's record-not-found error. */
module Admin {
  import opened Wrappers
  import opened Seqs
  import opened Paging
  import opened Errors
  import opened Store

  // ---------------------------------------------------------------------
  // Statistics
  // ---------------------------------------------------------------------

  datatype Overview = Overview(
    totalUsers: nat,
    totalProperties: nat,
    activeProperties: nat,
    pendingProperties: nat,
    totalViews: nat,
    premiumUsers: nat,
    newUsersLast30Days: nat,
    newPropertiesLast30Days: nat)

  /** `getStatistics`' answer. Groupings are maps from the grouped value to
      its count; the daily statistics are keyed by the UTC day number. */
  datatype Statistics = Statistics(
    overview: Overview,
    propertiesByType: map<PropertyType, nat>,
    propertiesByRegion: map<string, nat>,
    dailyStats: map<int, nat>)

  function WithStatus(properties: seq<Listing>, status: PropertyStatus): nat {
    Count(properties, (l: Listing) => l.status == status)
  }

  function PremiumUsers(users: seq<User>): nat {
    Count(users, (u: User) => u.isPremium)
  }

  function UsersSince(users: seq<User>, since: int): nat {
    Count(users, (u: User) => u.createdAt >= since)
  }

  /** Listings created at or after `since`, in table order. */
  function ListingsSince(properties: seq<Listing>, since: int): (r: seq<Listing>)
    ensures forall l :: l in r <==> l in properties && l.createdAt >= since
    ensures forall i :: 0 <= i < |r| ==> r[i].createdAt >= since
  {
    Filter(properties, (l: Listing) => l.createdAt >= since)
  }

  /** A wider window holds at least as many listings. */
  lemma {:induction false} WiderWindowHoldsMore(properties: seq<Listing>, narrow: int, wide: int)
    requires wide <= narrow
    ensures |ListingsSince(properties, narrow)| <= |ListingsSince(properties, wide)|
  {
    FilterMonotone(properties, (l: Listing) => l.createdAt >= narrow, (l: Listing) => l.createdAt >= wide);
  }

  /** `select: { createdAt: true }`. */
  function CreationTimes(ls: seq<Listing>): (r: seq<int>)
    ensures |r| == |ls| && forall i :: 0 <= i < |ls| ==> r[i] == ls[i].createdAt
  {
    seq(|ls|, i requires 0 <= i < |ls| => ls[i].createdAt)
  }

  /** Sum of the view counters. */
  function SumViews(properties: seq<Listing>): nat {
    if properties == [] then 0 else properties[0].views + SumViews(properties[1..])
  }

  /** `aggregate({ _sum: { views: true } })`: no sum at all over an empty table. */
  function ViewsAggregate(properties: seq<Listing>): (r: Option<nat>)
    ensures r.None? <==> properties == []
  {
    if properties == [] then None else Some(SumViews(properties))
  }

  /** `_sum.views || 0`: the total views, zero for an empty table. */
  function TotalViews(properties: seq<Listing>): (n: nat)
    ensures n == SumViews(properties)
  {
    ViewsAggregate(properties).GetOr(0)
  }

  /** Opening a listing (which adds one to its counter) adds exactly one to the total views. */
  lemma {:induction false} ViewAddsOneToTotal(properties: seq<Listing>, i: nat)
    requires i < |properties|
    ensures SumViews(properties[i := properties[i].(views := properties[i].views + 1)]) == SumViews(properties) + 1
  {
    var s := properties[i := properties[i].(views := properties[i].views + 1)];
    if i > 0 {
      ViewAddsOneToTotal(properties[1..], i - 1);
      assert s[1..] == properties[1..][i - 1 := properties[i].(views := properties[i].views + 1)];
    } else {
      assert s[1..] == properties[1..];
    }
  }

  /** `toISOString().split("T")[0]` identifies the UTC calendar day; the
      model uses the day number, which the date string writes out one-to-one. */
  function DayOf(t: int): (d: int)
    ensures d * DAY <= t < d * DAY + DAY
  {
    t / DAY
  }

  /** The `reduce` that counts listings per day: `acc[date] = (acc[date] || 0) + 1`. */
  method DailyCounts(createdAts: seq<int>) returns (acc: map<int, nat>)
    ensures acc == Histogram(createdAts, DayOf)
    ensures forall d :: d in acc ==> acc[d] == KeyCount(createdAts, DayOf, d) && acc[d] > 0
    ensures MapSum(acc) == |createdAts|
  {
    acc := map[];
    var i := 0;
    while i < |createdAts|
      invariant 0 <= i <= |createdAts|
      invariant acc == Histogram(createdAts[..i], DayOf)
    {
      var date := DayOf(createdAts[i]);
      acc := acc[date := (if date in acc then acc[date] else 0) + 1];
      assert createdAts[..i + 1][..i] == createdAts[..i];
      i := i + 1;
    }
    assert createdAts[..|createdAts|] == createdAts;
    HistogramTotal(createdAts, DayOf);
  }

  /** Every day that appears in the daily counts had a listing created on it. */
  lemma DailyKeysAreCreationDays(createdAts: seq<int>, d: int)
    requires d in Histogram(createdAts, DayOf)
    ensures exists i :: 0 <= i < |createdAts| && DayOf(createdAts[i]) == d
  {
    KeyCountPositive(createdAts, DayOf, d);
  }

  function TypeOf(l: Listing): PropertyType { l.propertyType }
  function RegionOf(l: Listing): string { l.region }

  /** Active and pending listings are disjoint, so together they are at most all listings. */
  lemma ActivePlusPendingAtMostTotal(properties: seq<Listing>)
    ensures WithStatus(properties, ACTIVE) + WithStatus(properties, PENDING) <= |properties|
  {
    CountDisjoint(properties, (l: Listing) => l.status == ACTIVE, (l: Listing) => l.status == PENDING);
  }

  // ---------------------------------------------------------------------
  // Paged lists
  // ---------------------------------------------------------------------

  /** `if (search)`: a missing or empty search string filters nothing. */
  predicate SearchGiven(search: Option<string>) {
    search.Some? && search.value != ""
  }

  /** The user search: e-mail or name contains the text (a null column never matches). */
  predicate UserMatches(u: User, search: Option<string>, contains: (string, string) -> bool) {
    SearchGiven(search) ==>
      (u.email.Some? && contains(u.email.value, search.value)) || (u.name.Some? && contains(u.name.value, search.value))
  }

  /** The row of the admin user list: no password hash or identity, plus the number of listings owned. */
  datatype AdminUserView = AdminUserView(
    id: Id, email: Option<string>, name: Option<string>, phone: Option<string>, avatar: Option<string>,
    isPremium: bool, role: UserRole, createdAt: int, propertiesCount: nat)

  function OwnedCount(properties: seq<Listing>, userId: Id): nat {
    Count(properties, (l: Listing) => l.userId == userId)
  }

  function AdminView(u: User, properties: seq<Listing>): AdminUserView {
    AdminUserView(u.id, u.email, u.name, u.phone, u.avatar, u.isPremium, u.role, u.createdAt, OwnedCount(properties, u.id))
  }

  function UserNewestFirst(u: User): int { -u.createdAt }
  function ListingNewestFirst(l: Listing): int { -l.createdAt }

  function MatchingUsers(users: seq<User>, search: Option<string>, contains: (string, string) -> bool): (r: seq<User>)
    ensures forall u :: u in r <==> u in users && UserMatches(u, search, contains)
  {
    Filter(users, (u: User) => UserMatches(u, search, contains))
  }

  /** Every matching user, newest first: the result set `getUsers` pages through. */
  function UserRows(users: seq<User>, search: Option<string>, contains: (string, string) -> bool): (r: seq<User>)
    ensures multiset(r) == multiset(MatchingUsers(users, search, contains))
    ensures SortedBy(r, UserNewestFirst)
  {
    SortBy(MatchingUsers(users, search, contains), UserNewestFirst)
  }

  lemma UserRowsMatch(users: seq<User>, search: Option<string>, contains: (string, string) -> bool)
    ensures forall u :: u in UserRows(users, search, contains) ==> u in users && UserMatches(u, search, contains)
  {
    var rows := UserRows(users, search, contains);
    forall u | u in rows ensures u in users && UserMatches(u, search, contains) {
      assert u in multiset(rows);
    }
  }

  /** The admin view of each user of a page, in order. */
  function ViewsOf(us: seq<User>, properties: seq<Listing>): (r: seq<AdminUserView>)
    ensures |r| == |us| && forall i :: 0 <= i < |us| ==> r[i] == AdminView(us[i], properties)
  {
    seq(|us|, i requires 0 <= i < |us| => AdminView(us[i], properties))
  }

  /** `getUsers`: one page of the matching users, newest first. */
  function GetUsers(users: seq<User>, properties: seq<Listing>, contains: (string, string) -> bool,
                    page: nat, limit: nat, search: Option<string>): (r: Page<AdminUserView>)
    requires page >= 1 && limit >= 1
    ensures r.page == page && r.limit == limit && |r.data| <= limit
    ensures r.total == |MatchingUsers(users, search, contains)| && r.totalPages == CeilDiv(r.total, limit)
    ensures r.data == ViewsOf(Paginate(UserRows(users, search, contains), page, limit).data, properties)
    ensures forall i :: 0 <= i < |r.data| ==>
              exists u :: u in users && UserMatches(u, search, contains) && r.data[i] == AdminView(u, properties)
    ensures forall i :: 0 <= i < |r.data| ==> r.data[i].propertiesCount == OwnedCount(properties, r.data[i].id)
    ensures forall i, j :: 0 <= i < j < |r.data| ==> r.data[i].createdAt >= r.data[j].createdAt
  {
    var rows := UserRows(users, search, contains);
    var p := Paginate(rows, page, limit);
    PageOfSorted(rows, page, limit, UserNewestFirst);
    UserRowsMatch(users, search, contains);
    var views := ViewsOf(p.data, properties);
    forall i | 0 <= i < |views|
      ensures exists u :: u in users && UserMatches(u, search, contains) && views[i] == AdminView(u, properties)
    {
      assert p.data[i] in rows;
    }
    forall i, j | 0 <= i < j < |views| ensures views[i].createdAt >= views[j].createdAt {
      assert UserNewestFirst(p.data[i]) <= UserNewestFirst(p.data[j]);
    }
    Page(views, p.total, p.page, p.limit, p.totalPages)
  }

  /** The listing search of the back office: any status unless one is asked
      for; the text is looked for in the title and the location. */
  predicate ListingMatches(l: Listing, search: Option<string>, status: Option<PropertyStatus>,
                           propertyType: Option<PropertyType>, contains: (string, string) -> bool) {
    && (SearchGiven(search) ==> contains(l.title, search.value) || contains(l.location, search.value))
    && (status.Some? ==> l.status == status.value)
    && (propertyType.Some? ==> l.propertyType == propertyType.value)
  }

  function MatchingListings(properties: seq<Listing>, search: Option<string>, status: Option<PropertyStatus>,
                            propertyType: Option<PropertyType>, contains: (string, string) -> bool): (r: seq<Listing>)
    ensures forall l :: l in r <==> l in properties && ListingMatches(l, search, status, propertyType, contains)
  {
    Filter(properties, (l: Listing) => ListingMatches(l, search, status, propertyType, contains))
  }

  /** Every matching listing, newest first: the result set `getProperties` pages through. */
  function ListingRows(properties: seq<Listing>, search: Option<string>, status: Option<PropertyStatus>,
                       propertyType: Option<PropertyType>, contains: (string, string) -> bool): (r: seq<Listing>)
    ensures multiset(r) == multiset(MatchingListings(properties, search, status, propertyType, contains))
    ensures SortedBy(r, ListingNewestFirst)
  {
    SortBy(MatchingListings(properties, search, status, propertyType, contains), ListingNewestFirst)
  }

  /** `getProperties`: one page of the matching listings, newest first. */
  function GetProperties(properties: seq<Listing>, contains: (string, string) -> bool, page: nat, limit: nat,
                         search: Option<string>, status: Option<PropertyStatus>, propertyType: Option<PropertyType>)
    : (r: Page<Listing>)
    requires page >= 1 && limit >= 1
    ensures r == Paginate(ListingRows(properties, search, status, propertyType, contains), page, limit)
    ensures r.page == page && r.limit == limit && |r.data| <= limit
    ensures r.total == |MatchingListings(properties, search, status, propertyType, contains)|
    ensures r.totalPages == CeilDiv(r.total, limit)
    ensures forall i :: 0 <= i < |r.data| ==>
              r.data[i] in properties && ListingMatches(r.data[i], search, status, propertyType, contains)
    ensures forall i, j :: 0 <= i < j < |r.data| ==> r.data[i].createdAt >= r.data[j].createdAt
  {
    var rows := ListingRows(properties, search, status, propertyType, contains);
    var p := Paginate(rows, page, limit);
    PageOfSorted(rows, page, limit, ListingNewestFirst);
    forall i | 0 <= i < |p.data| ensures p.data[i] in properties && ListingMatches(p.data[i], search, status, propertyType, contains) {
      assert p.data[i] in multiset(rows);
    }
    forall i, j | 0 <= i < j < |p.data| ensures p.data[i].createdAt >= p.data[j].createdAt {
      assert ListingNewestFirst(p.data[i]) <= ListingNewestFirst(p.data[j]);
    }
    p
  }

  /** Nothing is lost to pagination: every matching user is on some page
      between 1 and `totalPages` of the user list. */
  lemma EveryMatchingUserIsListed(users: seq<User>, properties: seq<Listing>, contains: (string, string) -> bool,
                                  limit: nat, search: Option<string>, u: User)
    requires limit >= 1 && u in users && UserMatches(u, search, contains)
    ensures exists page: nat :: 1 <= page <= GetUsers(users, properties, contains, page, limit, search).totalPages
                            && AdminView(u, properties) in GetUsers(users, properties, contains, page, limit, search).data
  {
    var rows := UserRows(users, search, contains);
    assert u in multiset(rows);
    EveryRowIsOnSomePage(rows, limit, u);
    var page: nat :| 1 <= page <= Paginate(rows, page, limit).totalPages && u in Paginate(rows, page, limit).data;
    ViewOfListedUser(Paginate(rows, page, limit).data, properties, u);
    UserPageIsSlice(users, properties, contains, page, limit, search);
  }

  lemma ViewOfListedUser(us: seq<User>, properties: seq<Listing>, u: User)
    requires u in us
    ensures AdminView(u, properties) in ViewsOf(us, properties)
  {
    var j :| 0 <= j < |us| && us[j] == u;
    assert ViewsOf(us, properties)[j] == AdminView(u, properties);
  }

  /** A page of the user list is the admin view of that slice of the whole
      ordered result set, and both count the same pages. */
  lemma UserPageIsSlice(users: seq<User>, properties: seq<Listing>, contains: (string, string) -> bool,
                        page: nat, limit: nat, search: Option<string>)
    requires page >= 1 && limit >= 1
    ensures var p := Paginate(UserRows(users, search, contains), page, limit);
            var r := GetUsers(users, properties, contains, page, limit, search);
            r.data == ViewsOf(p.data, properties) && r.totalPages == p.totalPages
  {
    var rows := UserRows(users, search, contains);
    assert |multiset(rows)| == |multiset(MatchingUsers(users, search, contains))|;
  }

  /** Nothing is lost to pagination: every matching listing is on some page
      between 1 and `totalPages` of the back-office listing list. */
  lemma EveryMatchingListingIsListed(properties: seq<Listing>, contains: (string, string) -> bool, limit: nat,
                                     search: Option<string>, status: Option<PropertyStatus>,
                                     propertyType: Option<PropertyType>, l: Listing)
    requires limit >= 1 && l in properties && ListingMatches(l, search, status, propertyType, contains)
    ensures exists page: nat ::
              1 <= page <= GetProperties(properties, contains, page, limit, search, status, propertyType).totalPages
              && l in GetProperties(properties, contains, page, limit, search, status, propertyType).data
  {
    var rows := ListingRows(properties, search, status, propertyType, contains);
    assert l in multiset(rows);
    EveryRowIsOnSomePage(rows, limit, l);
    var page: nat :| 1 <= page <= Paginate(rows, page, limit).totalPages && l in Paginate(rows, page, limit).data;
    assert GetProperties(properties, contains, page, limit, search, status, propertyType) == Paginate(rows, page, limit);
  }

  // ---------------------------------------------------------------------
  // The service
  // ---------------------------------------------------------------------

  /** `updateUserRole`'s selection. */
  datatype RoleView = RoleView(id: Id, email: Option<string>, name: Option<string>, role: UserRole)

  class AdminService {
    const db: Database

    constructor (db: Database)
      ensures this.db == db
    {
      this.db := db;
    }

    /** `getStatistics` at time `now`: the counts and groupings over the
        current tables, with the 30- and 7-day windows counted back from `now`. */
    method GetStatistics(now: int) returns (s: Statistics)
      requires db.Valid()
      ensures s.overview.totalUsers == |db.users| && s.overview.totalProperties == |db.properties|
      ensures s.overview.activeProperties == WithStatus(db.properties, ACTIVE)
      ensures s.overview.pendingProperties == WithStatus(db.properties, PENDING)
      ensures s.overview.activeProperties + s.overview.pendingProperties <= s.overview.totalProperties
      ensures s.overview.totalViews == SumViews(db.properties)
      ensures s.overview.premiumUsers == PremiumUsers(db.users) <= s.overview.totalUsers
      ensures s.overview.newUsersLast30Days == UsersSince(db.users, now - 30 * DAY) <= s.overview.totalUsers
      ensures s.overview.newPropertiesLast30Days == |ListingsSince(db.properties, now - 30 * DAY)|
      ensures s.propertiesByType == Histogram(db.properties, TypeOf)
      ensures s.propertiesByRegion == Histogram(db.properties, RegionOf)
      ensures MapSum(s.propertiesByType) == s.overview.totalProperties
      ensures MapSum(s.propertiesByRegion) == s.overview.totalProperties
      ensures s.dailyStats == Histogram(CreationTimes(ListingsSince(db.properties, now - 7 * DAY)), DayOf)
      ensures MapSum(s.dailyStats) <= s.overview.newPropertiesLast30Days
    {
      var thirtyDaysAgo := now - 30 * DAY;
      var sevenDaysAgo := now - 7 * DAY;
      ActivePlusPendingAtMostTotal(db.properties);
      var overview := Overview(
        |db.users|, |db.properties|,
        WithStatus(db.properties, ACTIVE), WithStatus(db.properties, PENDING),
        TotalViews(db.properties), PremiumUsers(db.users),
        UsersSince(db.users, thirtyDaysAgo), |ListingsSince(db.properties, thirtyDaysAgo)|);
      var recent := ListingsSince(db.properties, sevenDaysAgo);
      var daily := DailyCounts(CreationTimes(recent));
      WiderWindowHoldsMore(db.properties, sevenDaysAgo, thirtyDaysAgo);
      HistogramTotal(db.properties, TypeOf);
      HistogramTotal(db.properties, RegionOf);
      s := Statistics(overview, Histogram(db.properties, TypeOf), Histogram(db.properties, RegionOf), daily);
    }

    /** `updateUserRole`: the role changes and nothing else (but the update time). */
    method UpdateUserRole(userId: Id, role: UserRole, now: int) returns (r: Result<RoleView, Failure>)
      requires db.Valid()
      modifies db`users
      ensures db.Valid()
      ensures UserById(old(db.users), userId).None? ==> r == Err(Db(RecordNotFound)) && db.users == old(db.users)
      ensures UserById(old(db.users), userId).Some? ==>
                var i := UserById(old(db.users), userId).value;
                var u := old(db.users)[i];
                && db.users == old(db.users)[i := u.(role := role, updatedAt := now)]
                && r == Ok(RoleView(userId, u.email, u.name, role))
    {
      var found := UserById(db.users, userId);
      if found.None? {
        return Err(Db(RecordNotFound));
      }
      var u := db.users[found.value];
      var v := u.(role := role, updatedAt := now);
      assert FreshUserKeys(db.users, found.value, v);
      ReplaceUserUnique(db.users, found.value, v);
      db.users := db.users[found.value := v];
      r := Ok(RoleView(userId, u.email, u.name, role));
    }

    /** `updatePropertyStatus`: the status changes and nothing else. */
    method UpdatePropertyStatus(propertyId: Id, status: PropertyStatus) returns (r: Result<Listing, Failure>)
      requires db.Valid()
      modifies db`properties
      ensures db.Valid()
      ensures ListingById(old(db.properties), propertyId).None? ==>
                r == Err(Db(RecordNotFound)) && db.properties == old(db.properties)
      ensures ListingById(old(db.properties), propertyId).Some? ==>
                var i := ListingById(old(db.properties), propertyId).value;
                && r == Ok(old(db.properties)[i].(status := status))
                && db.properties == old(db.properties)[i := r.value]
    {
      var found := ListingById(db.properties, propertyId);
      if found.None? {
        return Err(Db(RecordNotFound));
      }
      var l := db.properties[found.value].(status := status);
      db.properties := db.properties[found.value := l];
      r := Ok(l);
    }

    /** `deleteUser`: removes the row and returns it; no row keeps its id. */
    method DeleteUser(userId: Id) returns (r: Result<User, Failure>)
      requires db.Valid()
      modifies db`users
      ensures db.Valid()
      ensures UserById(old(db.users), userId).None? ==> r == Err(Db(RecordNotFound)) && db.users == old(db.users)
      ensures UserById(old(db.users), userId).Some? ==>
                var i := UserById(old(db.users), userId).value;
                && r == Ok(old(db.users)[i])
                && db.users == RemoveAt(old(db.users), i)
                && UserById(db.users, userId).None?
    {
      var found := UserById(db.users, userId);
      if found.None? {
        return Err(Db(RecordNotFound));
      }
      r := Ok(db.users[found.value]);
      RemoveUserKeepsUnique(db.users, found.value);
      db.users := RemoveAt(db.users, found.value);
    }

    /** `deleteProperty`: removes the row and returns it; no row keeps its id. */
    method DeleteProperty(propertyId: Id) returns (r: Result<Listing, Failure>)
      requires db.Valid()
      modifies db`properties
      ensures db.Valid()
      ensures ListingById(old(db.properties), propertyId).None? ==>
                r == Err(Db(RecordNotFound)) && db.properties == old(db.properties)
      ensures ListingById(old(db.properties), propertyId).Some? ==>
                var i := ListingById(old(db.properties), propertyId).value;
                && r == Ok(old(db.properties)[i])
                && db.properties == RemoveAt(old(db.properties), i)
                && ListingById(db.properties, propertyId).None?
    {
      var found := ListingById(db.properties, propertyId);
      if found.None? {
        return Err(Db(RecordNotFound));
      }
      r := Ok(db.properties[found.value]);
      RemoveListingKeepsIdsUnique(db.properties, found.value);
      db.properties := RemoveAt(db.properties, found.value);
    }
  }
}
