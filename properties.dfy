/** Property listings: the public catalogue query (filters, ordering and
    pagination), the quick text search, and the owner's create, update and
    delete operations; viewing a listing counts the view. */
module Properties {
  import opened Wrappers
  import opened Seqs
  import opened Text
  import opened Paging
  import opened Errors
  import opened Store

  const DEFAULT_PAGE: nat := 1
  const DEFAULT_LIMIT: nat := 12
  const SEARCH_LIMIT: nat := 50

  const LISTING_NOT_FOUND: string := "Объявление не найдено"
  const CANNOT_EDIT: string := "Вы не можете редактировать это объявление"
  const CANNOT_DELETE: string := "Вы не можете удалить это объявление"
  const LISTING_DELETED: string := "Объявление успешно удалено"

  /** The catalogue query string (`PropertyQueryDto`); absent fields are `None`. */
  datatype PropertyQuery = PropertyQuery(
    query: Option<string>,
    propertyType: Option<PropertyType>,
    priceMin: Option<int>,
    priceMax: Option<int>,
    rooms: Option<int>,
    areaMin: Option<int>,
    region: Option<string>,
    sortBy: Option<string>,
    page: Option<nat>,
    limit: Option<nat>)

  /** What the request validation guarantees: a page of at least 1 and a
      limit of at least 1 when given. */
  predicate ValidQuery(q: PropertyQuery) {
    (q.page.Some? ==> q.page.value >= 1) && (q.limit.Some? ==> q.limit.value >= 1)
  }

  /** The `where` object `findAll` assembles; the status is always ACTIVE. */
  datatype Where = Where(
    propertyType: Option<PropertyType>,
    region: Option<string>,
    priceGte: Option<int>,
    priceLte: Option<int>,
    rooms: Option<int>,
    areaGte: Option<int>,
    text: Option<string>)

  /** A numeric filter taken only when its parameter is given and passes `usable`. */
  function KeepIf(o: Option<int>, usable: bool): (r: Option<int>)
    ensures r.Some? <==> o.Some? && usable
    ensures r.Some? ==> r == o
  {
    if o.Some? && usable then o else None
  }

  /** `if (region && region !== "")`: a present, non-empty region. */
  function RegionFilter(region: Option<string>): (r: Option<string>)
    ensures r.Some? <==> region.Some? && region.value != ""
    ensures r.Some? ==> r == region
  {
    if region.Some? && region.value != "" then region else None
  }

  /** The search text, trimmed, when it is not blank. */
  function TextFilter(query: Option<string>): (r: Option<string>)
    ensures r == if query.Some? && Trim(query.value) != [] then Some(Trim(query.value)) else None
  {
    if query.Some? && |Trim(query.value)| > 0 then Some(Trim(query.value)) else None
  }

  /** Each filter is added only when its parameter is usable: a present type
      or non-empty region, a non-negative price bound or minimum area, a
      positive room count, a query that is not blank (then trimmed). */
  function BuildWhere(q: PropertyQuery): (w: Where)
    ensures w.propertyType == q.propertyType
    ensures w.region.Some? <==> q.region.Some? && q.region.value != ""
    ensures w.priceGte.Some? <==> q.priceMin.Some? && q.priceMin.value >= 0
    ensures w.priceLte.Some? <==> q.priceMax.Some? && q.priceMax.value >= 0
    ensures w.rooms.Some? <==> q.rooms.Some? && q.rooms.value > 0
    ensures w.areaGte.Some? <==> q.areaMin.Some? && q.areaMin.value >= 0
    ensures w.region.Some? ==> w.region == q.region
    ensures w.priceGte.Some? ==> w.priceGte == q.priceMin
    ensures w.priceLte.Some? ==> w.priceLte == q.priceMax
    ensures w.rooms.Some? ==> w.rooms == q.rooms
    ensures w.areaGte.Some? ==> w.areaGte == q.areaMin
    ensures w.text == if q.query.Some? && Trim(q.query.value) != [] then Some(Trim(q.query.value)) else None
  {
    Where(
      q.propertyType,
      RegionFilter(q.region),
      KeepIf(q.priceMin, q.priceMin.Some? && q.priceMin.value >= 0),
      KeepIf(q.priceMax, q.priceMax.Some? && q.priceMax.value >= 0),
      KeepIf(q.rooms, q.rooms.Some? && q.rooms.value > 0),
      KeepIf(q.areaMin, q.areaMin.Some? && q.areaMin.value >= 0),
      TextFilter(q.query))
  }

  /** The `OR` of case-insensitive `contains` on title, description and location. */
  predicate TextMatches(l: Listing, text: string, contains: (string, string) -> bool) {
    contains(l.title, text) || contains(l.description, text) || contains(l.location, text)
  }

  /** How the database evaluates a `where` object on one row. */
  predicate WhereMatches(l: Listing, w: Where, contains: (string, string) -> bool) {
    && l.status == ACTIVE
    && (w.propertyType.Some? ==> l.propertyType == w.propertyType.value)
    && (w.region.Some? ==> l.region == w.region.value)
    && (w.priceGte.Some? ==> l.price >= w.priceGte.value)
    && (w.priceLte.Some? ==> l.price <= w.priceLte.value)
    && (w.rooms.Some? ==> l.rooms == Some(w.rooms.value))
    && (w.areaGte.Some? ==> l.area >= w.areaGte.value)
    && (w.text.Some? ==> TextMatches(l, w.text.value, contains))
  }

  /** The catalogue's meaning, stated on the query itself: an active listing
      that meets every usable criterion. */
  predicate Satisfies(l: Listing, q: PropertyQuery, contains: (string, string) -> bool) {
    && l.status == ACTIVE
    && (q.propertyType.Some? ==> l.propertyType == q.propertyType.value)
    && (q.region.Some? && q.region.value != "" ==> l.region == q.region.value)
    && (q.priceMin.Some? && q.priceMin.value >= 0 ==> q.priceMin.value <= l.price)
    && (q.priceMax.Some? && q.priceMax.value >= 0 ==> l.price <= q.priceMax.value)
    && (q.rooms.Some? && q.rooms.value > 0 ==> l.rooms == q.rooms)
    && (q.areaMin.Some? && q.areaMin.value >= 0 ==> q.areaMin.value <= l.area)
    && (q.query.Some? && !IsBlank(q.query.value) ==> TextMatches(l, Trim(q.query.value), contains))
  }

  /** The assembled `where` selects exactly the listings the query describes. */
  lemma WhereMeansQuery(l: Listing, q: PropertyQuery, contains: (string, string) -> bool)
    ensures WhereMatches(l, BuildWhere(q), contains) <==> Satisfies(l, q, contains)
  {
  }

  /** The rows a `where` selects, in table order (`count({ where })` is their number). */
  function Matching(properties: seq<Listing>, w: Where, contains: (string, string) -> bool): (r: seq<Listing>)
    ensures forall l :: l in r <==> l in properties && WhereMatches(l, w, contains)
    ensures forall i :: 0 <= i < |r| ==> WhereMatches(r[i], w, contains)
  {
    Filter(properties, (l: Listing) => WhereMatches(l, w, contains))
  }

  // ---------------------------------------------------------------------
  // Ordering
  // ---------------------------------------------------------------------

  function ByPrice(l: Listing): int { l.price }
  function ByPriceDesc(l: Listing): int { -l.price }
  function NewestFirst(l: Listing): int { -l.createdAt }

  /** "price-asc" and "price-desc" order by price; anything else (including
      "date-desc", "relevance" and no value) puts the newest first. */
  function SortKey(sortBy: Option<string>): (key: Listing -> int)
    ensures forall a, b :: key(a) <= key(b) <==>
              if sortBy == Some("price-asc") then a.price <= b.price
              else if sortBy == Some("price-desc") then a.price >= b.price
              else a.createdAt >= b.createdAt
  {
    if sortBy == Some("price-asc") then ByPrice
    else if sortBy == Some("price-desc") then ByPriceDesc
    else NewestFirst
  }

  /** Consecutive rows respect the order `sortBy` asks for. */
  ghost predicate InRequestedOrder(s: seq<Listing>, sortBy: Option<string>) {
    forall i, j :: 0 <= i < j < |s| ==>
      if sortBy == Some("price-asc") then s[i].price <= s[j].price
      else if sortBy == Some("price-desc") then s[i].price >= s[j].price
      else s[i].createdAt >= s[j].createdAt
  }

  /** Ascending order on the sort key is the order the request asks for. */
  lemma SortKeyMeansOrder(s: seq<Listing>, sortBy: Option<string>)
    requires SortedBy(s, SortKey(sortBy))
    ensures InRequestedOrder(s, sortBy)
  {
  }

  function Ordered(rows: seq<Listing>, sortBy: Option<string>): (r: seq<Listing>)
    ensures multiset(r) == multiset(rows) && |r| == |rows|
    ensures SortedBy(r, SortKey(sortBy)) && InRequestedOrder(r, sortBy)
  {
    var r := SortBy(rows, SortKey(sortBy));
    SortKeyMeansOrder(r, sortBy);
    r
  }

  // ---------------------------------------------------------------------
  // findAll
  // ---------------------------------------------------------------------

  /** Every matching listing in the requested order: what the pages slice. */
  function Catalogue(properties: seq<Listing>, contains: (string, string) -> bool, q: PropertyQuery): (r: seq<Listing>)
    ensures |r| == |Matching(properties, BuildWhere(q), contains)|
    ensures forall l :: l in r <==> l in properties && Satisfies(l, q, contains)
    ensures SortedBy(r, SortKey(q.sortBy))
  {
    var rows := Matching(properties, BuildWhere(q), contains);
    var r := Ordered(rows, q.sortBy);
    forall l ensures l in r <==> l in properties && Satisfies(l, q, contains) {
      assert l in r <==> l in multiset(rows);
      WhereMeansQuery(l, q, contains);
    }
    r
  }

  /** `findAll`: one page of the matching listings in the requested order,
      with the total count and the page count. */
  function FindAll(properties: seq<Listing>, contains: (string, string) -> bool, q: PropertyQuery): (p: Page<Listing>)
    requires ValidQuery(q)
    ensures p.page == q.page.GetOr(DEFAULT_PAGE) && p.limit == q.limit.GetOr(DEFAULT_LIMIT)
    ensures p.total == |Matching(properties, BuildWhere(q), contains)|
    ensures p.totalPages == CeilDiv(p.total, p.limit) && |p.data| <= p.limit
    ensures forall i :: 0 <= i < |p.data| ==> p.data[i] in properties && Satisfies(p.data[i], q, contains)
    ensures InRequestedOrder(p.data, q.sortBy)
  {
    var rows := Catalogue(properties, contains, q);
    var p := Paginate(rows, q.page.GetOr(DEFAULT_PAGE), q.limit.GetOr(DEFAULT_LIMIT));
    PageOfSorted(rows, p.page, p.limit, SortKey(q.sortBy));
    SortKeyMeansOrder(p.data, q.sortBy);
    p
  }

  /** Nothing is lost to pagination: every listing the query describes is on
      some page between 1 and `totalPages`. */
  lemma EveryMatchIsListed(properties: seq<Listing>, contains: (string, string) -> bool, q: PropertyQuery, l: Listing)
    requires ValidQuery(q) && l in properties && Satisfies(l, q, contains)
    ensures exists page: nat :: 1 <= page <= FindAll(properties, contains, q.(page := Some(page))).totalPages
                            && l in FindAll(properties, contains, q.(page := Some(page))).data
  {
    var limit := q.limit.GetOr(DEFAULT_LIMIT);
    var rows := Catalogue(properties, contains, q);
    assert l in rows;
    EveryRowIsOnSomePage(rows, limit, l);
    var page: nat :| 1 <= page <= Paginate(rows, page, limit).totalPages && l in Paginate(rows, page, limit).data;
    PageIsSliceOfCatalogue(properties, contains, q, page);
  }

  /** The page number only chooses the slice: page `page` of the query is
      that page of the query's whole ordered result set. */
  lemma PageIsSliceOfCatalogue(properties: seq<Listing>, contains: (string, string) -> bool, q: PropertyQuery, page: nat)
    requires ValidQuery(q) && page >= 1
    ensures FindAll(properties, contains, q.(page := Some(page)))
         == Paginate(Catalogue(properties, contains, q), page, q.limit.GetOr(DEFAULT_LIMIT))
  {
    var q' := q.(page := Some(page));
    assert BuildWhere(q') == BuildWhere(q);
  }

  /** Surrounding whitespace in the query string makes no difference. */
  lemma TrimmedQueryEquivalent(properties: seq<Listing>, contains: (string, string) -> bool, q: PropertyQuery)
    requires ValidQuery(q) && q.query.Some?
    ensures FindAll(properties, contains, q) == FindAll(properties, contains, q.(query := Some(Trim(q.query.value))))
  {
    TrimIdempotent(q.query.value);
    assert BuildWhere(q) == BuildWhere(q.(query := Some(Trim(q.query.value))));
  }

  /** A negative price bound is ignored, as if it had not been given. */
  lemma NegativePriceBoundIgnored(properties: seq<Listing>, contains: (string, string) -> bool, q: PropertyQuery, m: int)
    requires ValidQuery(q) && m < 0
    ensures FindAll(properties, contains, q.(priceMin := Some(m))) == FindAll(properties, contains, q.(priceMin := None))
    ensures FindAll(properties, contains, q.(priceMax := Some(m))) == FindAll(properties, contains, q.(priceMax := None))
  {
    assert BuildWhere(q.(priceMin := Some(m))) == BuildWhere(q.(priceMin := None));
    assert BuildWhere(q.(priceMax := Some(m))) == BuildWhere(q.(priceMax := None));
  }

  /** Adding a property-type filter never increases the total. */
  lemma {:induction false} TypeFilterNarrows(properties: seq<Listing>, contains: (string, string) -> bool,
                                             q: PropertyQuery, t: PropertyType)
    requires ValidQuery(q) && q.propertyType.None?
    ensures FindAll(properties, contains, q.(propertyType := Some(t))).total <= FindAll(properties, contains, q).total
  {
    var w := BuildWhere(q);
    var w' := BuildWhere(q.(propertyType := Some(t)));
    assert w' == w.(propertyType := Some(t));
    FilterMonotone(properties, (l: Listing) => WhereMatches(l, w', contains), (l: Listing) => WhereMatches(l, w, contains));
  }

  // ---------------------------------------------------------------------
  // search
  // ---------------------------------------------------------------------

  /** The rows `search` looks for: active listings containing `text`, in table order. */
  function SearchHits(properties: seq<Listing>, contains: (string, string) -> bool, text: string): (r: seq<Listing>)
    ensures multiset(r) <= multiset(properties)
    ensures forall l :: l in r <==> l in properties && l.status == ACTIVE && TextMatches(l, text, contains)
  {
    Filter(properties, (l: Listing) => l.status == ACTIVE && TextMatches(l, text, contains))
  }

  /** `search`: a missing or blank query finds nothing; otherwise the first
      50 active listings containing the query as given (not trimmed), in
      table order. */
  function Search(properties: seq<Listing>, contains: (string, string) -> bool, query: Option<string>): (r: seq<Listing>)
    ensures query.None? || IsBlank(query.value) ==> r == []
    ensures |r| <= SEARCH_LIMIT
    ensures forall i :: 0 <= i < |r| ==>
              r[i] in properties && r[i].status == ACTIVE && TextMatches(r[i], query.value, contains)
    ensures query.Some? && !IsBlank(query.value) && |r| < SEARCH_LIMIT ==>
              forall l :: l in properties && l.status == ACTIVE && TextMatches(l, query.value, contains) ==> l in r
    ensures multiset(r) <= multiset(properties)
    ensures query.Some? && !IsBlank(query.value) ==>
              |r| == if |SearchHits(properties, contains, query.value)| <= SEARCH_LIMIT
                     then |SearchHits(properties, contains, query.value)| else SEARCH_LIMIT
    ensures query.Some? && !IsBlank(query.value) ==> r == SearchHits(properties, contains, query.value)[..|r|]
  {
    if query.None? || |Trim(query.value)| == 0 then []
    else
      var hits := SearchHits(properties, contains, query.value);
      if |hits| <= SEARCH_LIMIT then hits
      else
        assert hits == hits[..SEARCH_LIMIT] + hits[SEARCH_LIMIT..];
        assert forall i :: 0 <= i < SEARCH_LIMIT ==> hits[..SEARCH_LIMIT][i] == hits[i];
        hits[..SEARCH_LIMIT]
  }

  // ---------------------------------------------------------------------
  // Owner operations
  // ---------------------------------------------------------------------

  /** `CreatePropertyDto`: what a new listing is made of. */
  datatype PropertyDraft = PropertyDraft(
    title: string, price: int, currency: Option<string>, location: string, region: string,
    propertyType: PropertyType, rooms: Option<int>, area: int, description: string,
    images: seq<string>, features: Option<seq<string>>)

  /** `UpdatePropertyDto`: every field optional; absent fields are left as they are. */
  datatype PropertyPatch = PropertyPatch(
    title: Option<string>, price: Option<int>, currency: Option<string>, location: Option<string>,
    region: Option<string>, propertyType: Option<PropertyType>, rooms: Option<int>, area: Option<int>,
    description: Option<string>, images: Option<seq<string>>, features: Option<seq<string>>,
    status: Option<PropertyStatus>)

  /** The row after `update({ data: updatePropertyDto })`: each field the
      patch gives takes the patch's value, each absent field keeps its own,
      and the id, owner, view count and creation time never change. */
  function ApplyPatch(l: Listing, p: PropertyPatch): (v: Listing)
    ensures v.id == l.id && v.userId == l.userId && v.views == l.views && v.createdAt == l.createdAt
    ensures v.title == (if p.title.Some? then p.title.value else l.title)
    ensures v.price == (if p.price.Some? then p.price.value else l.price)
    ensures v.currency == (if p.currency.Some? then p.currency.value else l.currency)
    ensures v.location == (if p.location.Some? then p.location.value else l.location)
    ensures v.region == (if p.region.Some? then p.region.value else l.region)
    ensures v.propertyType == (if p.propertyType.Some? then p.propertyType.value else l.propertyType)
    ensures v.rooms == (if p.rooms.Some? then p.rooms else l.rooms)
    ensures v.area == (if p.area.Some? then p.area.value else l.area)
    ensures v.description == (if p.description.Some? then p.description.value else l.description)
    ensures v.images == (if p.images.Some? then p.images.value else l.images)
    ensures v.features == (if p.features.Some? then p.features.value else l.features)
    ensures v.status == (if p.status.Some? then p.status.value else l.status)
  {
    l.(title := p.title.GetOr(l.title), price := p.price.GetOr(l.price), currency := p.currency.GetOr(l.currency),
       location := p.location.GetOr(l.location), region := p.region.GetOr(l.region),
       propertyType := p.propertyType.GetOr(l.propertyType),
       rooms := if p.rooms.Some? then p.rooms else l.rooms, area := p.area.GetOr(l.area),
       description := p.description.GetOr(l.description), images := p.images.GetOr(l.images),
       features := p.features.GetOr(l.features), status := p.status.GetOr(l.status))
  }

  /** Sending the same update twice has the effect of sending it once. */
  lemma PatchIdempotent(l: Listing, p: PropertyPatch)
    ensures ApplyPatch(ApplyPatch(l, p), p) == ApplyPatch(l, p)
  {
  }

  /** An empty update changes nothing. */
  lemma EmptyPatchIsIdentity(l: Listing)
    ensures ApplyPatch(l, PropertyPatch(None, None, None, None, None, None, None, None, None, None, None, None)) == l
  {
  }

  class PropertiesService {
    const db: Database
    /** The schema's default for a new listing's status. */
    const defaultStatus: PropertyStatus
    /** The schema's default currency. */
    const defaultCurrency: string

    constructor (db: Database, defaultStatus: PropertyStatus, defaultCurrency: string)
      ensures this.db == db && this.defaultStatus == defaultStatus && this.defaultCurrency == defaultCurrency
    {
      this.db := db;
      this.defaultStatus := defaultStatus;
      this.defaultCurrency := defaultCurrency;
    }

    /** The row `create` stores: the draft, owned by the caller, with no views. */
    function NewListing(id: Id, userId: Id, d: PropertyDraft, now: int): (l: Listing)
      ensures l.id == id && l.userId == userId && l.views == 0 && l.status == defaultStatus && l.createdAt == now
      ensures l.title == d.title && l.price == d.price && l.area == d.area && l.rooms == d.rooms
      ensures l.description == d.description && l.location == d.location && l.region == d.region
      ensures l.propertyType == d.propertyType && l.images == d.images
      ensures l.currency == (if d.currency.Some? then d.currency.value else defaultCurrency)
      ensures l.features == (if d.features.Some? then d.features.value else [])
    {
      Listing(id, userId, d.title, d.description, d.price, d.currency.GetOr(defaultCurrency), d.location, d.region,
              d.propertyType, d.rooms, d.area, d.images, d.features.GetOr([]), defaultStatus, 0, now)
    }

    /** `create`: appends the new listing, owned by the caller. */
    method Create(userId: Id, d: PropertyDraft, now: int) returns (l: Listing)
      requires db.Valid()
      modifies db`properties, db`nextId
      ensures db.Valid()
      ensures l == NewListing(old(db.nextId), userId, d, now)
      ensures db.properties == old(db.properties) + [l] && db.nextId == old(db.nextId) + 1
      ensures ListingById(db.properties, l.id) == Some(|old(db.properties)|)
    {
      l := NewListing(db.nextId, userId, d, now);
      db.properties := db.properties + [l];
      db.nextId := db.nextId + 1;
      ListingByIdAt(db.properties, |db.properties| - 1);
    }

    /** `findOne`: returns the listing as read before its view counter is
        incremented by one; nothing else changes. */
    method FindOne(id: Id) returns (r: Result<Listing, Failure>)
      requires db.Valid()
      modifies db`properties
      ensures db.Valid()
      ensures ListingById(old(db.properties), id).None? ==>
                r == Err(Http(NotFound(LISTING_NOT_FOUND))) && db.properties == old(db.properties)
      ensures ListingById(old(db.properties), id).Some? ==>
                var i := ListingById(old(db.properties), id).value;
                && r == Ok(old(db.properties)[i])
                && db.properties == old(db.properties)[i := old(db.properties)[i].(views := old(db.properties)[i].views + 1)]
    {
      var found := ListingById(db.properties, id);
      if found.None? {
        return Err(Http(NotFound(LISTING_NOT_FOUND)));
      }
      var l := db.properties[found.value];
      db.properties := db.properties[found.value := l.(views := l.views + 1)];
      r := Ok(l);
    }

    /** `update`: only the owner may change a listing; the patch is applied to that row alone. */
    method Update(id: Id, userId: Id, patch: PropertyPatch) returns (r: Result<Listing, Failure>)
      requires db.Valid()
      modifies db`properties
      ensures db.Valid()
      ensures ListingById(old(db.properties), id).None? ==>
                r == Err(Http(NotFound(LISTING_NOT_FOUND))) && db.properties == old(db.properties)
      ensures ListingById(old(db.properties), id).Some? ==>
                var i := ListingById(old(db.properties), id).value;
                if old(db.properties)[i].userId != userId then
                  r == Err(Http(Forbidden(CANNOT_EDIT))) && db.properties == old(db.properties)
                else
                  && r == Ok(ApplyPatch(old(db.properties)[i], patch))
                  && db.properties == old(db.properties)[i := r.value]
    {
      var found := ListingById(db.properties, id);
      if found.None? {
        return Err(Http(NotFound(LISTING_NOT_FOUND)));
      }
      var l := db.properties[found.value];
      if l.userId != userId {
        return Err(Http(Forbidden(CANNOT_EDIT)));
      }
      var v := ApplyPatch(l, patch);
      db.properties := db.properties[found.value := v];
      r := Ok(v);
    }

    /** `remove`: only the owner may delete a listing; afterwards no row has its id. */
    method Remove(id: Id, userId: Id) returns (r: Result<string, Failure>)
      requires db.Valid()
      modifies db`properties
      ensures db.Valid()
      ensures ListingById(old(db.properties), id).None? ==>
                r == Err(Http(NotFound(LISTING_NOT_FOUND))) && db.properties == old(db.properties)
      ensures ListingById(old(db.properties), id).Some? ==>
                var i := ListingById(old(db.properties), id).value;
                if old(db.properties)[i].userId != userId then
                  r == Err(Http(Forbidden(CANNOT_DELETE))) && db.properties == old(db.properties)
                else
                  && r == Ok(LISTING_DELETED)
                  && db.properties == RemoveAt(old(db.properties), i)
                  && ListingById(db.properties, id).None?
    {
      var found := ListingById(db.properties, id);
      if found.None? {
        return Err(Http(NotFound(LISTING_NOT_FOUND)));
      }
      if db.properties[found.value].userId != userId {
        return Err(Http(Forbidden(CANNOT_DELETE)));
      }
      RemoveListingKeepsIdsUnique(db.properties, found.value);
      db.properties := RemoveAt(db.properties, found.value);
      r := Ok(LISTING_DELETED);
    }
  }
}
