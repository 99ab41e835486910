/** `GET /api/orphanages`: the filtered, ordered and paged listing of
    orphanage profiles. The handler builds its `where`, `include` and
    `orderBy` clauses one condition at a time, then runs `count` and
    `findMany` with them. */
module OrphanagesRoute {
  import opened Text
  import opened Seqs
  import opened Http
  import opened Store

  /** The query parameters the handler reads, as `searchParams.get` gives them. */
  datatype ListingParams = ListingParams(
    search: Option<string>, location: Option<string>, needs: Option<string>,
    verified: Option<string>, hasEvents: Option<string>,
    sortBy: Option<string>, sortOrder: Option<string>,
    page: Option<string>, limit: Option<string>,
    includeCoordinates: Option<string>, includeNeeds: Option<string>)

  datatype VerifiedFilter = AnyStatus | VerifiedOnly | NotVerified

  /** The `where` clause: an empty text means that condition is absent, and
      `upcomingFrom` is the instant from which an approved event counts. */
  datatype Where = Where(search: string, location: string, verified: VerifiedFilter,
                         needs: string, upcomingFrom: Option<int>)

  datatype OrderKey = ByName | ByCreatedAt | ByAddress

  datatype Query = Query(where: Where, includeNeeds: bool, key: OrderKey, direction: string,
                         page: JsInt, limit: JsInt)

  /** `verified` absent: no condition; "true": verified only; any other
      text: everything not verified. */
  function VerifiedFilterOf(verified: Option<string>): (f: VerifiedFilter)
    ensures f == AnyStatus <==> verified.None?
    ensures f == VerifiedOnly <==> verified == Some("true")
  {
    match verified
    case None => AnyStatus
    case Some(v) => if v == "true" then VerifiedOnly else NotVerified
  }

  /** The order clause: `name`, `created` and `location` sort by name,
      creation date and address in the requested direction; any other key
      sorts by name ascending whatever the direction says. */
  function OrderOf(sortBy: string, sortOrder: string): (o: (OrderKey, string))
    ensures sortBy == "created" ==> o == (ByCreatedAt, sortOrder)
    ensures sortBy == "location" ==> o == (ByAddress, sortOrder)
    ensures sortBy == "name" ==> o == (ByName, sortOrder)
    ensures sortBy !in {"name", "created", "location"} ==> o == (ByName, "asc")
  {
    if sortBy == "name" then (ByName, sortOrder)
    else if sortBy == "created" then (ByCreatedAt, sortOrder)
    else if sortBy == "location" then (ByAddress, sortOrder)
    else (ByName, "asc")
  }

  /** The query the parameters ask for, stated field by field. */
  function BuildQueryOf(params: ListingParams, now: int): Query {
    var o := OrderOf(OrDefault(params.sortBy, "name"), OrDefault(params.sortOrder, "asc"));
    Query(Where(OrDefault(params.search, ""), OrDefault(params.location, ""),
                VerifiedFilterOf(params.verified), OrDefault(params.needs, ""),
                if params.hasEvents == Some("true") then Some(now) else None),
          params.includeNeeds == Some("true"), o.0, o.1,
          ParseInt(OrDefault(params.page, "1")), ParseInt(OrDefault(params.limit, "20")))
  }

  /** Builds the clauses from the parameters, one condition after another. */
  method BuildQuery(params: ListingParams, now: int) returns (q: Query)
    ensures q.where.search == OrDefault(params.search, "")
    ensures q.where.location == OrDefault(params.location, "")
    ensures q.where.needs == OrDefault(params.needs, "")
    ensures q.where.verified == VerifiedFilterOf(params.verified)
    ensures q.where.upcomingFrom.Some? <==> params.hasEvents == Some("true")
    ensures q.where.upcomingFrom.Some? ==> q.where.upcomingFrom.value == now
    ensures q.includeNeeds <==> params.includeNeeds == Some("true")
    ensures (q.key, q.direction) == OrderOf(OrDefault(params.sortBy, "name"), OrDefault(params.sortOrder, "asc"))
    ensures q.page == ParseInt(OrDefault(params.page, "1"))
    ensures q.limit == ParseInt(OrDefault(params.limit, "20"))
    ensures q == BuildQueryOf(params, now)
  {
    var search := OrDefault(params.search, "");
    var location := OrDefault(params.location, "");
    var needs := OrDefault(params.needs, "");
    var sortBy := OrDefault(params.sortBy, "name");
    var sortOrder := OrDefault(params.sortOrder, "asc");
    var page := ParseInt(OrDefault(params.page, "1"));
    var limit := ParseInt(OrDefault(params.limit, "20"));
    var includeNeeds := params.includeNeeds == Some("true");

    var where := Where("", "", AnyStatus, "", None);
    if search != "" {
      where := where.(search := search);
    }
    if location != "" {
      where := where.(location := location);
    }
    if params.verified.Some? {
      where := where.(verified := if params.verified.value == "true" then VerifiedOnly else NotVerified);
    }
    if needs != "" {
      where := where.(needs := needs);
    }
    if params.hasEvents == Some("true") {
      where := where.(upcomingFrom := Some(now));
    }

    var key, direction;
    if sortBy == "name" {
      key, direction := ByName, sortOrder;
    } else if sortBy == "created" {
      key, direction := ByCreatedAt, sortOrder;
    } else if sortBy == "location" {
      key, direction := ByAddress, sortOrder;
    } else {
      key, direction := ByName, "asc";
    }
    assert where == BuildQueryOf(params, now).where;
    assert (key, direction) == OrderOf(sortBy, sortOrder);
    q := Query(where, includeNeeds, key, direction, page, limit);
  }

  /** `contains` with `mode: 'insensitive'`. */
  predicate ContainsInsensitive(field: string, term: string) {
    Contains(Lower(field), Lower(term))
  }

  /** A profile satisfies the `where` clause against the need and event
      tables. */
  predicate Matches(w: Where, p: OrphanageProfile, needs: map<string, Need>, events: map<string, Event>) {
    (w.search == "" || ContainsInsensitive(p.name, w.search) || ContainsInsensitive(p.description, w.search)) &&
    (w.location == "" || ContainsInsensitive(p.address, w.location)) &&
    (match w.verified
     case AnyStatus => true
     case VerifiedOnly => p.verificationStatus == "VERIFIED"
     case NotVerified => p.verificationStatus != "VERIFIED") &&
    (w.needs == "" ||
     exists k :: k in needs && needs[k].orphanageId == p.id && needs[k].status == "ACTIVE" &&
                 ContainsInsensitive(needs[k].description, w.needs)) &&
    (w.upcomingFrom.None? ||
     exists k :: k in events && events[k].orphanageId == p.id && events[k].status == Approved &&
                 events[k].proposedDate >= w.upcomingFrom.value)
  }

  function MatchFilter(w: Where, needs: map<string, Need>, events: map<string, Event>): OrphanageProfile -> bool {
    (p: OrphanageProfile) => Matches(w, p, needs, events)
  }

  /** The order `orderBy` asks for; only called with "asc" or "desc". */
  predicate OrderLe(key: OrderKey, direction: string, a: OrphanageProfile, b: OrphanageProfile) {
    var (x, y) := if direction == "desc" then (b, a) else (a, b);
    match key
    case ByName => StrLe(x.name, y.name)
    case ByCreatedAt => x.createdAt <= y.createdAt
    case ByAddress => StrLe(x.address, y.address)
  }

  function OrderBy(key: OrderKey, direction: string): (OrphanageProfile, OrphanageProfile) -> bool {
    (a: OrphanageProfile, b: OrphanageProfile) => OrderLe(key, direction, a, b)
  }

  lemma OrderLeTotalPreorder(key: OrderKey, direction: string)
    ensures TotalPreorder(OrderBy(key, direction))
  {
    forall a, b ensures OrderLe(key, direction, a, b) || OrderLe(key, direction, b, a) {
      StrLeTotal(a.name, b.name);
      StrLeTotal(a.address, b.address);
    }
    forall a, b, c | OrderLe(key, direction, a, b) && OrderLe(key, direction, b, c)
      ensures OrderLe(key, direction, a, c)
    {
      if key == ByName {
        if direction == "desc" { StrLeTrans(c.name, b.name, a.name); } else { StrLeTrans(a.name, b.name, c.name); }
      } else if key == ByAddress {
        if direction == "desc" { StrLeTrans(c.address, b.address, a.address); } else { StrLeTrans(a.address, b.address, c.address); }
      }
    }
  }

  /** `Math.ceil(total / limit)`, or None where it is not a finite number
      (a limit of 0), which JSON writes as `null`. */
  function Pages(total: nat, limit: nat): (r: Option<nat>)
    ensures r.None? <==> limit == 0
    ensures r.Some? ==> r.value * limit >= total && (r.value == 0 || (r.value - 1) * limit < total)
  {
    if limit == 0 then None else Some((total + limit - 1) / limit)
  }

  datatype Pagination = Pagination(page: int, limit: int, total: nat, pages: Option<nat>)

  datatype Filters = Filters(search: string, location: string, needs: string,
                             verified: Option<string>, hasEvents: Option<string>,
                             sortBy: string, sortOrder: string)

  /** A listed profile with its active needs when they were asked for. */
  datatype Listed = Listed(profile: OrphanageProfile, needs: Option<seq<Need>>)

  datatype Listing = Listing(orphanages: seq<Listed>, pagination: Pagination, filters: Filters)

  const InternalError := "Internal Server Error"

  predicate ActiveNeedOf(id: string, n: Need) {
    n.orphanageId == id && n.status == "ACTIVE"
  }

  function ActiveNeedFilter(id: string): Need -> bool {
    (n: Need) => ActiveNeedOf(id, n)
  }

  function AnyOrder(): (Need, Need) -> bool {
    (a: Need, b: Need) => true
  }

  /** One listed row carries what `include` asks for: no needs when they
      were not asked for; otherwise at most five active needs of this
      profile, all of them when it has no more than five. */
  predicate IncludedNeeds(needs: map<string, Need>, row: OrphanageProfile, entry: Listed, includeNeeds: bool) {
    entry.profile == row &&
    (entry.needs.Some? <==> includeNeeds) &&
    (entry.needs.Some? ==>
       var ns := entry.needs.value;
       |ns| <= 5 &&
       (forall j :: 0 <= j < |ns| ==> ActiveNeedOf(row.id, ns[j]) && ns[j] in needs.Values) &&
       (|MatchingKeys(needs, ActiveNeedFilter(row.id))| <= 5 ==>
          forall k :: k in needs && ActiveNeedOf(row.id, needs[k]) ==> needs[k] in ns))
  }

  /** The nested `include` of up to five active needs per listed profile,
      in whatever order the need table hands them out. */
  method IncludeNeeds(needs: map<string, Need>, rows: seq<OrphanageProfile>, includeNeeds: bool) returns (listed: seq<Listed>)
    ensures |listed| == |rows|
    ensures forall i :: 0 <= i < |rows| ==> IncludedNeeds(needs, rows[i], listed[i], includeNeeds)
  {
    listed := [];
    var i := 0;
    while i < |rows|
      invariant 0 <= i <= |rows| && |listed| == i
      invariant forall j :: 0 <= j < i ==> IncludedNeeds(needs, rows[j], listed[j], includeNeeds)
    {
      var entry := ListedRow(needs, rows[i], includeNeeds);
      listed := listed + [entry];
      i := i + 1;
    }
  }

  /** One row of the listing, with its needs when they were asked for. */
  method ListedRow(needs: map<string, Need>, row: OrphanageProfile, includeNeeds: bool) returns (entry: Listed)
    ensures IncludedNeeds(needs, row, entry, includeNeeds)
  {
    entry := Listed(row, None);
    if includeNeeds {
      var ns, total := Select(needs, ActiveNeedFilter(row.id), AnyOrder(), 0, 5);
      entry := Listed(row, Some(ns));
    }
  }

  /** The profiles of a listing, in its order. */
  function Profiles(listed: seq<Listed>): (r: seq<OrphanageProfile>)
    ensures |r| == |listed| && forall i :: 0 <= i < |r| ==> r[i] == listed[i].profile
  {
    if listed == [] then [] else [listed[0].profile] + Profiles(listed[1..])
  }

  /** A listing answers the query q over the three tables: its rows are the
      window `skip = (page - 1) * limit`, `take = limit` of the matching
      profiles in the requested order, its total counts every match, and
      each row carries its needs as asked. */
  ghost predicate AnswersQuery(q: Query, orphanages: map<string, OrphanageProfile>, needs: map<string, Need>,
                               events: map<string, Event>, body: Listing)
  {
    ListingWindow(q, orphanages, needs, events, body) && ListingShape(q, orphanages, needs, events, body)
  }

  /** The listed profiles are the query's window of the ordered matches. */
  ghost predicate ListingWindow(q: Query, orphanages: map<string, OrphanageProfile>, needs: map<string, Need>,
                                events: map<string, Event>, body: Listing)
  {
    var w := Window(q.page, q.limit);
    w.Some? &&
    IsSelection(Profiles(body.orphanages), body.pagination.total, orphanages, MatchFilter(q.where, needs, events),
                OrderBy(q.key, q.direction), w.value.0, w.value.1)
  }

  /** What the window implies on its own: the pagination block, rows that
      match, come from the table, carry their needs as asked and follow the
      requested order, no more of them than the limit. */
  predicate ListingShape(q: Query, orphanages: map<string, OrphanageProfile>, needs: map<string, Need>,
                         events: map<string, Event>, body: Listing)
  {
    var rows := body.orphanages;
    q.page.Int? && q.limit.Int? && q.limit.n >= 0 &&
    body.pagination == Pagination(q.page.n, q.limit.n, body.pagination.total, Pages(body.pagination.total, q.limit.n)) &&
    body.pagination.total == |MatchingKeys(orphanages, MatchFilter(q.where, needs, events))| &&
    |rows| <= q.limit.n && |rows| <= body.pagination.total &&
    (forall i :: 0 <= i < |rows| ==>
       Matches(q.where, rows[i].profile, needs, events) && rows[i].profile in orphanages.Values &&
       IncludedNeeds(needs, rows[i].profile, rows[i], q.includeNeeds)) &&
    (forall i, j :: 0 <= i < j < |rows| ==> OrderLe(q.key, q.direction, rows[i].profile, rows[j].profile))
  }

  /** Whether the store accepts the query. */
  predicate Accepted(q: Query) {
    Window(q.page, q.limit).Some? && q.direction in {"asc", "desc"}
  }

  function FiltersOf(params: ListingParams): Filters {
    Filters(OrDefault(params.search, ""), OrDefault(params.location, ""), OrDefault(params.needs, ""),
            params.verified, params.hasEvents,
            OrDefault(params.sortBy, "name"), OrDefault(params.sortOrder, "asc"))
  }

  /** The handler. The store rejects a NaN window, a negative skip and an
      order direction other than "asc" and "desc"; each ends in a 500, as
      does a negative take here (see Http.Window). */
  method ListOrphanages(db: Database, params: ListingParams, now: int) returns (r: Response<Listing>)
    ensures r.Err? <==> !Accepted(BuildQueryOf(params, now))
    ensures r.Err? ==> r == Err(500, InternalError)
    ensures r.Ok? ==> AnswersQuery(BuildQueryOf(params, now), db.orphanages, db.needs, db.events, r.value)
    ensures r.Ok? ==> r.value.filters == FiltersOf(params)
  {
    var q := BuildQuery(params, now);
    var w := Window(q.page, q.limit);
    if w.None? || q.direction !in {"asc", "desc"} {
      return Err(500, InternalError);
    }
    var (skip, take) := w.value;
    var rows, total := Select(db.orphanages, MatchFilter(q.where, db.needs, db.events), OrderBy(q.key, q.direction), skip, take);
    OrderLeTotalPreorder(q.key, q.direction);
    var listed := IncludeNeeds(db.needs, rows, q.includeNeeds);
    var body := Listing(listed, Pagination(q.page.n, q.limit.n, total, Pages(total, take)), FiltersOf(params));
    ListingAnswers(q, db.orphanages, db.needs, db.events, skip, take, rows, total, body);
    ListingIsWindow(q, db.orphanages, db.needs, db.events, skip, take, rows, total, body);
    r := Ok(body);
  }

  /** The rows `findMany` returns, with their needs attached, answer the
      query. */
  lemma ListingAnswers(q: Query, orphanages: map<string, OrphanageProfile>, needs: map<string, Need>,
                       events: map<string, Event>, skip: nat, take: nat, rows: seq<OrphanageProfile>,
                       total: nat, body: Listing)
    requires Window(q.page, q.limit) == Some((skip, take))
    requires total == |MatchingKeys(orphanages, MatchFilter(q.where, needs, events))|
    requires |rows| <= take && |rows| <= total
    requires forall i :: 0 <= i < |rows| ==> MatchFilter(q.where, needs, events)(rows[i]) && rows[i] in orphanages.Values
    requires SortedBy(rows, OrderBy(q.key, q.direction))
    requires |body.orphanages| == |rows|
    requires forall i :: 0 <= i < |rows| ==> IncludedNeeds(needs, rows[i], body.orphanages[i], q.includeNeeds)
    requires body.pagination == Pagination(q.page.n, q.limit.n, total, Pages(total, take))
    ensures ListingShape(q, orphanages, needs, events, body)
  {
    var listed := body.orphanages;
    assert forall i :: 0 <= i < |listed| ==> listed[i].profile == rows[i];
    forall i, j | 0 <= i < j < |listed|
      ensures OrderLe(q.key, q.direction, listed[i].profile, listed[j].profile)
    {
      assert OrderBy(q.key, q.direction)(rows[i], rows[j]);
    }
  }

  /** The listed profiles are the rows `findMany` returned for the window. */
  lemma ListingIsWindow(q: Query, orphanages: map<string, OrphanageProfile>, needs: map<string, Need>,
                        events: map<string, Event>, skip: nat, take: nat, rows: seq<OrphanageProfile>,
                        total: nat, body: Listing)
    requires Window(q.page, q.limit) == Some((skip, take))
    requires IsSelection(rows, total, orphanages, MatchFilter(q.where, needs, events), OrderBy(q.key, q.direction), skip, take)
    requires |body.orphanages| == |rows| && forall i :: 0 <= i < |rows| ==> body.orphanages[i].profile == rows[i]
    requires body.pagination.total == total
    ensures ListingWindow(q, orphanages, needs, events, body)
  {
    assert Profiles(body.orphanages) == rows;
  }

  /** A listing is never short: past the skipped matches it holds limit of
      them, or all that remain, and it is empty only when the page starts
      past the last match. */
  lemma ListingSize(q: Query, orphanages: map<string, OrphanageProfile>, needs: map<string, Need>,
                    events: map<string, Event>, body: Listing)
    requires AnswersQuery(q, orphanages, needs, events, body)
    ensures var skip := (q.page.n - 1) * q.limit.n;
            var total := |MatchingKeys(orphanages, MatchFilter(q.where, needs, events))|;
            (skip >= total ==> body.orphanages == []) &&
            (skip < total ==> |body.orphanages| == if total - skip < q.limit.n then total - skip else q.limit.n)
  {
    var w := Window(q.page, q.limit);
    assert ListingWindow(q, orphanages, needs, events, body);
    SelectionSize(Profiles(body.orphanages), body.pagination.total, orphanages, MatchFilter(q.where, needs, events),
                  OrderBy(q.key, q.direction), w.value.0, w.value.1);
  }

  /** Without parameters: no condition, by name ascending, first twenty. */
  lemma DefaultQuery(now: int)
    ensures var q := BuildQueryOf(ListingParams(None, None, None, None, None, None, None, None, None, None, None), now);
            q == Query(Where("", "", AnyStatus, "", None), false, ByName, "asc", Int(1), Int(20)) && Accepted(q)
  {
    assert OrDefault(None, "1") == NatToString(1);
    assert OrDefault(None, "20") == NatToString(20);
    ParseIntOfNatToString(1);
    ParseIntOfNatToString(20);
  }

  /** A bad direction fails the request only with a sort key the handler
      knows; with an unknown key the direction is replaced by "asc". */
  lemma DirectionCheckedOnlyForKnownKeys(sortBy: string, sortOrder: string)
    requires sortOrder !in {"asc", "desc"}
    ensures OrderOf(sortBy, sortOrder).1 in {"asc", "desc"} <==> sortBy !in {"name", "created", "location"}
  {
  }
}
