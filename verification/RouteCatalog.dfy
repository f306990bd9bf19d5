/** The complete HTTPS route catalog: a version and at most 64 routes in hostname order. */
module RouteCatalog {
  import opened Primitives
  import opened Hostname

  const MAX_HTTPS_ROUTE_RECORDS := 64
  const MAX_DURABLE_ID_BYTES := 64

  datatype RouteStatus = Enabled | Disabled

  datatype Route = Route(hostname: Bytes, tunnel: Bytes, status: RouteStatus)

  datatype Catalog = Catalog(version: nat, routes: seq<Route>)

  datatype CatalogError = TooManyRoutes | DuplicateHostname

  predicate DurableId(id: Bytes) {
    && 1 <= |id| <= MAX_DURABLE_ID_BYTES
    && forall i | 0 <= i < |id| :: IsDigit(id[i]) || IsUpper(id[i]) || IsLower(id[i]) || id[i] == HYPHEN || id[i] == 95
  }

  // ------------------------------------------------------------------- order

  /** Byte order of strings. */
  predicate Less(a: Bytes, b: Bytes) {
    b != [] && (a == [] || a[0] < b[0] || (a[0] == b[0] && Less(a[1..], b[1..])))
  }

  lemma {:induction false} LessTotal(a: Bytes, b: Bytes)
    ensures Less(a, b) || a == b || Less(b, a)
    decreases |a|
  {
    if a != [] && b != [] && a[0] == b[0] {
      LessTotal(a[1..], b[1..]);
      assert a == [a[0]] + a[1..] && b == [b[0]] + b[1..];
    }
  }

  lemma {:induction false} LessStrict(a: Bytes)
    ensures !Less(a, a)
    decreases |a|
  {
    if a != [] { LessStrict(a[1..]); }
  }

  lemma {:induction false} LessTransitive(a: Bytes, b: Bytes, c: Bytes)
    requires Less(a, b) && Less(b, c)
    ensures Less(a, c)
    decreases |a|
  {
    if a != [] && a[0] == b[0] && b[0] == c[0] { LessTransitive(a[1..], b[1..], c[1..]); }
  }

  // ----------------------------------------------------------------- sorting

  predicate Before(a: Route, b: Route) {
    !Less(b.hostname, a.hostname)
  }

  predicate Sorted(routes: seq<Route>) {
    forall i, j | 0 <= i < j < |routes| :: Before(routes[i], routes[j])
  }

  predicate StrictlySorted(routes: seq<Route>) {
    forall i, j | 0 <= i < j < |routes| :: Less(routes[i].hostname, routes[j].hostname)
  }

  predicate DistinctHosts(routes: seq<Route>) {
    forall i, j | 0 <= i < j < |routes| :: routes[i].hostname != routes[j].hostname
  }

  function Insert(r: Route, sorted: seq<Route>): seq<Route> {
    if sorted == [] || Before(r, sorted[0]) then [r] + sorted
    else [sorted[0]] + Insert(r, sorted[1..])
  }

  function Sort(routes: seq<Route>): seq<Route> {
    if routes == [] then [] else Insert(routes[0], Sort(routes[1..]))
  }

  lemma BeforeTransitive(a: Route, b: Route, c: Route)
    requires Before(a, b) && Before(b, c)
    ensures Before(a, c)
  {
    if Less(c.hostname, a.hostname) {
      LessTotal(a.hostname, b.hostname);
      if a.hostname != b.hostname { LessTransitive(c.hostname, a.hostname, b.hostname); }
    }
  }

  lemma {:induction false} InsertMembers(r: Route, sorted: seq<Route>)
    ensures multiset(Insert(r, sorted)) == multiset(sorted) + multiset{r}
    decreases |sorted|
  {
    if !(sorted == [] || Before(r, sorted[0])) {
      InsertMembers(r, sorted[1..]);
      assert sorted == [sorted[0]] + sorted[1..];
    }
  }

  lemma {:induction false} InsertSorts(r: Route, sorted: seq<Route>)
    requires Sorted(sorted)
    ensures Sorted(Insert(r, sorted))
    decreases |sorted|
  {
    if sorted == [] {
    } else if Before(r, sorted[0]) {
      forall j | 0 <= j < |sorted| ensures Before(r, sorted[j]) {
        if j > 0 { BeforeTransitive(r, sorted[0], sorted[j]); }
      }
    } else {
      var rest := Insert(r, sorted[1..]);
      InsertSorts(r, sorted[1..]);
      InsertMembers(r, sorted[1..]);
      NotBefore(r, sorted[0]);
      forall j | 0 <= j < |rest| ensures Before(sorted[0], rest[j]) {
        assert rest[j] in multiset(rest);
      }
    }
  }

  lemma NotBefore(a: Route, b: Route)
    requires !Before(a, b)
    ensures Before(b, a)
  {
    if Less(a.hostname, b.hostname) {
      LessTransitive(a.hostname, b.hostname, a.hostname);
      LessStrict(a.hostname);
    }
  }

  lemma {:induction false} SortIsSorted(routes: seq<Route>)
    ensures Sorted(Sort(routes)) && multiset(Sort(routes)) == multiset(routes) && |Sort(routes)| == |routes|
    decreases |routes|
  {
    if routes != [] {
      SortIsSorted(routes[1..]);
      InsertSorts(routes[0], Sort(routes[1..]));
      InsertMembers(routes[0], Sort(routes[1..]));
      assert routes == [routes[0]] + routes[1..];
      assert |multiset(Sort(routes))| == |multiset(routes)|;
    }
  }

  lemma {:induction false} SortKeepsOrder(routes: seq<Route>)
    requires StrictlySorted(routes)
    ensures Sort(routes) == routes
    decreases |routes|
  {
    if routes != [] {
      SortKeepsOrder(routes[1..]);
      assert routes == [routes[0]] + routes[1..];
      if |routes| > 1 {
        LessTotal(routes[0].hostname, routes[1].hostname);
        if Less(routes[1].hostname, routes[0].hostname) {
          LessTransitive(routes[0].hostname, routes[1].hostname, routes[0].hostname);
          LessStrict(routes[0].hostname);
        }
      }
    }
  }

  // ----------------------------------------------------------------- catalogs

  predicate AdjacentDiffer(routes: seq<Route>) {
    forall i | 0 <= i < |routes| - 1 :: routes[i].hostname != routes[i + 1].hostname
  }

  function NewCatalog(version: nat, routes: seq<Route>): Result<Catalog, CatalogError> {
    if |routes| > MAX_HTTPS_ROUTE_RECORDS then Err(TooManyRoutes)
    else if !AdjacentDiffer(Sort(routes)) then Err(DuplicateHostname)
    else Ok(Catalog(version, Sort(routes)))
  }

  predicate RouteOk(r: Route) {
    Canonical(r.hostname) && DurableId(r.tunnel)
  }

  /** What every catalog value satisfies. */
  predicate ValidCatalog(c: Catalog) {
    && 1 <= c.version <= U64_MAX
    && |c.routes| <= MAX_HTTPS_ROUTE_RECORDS
    && StrictlySorted(c.routes)
    && forall i | 0 <= i < |c.routes| :: RouteOk(c.routes[i])
  }

  lemma StrictFromAdjacent(routes: seq<Route>, i: nat, j: nat)
    requires Sorted(routes) && AdjacentDiffer(routes) && i < j < |routes|
    ensures Less(routes[i].hostname, routes[j].hostname)
    decreases j
  {
    LessTotal(routes[j - 1].hostname, routes[j].hostname);
    assert Before(routes[j - 1], routes[j]);
    if i < j - 1 {
      StrictFromAdjacent(routes, i, j - 1);
      LessTransitive(routes[i].hostname, routes[j - 1].hostname, routes[j].hostname);
    }
  }

  lemma {:induction false} SameHostsTwice(a: seq<Route>, b: seq<Route>)
    requires multiset(a) == multiset(b) && DistinctHosts(a)
    ensures DistinctHosts(b)
  {
    forall i, j | 0 <= i < j < |b| ensures b[i].hostname != b[j].hostname {
      if b[i].hostname == b[j].hostname {
        assert b[i] in multiset(b) && b[j] in multiset(b);
        var k :| 0 <= k < |a| && a[k] == b[i];
        var l :| 0 <= l < |a| && a[l] == b[j];
        assert k == l;
        assert b[i] == b[j];
        Twice(b, i, j);
        Once(a, k);
      }
    }
  }

  lemma Twice(s: seq<Route>, i: nat, j: nat)
    requires i < j < |s| && s[i] == s[j]
    ensures multiset(s)[s[i]] >= 2
  {
    assert s == s[..j] + s[j..];
    assert s[i] in multiset(s[..j]) by { assert s[..j][i] == s[i]; }
    assert s[j] in multiset(s[j..]) by { assert s[j..][0] == s[j]; }
    assert multiset(s) == multiset(s[..j]) + multiset(s[j..]);
  }

  lemma Once(s: seq<Route>, k: nat)
    requires k < |s| && DistinctHosts(s)
    ensures multiset(s)[s[k]] == 1
  {
    assert s == s[..k] + [s[k]] + s[k + 1..];
    assert s[k] !in s[..k] && s[k] !in s[k + 1..];
    assert multiset(s) == multiset(s[..k]) + multiset{s[k]} + multiset(s[k + 1..]);
  }

  /** A catalog is made exactly of at most 64 routes with distinct hostnames; it holds
      the same routes, each hostname after the one before it. */
  lemma NewCatalogIsExact(version: nat, routes: seq<Route>)
    ensures var r := NewCatalog(version, routes);
            && (r.Ok? <==> |routes| <= MAX_HTTPS_ROUTE_RECORDS && DistinctHosts(routes))
            && (r.Ok? ==> r.value.version == version && StrictlySorted(r.value.routes)
                          && multiset(r.value.routes) == multiset(routes))
  {
    var sorted := Sort(routes);
    SortIsSorted(routes);
    if AdjacentDiffer(sorted) {
      forall i, j | 0 <= i < j < |sorted| ensures Less(sorted[i].hostname, sorted[j].hostname) {
        StrictFromAdjacent(sorted, i, j);
      }
      forall i, j | 0 <= i < j < |sorted| ensures sorted[i].hostname != sorted[j].hostname {
        LessStrict(sorted[i].hostname);
      }
      SameHostsTwice(sorted, routes);
    } else if DistinctHosts(routes) {
      SameHostsTwice(routes, sorted);
    }
  }

  /** Routes already in order are kept as they are. */
  lemma NewOfSorted(version: nat, routes: seq<Route>)
    requires StrictlySorted(routes) && |routes| <= MAX_HTTPS_ROUTE_RECORDS
    ensures NewCatalog(version, routes) == Ok(Catalog(version, routes))
  {
    SortKeepsOrder(routes);
    forall i | 0 <= i < |routes| - 1 ensures routes[i].hostname != routes[i + 1].hostname {
      LessStrict(routes[i].hostname);
    }
  }
}
