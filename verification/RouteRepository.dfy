/** The transactional route tables: manual routes and managed hostnames. What makes a
    hostname, an identifier or a managed name is left to a set of rules. */
module RouteRepository {
  import opened Primitives
  import RouteCatalog

  const MAX_ROUTES := RouteCatalog.MAX_HTTPS_ROUTE_RECORDS
  const MAX_ALLOCATION_ATTEMPTS := 16

  datatype Host = Host(name: Bytes)
  datatype Tunnel = Tunnel(id: Bytes)
  datatype Entropy = Entropy(bytes: Bytes)

  datatype Entry = Entry(tunnel: Tunnel, status: RouteCatalog.RouteStatus)

  datatype Allocation = Allocation(host: Host, base: Host)

  datatype Store = Store(version: nat, routes: map<Host, Entry>, managed: map<Tunnel, Allocation>)

  datatype Error =
    | Corrupt | CapacityExceeded | VersionExhausted | ManagedHostnameConflict | ManagedBaseDomainConflict
    | EntropyUnavailable | AllocationAttemptsExhausted

  datatype Mutation = Applied(previous: nat, current: nat) | Unchanged(version: nat)
  datatype Allocated = Allocated(host: Host, previous: nat, current: nat) | Existing(host: Host, version: nat)
  datatype Released = Released(host: Host, previous: nat, current: nat) | Absent(version: nat)

  datatype Txn<+R> = Txn(store: Store, reply: Result<R, Error>)

  // -------------------------------------------------------------- validation

  /** The values the repository's argument types admit, the names that match a base
      domain, and the name made from random bytes. */
  datatype Rules = Rules(
    hosts: iset<Host>, tunnels: iset<Tunnel>, bases: iset<Host>, entropies: iset<Entropy>,
    names: iset<Allocation>, make: (Host, Entropy) -> Option<Host>)

  /** Every random bytes under every base domain make a valid name that matches it. */
  ghost predicate Lawful(k: Rules) {
    forall base, e {:trigger k.make(base, e)} | base in k.bases && e in k.entropies ::
      && k.make(base, e).Some? && k.make(base, e).value in k.hosts
      && Allocation(k.make(base, e).value, base) in k.names
  }

  ghost predicate RouteRowOk(k: Rules, host: Host, entry: Entry) {
    host in k.hosts && entry.tunnel in k.tunnels
  }

  /** A managed hostname is an enabled route of its own tunnel, and a name of its base domain. */
  ghost predicate ManagedRowOk(k: Rules, routes: map<Host, Entry>, t: Tunnel, a: Allocation) {
    a.host in routes && routes[a.host] == Entry(t, RouteCatalog.Enabled) && a in k.names
  }

  ghost predicate RoutesOk(k: Rules, routes: map<Host, Entry>) {
    |routes| <= MAX_ROUTES && forall h | h in routes :: RouteRowOk(k, h, routes[h])
  }

  ghost predicate ManagedOk(k: Rules, routes: map<Host, Entry>, managed: map<Tunnel, Allocation>) {
    forall t | t in managed :: ManagedRowOk(k, routes, t, managed[t])
  }

  /** What loading and validation accept. */
  ghost predicate Valid(k: Rules, s: Store) {
    && 1 <= s.version <= U64_MAX && RoutesOk(k, s.routes)
    && |s.managed| <= MAX_ROUTES && ManagedOk(k, s.routes, s.managed)
  }

  /** The answer of loading and validation: the route bound is checked first. */
  ghost function Load(k: Rules, s: Store): Result<(), Error> {
    if |s.routes| > MAX_ROUTES then Err(CapacityExceeded)
    else if !Valid(k, s) then Err(Corrupt)
    else Ok(())
  }

  predicate IsManaged(s: Store, host: Host) {
    exists t | t in s.managed :: s.managed[t].host == host
  }

  // ------------------------------------------------------------ transactions

  ghost function Upsert(k: Rules, s: Store, host: Host, entry: Entry): Txn<Mutation> {
    if Load(k, s).Err? then Txn(s, Err(Load(k, s).error))
    else if IsManaged(s, host) then Txn(s, Err(ManagedHostnameConflict))
    else if host in s.routes && s.routes[host] == entry then Txn(s, Ok(Unchanged(s.version)))
    else if host !in s.routes && |s.routes| >= MAX_ROUTES then Txn(s, Err(CapacityExceeded))
    else if s.version >= U64_MAX then Txn(s, Err(VersionExhausted))
    else Txn(s.(version := s.version + 1, routes := s.routes[host := entry]), Ok(Applied(s.version, s.version + 1)))
  }

  ghost function Remove(k: Rules, s: Store, host: Host): Txn<Mutation> {
    if Load(k, s).Err? then Txn(s, Err(Load(k, s).error))
    else if IsManaged(s, host) then Txn(s, Err(ManagedHostnameConflict))
    else if host !in s.routes then Txn(s, Ok(Unchanged(s.version)))
    else if s.version >= U64_MAX then Txn(s, Err(VersionExhausted))
    else Txn(s.(version := s.version + 1, routes := s.routes - {host}), Ok(Applied(s.version, s.version + 1)))
  }

  /** The first free name among the attempts: each takes fresh random bytes, if there are any. */
  ghost function Select(k: Rules, routes: map<Host, Entry>, base: Host, attempts: seq<Option<Entropy>>): Result<Host, Error> {
    if attempts == [] then Err(AllocationAttemptsExhausted)
    else if attempts[0].None? then Err(EntropyUnavailable)
    else
      var candidate := k.make(base, attempts[0].value);
      if candidate.None? then Err(Corrupt)
      else if candidate.value !in routes then Ok(candidate.value)
      else Select(k, routes, base, attempts[1..])
  }

  ghost function Allocate(k: Rules, s: Store, tunnel: Tunnel, base: Host, attempts: seq<Option<Entropy>>): Txn<Allocated> {
    if Load(k, s).Err? then Txn(s, Err(Load(k, s).error))
    else if tunnel in s.managed then
      if s.managed[tunnel].base != base then Txn(s, Err(ManagedBaseDomainConflict))
      else Txn(s, Ok(Existing(s.managed[tunnel].host, s.version)))
    else if |s.routes| >= MAX_ROUTES then Txn(s, Err(CapacityExceeded))
    else if s.version >= U64_MAX then Txn(s, Err(VersionExhausted))
    else
      match Select(k, s.routes, base, attempts)
      case Err(e) => Txn(s, Err(e))
      case Ok(host) =>
        Txn(Store(s.version + 1, s.routes[host := Entry(tunnel, RouteCatalog.Enabled)],
                  s.managed[tunnel := Allocation(host, base)]),
            Ok(Allocated(host, s.version, s.version + 1)))
  }

  ghost function Release(k: Rules, s: Store, tunnel: Tunnel): Txn<Released> {
    if Load(k, s).Err? then Txn(s, Err(Load(k, s).error))
    else if tunnel !in s.managed then Txn(s, Ok(Absent(s.version)))
    else if s.version >= U64_MAX then Txn(s, Err(VersionExhausted))
    else
      var host := s.managed[tunnel].host;
      if host !in s.routes || s.routes[host].tunnel != tunnel then Txn(s, Err(Corrupt))
      else Txn(Store(s.version + 1, s.routes - {host}, s.managed - {tunnel}),
               Ok(Released(host, s.version, s.version + 1)))
  }

  // --------------------------------------------------------------- the steps

  /** The random bytes an attempt can get. */
  ghost predicate EntropyOk(k: Rules, attempts: seq<Option<Entropy>>) {
    forall i | 0 <= i < |attempts| && attempts[i].Some? :: attempts[i].value in k.entropies
  }

  lemma {:induction false} SelectIsFree(k: Rules, routes: map<Host, Entry>, base: Host, attempts: seq<Option<Entropy>>)
    requires Lawful(k) && base in k.bases && EntropyOk(k, attempts)
    ensures Select(k, routes, base, attempts) != Err(Corrupt)
    ensures match Select(k, routes, base, attempts)
            case Err(_) => true
            case Ok(host) => host !in routes && host in k.hosts && Allocation(host, base) in k.names
    decreases |attempts|
  {
    if attempts != [] && attempts[0].Some? {
      assert k.make(base, attempts[0].value).Some?;
      SelectIsFree(k, routes, base, attempts[1..]);
    }
  }

  lemma UpsertKeeps(k: Rules, s: Store, host: Host, entry: Entry)
    requires Valid(k, s) && RouteRowOk(k, host, entry)
    ensures Valid(k, Upsert(k, s, host, entry).store) && Upsert(k, s, host, entry).reply != Err(Corrupt)
  {
    var after := Upsert(k, s, host, entry).store;
    if after != s {
      forall t | t in s.managed ensures ManagedRowOk(k, after.routes, t, s.managed[t]) {
        assert ManagedRowOk(k, s.routes, t, s.managed[t]);
      }
    }
  }

  lemma RemoveKeeps(k: Rules, s: Store, host: Host)
    requires Valid(k, s)
    ensures Valid(k, Remove(k, s, host).store) && Remove(k, s, host).reply != Err(Corrupt)
  {
    var after := Remove(k, s, host).store;
    if after != s {
      assert s.routes == after.routes[host := s.routes[host]];
      forall t | t in s.managed ensures ManagedRowOk(k, after.routes, t, s.managed[t]) {
        assert ManagedRowOk(k, s.routes, t, s.managed[t]);
      }
    }
  }

  lemma {:induction false} Injects(tunnels: set<Tunnel>, hosts: set<Host>, f: map<Tunnel, Host>, g: map<Host, Tunnel>)
    requires forall t | t in tunnels :: t in f && f[t] in hosts && f[t] in g && g[f[t]] == t
    ensures |tunnels| <= |hosts|
    decreases tunnels
  {
    if tunnels != {} {
      var t :| t in tunnels;
      Injects(tunnels - {t}, hosts - {f[t]}, f, g);
    }
  }

  /** No more managed hostnames than routes. */
  lemma ManagedFit(k: Rules, routes: map<Host, Entry>, managed: map<Tunnel, Allocation>)
    requires ManagedOk(k, routes, managed)
    ensures |managed| <= |routes|
  {
    forall t | t in managed ensures managed[t].host in routes && routes[managed[t].host].tunnel == t {
      assert ManagedRowOk(k, routes, t, managed[t]);
    }
    Injects(managed.Keys, routes.Keys, map t | t in managed :: managed[t].host, map h | h in routes :: routes[h].tunnel);
  }

  lemma AllocateKeeps(k: Rules, s: Store, tunnel: Tunnel, base: Host, attempts: seq<Option<Entropy>>)
    requires Lawful(k) && Valid(k, s) && tunnel in k.tunnels && base in k.bases && EntropyOk(k, attempts)
    ensures Valid(k, Allocate(k, s, tunnel, base, attempts).store)
    ensures Allocate(k, s, tunnel, base, attempts).reply != Err(Corrupt)
  {
    SelectIsFree(k, s.routes, base, attempts);
    var after := Allocate(k, s, tunnel, base, attempts).store;
    if after != s {
      forall t | t in after.managed ensures ManagedRowOk(k, after.routes, t, after.managed[t]) {
        if t != tunnel { assert ManagedRowOk(k, s.routes, t, s.managed[t]); }
      }
      ManagedFit(k, after.routes, after.managed);
    }
  }

  lemma ReleaseKeeps(k: Rules, s: Store, tunnel: Tunnel)
    requires Valid(k, s)
    ensures Valid(k, Release(k, s, tunnel).store) && Release(k, s, tunnel).reply != Err(Corrupt)
  {
    if tunnel in s.managed { assert ManagedRowOk(k, s.routes, tunnel, s.managed[tunnel]); }
    var after := Release(k, s, tunnel).store;
    if after != s {
      forall t | t in after.managed ensures ManagedRowOk(k, after.routes, t, after.managed[t]) {
        assert ManagedRowOk(k, s.routes, t, s.managed[t]);
      }
      var host := s.managed[tunnel].host;
      assert s.routes == after.routes[host := s.routes[host]];
      ManagedFit(k, after.routes, after.managed);
    }
  }

  // -------------------------------------------------------------------- runs

  datatype Op =
    | DoUpsert(host: Host, entry: Entry)
    | DoRemove(host: Host)
    | DoAllocate(tunnel: Tunnel, base: Host, attempts: seq<Option<Entropy>>)
    | DoRelease(tunnel: Tunnel)

  /** Arguments are of their types: hostnames, identifiers and base domains are checked
      when they are made, and allocation makes at most sixteen attempts. */
  ghost predicate Typed(k: Rules, op: Op) {
    match op
    case DoUpsert(host, entry) => RouteRowOk(k, host, entry)
    case DoRemove(host) => host in k.hosts
    case DoAllocate(t, base, attempts) =>
      t in k.tunnels && base in k.bases && |attempts| == MAX_ALLOCATION_ATTEMPTS && EntropyOk(k, attempts)
    case DoRelease(t) => t in k.tunnels
  }

  ghost function Apply(k: Rules, s: Store, op: Op): Store {
    match op
    case DoUpsert(host, entry) => Upsert(k, s, host, entry).store
    case DoRemove(host) => Remove(k, s, host).store
    case DoAllocate(t, base, attempts) => Allocate(k, s, t, base, attempts).store
    case DoRelease(t) => Release(k, s, t).store
  }

  ghost function ErrorOf(k: Rules, s: Store, op: Op): Option<Error> {
    match op
    case DoUpsert(host, entry) =>
      var r := Upsert(k, s, host, entry).reply; if r.Ok? then None else Some(r.error)
    case DoRemove(host) =>
      var r := Remove(k, s, host).reply; if r.Ok? then None else Some(r.error)
    case DoAllocate(t, base, attempts) =>
      var r := Allocate(k, s, t, base, attempts).reply; if r.Ok? then None else Some(r.error)
    case DoRelease(t) =>
      var r := Release(k, s, t).reply; if r.Ok? then None else Some(r.error)
  }

  ghost function Exec(k: Rules, s: Store, ops: seq<Op>): Store
    decreases |ops|
  {
    if ops == [] then s else Exec(k, Apply(k, s, ops[0]), ops[1..])
  }

  /** Nothing but a success changes the tables, and every change is the next version. */
  predicate Advances(s: Store, after: Store, error: Option<Error>) {
    && (error.Some? ==> after == s)
    && (after == s || after.version == s.version + 1)
  }

  lemma StepKeepsValid(k: Rules, s: Store, op: Op)
    requires Lawful(k) && Valid(k, s) && Typed(k, op)
    ensures Valid(k, Apply(k, s, op)) && ErrorOf(k, s, op) != Some(Corrupt) && Advances(s, Apply(k, s, op), ErrorOf(k, s, op))
  {
    match op
    case DoUpsert(host, entry) => UpsertKeeps(k, s, host, entry);
    case DoRemove(host) => RemoveKeeps(k, s, host);
    case DoAllocate(t, base, attempts) => AllocateKeeps(k, s, t, base, attempts);
    case DoRelease(t) => ReleaseKeeps(k, s, t);
  }

  /** Over every run the tables stay loadable, with at most 64 routes and every managed
      hostname an enabled route of its tunnel, so no later operation finds them corrupt. */
  lemma {:induction false} NeverCorrupt(k: Rules, s: Store, ops: seq<Op>, op: Op)
    requires Lawful(k) && Valid(k, s) && Typed(k, op) && forall i | 0 <= i < |ops| :: Typed(k, ops[i])
    ensures var end := Exec(k, s, ops);
            && Valid(k, end) && |end.routes| <= 64
            && ErrorOf(k, end, op) != Some(Corrupt) && Advances(end, Apply(k, end, op), ErrorOf(k, end, op))
    decreases |ops|
  {
    if ops == [] {
      StepKeepsValid(k, s, op);
    } else {
      StepKeepsValid(k, s, ops[0]);
      NeverCorrupt(k, Apply(k, s, ops[0]), ops[1..], op);
    }
  }

  /** The managed table and the route of `h` are as before. */
  predicate Spares(s: Store, after: Store, h: Host) {
    after.managed == s.managed && h in s.routes && h in after.routes && after.routes[h] == s.routes[h]
  }

  /** A manual edit changes neither the managed table nor any managed route, and is
      refused outright if it names one. */
  lemma UpsertSparesManaged(k: Rules, s: Store, host: Host, entry: Entry, t: Tunnel)
    requires Valid(k, s) && t in s.managed
    ensures Spares(s, Upsert(k, s, host, entry).store, s.managed[t].host)
    ensures host == s.managed[t].host ==> Upsert(k, s, host, entry) == Txn(s, Err(ManagedHostnameConflict))
  {
    assert ManagedRowOk(k, s.routes, t, s.managed[t]);
    assert host == s.managed[t].host ==> IsManaged(s, host);
  }

  lemma RemoveSparesManaged(k: Rules, s: Store, host: Host, t: Tunnel)
    requires Valid(k, s) && t in s.managed
    ensures Spares(s, Remove(k, s, host).store, s.managed[t].host)
    ensures host == s.managed[t].host ==> Remove(k, s, host) == Txn(s, Err(ManagedHostnameConflict))
  {
    assert ManagedRowOk(k, s.routes, t, s.managed[t]);
    assert host == s.managed[t].host ==> IsManaged(s, host);
  }

  /** Releasing what was just allocated restores the tables, two versions later. */
  lemma AllocateThenRelease(k: Rules, s: Store, tunnel: Tunnel, base: Host, attempts: seq<Option<Entropy>>)
    requires Lawful(k) && Valid(k, s) && tunnel in k.tunnels && base in k.bases && EntropyOk(k, attempts)
    requires s.version + 2 <= U64_MAX
    requires var r := Allocate(k, s, tunnel, base, attempts).reply; r.Ok? && r.value.Allocated?
    ensures var once := Allocate(k, s, tunnel, base, attempts);
            && Release(k, once.store, tunnel).reply == Ok(Released(once.reply.value.host, s.version + 1, s.version + 2))
            && Release(k, once.store, tunnel).store == s.(version := s.version + 2)
  {
    AllocateKeeps(k, s, tunnel, base, attempts);
    SelectIsFree(k, s.routes, base, attempts);
    var once := Allocate(k, s, tunnel, base, attempts);
    ReleaseUndoes(k, s, once.store, tunnel, once.reply.value.host, base);
  }

  lemma ReleaseUndoes(k: Rules, s: Store, once: Store, tunnel: Tunnel, host: Host, base: Host)
    requires Valid(k, once) && host !in s.routes && tunnel !in s.managed && s.version + 2 <= U64_MAX
    requires once == Store(s.version + 1, s.routes[host := Entry(tunnel, RouteCatalog.Enabled)],
                           s.managed[tunnel := Allocation(host, base)])
    ensures Release(k, once, tunnel).reply == Ok(Released(host, s.version + 1, s.version + 2))
    ensures Release(k, once, tunnel).store == s.(version := s.version + 2)
  {
    assert once.routes - {host} == s.routes;
    assert once.managed - {tunnel} == s.managed;
  }
}
