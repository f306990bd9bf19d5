/** The route tables as an object under the DNS hostname rules. */
module RouteTables {
  import opened Primitives
  import opened RouteRepository
  import Hostname
  import RouteCatalog
  import M = ManagedHostname

  function MakeName(base: Host, e: Entropy): Option<Host> {
    match M.FromEntropy(base.name, e.bytes)
    case Ok(name) => Some(Host(name))
    case Err(_) => None
  }

  ghost function DnsRules(): Rules {
    Rules((iset h: Host | Hostname.Canonical(h.name)),
          (iset t: Tunnel | RouteCatalog.DurableId(t.id)),
          (iset b: Host | M.BaseOk(b.name)),
          (iset e: Entropy | |e.bytes| == M.MANAGED_HOSTNAME_ENTROPY_BYTES),
          (iset a: Allocation | M.BaseOk(a.base.name) && M.Matches(a.host.name, a.base.name)),
          MakeName)
  }

  /** The one trial with zero bytes that a base domain passed makes every allocation succeed. */
  lemma DnsRulesAreLawful()
    ensures Lawful(DnsRules())
  {
    var k := DnsRules();
    forall base, e | base in k.bases && e in k.entropies
      ensures k.make(base, e).Some? && k.make(base, e).value in k.hosts
      ensures Allocation(k.make(base, e).value, base) in k.names
    {
      M.EveryEntropyWorks(base.name, e.bytes);
    }
  }

  /** So over every run from the tables as they are first made, no operation finds them corrupt. */
  lemma FreshTablesNeverCorrupt(ops: seq<Op>, op: Op)
    requires Typed(DnsRules(), op) && forall i | 0 <= i < |ops| :: Typed(DnsRules(), ops[i])
    ensures var end := Exec(DnsRules(), Store(1, map[], map[]), ops);
            && Valid(DnsRules(), end) && ErrorOf(DnsRules(), end, op) != Some(Corrupt)
            && Advances(end, Apply(DnsRules(), end, op), ErrorOf(DnsRules(), end, op))
  {
    DnsRulesAreLawful();
    NeverCorrupt(DnsRules(), Store(1, map[], map[]), ops, op);
  }

  predicate RouteRow(host: Host, entry: Entry) {
    Hostname.Canonical(host.name) && RouteCatalog.DurableId(entry.tunnel.id)
  }

  predicate ManagedRow(routes: map<Host, Entry>, t: Tunnel, a: Allocation) {
    && a.host in routes && routes[a.host] == Entry(t, RouteCatalog.Enabled)
    && M.BaseOk(a.base.name) && M.Matches(a.host.name, a.base.name)
  }

  lemma RowRules(routes: map<Host, Entry>, host: Host, entry: Entry, t: Tunnel, a: Allocation)
    ensures RouteRow(host, entry) <==> RouteRowOk(DnsRules(), host, entry)
    ensures ManagedRow(routes, t, a) <==> ManagedRowOk(DnsRules(), routes, t, a)
  {
  }

  class Tables {
    var version: nat
    var routes: map<Host, Entry>
    var managed: map<Tunnel, Allocation>

    ghost function Contents(): Store
      reads this
    {
      Store(version, routes, managed)
    }

    constructor ()
      ensures Contents() == Store(1, map[], map[]) && Valid(DnsRules(), Contents())
    {
      version, routes, managed := 1, map[], map[];
    }

    method CheckRoutes(ghost k: Rules) returns (ok: bool)
      requires k == DnsRules()
      ensures ok <==> forall h | h in routes :: RouteRowOk(k, h, routes[h])
    {
      var left := routes.Keys;
      while left != {}
        invariant left <= routes.Keys
        invariant forall h | h in routes && h !in left :: RouteRowOk(k, h, routes[h])
        decreases |left|
      {
        var h :| h in left;
        RowRules(routes, h, routes[h], routes[h].tunnel, Allocation(h, h));
        if !RouteRow(h, routes[h]) { return false; }
        left := left - {h};
      }
      return true;
    }

    method CheckManaged(ghost k: Rules) returns (ok: bool)
      requires k == DnsRules()
      ensures ok <==> ManagedOk(k, routes, managed)
    {
      var left := managed.Keys;
      while left != {}
        invariant left <= managed.Keys
        invariant forall t | t in managed && t !in left :: ManagedRowOk(k, routes, t, managed[t])
        decreases |left|
      {
        var t :| t in left;
        RowRules(routes, managed[t].host, Entry(t, RouteCatalog.Enabled), t, managed[t]);
        if !ManagedRow(routes, t, managed[t]) { return false; }
        left := left - {t};
      }
      return true;
    }

    /** Loads the catalog and validates the managed hostnames. */
    method Check(ghost k: Rules) returns (r: Result<(), Error>)
      requires k == DnsRules()
      ensures r == Load(k, Contents())
    {
      if |routes| > MAX_ROUTES { return Err(CapacityExceeded); }
      if version < 1 || version > U64_MAX { return Err(Corrupt); }
      var routesOk := CheckRoutes(k);
      if !routesOk { return Err(Corrupt); }
      if |managed| > MAX_ROUTES { return Err(Corrupt); }
      var managedOk := CheckManaged(k);
      if !managedOk { return Err(Corrupt); }
      return Ok(());
    }

    method UpsertRoute(host: Host, entry: Entry, ghost k: Rules) returns (r: Result<Mutation, Error>)
      requires k == DnsRules()
      modifies this
      ensures Txn(Contents(), r) == Upsert(k, old(Contents()), host, entry)
    {
      var loaded := Check(k);
      if loaded.Err? { return Err(loaded.error); }
      if IsManaged(Store(version, routes, managed), host) { return Err(ManagedHostnameConflict); }
      if host in routes {
        if routes[host] == entry { return Ok(Unchanged(version)); }
      } else if |routes| >= MAX_ROUTES {
        return Err(CapacityExceeded);
      }
      if version >= U64_MAX { return Err(VersionExhausted); }
      routes := routes[host := entry];
      version := version + 1;
      return Ok(Applied(version - 1, version));
    }

    method RemoveRoute(host: Host, ghost k: Rules) returns (r: Result<Mutation, Error>)
      requires k == DnsRules()
      modifies this
      ensures Txn(Contents(), r) == Remove(k, old(Contents()), host)
    {
      var loaded := Check(k);
      if loaded.Err? { return Err(loaded.error); }
      if IsManaged(Store(version, routes, managed), host) { return Err(ManagedHostnameConflict); }
      if host !in routes { return Ok(Unchanged(version)); }
      if version >= U64_MAX { return Err(VersionExhausted); }
      routes := routes - {host};
      version := version + 1;
      return Ok(Applied(version - 1, version));
    }

    /** Tries one random name after another until one is free. */
    method SelectName(base: Host, attempts: seq<Option<Entropy>>, ghost k: Rules) returns (r: Result<Host, Error>)
      requires k == DnsRules()
      ensures r == Select(k, routes, base, attempts)
    {
      var i := 0;
      while i < |attempts|
        invariant i <= |attempts|
        invariant Select(k, routes, base, attempts) == Select(k, routes, base, attempts[i..])
      {
        if attempts[i].None? { return Err(EntropyUnavailable); }
        var candidate := MakeName(base, attempts[i].value);
        assert k.make(base, attempts[i].value) == candidate;
        if candidate.None? { return Err(Corrupt); }
        if candidate.value !in routes { return Ok(candidate.value); }
        assert attempts[i..][1..] == attempts[i + 1..];
        i := i + 1;
      }
      return Err(AllocationAttemptsExhausted);
    }

    /** The writes of an allocation, under the name that was selected. */
    method InsertName(tunnel: Tunnel, base: Host, host: Host, ghost attempts: seq<Option<Entropy>>, ghost k: Rules)
      returns (r: Result<Allocated, Error>)
      requires Load(k, Contents()).Ok? && tunnel !in managed && |routes| < MAX_ROUTES && version < U64_MAX
      requires Select(k, routes, base, attempts) == Ok(host)
      modifies this
      ensures Txn(Contents(), r) == Allocate(k, old(Contents()), tunnel, base, attempts)
    {
      routes := routes[host := Entry(tunnel, RouteCatalog.Enabled)];
      managed := managed[tunnel := Allocation(host, base)];
      version := version + 1;
      return Ok(Allocated(host, version - 1, version));
    }

    method AllocateName(tunnel: Tunnel, base: Host, attempts: seq<Option<Entropy>>, ghost k: Rules)
      returns (r: Result<Allocated, Error>)
      requires k == DnsRules()
      modifies this
      ensures Txn(Contents(), r) == Allocate(k, old(Contents()), tunnel, base, attempts)
    {
      var loaded := Check(k);
      if loaded.Err? { return Err(loaded.error); }
      if tunnel in managed {
        if managed[tunnel].base != base { return Err(ManagedBaseDomainConflict); }
        return Ok(Existing(managed[tunnel].host, version));
      }
      if |routes| >= MAX_ROUTES { return Err(CapacityExceeded); }
      if version >= U64_MAX { return Err(VersionExhausted); }
      var selected := SelectName(base, attempts, k);
      if selected.Err? { return Err(selected.error); }
      r := InsertName(tunnel, base, selected.value, attempts, k);
    }

    /** The two deletions of a release. */
    method DeleteName(tunnel: Tunnel, ghost k: Rules) returns (r: Result<Released, Error>)
      requires Load(k, Contents()).Ok? && tunnel in managed && version < U64_MAX
      modifies this
      ensures Txn(Contents(), r) == Release(k, old(Contents()), tunnel)
    {
      var host := managed[tunnel].host;
      assert ManagedRowOk(k, routes, tunnel, managed[tunnel]);
      managed := managed - {tunnel};
      routes := routes - {host};
      version := version + 1;
      return Ok(Released(host, version - 1, version));
    }

    method ReleaseName(tunnel: Tunnel, ghost k: Rules) returns (r: Result<Released, Error>)
      requires k == DnsRules()
      modifies this
      ensures Txn(Contents(), r) == Release(k, old(Contents()), tunnel)
    {
      var loaded := Check(k);
      if loaded.Err? { return Err(loaded.error); }
      if tunnel !in managed { return Ok(Absent(version)); }
      if version >= U64_MAX { return Err(VersionExhausted); }
      r := DeleteName(tunnel, k);
    }
  }
}
