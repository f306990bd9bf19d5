/** When each operation on the route tables succeeds, and everything it then does. */
module RouteOutcomes {
  import opened Primitives
  import opened RouteRepository
  import RouteCatalog

  /** The tunnel a hostname leads to. */
  function Resolve(s: Store, host: Host): Option<Entry> {
    if host in s.routes then Some(s.routes[host]) else None
  }

  /** Only `host` resolves differently, to `entry`. */
  ghost predicate OnlyResolves(s: Store, after: Store, host: Host, entry: Option<Entry>) {
    && Resolve(after, host) == entry
    && forall h | h != host :: Resolve(after, h) == Resolve(s, h)
  }

  /** The version moves by one exactly if a route did, and never past its end. */
  predicate Versioned(s: Store, after: Store) {
    after.version == s.version + (if after.routes == s.routes then 0 else 1)
  }

  /** A manual upsert succeeds exactly if the hostname is not managed and it is already so, or
      there is a version left and room for it; then exactly that hostname resolves to it. */
  lemma UpsertOutcome(k: Rules, s: Store, host: Host, entry: Entry)
    requires Valid(k, s)
    ensures var txn := Upsert(k, s, host, entry);
            && (txn.reply.Ok? <==>
                  && !IsManaged(s, host)
                  && (|| Resolve(s, host) == Some(entry)
                      || (s.version < U64_MAX && (host in s.routes || |s.routes| < 64))))
            && (txn.reply.Ok? ==>
                  && OnlyResolves(s, txn.store, host, Some(entry)) && txn.store.managed == s.managed
                  && Versioned(s, txn.store))
            && (txn.reply.Err? ==> txn.store == s)
  {
    var after := Upsert(k, s, host, entry).store;
    if after != s { assert after.routes[host] == entry && (host in s.routes ==> s.routes[host] != entry); }
  }

  /** A manual removal succeeds exactly if the hostname is not managed and has no route, or
      there is a version left; then exactly that hostname no longer resolves. */
  lemma RemoveOutcome(k: Rules, s: Store, host: Host)
    requires Valid(k, s)
    ensures var txn := Remove(k, s, host);
            && (txn.reply.Ok? <==> !IsManaged(s, host) && (host !in s.routes || s.version < U64_MAX))
            && (txn.reply.Ok? ==>
                  OnlyResolves(s, txn.store, host, None) && txn.store.managed == s.managed && Versioned(s, txn.store))
            && (txn.reply.Err? ==> txn.store == s)
  {
    var after := Remove(k, s, host).store;
    if after != s { assert host in s.routes && host !in after.routes; }
  }

  /** The first attempts were all taken, and the i-th made the free name `host`. */
  ghost predicate FirstFree(k: Rules, routes: map<Host, Entry>, base: Host, attempts: seq<Option<Entropy>>, i: nat, host: Host) {
    && i < |attempts|
    && (forall j | 0 <= j < i :: attempts[j].Some? && Made(k, base, attempts[j].value) in routes)
    && attempts[i].Some? && Made(k, base, attempts[i].value) == host && host !in routes
  }

  /** The name that random bytes make. */
  ghost function Made(k: Rules, base: Host, e: Entropy): Host {
    if k.make(base, e).Some? then k.make(base, e).value else Host([])
  }

  /** The search for a name ends with the first free one, exactly if there is one before the
      random bytes run out. */
  lemma {:induction false} SelectOutcome(k: Rules, routes: map<Host, Entry>, base: Host, attempts: seq<Option<Entropy>>,
                                         host: Host)
    requires Lawful(k) && base in k.bases && EntropyOk(k, attempts)
    ensures Select(k, routes, base, attempts) == Ok(host) <==>
            exists i :: FirstFree(k, routes, base, attempts, i, host)
    decreases |attempts|
  {
    if attempts != [] && attempts[0].Some? {
      assert k.make(base, attempts[0].value).Some?;
      var made, rest := Made(k, base, attempts[0].value), attempts[1..];
      if made !in routes {
        if made == host { assert FirstFree(k, routes, base, attempts, 0, host); }
      } else {
        assert EntropyOk(k, rest);
        SelectOutcome(k, routes, base, rest, host);
        if i :| FirstFree(k, routes, base, rest, i, host) {
          ShiftFree(k, routes, base, attempts, i, host);
        }
        if i :| FirstFree(k, routes, base, attempts, i, host) {
          UnshiftFree(k, routes, base, attempts, i, host);
        }
      }
    }
  }

  lemma ShiftFree(k: Rules, routes: map<Host, Entry>, base: Host, attempts: seq<Option<Entropy>>, i: nat, host: Host)
    requires attempts != [] && attempts[0].Some? && Made(k, base, attempts[0].value) in routes
    requires FirstFree(k, routes, base, attempts[1..], i, host)
    ensures FirstFree(k, routes, base, attempts, i + 1, host)
  {
    forall j | 0 <= j < i + 1 ensures attempts[j].Some? && Made(k, base, attempts[j].value) in routes {
      if j > 0 { assert attempts[1..][j - 1] == attempts[j]; }
    }
  }

  lemma UnshiftFree(k: Rules, routes: map<Host, Entry>, base: Host, attempts: seq<Option<Entropy>>, i: nat, host: Host)
    requires attempts != [] && attempts[0].Some? && Made(k, base, attempts[0].value) in routes
    requires FirstFree(k, routes, base, attempts, i, host)
    ensures i > 0 && FirstFree(k, routes, base, attempts[1..], i - 1, host)
  {
    forall j | 0 <= j < i - 1 ensures attempts[1..][j].Some? && Made(k, base, attempts[1..][j].value) in routes {
      assert attempts[1..][j] == attempts[j + 1];
    }
  }

  /** An allocation succeeds exactly if the tunnel has a name under this base already, or has
      none and there is room, a version, and a free name among the attempts. */
  lemma AllocateOutcome(k: Rules, s: Store, tunnel: Tunnel, base: Host, attempts: seq<Option<Entropy>>)
    requires Lawful(k) && Valid(k, s) && base in k.bases && EntropyOk(k, attempts)
    ensures Allocate(k, s, tunnel, base, attempts).reply.Ok? <==>
            if tunnel in s.managed then s.managed[tunnel].base == base
            else
              && |s.routes| < 64 && s.version < U64_MAX
              && exists i, host :: FirstFree(k, s.routes, base, attempts, i, host)
  {
    var found := Select(k, s.routes, base, attempts);
    if found.Ok? {
      SelectOutcome(k, s.routes, base, attempts, found.value);
    } else if i, host :| FirstFree(k, s.routes, base, attempts, i, host) {
      SelectOutcome(k, s.routes, base, attempts, host);
    }
  }

  /** A new name is that of the first free attempt; it resolves to the tunnel, and nothing
      else changes. A name that was there already is given again. */
  lemma AllocateGives(k: Rules, s: Store, tunnel: Tunnel, base: Host, attempts: seq<Option<Entropy>>)
    requires Lawful(k) && Valid(k, s) && base in k.bases && EntropyOk(k, attempts)
    requires Allocate(k, s, tunnel, base, attempts).reply.Ok?
    ensures var txn := Allocate(k, s, tunnel, base, attempts); var host := txn.reply.value.host;
            && (tunnel in s.managed ==> txn.store == s && host == s.managed[tunnel].host)
            && (tunnel !in s.managed ==>
                  && OnlyResolves(s, txn.store, host, Some(Entry(tunnel, RouteCatalog.Enabled))) && host !in s.routes
                  && txn.store.managed == s.managed[tunnel := Allocation(host, base)] && Versioned(s, txn.store)
                  && exists i :: FirstFree(k, s.routes, base, attempts, i, host))
  {
    var txn := Allocate(k, s, tunnel, base, attempts);
    if tunnel !in s.managed {
      SelectIsFree(k, s.routes, base, attempts);
      SelectOutcome(k, s.routes, base, attempts, txn.reply.value.host);
      assert txn.reply.value.host in txn.store.routes;
    }
  }

  /** A release succeeds exactly if there is nothing to release or a version left; then the
      tunnel has no managed name, its name does not resolve, and nothing else changes. */
  lemma ReleaseOutcome(k: Rules, s: Store, tunnel: Tunnel)
    requires Valid(k, s)
    ensures var txn := Release(k, s, tunnel);
            && (txn.reply.Ok? <==> tunnel !in s.managed || s.version < U64_MAX)
            && (txn.reply.Err? || tunnel !in s.managed ==> txn.store == s)
            && (txn.reply.Ok? && tunnel in s.managed ==>
                  && OnlyResolves(s, txn.store, s.managed[tunnel].host, None)
                  && txn.store.managed == s.managed - {tunnel} && Versioned(s, txn.store)
                  && txn.reply.value == Released(s.managed[tunnel].host, s.version, s.version + 1))
  {
    if tunnel in s.managed {
      assert ManagedRowOk(k, s.routes, tunnel, s.managed[tunnel]);
      var after := Release(k, s, tunnel).store;
      if after != s { assert s.managed[tunnel].host in s.routes && s.managed[tunnel].host !in after.routes; }
    }
  }
}
