/** The route authority as an object, one call at a time under its gate. */
module PersistentRoutes {
  import opened Primitives
  import opened Publication
  import opened RouteRepository
  import opened RouteAuthority
  import RouteTables

  datatype Health = Live | Stale

  datatype AuthorityError = Repository(error: Error) | PublishInvariant

  class PersistentCatalog {
    const tables: RouteTables.Tables
    const publisher: Publisher<Routes, Health>

    /** What is live is the durable catalog, or older than it. */
    ghost predicate Valid()
      reads this, tables, publisher
    {
      && publisher.Valid() && RouteRepository.Valid(RouteTables.DnsRules(), tables.Contents())
      && (publisher.current == CatalogOf(tables.Contents()) || publisher.current.version < tables.version)
    }

    /** Opening loads the tables and starts the channel with what they hold. */
    constructor (t: RouteTables.Tables)
      requires RouteRepository.Valid(RouteTables.DnsRules(), t.Contents())
      ensures Valid() && tables == t && fresh(publisher) && publisher.current == CatalogOf(t.Contents())
    {
      tables := t;
      publisher := new Publisher(Versioned(t.version, t.routes), Live);
    }

    /** Loads what is durable and publishes it; the publisher never refuses. */
    method PublishDurable() returns (r: Result<Outcome, AuthorityError>)
      requires Valid()
      modifies publisher
      ensures Valid() && r.Ok? && publisher.current == CatalogOf(tables.Contents())
      ensures r.value.Applied? <==> old(publisher.current) != publisher.current
      ensures publisher.updates == if r.value.Applied? then old(publisher.updates) + [publisher.current]
                                   else old(publisher.updates)
    {
      var loaded := tables.Check(RouteTables.DnsRules());
      match loaded {
        case Err(e) => return Err(Repository(e));
        case Ok(_) =>
      }
      var outcome := publisher.PublishCandidate(Versioned(tables.version, tables.routes));
      match outcome
      case Err(_) => return Err(PublishInvariant);
      case Ok(published) => return Ok(published);
    }

    /** An allocation that succeeds is live when it returns; one that fails changes
        nothing, durable or live. */
    method AllocateManaged(tunnel: Tunnel, base: Host, attempts: seq<Option<Entropy>>)
      returns (r: Result<Allocated, AuthorityError>)
      requires Valid() && Typed(RouteTables.DnsRules(), DoAllocate(tunnel, base, attempts))
      modifies tables, publisher
      ensures Valid() && r != Err(PublishInvariant)
      ensures r.Ok? ==> publisher.current == CatalogOf(tables.Contents())
      ensures r.Err? ==> tables.Contents() == old(tables.Contents()) && publisher.current == old(publisher.current)
      ensures Apply(RouteTables.DnsRules(), old(tables.Contents()), DoAllocate(tunnel, base, attempts)) == tables.Contents()
    {
      ghost var k, op := RouteTables.DnsRules(), DoAllocate(tunnel, base, attempts);
      RouteTables.DnsRulesAreLawful();
      StepKeepsValid(k, tables.Contents(), op);
      var outcome := tables.AllocateName(tunnel, base, attempts, k);
      if outcome.Err? { return Err(Repository(outcome.error)); }
      var published := PublishDurable();
      match published
      case Err(e) => return Err(e);
      case Ok(_) => return Ok(outcome.value);
    }

    /** A release that succeeds is live when it returns; one that fails changes nothing. */
    method ReleaseManaged(tunnel: Tunnel) returns (r: Result<Released, AuthorityError>)
      requires Valid() && Typed(RouteTables.DnsRules(), DoRelease(tunnel))
      modifies tables, publisher
      ensures Valid() && r != Err(PublishInvariant)
      ensures r.Ok? ==> publisher.current == CatalogOf(tables.Contents())
      ensures r.Err? ==> tables.Contents() == old(tables.Contents()) && publisher.current == old(publisher.current)
      ensures Apply(RouteTables.DnsRules(), old(tables.Contents()), DoRelease(tunnel)) == tables.Contents()
    {
      ghost var k, op := RouteTables.DnsRules(), DoRelease(tunnel);
      RouteTables.DnsRulesAreLawful();
      StepKeepsValid(k, tables.Contents(), op);
      var outcome := tables.ReleaseName(tunnel, k);
      if outcome.Err? { return Err(Repository(outcome.error)); }
      var published := PublishDurable();
      match published
      case Err(e) => return Err(e);
      case Ok(_) => return Ok(outcome.value);
    }
  }
}
