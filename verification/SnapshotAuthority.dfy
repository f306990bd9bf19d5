/** The authority as an object, one call at a time under its gate. */
module SnapshotAuthority {
  import opened Primitives
  import opened Snapshots
  import opened Publication
  import SnapshotRepository

  datatype Health = Live | Stale

  datatype AuthorityError =
    | Uninitialized
    | Repository(error: SnapshotRepository.CommitError)
    | PublishInvariant

  function AsVersioned(s: Snapshot): Versioned<Grants> {
    Versioned(s.version, s.grants)
  }

  class Authority {
    const tables: SnapshotRepository.SnapshotTables
    const publisher: Publisher<Grants, Health>

    /** What is live was durable: it is the head, or older than the head. */
    ghost predicate Valid()
      reads this, tables, publisher
    {
      && tables.Valid() && publisher.Valid()
      && tables.Latest().Some?
      && (publisher.current == AsVersioned(tables.Latest().value)
          || publisher.current.version < tables.Latest().value.version)
    }

    constructor (t: SnapshotRepository.SnapshotTables, p: Publisher<Grants, Health>)
      requires t.Valid() && p.Valid() && t.Latest().Some? && p.current == AsVersioned(t.Latest().value)
      ensures Valid() && tables == t && publisher == p
    {
      tables, publisher := t, p;
    }

    /** Commits first, publishes second; the publisher never refuses what was committed. */
    method Commit(snapshot: Snapshot) returns (r: Result<SnapshotRepository.CommitOutcome, AuthorityError>)
      requires Valid()
      modifies tables, publisher
      ensures Valid()
      ensures var durable := SnapshotRepository.CommitSnapshot(old(tables.Latest()), snapshot);
              && tables.Latest() == durable.head
              && match durable.reply
                 case Ok(outcome) => r == Ok(outcome) && publisher.current == AsVersioned(snapshot)
                 case Err(e) => r == Err(Repository(e)) && publisher.current == old(publisher.current)
    {
      var outcome := tables.Commit(snapshot);
      if outcome.Err? { return Err(Repository(outcome.error)); }
      var published := publisher.PublishCandidate(AsVersioned(snapshot));
      if published.Err? { assert false; return Err(PublishInvariant); }
      return Ok(outcome.value);
    }

    /** Makes the durable head live. */
    method Refresh() returns (r: Result<Outcome, AuthorityError>)
      requires Valid()
      modifies publisher
      ensures Valid()
      ensures if Encodable(tables.Latest().value.grants)
              then r.Ok? && publisher.current == AsVersioned(tables.Latest().value)
              else r == Err(Repository(SnapshotRepository.Codec)) && publisher.current == old(publisher.current)
    {
      var loaded := tables.LoadLatest();
      match loaded
      case Err(e) => return Err(Repository(e));
      case Ok(None) => return Err(Uninitialized);
      case Ok(Some(snapshot)) =>
        var published := publisher.PublishCandidate(AsVersioned(snapshot));
        match published
        case Ok(outcome) => return Ok(outcome);
        case Err(_) => return Err(PublishInvariant);
    }
  }
}
