/** Latest-value publication: one current value, replaced only by a newer version. */
module Publication {
  import opened Primitives

  datatype Versioned<+T> = Versioned(version: nat, content: T)

  datatype Outcome = Applied(previous: nat, current: nat) | Unchanged(version: nat)

  datatype UpdateError = StaleVersion(current: nat, received: nat) | ConflictingVersion(version: nat)

  datatype Published<+T> = Published(current: Versioned<T>, reply: Result<Outcome, UpdateError>)

  function Publish<T(==)>(current: Versioned<T>, candidate: Versioned<T>): Published<T> {
    if candidate.version < current.version then
      Published(current, Err(StaleVersion(current.version, candidate.version)))
    else if candidate.version == current.version then
      if candidate == current then
        Published(current, Ok(Unchanged(current.version)))
      else
        Published(current, Err(ConflictingVersion(current.version)))
    else
      Published(candidate, Ok(Applied(current.version, candidate.version)))
  }

  /** The publisher of a watch channel: the current value, the health of its source,
      and everything ever put on the channel, the latest last. */
  class Publisher<T(==), H> {
    var current: Versioned<T>
    var health: H
    var updates: seq<Versioned<T>>

    ghost predicate Valid()
      reads this
    {
      updates != [] && updates[|updates| - 1] == current
    }

    constructor (initial: Versioned<T>, live: H)
      ensures Valid() && current == initial && updates == [initial] && health == live
    {
      current, updates, health := initial, [initial], live;
    }

    method PublishCandidate(candidate: Versioned<T>) returns (r: Result<Outcome, UpdateError>)
      requires Valid()
      modifies this
      ensures Valid() && health == old(health)
      ensures Published(current, r) == Publish(old(current), candidate)
      ensures updates == if r.Ok? && r.value.Applied? then old(updates) + [candidate] else old(updates)
    {
      if candidate.version < current.version {
        return Err(StaleVersion(current.version, candidate.version));
      }
      if candidate.version == current.version {
        if candidate.content == current.content { return Ok(Unchanged(current.version)); }
        return Err(ConflictingVersion(current.version));
      }
      var previous := current.version;
      current := candidate;
      updates := updates + [candidate];
      return Ok(Applied(previous, candidate.version));
    }

    /** Wakes the subscribers without changing what they see. */
    method SetSourceHealth(value: H)
      requires Valid()
      modifies this
      ensures Valid() && health == value && current == old(current) && updates == old(updates) + [current]
    {
      health := value;
      updates := updates + [current];
    }
  }
}
