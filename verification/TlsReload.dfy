/** The reload cell of a running Agent and the generations it is offered. */
module TlsReload {
  import opened Primitives
  import opened CredentialBundles

  datatype Validity = Validity(notBefore: int, notAfter: int)

  datatype ReloadError =
    | StaleGeneration(current: nat, received: nat) | ConflictingGeneration(generation: nat)
    | NotYetValid | Expired

  /** What the cell holds of the last accepted candidate. */
  datatype Cell<T> = Cell(generation: nat, digest: Digest<Manifest>, config: T, validity: Validity, failed: bool)

  datatype Offered<T> = Offered(cell: Cell<T>, reply: Result<bool, ReloadError>)

  function ValidateTime(v: Validity, now: int): Option<ReloadError> {
    if v.notBefore > now then Some(NotYetValid) else if v.notAfter <= now then Some(Expired) else None
  }

  function Offer<T>(cell: Cell<T>, generation: nat, digest: Digest<Manifest>, config: T, v: Validity, now: int): Offered<T> {
    if ValidateTime(v, now).Some? then Offered(cell, Err(ValidateTime(v, now).value))
    else if generation < cell.generation then Offered(cell, Err(StaleGeneration(cell.generation, generation)))
    else if generation == cell.generation then
      if digest == cell.digest then Offered(cell.(failed := false), Ok(false))
      else Offered(cell, Err(ConflictingGeneration(generation)))
    else Offered(Cell(generation, digest, config, v, false), Ok(true))
  }

  datatype Health = Current | Expiring | ReloadFailed | Ended

  class ReloadableConfig<T> {
    var generation: nat
    var digest: Digest<Manifest>
    var config: T
    var validity: Validity
    var failed: bool

    ghost function Contents(): Cell<T>
      reads this
    {
      Cell(generation, digest, config, validity, failed)
    }

    constructor (g: nat, d: Digest<Manifest>, c: T, v: Validity)
      ensures Contents() == Cell(g, d, c, v, false)
    {
      generation, digest, config, validity, failed := g, d, c, v, false;
    }

    method Publish(g: nat, d: Digest<Manifest>, c: T, v: Validity, now: int) returns (r: Result<bool, ReloadError>)
      modifies this
      ensures Offered(Contents(), r) == Offer(old(Contents()), g, d, c, v, now)
    {
      if v.notBefore > now { return Err(NotYetValid); }
      if v.notAfter <= now { return Err(Expired); }
      if g < generation { return Err(StaleGeneration(generation, g)); }
      if g == generation {
        if d == digest {
          failed := false;
          return Ok(false);
        }
        return Err(ConflictingGeneration(g));
      }
      generation, digest, config, validity, failed := g, d, c, v, false;
      return Ok(true);
    }

    method MarkReloadFailed()
      modifies this`failed
      ensures Contents() == old(Contents()).(failed := true)
    {
      failed := true;
    }

    /** Expiry outranks a failed reload, which outranks an approaching expiry. */
    method Status(now: int, warning: nat) returns (g: nat, health: Health)
      ensures g == generation
      ensures health.Ended? <==> now >= validity.notAfter
      ensures health.ReloadFailed? <==> failed && now < validity.notAfter
      ensures health.Expiring? <==> !failed && now < validity.notAfter <= now + warning
    {
      if now >= validity.notAfter { return generation, Ended; }
      if failed { return generation, ReloadFailed; }
      if validity.notAfter - now <= warning { return generation, Expiring; }
      return generation, Current;
    }
  }

  // ------------------------------------------------------------- polling runs

  /** One poll: the load fails or its material does not build, or a candidate is offered. */
  datatype Poll<T> = Fails | Candidate(time: nat, config: T, validity: Validity, now: int)

  function AfterPoll<T>(cell: Cell<T>, states: seq<State>, poll: Poll<T>): Cell<T>
    requires poll.Candidate? ==> poll.time < |states| && states[poll.time].dir.manifest.Some?
  {
    match poll
    case Fails => cell.(failed := true)
    case Candidate(time, config, v, now) =>
      var m := states[time].dir.manifest.value;
      var offered := Offer(cell, m.generation, Sha256(m), config, v, now);
      if offered.reply.Ok? then offered.cell else offered.cell.(failed := true)
  }

  /** Each candidate comes from a manifest that was on disk when it was read, and the
      manifests are read one after another. */
  ghost predicate Polls<T(!new)>(states: seq<State>, from: nat, polls: seq<Poll<T>>)
    decreases |polls|
  {
    polls == [] ||
    match polls[0]
    case Fails => Polls(states, from, polls[1..])
    case Candidate(time, _, _, _) =>
      && from <= time < |states| && states[time].dir.manifest.Some?
      && Polls(states, time, polls[1..])
  }

  /** Whether the cell ever met a stale or conflicting generation. */
  ghost predicate EverRefused<T(!new)>(cell: Cell<T>, states: seq<State>, from: nat, polls: seq<Poll<T>>)
    requires Polls(states, from, polls)
    decreases |polls|
  {
    polls != [] &&
    match polls[0]
    case Fails => EverRefused(AfterPoll(cell, states, Fails), states, from, polls[1..])
    case Candidate(time, config, v, now) =>
      var m := states[time].dir.manifest.value;
      var reply := Offer(cell, m.generation, Sha256(m), config, v, now).reply;
      || (reply.Err? && (reply.error.StaleGeneration? || reply.error.ConflictingGeneration?))
      || EverRefused(AfterPoll(cell, states, polls[0]), states, time, polls[1..])
  }

  /** The cell holds a manifest that was on disk at time `at`. */
  ghost predicate HoldsFrom<T(!new)>(cell: Cell<T>, states: seq<State>, at: nat) {
    && at < |states| && states[at].dir.manifest.Some?
    && cell.generation == states[at].dir.manifest.value.generation
    && cell.digest == Sha256(states[at].dir.manifest.value)
  }

  /** From a cell filled by an earlier load, no later load is ever refused as stale or
      conflicting, whatever is published, cut off or fails to load in between. */
  lemma {:induction false} ReloadNeverRefuses<T(!new)>(ca: Bytes, states: seq<State>, cell: Cell<T>, at: nat,
                                                       from: nat, polls: seq<Poll<T>>)
    requires History(ca, states) && Progressive(states[|states| - 1].begun)
    requires HoldsFrom(cell, states, at) && at <= from && Polls(states, from, polls)
    ensures !EverRefused(cell, states, from, polls)
    decreases |polls|
  {
    if polls != [] {
      match polls[0]
      case Fails => ReloadNeverRefuses(ca, states, AfterPoll(cell, states, Fails), at, from, polls[1..]);
      case Candidate(time, config, v, now) =>
        ManifestsProgress(ca, states, at, time);
        var next := AfterPoll(cell, states, polls[0]);
        var held := if next.generation == cell.generation then at else time;
        ReloadNeverRefuses(ca, states, next, held, time, polls[1..]);
    }
  }

  // ------------------------------------------------------------ what is served

  /** The two cells serve the same configuration of the same generation. */
  predicate SameService<T(==)>(a: Cell<T>, b: Cell<T>) {
    a.generation == b.generation && a.digest == b.digest && a.config == b.config && a.validity == b.validity
  }

  /** The cell serves exactly what was offered, all of it. */
  predicate ServesOffer<T(==)>(cell: Cell<T>, generation: nat, digest: Digest<Manifest>, config: T, v: Validity) {
    cell.generation == generation && cell.digest == digest && cell.config == config && cell.validity == v
  }

  /** A candidate is installed, whole, exactly if it is in its time and newer; otherwise
      the cell goes on serving what it did. */
  lemma InstalledExactly<T>(cell: Cell<T>, generation: nat, digest: Digest<Manifest>, config: T, v: Validity, now: int)
    ensures var offered := Offer(cell, generation, digest, config, v, now);
            && (offered.reply == Ok(true) <==> v.notBefore <= now < v.notAfter && cell.generation < generation)
            && (offered.reply == Ok(true) ==> ServesOffer(offered.cell, generation, digest, config, v))
            && (offered.reply != Ok(true) ==> SameService(offered.cell, cell))
            && (offered.reply.Ok? ==> !offered.cell.failed)
            && (offered.reply.Err? ==> offered.cell == cell)
  {
  }

  function AfterPolls<T>(cell: Cell<T>, states: seq<State>, polls: seq<Poll<T>>): Cell<T>
    requires forall i | 0 <= i < |polls| && polls[i].Candidate? ::
               polls[i].time < |states| && states[polls[i].time].dir.manifest.Some?
  {
    if polls == [] then cell
    else AfterPoll(AfterPolls(cell, states, polls[..|polls| - 1]), states, polls[|polls| - 1])
  }

  /** The i-th poll offered a candidate in its time. */
  predicate InItsTime<T>(poll: Poll<T>) {
    poll.Candidate? && poll.validity.notBefore <= poll.now < poll.validity.notAfter
  }

  /** The cell serves what the poll offered. */
  predicate ServesPoll<T(==)>(cell: Cell<T>, states: seq<State>, poll: Poll<T>)
    requires poll.Candidate? ==> poll.time < |states| && states[poll.time].dir.manifest.Some?
  {
    InItsTime(poll) &&
    var m := states[poll.time].dir.manifest.value;
    ServesOffer(cell, m.generation, Sha256(m), poll.config, poll.validity)
  }

  /** After any polls the cell serves one thing whole: what it served at first, or one
      candidate that was offered in its time; nothing offered in its time is newer. */
  lemma {:induction false} ServesNewest<T(!new)>(cell: Cell<T>, states: seq<State>, polls: seq<Poll<T>>)
    requires forall i | 0 <= i < |polls| && polls[i].Candidate? ::
               polls[i].time < |states| && states[polls[i].time].dir.manifest.Some?
    ensures var end := AfterPolls(cell, states, polls);
            && (SameService(end, cell) || exists i | 0 <= i < |polls| :: ServesPoll(end, states, polls[i]))
            && cell.generation <= end.generation
            && (forall i | 0 <= i < |polls| && InItsTime(polls[i]) ::
                  states[polls[i].time].dir.manifest.value.generation <= end.generation)
    decreases |polls|
  {
    if polls != [] {
      var front, last := polls[..|polls| - 1], polls[|polls| - 1];
      ServesNewest(cell, states, front);
      var before, end := AfterPolls(cell, states, front), AfterPolls(cell, states, polls);
      forall i | 0 <= i < |front| ensures polls[i] == front[i] {}
      PollServes(before, states, last);
      if ServesPoll(end, states, last) {
        assert ServesPoll(end, states, polls[|polls| - 1]);
      } else if !SameService(before, cell) {
        var i :| 0 <= i < |front| && ServesPoll(before, states, front[i]);
        assert ServesPoll(end, states, polls[i]);
      }
    }
  }

  /** One poll installs its candidate whole if that is in its time and newer, and changes
      nothing of what is served otherwise; it counts as failed unless it brought a newer
      candidate or the same again. */
  lemma PollServes<T>(cell: Cell<T>, states: seq<State>, poll: Poll<T>)
    requires poll.Candidate? ==> poll.time < |states| && states[poll.time].dir.manifest.Some?
    ensures var after := AfterPoll(cell, states, poll);
            if InItsTime(poll) && cell.generation < states[poll.time].dir.manifest.value.generation
            then ServesPoll(after, states, poll) && !after.failed
            else
              && SameService(after, cell)
              && (after.failed <==> !(InItsTime(poll) && cell.generation == states[poll.time].dir.manifest.value.generation
                                      && cell.digest == Sha256(states[poll.time].dir.manifest.value)))
  {
  }
}
