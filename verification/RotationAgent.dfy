/** The Agent's `rotate` as it is written, each of its durable effects a step of the protocol. */
module RotationAgent {
  import opened Primitives
  import opened Enrollment
  import opened CredentialBundles
  import opened Rotation
  import opened RotationRecovery
  import opened Snapshots

  /** Steps that are not the Agent's own. */
  predicate Outside(step: Step) {
    step.ServePreflight? || step.ServeCommit? || step.ServeActivate? || step.Foreign?
  }

  /** The service touches neither the disk nor the program. */
  predicate SameAgent(a: World, b: World) {
    b.disk == a.disk && b.gone == a.gone && b.pc == a.pc && b.bundles == a.bundles && b.ledger == a.ledger
  }

  lemma OutsideKeepsAgent(w: World, step: Step)
    requires Outside(step)
    ensures SameAgent(w, Do(w, step))
  {
  }

  /** The files were in each marked state at its point of the run. */
  ghost predicate TrailOk(start: World, trace: seq<Step>, trail: seq<Mark>) {
    forall i | 0 <= i < |trail| :: trail[i].at <= |trace| && Shows(Run(start, trace[..trail[i].at]), trail[i])
  }

  predicate Shows(w: World, mark: Mark) {
    w.disk == mark.disk && w.gone == mark.gone
  }

  lemma TrailGrows(start: World, trace: seq<Step>, trail: seq<Mark>, step: Step)
    requires TrailOk(start, trace, trail)
    ensures TrailOk(start, trace + [step], trail)
  {
    forall i | 0 <= i < |trail| ensures Shows(Run(start, (trace + [step])[..trail[i].at]), trail[i]) {
      assert (trace + [step])[..trail[i].at] == trace[..trail[i].at];
    }
  }

  lemma MarkNow(start: World, trace: seq<Step>, trail: seq<Mark>)
    requires TrailOk(start, trace, trail)
    ensures TrailOk(start, trace, trail + [Mark(Run(start, trace).disk, Run(start, trace).gone, |trace|)])
  {
    assert trace[..|trace|] == trace;
  }

  /** A value nobody has used yet stays so while a rejection is taken in. */
  lemma StaysFresh(w: World, step: Step, j: Journal)
    requires (step.ReceiveIssued? || step.ReceiveActivated?) && Fresh(w, j)
    ensures Fresh(Do(w, step), j)
  {
  }

  datatype Outcome = Done | Rejected(error: Error) | Interrupted

  /** Everything about one call of `rotate` that is not the Agent's to decide: the random
      journals it draws, what the service and others do before each answer, the answers
      (none for a transport error or a timeout), whether the issued credential is in
      order, can be stored, and is reloaded in time, and whether the renaming in a
      replacement of each file succeeds. */
  datatype Call = Call(
    made: Journal, again: Journal,
    beforeIssued: seq<Step>, issued: Option<Result<Issuance, Error>>,
    verified: bool, stored: bool, reloaded: bool,
    beforeActivated: seq<Step>, activated: Option<Result<nat, Error>>,
    journalRenamed: bool, tokenRenamed: bool)

  ghost function AskedIssue(w: World, call: Call): World {
    Do(Do(Do(w, ReadToken), LoadJournal(call.made)), Begin)
  }

  ghost function AskedActivation(w: World, j: Journal, issuance: Issuance): World {
    Do(Do(Do(w, ReceiveIssued(Issued(j.request, Ok(issuance)))), PublishBundle), SendActivate)
  }

  /** The service has given this answer, and a journal drawn on its account is fresh. */
  ghost predicate IssueAnswered(w: World, j: Journal, call: Call) {
    call.issued.Some? ==>
      && Issued(j.request, call.issued.value) in w.replies
      && (call.issued.value == Err(RequestExpired) ==> Fresh(w, call.again))
  }

  ghost predicate ActivationAnswered(w: World, j: Journal, call: Call) {
    call.activated.Some? ==>
      && Activated(j.request, call.activated.value) in w.replies
      && (call.activated.value == Err(RequestExpired) ==> Fresh(w, call.again))
  }

  predicate AllOutside(steps: seq<Step>) {
    forall i | 0 <= i < |steps| :: Outside(steps[i])
  }

  /** The call can go this way from `w`: answers were given, and random values are fresh. */
  ghost predicate Possible(w: World, call: Call) {
    && AllOutside(call.beforeIssued) && AllOutside(call.beforeActivated)
    && (w.disk.journal.None? ==> Fresh(w, call.made))
    && var asking := AskedIssue(w, call);
       !w.gone && asking.pc.AwaitIssued? ==>
         var j, answered := asking.pc.journal, Run(asking, call.beforeIssued);
         && IssueAnswered(answered, j, call)
         && (call.issued.Some? && call.issued.value.Ok? ==>
               var activating := AskedActivation(answered, j, call.issued.value.value);
               ActivationAnswered(Run(activating, call.beforeActivated), j, call))
  }

  /** What a rejection leaves of the journal. */
  function Kept(j: Journal, error: Error, call: Call): Option<Journal> {
    if !error.RequestExpired? then Some(j) else if call.journalRenamed then Some(call.again) else None
  }

  /** The outcome of a call and the two files it leaves. */
  datatype Ending = Ending(outcome: Outcome, token: Token, gone: bool, journal: Option<Journal>)

  /** A rejection reaches the caller, unless the replacement it called for has failed. */
  function AfterReject(token: Token, j: Journal, error: Error, call: Call): Ending {
    Ending(if error.RequestExpired? && !call.journalRenamed then Interrupted else Rejected(error), token, false,
           Kept(j, error, call))
  }

  function AfterActivation(token: Token, j: Journal, call: Call): Ending {
    match call.activated
    case None => Ending(Interrupted, token, false, Some(j))
    case Some(Err(e)) => AfterReject(token, j, e, call)
    case Some(Ok(_)) =>
      if call.tokenRenamed then Ending(Done, j.next, false, None) else Ending(Interrupted, token, true, Some(j))
  }

  function AfterCall(token: Token, gone: bool, journal: Option<Journal>, call: Call): Ending {
    var j := if journal.Some? then journal.value else call.made;
    if gone then Ending(Interrupted, token, true, journal)
    else if token == j.next then Ending(Done, token, false, None)
    else match call.issued
      case None => Ending(Interrupted, token, false, Some(j))
      case Some(Err(e)) => AfterReject(token, j, e, call)
      case Some(Ok(_)) =>
        if !call.verified || !call.stored || !call.reloaded then Ending(Interrupted, token, false, Some(j))
        else AfterActivation(token, j, call)
  }

  /** The two files after a write, and how far the run had come then. */
  datatype Mark = Mark(disk: Disk, gone: bool, at: nat)

  class Agent {
    /** The token file, or what it held before it went missing. */
    var token: Token
    var gone: bool
    var journal: Option<Journal>
    var bundles: seq<Bundle>
    ghost var world: World
    ghost const start: World
    ghost var trace: seq<Step>
    /** Every state the two files have been in. */
    ghost var trail: seq<Mark>

    /** The files are the protocol's disk, everything so far was a run of it, and so were
        all earlier states of the files. */
    ghost predicate Valid()
      reads this
    {
      && world == Run(start, trace)
      && world.disk == Disk(token, journal) && world.gone == gone && world.bundles == bundles
      && TrailOk(start, trace, trail)
    }

    constructor (t: Token, ghost w: World)
      requires w.disk == Disk(t, None) && w.bundles == [] && !w.gone
      ensures Valid() && world == w && start == w && token == t && !gone && journal == None
    {
      token, gone, journal, bundles := t, false, None, [];
      world, start, trace := w, w, [];
      trail := [Mark(Disk(t, None), false, 0)];
    }

    ghost method Advance(step: Step)
      requires world == Run(start, trace) && TrailOk(start, trace, trail)
      modifies this`world, this`trace
      ensures world == Run(start, trace) && world == Do(old(world), step) && TrailOk(start, trace, trail)
      ensures trace == old(trace) + [step]
    {
      RunAppend(start, trace, [step]);
      RunOne(world, step);
      TrailGrows(start, trace, trail, step);
      world, trace := Do(world, step), trace + [step];
    }

    /** The changes to the files there are: the token file goes, or comes back with a new
        token; the journal goes or comes. Each is one step of the protocol, and the files
        are on record after it. */
    method SaveToken(t: Option<Token>, ghost step: Step)
      requires Valid() && Do(world, step).disk == Disk(if t.Some? then t.value else token, journal)
      requires Do(world, step).gone == t.None? && Do(world, step).bundles == bundles
      modifies this`token, this`gone, this`world, this`trace, this`trail
      ensures Valid() && token == (if t.Some? then t.value else old(token)) && gone == t.None?
      ensures world == Do(old(world), step)
      ensures trail == old(trail) + [Mark(Disk(token, journal), gone, |trace|)]
    {
      if t.Some? { token := t.value; }
      gone := t.None?;
      Advance(step);
      MarkNow(start, trace, trail);
      trail := trail + [Mark(Disk(token, journal), gone, |trace|)];
    }

    method SaveJournal(j: Option<Journal>, ghost step: Step)
      requires Valid() && Do(world, step).disk == Disk(token, j)
      requires Do(world, step).gone == gone && Do(world, step).bundles == bundles
      modifies this`journal, this`world, this`trace, this`trail
      ensures Valid() && journal == j && world == Do(old(world), step)
      ensures trail == old(trail) + [Mark(Disk(token, journal), gone, |trace|)]
    {
      journal := j;
      Advance(step);
      MarkNow(start, trace, trail);
      trail := trail + [Mark(Disk(token, journal), gone, |trace|)];
    }

    /** The service and everybody else act for a while. */
    ghost method Elapse(steps: seq<Step>)
      requires Valid() && AllOutside(steps)
      modifies this`world, this`trace
      ensures Valid() && SameAgent(old(world), world) && world == Run(old(world), steps)
      decreases |steps|
    {
      if steps != [] {
        OutsideKeepsAgent(world, steps[0]);
        Advance(steps[0]);
        Elapse(steps[1..]);
      }
    }

    /** Any early return or stop: the files stay, the program forgets. */
    method Stop()
      requires Valid()
      modifies this`world, this`trace
      ensures Valid() && world.pc == Idle
    {
      Advance(Crash);
    }

    /** Reads the token file, then loads the journal or writes a new one. */
    method LoadOrCreateJournal(made: Journal) returns (t: Token, j: Journal)
      requires Valid() && world.pc == Idle && !gone && (journal.None? ==> Fresh(world, made))
      modifies this
      ensures Valid() && world == Do(Do(old(world), ReadToken), LoadJournal(made))
      ensures world.pc == HasJournal(t, j) && t == token && journal == Some(j)
      ensures token == old(token) && gone == old(gone) && j == if old(journal).Some? then old(journal).value else made
    {
      t := token;
      Advance(ReadToken);
      if journal.Some? {
        j := journal.value;
        Advance(LoadJournal(made));
      } else {
        j := made;
        SaveJournal(Some(made), LoadJournal(made));
      }
    }

    /** A finished journal is removed; otherwise the request goes out. */
    method BeginIssue(t: Token, j: Journal) returns (finished: bool)
      requires Valid() && world.pc == HasJournal(t, j)
      modifies this
      ensures Valid() && world == Do(old(world), Begin) && token == old(token) && gone == old(gone)
      ensures finished == (t == j.next)
      ensures if finished then world.pc == Idle && journal == None
              else world.pc == AwaitIssued(j) && journal == old(journal)
                   && Enroll(j.request, t, j.next, j.csr) in world.sent
    {
      if t == j.next {
        SaveJournal(None, Begin);
        return true;
      }
      Advance(Begin);
      return false;
    }

    /** A rejection ends the call; an expired request has its journal replaced first, by a
        removal and a renaming that may fail. */
    method Reject(error: Error, call: Call) returns (r: Outcome)
      requires Valid() && (error.RequestExpired? ==> Fresh(world, call.again))
      requires (world.pc.AwaitIssued? || world.pc.AwaitActivated?) && journal == Some(world.pc.journal) && !gone
      requires (if world.pc.AwaitIssued? then Issued(world.pc.journal.request, Err(error))
                else Activated(world.pc.journal.request, Err(error))) in world.replies
      modifies this
      ensures Valid() && world.pc == Idle
      ensures Ending(r, token, gone, journal) == AfterReject(old(token), old(world.pc.journal), error, call)
    {
      ghost var step := if world.pc.AwaitIssued? then ReceiveIssued(Issued(world.pc.journal.request, Err(error)))
                        else ReceiveActivated(Activated(world.pc.journal.request, Err(error)));
      if !error.RequestExpired? {
        Advance(step);
        return Rejected(error);
      }
      StaysFresh(world, step, call.again);
      SaveJournal(None, step);
      if !call.journalRenamed {
        Stop();
        return Interrupted;
      }
      SaveJournal(Some(call.again), ReplaceJournal(call.again));
      return Rejected(error);
    }

    /** Checks the issued credential, publishes its bundle, waits for it to be reloaded and
        asks for its activation. Any failure leaves the files as they are. */
    method PublishIssued(j: Journal, issuance: Issuance, verified: bool, stored: bool, reloaded: bool)
      returns (asked: bool)
      requires Valid() && world.pc == AwaitIssued(j) && Issued(j.request, Ok(issuance)) in world.replies
      modifies this
      ensures Valid() && token == old(token) && gone == old(gone) && journal == old(journal)
      ensures asked == (verified && stored && reloaded)
      ensures bundles == old(bundles) + (if verified && stored
                                         then [Bundle(issuance.generation, issuance.certificate, j.key)] else [])
      ensures asked ==>
                && world == AskedActivation(old(world), j, issuance) && world.pc == AwaitActivated(j)
                && Activating(j.request, j.next, issuance.fingerprint) in world.sent
      ensures !asked ==> world.pc == Idle
    {
      Advance(ReceiveIssued(Issued(j.request, Ok(issuance))));
      if !verified || !stored {
        Stop();
        return false;
      }
      bundles := bundles + [Bundle(issuance.generation, issuance.certificate, j.key)];
      Advance(PublishBundle);
      if !reloaded {
        Stop();
        return false;
      }
      Advance(SendActivate);
      return true;
    }

    /** Replaces the token file, by a removal and a renaming that may fail. */
    method ReplaceToken(j: Journal, renamed: bool)
      requires Valid() && world.pc == Confirmed(j) && !gone
      modifies this
      ensures Valid() && bundles == old(bundles) && journal == old(journal) && gone == !renamed
      ensures token == (if renamed then j.next else old(token)) && world.pc == if renamed then TokenWritten(j) else Idle
      ensures |trail| == |old(trail)| + (if renamed then 2 else 1) && old(trail) <= trail
      ensures var first := trail[|old(trail)|]; first.disk == Disk(old(token), journal) && first.gone
      ensures renamed ==> var last := trail[|trail| - 1]; last.disk == Disk(j.next, journal) && !last.gone
    {
      SaveToken(None, RemoveToken);
      if renamed { SaveToken(Some(j.next), WriteToken); } else { Stop(); }
    }

    /** Replaces the token, and only then removes the journal. */
    method Complete(j: Journal, version: nat, renamed: bool) returns (r: Outcome)
      requires Valid() && world.pc == AwaitActivated(j) && Activated(j.request, Ok(version)) in world.replies && !gone
      modifies this
      ensures Valid() && world.pc == Idle && bundles == old(bundles) && old(trail) <= trail
      ensures renamed ==>
                && r == Done && token == j.next && !gone && journal == None && |trail| == |old(trail)| + 3
                && trail[|trail| - 2].disk == Disk(j.next, old(journal)) && !trail[|trail| - 2].gone
                && trail[|trail| - 1].disk == Disk(j.next, None) && !trail[|trail| - 1].gone
      ensures !renamed ==> r == Interrupted && token == old(token) && gone && journal == old(journal)
    {
      Advance(ReceiveActivated(Activated(j.request, Ok(version))));
      ReplaceToken(j, renamed);
      if !renamed { return Interrupted; }
      SaveJournal(None, RemoveJournal);
      return Done;
    }

    /** The part of a call after its activation was asked for. */
    method FinishCall(j: Journal, call: Call) returns (r: Outcome)
      requires Valid() && world.pc == AwaitActivated(j) && journal == Some(j) && !gone
      requires AllOutside(call.beforeActivated)
      requires ActivationAnswered(Run(world, call.beforeActivated), j, call)
      modifies this
      ensures Valid() && world.pc == Idle
      ensures Ending(r, token, gone, journal) == AfterActivation(old(token), j, call)
    {
      Elapse(call.beforeActivated);
      match call.activated
      case None =>
        Stop();
        return Interrupted;
      case Some(Err(e)) => r := Reject(e, call);
      case Some(Ok(version)) => r := Complete(j, version, call.tokenRenamed);
    }

    /** The part of a call after its request went out. */
    method AwaitIssue(j: Journal, call: Call) returns (r: Outcome)
      requires Valid() && world.pc == AwaitIssued(j) && journal == Some(j) && token != j.next && !gone
      requires AllOutside(call.beforeIssued) && AllOutside(call.beforeActivated)
      requires var answered := Run(world, call.beforeIssued);
               && IssueAnswered(answered, j, call)
               && (call.issued.Some? && call.issued.value.Ok? ==>
                     var activating := AskedActivation(answered, j, call.issued.value.value);
                     ActivationAnswered(Run(activating, call.beforeActivated), j, call))
      modifies this
      ensures Valid() && world.pc == Idle
      ensures Ending(r, token, gone, journal) == AfterCall(old(token), false, Some(j), call)
    {
      Elapse(call.beforeIssued);
      match call.issued
      case None =>
        Stop();
        return Interrupted;
      case Some(Err(e)) => r := Reject(e, call);
      case Some(Ok(issuance)) =>
        var asked := PublishIssued(j, issuance, call.verified, call.stored, call.reloaded);
        if !asked { return Interrupted; }
        r := FinishCall(j, call);
    }

    /** One whole call of `rotate`. It leaves the files as specified, and every state it
        took them through on the way is on record in `trail`. */
    method Rotate(call: Call) returns (r: Outcome)
      requires Valid() && world.pc == Idle && Possible(world, call)
      modifies this
      ensures Valid() && world.pc == Idle
      ensures Ending(r, token, gone, journal) == AfterCall(old(token), old(gone), old(journal), call)
    {
      if gone { return Interrupted; }
      var t, j := LoadOrCreateJournal(call.made);
      var finished := BeginIssue(t, j);
      if finished { return Done; }
      r := AwaitIssue(j, call);
    }

    /** Whatever the service has done by then, the files as they are and as they ever were
        are those of a run; at every point of it the Agent can go on from them, except
        inside the replacement of the token file, after a stop there, or from a
        bootstrap token that is spent. */
    lemma FilesAreRecoverable(n: nat, i: nat, now: nat, row: Option<Fingerprint>)
      requires Valid() && Start(start) && n <= |trace| && i < |trail|
      requires AnswersRenewalQuery(Run(start, trace[..n]).db, Sha256(Run(start, trace[..n]).disk.token), row)
      ensures Run(start, trace).disk == Disk(token, journal) && Run(start, trace).gone == gone
      ensures trail[i].at <= |trace| && Shows(Run(start, trace[..trail[i].at]), trail[i])
      ensures var past := Run(start, trace[..n]);
              && (Recovers(past, now, row) <==> !Stuck(past, now) && !past.gone)
              && (start.ledger.root.Some? ==> !Stuck(past, now))
    {
      RotationIsCrashSafe(start, trace[..n], now, row);
    }
  }
}
