/** Runs of the writer under a given script of its senders. */
module WriterScript {
  import opened FairQueue
  import opened Writer
  import opened WriterOrder

  /** Every step so far, with the state it was taken in. */
  datatype Past = Start | After(before: Past, from: State, step: Step)

  /** `s` is where the machine stands after `past`. */
  ghost predicate Reached(past: Past, s: State, capacity: nat) {
    && Good(s, capacity)
    && match past
       case Start => s == Initial(capacity)
       case After(before, from, step) => Reached(before, from, capacity) && s == Do(from, step, capacity)
  }

  lemma Advance(past: Past, s: State, step: Step, capacity: nat)
    requires Reached(past, s, capacity)
    ensures Reached(After(past, s, step), Do(s, step, capacity), capacity)
  {
    StepKeepsGood(s, step, capacity);
  }

  /** The actor's own steps, with the progress they make. */
  lemma Worked(past: Past, s: State, to: State, capacity: nat)
    requires Reached(past, s, capacity) && !s.pc.Done? && (s.pc.Wait? ==> Ready(s))
    requires WorkStep(s, capacity) == to
    ensures Reached(After(past, s, Work), to, capacity) && Left(to) < Left(s)
  {
    Advance(past, s, Work, capacity);
    WorkShrinks(s, capacity);
  }

  // ---------------------------------------------------------------- the script

  /** What the senders have done. */
  function Acts(past: Past): seq<Step> {
    match past
    case Start => []
    case After(before, _, step) => if step.Work? then Acts(before) else Acts(before) + [step]
  }

  /** A batch without the steps that are not a sender's. */
  function Asked(batch: seq<Step>): seq<Step> {
    if batch == [] then []
    else Asked(batch[..|batch| - 1]) + (if batch[|batch| - 1].Work? then [] else [batch[|batch| - 1]])
  }

  /** All that the batches of a script ask the senders to do. */
  function AllAsked(batches: seq<seq<Step>>): seq<Step> {
    if batches == [] then [] else AllAsked(batches[..|batches| - 1]) + Asked(batches[|batches| - 1])
  }

  predicate Closes(step: Step) {
    step.CloseControl? || step.Abandon? || step.CloseData?
  }

  predicate OnlyCloses(steps: seq<Step>) {
    forall i | 0 <= i < |steps| :: Closes(steps[i])
  }

  /** The script, what is left of it, and what the senders have done. */
  datatype Progress = Progress(given: seq<seq<Step>>, left: seq<seq<Step>>, acts: seq<Step>)

  /** The senders have done exactly the batches that are no longer left, in order, and
      once nothing is left they have only closed. */
  predicate Follows(p: Progress) {
    match p
    case Progress(given, left, acts) =>
      && |left| <= |given| && left == given[|given| - |left|..]
      && var mine := AllAsked(given[..|given| - |left|]);
         mine <= acts && OnlyCloses(acts[|mine|..]) && (left != [] ==> acts == mine)
  }

  lemma NextBatch(given: seq<seq<Step>>, left: seq<seq<Step>>, acts: seq<Step>)
    requires Follows(Progress(given, left, acts)) && left != []
    ensures Follows(Progress(given, left[1..], acts + Asked(left[0])))
  {
    var n := |given| - |left|;
    assert left[0] == given[n] && left[1..] == given[n + 1..];
    assert given[..n + 1][..n] == given[..n] && given[..n + 1][n] == left[0];
    assert AllAsked(given[..n + 1]) == AllAsked(given[..n]) + Asked(left[0]);
  }

  lemma OneMoreClose(given: seq<seq<Step>>, acts: seq<Step>, step: Step)
    requires Follows(Progress(given, [], acts)) && Closes(step)
    ensures Follows(Progress(given, [], acts + [step]))
  {
    var mine := AllAsked(given[..|given|]);
    assert (acts + [step])[|mine|..] == acts[|mine|..] + [step];
  }

  /** What a batch of the senders does to the lanes. */
  function OutsideAll(l: Lanes, batch: seq<Step>): Lanes
    decreases |batch|
  {
    if batch == [] then l else Outside(OutsideAll(l, batch[..|batch| - 1]), batch[|batch| - 1])
  }

  // -------------------------------------------------- what a script amounts to

  predicate HasClose(acts: seq<Step>) {
    exists i | 0 <= i < |acts| :: acts[i].CloseControl?
  }

  /** The control frames sent before the control lane is closed. */
  function ControlOffered(acts: seq<Step>): seq<Frame> {
    if acts == [] then []
    else
      var last, front := acts[|acts| - 1], acts[..|acts| - 1];
      ControlOffered(front) + (if last.SendControl? && !HasClose(front) then [last.frame] else [])
  }

  /** The data frames of one stream, with or without a permit. */
  function DataOffered(acts: seq<Step>, k: StreamId): seq<Frame> {
    if acts == [] then []
    else
      var last, front := acts[|acts| - 1], acts[..|acts| - 1];
      DataOffered(front, k) + (if last.SendData? && last.frame.stream == k then [last.frame] else [])
  }

  /** The data frames of one stream that were handed over with a permit. */
  function HandedOver(past: Past, k: StreamId): seq<Frame> {
    match past
    case Start => []
    case After(before, from, step) => HandedOver(before, k) + NewData(from.lanes, step, k)
  }

  /** `a` is `b` with some of it left out. */
  predicate Within<T(==)>(a: seq<T>, b: seq<T>) {
    if b == [] then a == []
    else
      || Within(a, b[..|b| - 1])
      || (a != [] && a[|a| - 1] == b[|b| - 1] && Within(a[..|a| - 1], b[..|b| - 1]))
  }

  lemma OneMoreWithin<T>(a: seq<T>, b: seq<T>, x: T)
    requires Within(a, b)
    ensures Within(a, b + [x]) && Within(a + [x], b + [x])
  {
    assert (b + [x])[..|b|] == b && (a + [x])[..|a|] == a;
  }

  lemma OneMoreAct(acts: seq<Step>, act: Step, k: StreamId)
    ensures HasClose(acts + [act]) == (HasClose(acts) || act.CloseControl?)
    ensures ControlOffered(acts + [act])
            == ControlOffered(acts) + (if act.SendControl? && !HasClose(acts) then [act.frame] else [])
    ensures DataOffered(acts + [act], k)
            == DataOffered(acts, k) + (if act.SendData? && act.frame.stream == k then [act.frame] else [])
  {
    var longer := acts + [act];
    assert longer[..|acts|] == acts && longer[|acts|] == act;
    assert forall i | 0 <= i < |acts| :: longer[i] == acts[i];
  }

  /** More acts only add frames, and none once the lane or the senders have closed. */
  lemma {:induction false} OfferedGrows(a: seq<Step>, b: seq<Step>, k: StreamId)
    requires a <= b
    ensures ControlOffered(a) <= ControlOffered(b)
    ensures HasClose(a) || OnlyCloses(b[|a|..]) ==> ControlOffered(a) == ControlOffered(b)
    ensures HasClose(a) ==> HasClose(b)
    ensures forall x | Within(x, DataOffered(a, k)) :: Within(x, DataOffered(b, k))
    decreases |b|
  {
    if a == b {
    } else {
      var front, act := b[..|b| - 1], b[|b| - 1];
      OfferedGrows(a, front, k);
      OneMoreAct(front, act, k);
      assert front + [act] == b;
      assert b[|a|..] == front[|a|..] + [act];
      if act.SendData? && act.frame.stream == k {
        forall x | Within(x, DataOffered(front, k)) ensures Within(x, DataOffered(b, k)) {
          OneMoreWithin(x, DataOffered(front, k), act.frame);
        }
      } else {
        assert DataOffered(b, k) == DataOffered(front, k);
      }
    }
  }

  /** What the machine carries is what the senders' acts amount to. */
  lemma {:induction false} CarriesActs(past: Past, s: State, capacity: nat, k: StreamId)
    requires Reached(past, s, capacity)
    ensures Keyed(s.scheduled)
    ensures CarriedControl(s) == ControlOffered(Acts(past)) && s.lanes.controlClosed == HasClose(Acts(past))
    ensures Carried(s, k) == HandedOver(past, k) && Within(HandedOver(past, k), DataOffered(Acts(past), k))
    decreases past
  {
    match past
    case Start =>
    case After(before, from, step) =>
      CarriesActs(before, from, capacity, k);
      StepCarries(from, step, capacity, k);
      StepOffersControl(Acts(before), from, step, capacity);
      StepOffersData(Acts(before), HandedOver(before, k), from.lanes, step, k);
  }

  lemma StepOffersControl(acts: seq<Step>, from: State, step: Step, capacity: nat)
    requires Good(from, capacity) && from.lanes.controlClosed == HasClose(acts)
    ensures var after := if step.Work? then acts else acts + [step];
            && ControlOffered(after) == ControlOffered(acts) + NewControl(from.lanes, step)
            && Do(from, step, capacity).lanes.controlClosed == HasClose(after)
  {
    if step.Work? {
      WorkLeavesClosed(from, capacity);
    } else {
      OneMoreAct(acts, step, StreamId(0));
      OutsideCloses(from.lanes, step);
    }
  }

  lemma WorkLeavesClosed(s: State, capacity: nat)
    requires WellFormed(s.scheduled)
    ensures WorkStep(s, capacity).lanes.controlClosed == s.lanes.controlClosed
  {
  }

  lemma OutsideCloses(l: Lanes, step: Step)
    ensures Outside(l, step).controlClosed == (l.controlClosed || step.CloseControl?)
  {
  }

  lemma StepOffersData(acts: seq<Step>, accepted: seq<Frame>, l: Lanes, step: Step, k: StreamId)
    requires Within(accepted, DataOffered(acts, k))
    ensures Within(accepted + NewData(l, step, k), DataOffered(if step.Work? then acts else acts + [step], k))
  {
    OneMoreAct(acts, step, k);
    if step.SendData? && step.frame.stream == k {
      OneMoreWithin(accepted, DataOffered(acts, k), step.frame);
      assert accepted + [] == accepted;
    } else {
      assert accepted + NewData(l, step, k) == accepted;
      assert !step.Work? ==> DataOffered(acts + [step], k) == DataOffered(acts, k);
    }
  }

  lemma {:induction false} AskedSoFar(given: seq<seq<Step>>, n: nat)
    requires n <= |given|
    ensures AllAsked(given[..n]) <= AllAsked(given)
    decreases |given|
  {
    if n < |given| {
      AskedSoFar(given[..|given| - 1], n);
      assert given[..|given| - 1][..n] == given[..n];
    } else {
      assert given[..n] == given;
    }
  }

  /** What the acts so far amount to is the first of what the script amounts to, and all
      of its control frames once the control lane is closed. */
  lemma OfferedByScript(given: seq<seq<Step>>, left: seq<seq<Step>>, acts: seq<Step>, k: StreamId)
    requires Follows(Progress(given, left, acts))
    ensures ControlOffered(acts) <= ControlOffered(AllAsked(given))
    ensures HasClose(acts) ==> ControlOffered(acts) == ControlOffered(AllAsked(given))
    ensures forall x | Within(x, DataOffered(acts, k)) :: Within(x, DataOffered(AllAsked(given), k))
  {
    var n := |given| - |left|;
    AskedSoFar(given, n);
    if left == [] {
      assert given[..n] == given;
      OfferedGrows(AllAsked(given), acts, k);
      ClosesOffersNoData(AllAsked(given), acts, k);
    } else {
      OfferedGrows(acts, AllAsked(given), k);
    }
  }

  lemma {:induction false} ClosesOffersNoData(a: seq<Step>, b: seq<Step>, k: StreamId)
    requires a <= b && OnlyCloses(b[|a|..])
    ensures DataOffered(a, k) == DataOffered(b, k)
    decreases |b|
  {
    if a == b {
    } else {
      var front, act := b[..|b| - 1], b[|b| - 1];
      assert b[|a|..] == front[|a|..] + [act];
      assert b[|a|..][|b| - 1 - |a|] == act;
      ClosesOffersNoData(a, front, k);
    }
  }

  /** A session under a script. Whenever it is looked at, the control frames on the wire
      are the first of those the script sends, and each stream's frames are frames the
      script sends on it, in order. When it has ended, they are all of the control frames
      sent before the lane is closed, and all data frames handed over with a permit. */
  lemma SessionFollowsScript(past: Past, s: State, capacity: nat, given: seq<seq<Step>>, left: seq<seq<Step>>, k: StreamId)
    requires Reached(past, s, capacity) && Follows(Progress(given, left, Acts(past)))
    ensures ControlOn(s.wire) <= ControlOffered(AllAsked(given))
    ensures DataOn(s.wire, k) <= HandedOver(past, k) && Within(HandedOver(past, k), DataOffered(AllAsked(given), k))
    ensures s.pc.Done? ==> ControlOn(s.wire) == ControlOffered(AllAsked(given)) && DataOn(s.wire, k) == HandedOver(past, k)
  {
    CarriesActs(past, s, capacity, k);
    OfferedByScript(given, left, Acts(past), k);
    FirstOfFour(DataOn(s.wire, k), FlightOn(s.pc, k), Fifo(s.scheduled, k), OnStream(s.lanes.data, k));
    if s.pc.Done? { DoneIsDrained(s, capacity, k); }
  }
}
