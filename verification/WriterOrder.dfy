/** What the writer does with every frame it accepts. */
module WriterOrder {
  import opened FairQueue
  import opened Writer

  function OnStream(frames: seq<Frame>, k: StreamId): seq<Frame> {
    if frames == [] then []
    else (if frames[0].stream == k then [frames[0]] else []) + OnStream(frames[1..], k)
  }

  /** The control frames on the wire, in order. */
  function ControlOn(wire: seq<Sent>): seq<Frame> {
    if wire == [] then []
    else ControlOn(wire[..|wire| - 1]) + (if wire[|wire| - 1].OnControl? then [wire[|wire| - 1].frame] else [])
  }

  /** The data-lane frames of one stream on the wire, in order. */
  function DataOn(wire: seq<Sent>, k: StreamId): seq<Frame> {
    if wire == [] then []
    else
      var last := wire[|wire| - 1];
      DataOn(wire[..|wire| - 1], k) + (if last.OnData? && last.frame.stream == k then [last.frame] else [])
  }

  lemma WireAppend(wire: seq<Sent>, x: Sent, k: StreamId)
    ensures ControlOn(wire + [x]) == ControlOn(wire) + (if x.OnControl? then [x.frame] else [])
    ensures DataOn(wire + [x], k) == DataOn(wire, k) + (if x.OnData? && x.frame.stream == k then [x.frame] else [])
  {
    assert (wire + [x])[..|wire|] == wire;
  }

  lemma {:induction false} StreamAppend(frames: seq<Frame>, f: Frame, k: StreamId)
    ensures OnStream(frames + [f], k) == OnStream(frames, k) + (if f.stream == k then [f] else [])
  {
    if frames == [] {
      assert frames + [f] == [f];
      assert [f][1..] == [];
    } else {
      assert (frames + [f])[1..] == frames[1..] + [f];
      StreamAppend(frames[1..], f, k);
    }
  }

  // ------------------------------------------------------------ conservation

  /** Items wait under their own stream. */
  ghost predicate Keyed(q: Schedule) {
    forall k {:trigger q.queues[k]} | k in q.queues :: forall f | f in q.queues[k] :: f.stream == k
  }

  function FlightOn(pc: Pc, k: StreamId): seq<Frame> {
    if pc.Writing? && pc.frame.stream == k then [pc.frame] else []
  }

  function CarriedControl(s: State): seq<Frame> {
    ControlOn(s.wire) + s.lanes.control
  }

  /** Everything of one stream from the wire back to the channel. */
  function Carried(s: State, k: StreamId): seq<Frame> {
    DataOn(s.wire, k) + FlightOn(s.pc, k) + Fifo(s.scheduled, k) + OnStream(s.lanes.data, k)
  }

  function NewControl(l: Lanes, step: Step): seq<Frame> {
    if step.SendControl? && !l.controlClosed then [step.frame] else []
  }

  function NewData(l: Lanes, step: Step, k: StreamId): seq<Frame> {
    if step.SendData? && l.held > 0 && step.frame.stream == k then [step.frame] else []
  }

  lemma PushedFifo(q: Schedule, f: Frame, k: StreamId)
    ensures Fifo(Pushed(q, f.stream, f), k) == Fifo(q, k) + (if f.stream == k then [f] else [])
    ensures Keyed(q) ==> Keyed(Pushed(q, f.stream, f))
  {
  }

  lemma TakeCarries(s: State, capacity: nat, pc: Pc, k: StreamId)
    requires s.lanes.data != [] && !s.pc.Writing? && !pc.Writing? && Size(s.scheduled) < capacity && Keyed(s.scheduled)
    ensures var t := Take(s, capacity, pc); Keyed(t.scheduled) && Carried(t, k) == Carried(s, k)
    ensures CarriedControl(Take(s, capacity, pc)) == CarriedControl(s)
  {
    var f := s.lanes.data[0];
    PushedFifo(s.scheduled, f, k);
    assert s.lanes.data == [f] + s.lanes.data[1..];
  }

  lemma WriteControlCarries(s: State, k: StreamId)
    requires s.lanes.control != [] && !s.pc.Writing?
    ensures CarriedControl(WriteControl(s)) == CarriedControl(s) && Carried(WriteControl(s), k) == Carried(s, k)
  {
    WireAppend(s.wire, OnControl(s.lanes.control[0]), k);
    assert s.lanes.control == [s.lanes.control[0]] + s.lanes.control[1..];
  }

  lemma PoppedFifo(q: Schedule, k: StreamId)
    requires WellFormed(q) && Keyed(q) && q.active != []
    ensures WellFormed(Popped(q)) && Keyed(Popped(q))
    ensures q.active[0] in q.queues && q.queues[q.active[0]] != []
    ensures FlightOn(Writing(q.queues[q.active[0]][0]), k) + Fifo(Popped(q), k) == Fifo(q, k)
  {
    PopHead(q);
    PopKeeps(q);
    var h := q.active[0];
    var f := q.queues[h][0];
    assert f in q.queues[h];
    assert q.queues[h] == [f] + q.queues[h][1..];
    assert forall x | x in q.queues[h][1..] :: x in q.queues[h];
  }

  lemma PickCarries(s: State, k: StreamId)
    requires WellFormed(s.scheduled) && Keyed(s.scheduled) && s.pc.Pick?
    ensures Keyed(PickStep(s).scheduled)
    ensures CarriedControl(PickStep(s)) == CarriedControl(s) && Carried(PickStep(s), k) == Carried(s, k)
  {
    if s.scheduled.active != [] {
      PoppedFifo(s.scheduled, k);
      var t := PickStep(s);
      assert DataOn(s.wire, k) + FlightOn(t.pc, k) + Fifo(t.scheduled, k)
             == DataOn(s.wire, k) + (FlightOn(t.pc, k) + Fifo(t.scheduled, k));
    }
  }

  lemma WriteCarries(s: State, k: StreamId)
    requires s.pc.Writing?
    ensures CarriedControl(WriteStep(s)) == CarriedControl(s) && Carried(WriteStep(s), k) == Carried(s, k)
  {
    WireAppend(s.wire, OnData(s.pc.frame), k);
  }

  lemma WorkCarries(s: State, capacity: nat, k: StreamId)
    requires Good(s, capacity) && Keyed(s.scheduled)
    ensures Keyed(WorkStep(s, capacity).scheduled)
    ensures CarriedControl(WorkStep(s, capacity)) == CarriedControl(s)
    ensures Carried(WorkStep(s, capacity), k) == Carried(s, k)
  {
    EmptyIsIdle(s.scheduled);
    match s.pc
    case Drain => if s.lanes.data != [] && Size(s.scheduled) < capacity { TakeCarries(s, capacity, Drain, k); }
    case Control => if s.lanes.control != [] { WriteControlCarries(s, k); }
    case Pick => PickCarries(s, k);
    case Writing(_) => WriteCarries(s, k);
    case Wait =>
      if s.lanes.control != [] { WriteControlCarries(s, k); }
      if s.lanes.data != [] { TakeCarries(s, capacity, Head, k); }
    case _ =>
  }

  lemma OutsideCarries(s: State, step: Step, k: StreamId)
    requires !step.Work?
    ensures var t := s.(lanes := Outside(s.lanes, step));
            && CarriedControl(t) == CarriedControl(s) + NewControl(s.lanes, step)
            && Carried(t, k) == Carried(s, k) + NewData(s.lanes, step, k)
  {
    if step.SendData? {
      StreamAppend(s.lanes.data, step.frame, k);
    }
  }

  lemma StepCarries(s: State, step: Step, capacity: nat, k: StreamId)
    requires Good(s, capacity) && Keyed(s.scheduled)
    ensures var t := Do(s, step, capacity);
            && Keyed(t.scheduled)
            && CarriedControl(t) == CarriedControl(s) + NewControl(s.lanes, step)
            && Carried(t, k) == Carried(s, k) + NewData(s.lanes, step, k)
  {
    if step.Work? {
      WorkCarries(s, capacity, k);
    } else {
      OutsideCarries(s, step, k);
    }
  }

  /** Everything accepted in the course of a run. */
  ghost function AllControl(s: State, steps: seq<Step>, capacity: nat): seq<Frame>
    requires Good(s, capacity)
    decreases |steps|
  {
    if steps == [] then []
    else
      StepKeepsGood(s, steps[0], capacity);
      NewControl(s.lanes, steps[0]) + AllControl(Do(s, steps[0], capacity), steps[1..], capacity)
  }

  ghost function AllData(s: State, steps: seq<Step>, capacity: nat, k: StreamId): seq<Frame>
    requires Good(s, capacity)
    decreases |steps|
  {
    if steps == [] then []
    else
      StepKeepsGood(s, steps[0], capacity);
      NewData(s.lanes, steps[0], k) + AllData(Do(s, steps[0], capacity), steps[1..], capacity, k)
  }

  lemma Joined<T>(all: seq<T>, before: seq<T>, one: seq<T>, rest: seq<T>)
    requires all == (before + one) + rest
    ensures all == before + (one + rest)
  {
  }

  lemma FirstOfFour<T>(a: seq<T>, b: seq<T>, c: seq<T>, d: seq<T>)
    ensures a <= a + b + c + d
  {
  }

  /** Conservation and order: in every run, the control frames on the wire and in the
      lane are those accepted, in order; and for every stream so are its data frames on
      the wire, in flight, scheduled and in the lane. */
  lemma {:induction false} NothingIsLost(s: State, steps: seq<Step>, capacity: nat, k: StreamId)
    requires Good(s, capacity) && Keyed(s.scheduled)
    ensures var end := Run(s, steps, capacity);
            && CarriedControl(end) == CarriedControl(s) + AllControl(s, steps, capacity)
            && Carried(end, k) == Carried(s, k) + AllData(s, steps, capacity, k)
    decreases |steps|
  {
    if steps != [] {
      var next := Do(s, steps[0], capacity);
      StepKeepsGood(s, steps[0], capacity);
      StepCarries(s, steps[0], capacity, k);
      NothingIsLost(next, steps[1..], capacity, k);
      var end := Run(s, steps, capacity);
      Joined(CarriedControl(end), CarriedControl(s), NewControl(s.lanes, steps[0]),
             AllControl(next, steps[1..], capacity));
      Joined(Carried(end, k), Carried(s, k), NewData(s.lanes, steps[0], k), AllData(next, steps[1..], capacity, k));
    }
  }

  // ------------------------------------------------------------- termination

  function Flag(b: bool): nat {
    if b then 1 else 0
  }

  function Rank(pc: Pc): nat {
    match pc
    case Head => 6
    case Drain => 5
    case Control => 4
    case Pick => 3
    case Wait => 2
    case Writing(_) => 1
    case Done => 0
  }

  /** Work left once nobody sends any more. */
  function Left(s: State): nat {
    8 * (|s.lanes.control| + 3 * |s.lanes.data| + 2 * Size(s.scheduled) + InFlight(s.pc)
         + Flag(s.controlOpen) + Flag(s.dataOpen)) + Rank(s.pc)
  }

  predicate Closed(s: State) {
    s.lanes.controlClosed && s.lanes.dataClosed
  }

  lemma TakeShrinks(s: State, capacity: nat, pc: Pc)
    requires Good(s, capacity) && s.lanes.data != [] && !s.pc.Writing? && !pc.Writing? && Size(s.scheduled) < capacity
    requires Rank(pc) < Rank(s.pc) + 8
    ensures Left(Take(s, capacity, pc)) < Left(s)
  {
    PushKeeps(s.scheduled, s.lanes.data[0].stream, s.lanes.data[0]);
  }

  /** Something for the select to act on. */
  predicate Ready(s: State) {
    || (s.controlOpen && (s.lanes.control != [] || s.lanes.controlClosed))
    || (s.dataOpen && (s.lanes.data != [] || s.lanes.dataClosed))
  }

  lemma DrainShrinks(s: State, capacity: nat)
    requires Good(s, capacity) && s.pc.Drain?
    ensures Left(DrainStep(s, capacity)) < Left(s)
  {
    if s.lanes.data != [] && Size(s.scheduled) < capacity { TakeShrinks(s, capacity, Drain); }
  }

  lemma WaitShrinks(s: State, capacity: nat)
    requires Good(s, capacity) && s.pc.Wait? && Ready(s)
    ensures Left(WaitStep(s, capacity)) < Left(s)
  {
    EmptyIsIdle(s.scheduled);
    if s.lanes.data != [] { TakeShrinks(s, capacity, Head); }
  }

  lemma PickShrinks(s: State, capacity: nat)
    requires Good(s, capacity) && s.pc.Pick?
    ensures Left(PickStep(s)) < Left(s)
  {
    if s.scheduled.active != [] { PopKeeps(s.scheduled); }
  }

  /** Every step of the actor makes progress, unless it waits and nothing is there. */
  lemma WorkShrinks(s: State, capacity: nat)
    requires Good(s, capacity) && !s.pc.Done? && (s.pc.Wait? ==> Ready(s))
    ensures Left(WorkStep(s, capacity)) < Left(s)
    ensures Closed(s) ==> Closed(WorkStep(s, capacity))
  {
    match s.pc
    case Drain => DrainShrinks(s, capacity);
    case Pick => PickShrinks(s, capacity);
    case Wait => WaitShrinks(s, capacity);
    case _ =>
  }

  function Works(steps: seq<Step>): nat {
    if steps == [] then 0 else Flag(steps[0].Work?) + Works(steps[1..])
  }

  /** Once all senders have closed, the actor finishes within a bounded number of its
      own steps, whatever else is tried. */
  lemma {:induction false} WriterTerminates(s: State, steps: seq<Step>, capacity: nat)
    requires Good(s, capacity) && Closed(s) && Left(s) <= Works(steps)
    ensures Run(s, steps, capacity).pc.Done?
    decreases |steps|
  {
    if steps != [] {
      StepKeepsGood(s, steps[0], capacity);
      if steps[0].Work? && !s.pc.Done? {
        WorkShrinks(s, capacity);
      } else if s.pc.Done? {
        DoneStays(s, steps[0], capacity);
      }
      var next := Do(s, steps[0], capacity);
      if next.pc.Done? {
        DoneIsFinal(next, steps[1..], capacity);
      } else {
        WriterTerminates(next, steps[1..], capacity);
      }
    }
  }

  lemma DoneStays(s: State, step: Step, capacity: nat)
    requires Good(s, capacity) && s.pc.Done?
    ensures Do(s, step, capacity) == s
  {
  }

  lemma {:induction false} DoneIsFinal(s: State, steps: seq<Step>, capacity: nat)
    requires Good(s, capacity) && s.pc.Done?
    ensures Run(s, steps, capacity).pc.Done?
    decreases |steps|
  {
    if steps != [] {
      StepKeepsGood(s, steps[0], capacity);
      DoneIsFinal(Do(s, steps[0], capacity), steps[1..], capacity);
    }
  }

  lemma DoneIsDrained(s: State, capacity: nat, k: StreamId)
    requires Good(s, capacity) && s.pc.Done?
    ensures CarriedControl(s) == ControlOn(s.wire) && Carried(s, k) == DataOn(s.wire, k)
  {
    assert k !in s.scheduled.queues;
  }

  /** Drain: a session that ends has written every accepted frame exactly once, the
      control frames in order and the frames of each stream in order. */
  lemma EverythingIsWritten(steps: seq<Step>, capacity: nat, k: StreamId)
    requires capacity > 0 && Run(Initial(capacity), steps, capacity).pc.Done?
    ensures var wire := Run(Initial(capacity), steps, capacity).wire;
            && ControlOn(wire) == AllControl(Initial(capacity), steps, capacity)
            && DataOn(wire, k) == AllData(Initial(capacity), steps, capacity, k)
  {
    NothingIsLost(Initial(capacity), steps, capacity, k);
    AdmissionHolds(Initial(capacity), steps, capacity);
    DoneIsDrained(Run(Initial(capacity), steps, capacity), capacity, k);
  }
}
