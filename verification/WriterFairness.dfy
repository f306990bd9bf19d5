/** How long a scheduled frame can be kept waiting. */
module WriterFairness {
  import opened FairQueue
  import opened Writer
  import opened WriterOrder

  /** `f` heads the queue of stream `k`, which is the i-th to be served. */
  predicate Tracked(q: Schedule, k: StreamId, f: Frame, i: nat) {
    && i < |q.active| && q.active[i] == k
    && k in q.queues && q.queues[k] != [] && q.queues[k][0] == f
  }

  /** How many control frames may still come before the next data frame. */
  function Room(s: State): nat {
    if s.pc.Writing? then MAX_CONTROL_FRAME_BURST
    else if s.burst >= MAX_CONTROL_FRAME_BURST then 0
    else MAX_CONTROL_FRAME_BURST - s.burst
  }

  /** Frames written until the i-th stream's head is, that one included. */
  function Budget(s: State, i: nat): nat {
    InFlight(s.pc) + Room(s) + 9 * i + 1
  }

  lemma StepWire(s: State, step: Step, capacity: nat)
    requires WellFormed(s.scheduled)
    ensures s.wire <= Do(s, step, capacity).wire
  {
  }

  lemma {:induction false} WireGrows(s: State, steps: seq<Step>, capacity: nat)
    requires Good(s, capacity)
    ensures s.wire <= Run(s, steps, capacity).wire
    decreases |steps|
  {
    if steps != [] {
      StepKeepsGood(s, steps[0], capacity);
      StepWire(s, steps[0], capacity);
      WireGrows(Do(s, steps[0], capacity), steps[1..], capacity);
    }
  }

  /** The frame in flight is the next one written. */
  lemma {:induction false} FlightIsNext(s: State, steps: seq<Step>, capacity: nat)
    requires Good(s, capacity) && s.pc.Writing?
    requires |Run(s, steps, capacity).wire| > |s.wire|
    ensures Run(s, steps, capacity).wire[|s.wire|] == OnData(s.pc.frame)
    decreases |steps|
  {
    StepKeepsGood(s, steps[0], capacity);
    var next := Do(s, steps[0], capacity);
    if steps[0].Work? {
      WireGrows(next, steps[1..], capacity);
    } else {
      FlightIsNext(next, steps[1..], capacity);
    }
  }

  lemma PushTracks(q: Schedule, g: Frame, k: StreamId, f: Frame, i: nat)
    requires Tracked(q, k, f, i)
    ensures Tracked(Pushed(q, g.stream, g), k, f, i)
  {
  }

  lemma PopTracks(q: Schedule, k: StreamId, f: Frame, i: nat)
    requires WellFormed(q) && Keyed(q) && Tracked(q, k, f, i) && i > 0
    ensures Tracked(Popped(q), k, f, i - 1)
    ensures q.queues[q.active[0]][0].stream != k
  {
    assert q.queues[q.active[0]][0] in q.queues[q.active[0]];
  }

  /** The frames between two places on the wire hold no data frame of stream `k`. */
  ghost predicate NoneOf(wire: seq<Sent>, k: StreamId, from: nat, to: nat) {
    forall q {:trigger wire[q]} | from <= q < to && q < |wire| :: wire[q].OnData? ==> wire[q].frame.stream != k
  }

  /** Place `p` of the wire is where the frame tracked in `s` went. */
  ghost predicate WrittenAt(wire: seq<Sent>, s: State, k: StreamId, f: Frame, i: nat, p: nat) {
    && |s.wire| <= p < |s.wire| + Budget(s, i) && p < |wire| && wire[p] == OnData(f)
    && NoneOf(wire, k, |s.wire| + InFlight(s.pc), p)
  }

  /** A step from `s` to `t` that keeps the frame tracked and spends what it writes. */
  ghost predicate Spends(s: State, t: State, i: nat) {
    && s.wire <= t.wire && |t.wire| + Budget(t, i) <= |s.wire| + Budget(s, i)
    && (if t.wire == s.wire then InFlight(t.pc) == InFlight(s.pc)
        else |t.wire| == |s.wire| + 1 && InFlight(t.pc) == 0 && (s.pc.Writing? || t.wire[|s.wire|].OnControl?))
  }

  /** Until the frame is in flight, every step of the actor is such a step. */
  lemma WorkSpends(s: State, capacity: nat, k: StreamId, f: Frame, i: nat)
    requires Good(s, capacity) && Tracked(s.scheduled, k, f, i) && !s.pc.Pick?
    ensures var t := WorkStep(s, capacity); Tracked(t.scheduled, k, f, i) && Spends(s, t, i)
  {
    if s.pc.Drain? && s.lanes.data != [] {
      PushTracks(s.scheduled, s.lanes.data[0], k, f, i);
    }
  }

  /** A pick takes the first stream's head, and everybody else one place forward. */
  ghost predicate Picks(s: State, t: State, k: StreamId, f: Frame, i: nat) {
    && !s.pc.Writing? && t.pc.Writing? && t.wire == s.wire
    && if i == 0 then t.pc.frame == f
       else Tracked(t.scheduled, k, f, i - 1) && t.pc.frame.stream != k && Budget(t, i - 1) <= Budget(s, i)
  }

  lemma PickSpends(s: State, capacity: nat, k: StreamId, f: Frame, i: nat)
    requires Good(s, capacity) && Keyed(s.scheduled) && Tracked(s.scheduled, k, f, i) && s.pc.Pick?
    ensures Picks(s, WorkStep(s, capacity), k, f, i)
  {
    if i > 0 { PopTracks(s.scheduled, k, f, i); }
  }

  lemma WrittenBefore(wire: seq<Sent>, s: State, t: State, k: StreamId, f: Frame, i: nat, p: nat)
    requires Spends(s, t, i) && t.wire <= wire && WrittenAt(wire, t, k, f, i, p)
    ensures WrittenAt(wire, s, k, f, i, p)
  {
    if t.wire != s.wire {
      assert wire[|s.wire|] == t.wire[|s.wire|];
    }
  }

  lemma WrittenAfterPop(wire: seq<Sent>, s: State, t: State, k: StreamId, f: Frame, i: nat, p: nat)
    requires i > 0 && !s.pc.Writing? && t.pc.Writing? && t.wire == s.wire && |s.wire| < |wire|
    requires wire[|s.wire|] == OnData(t.pc.frame) && t.pc.frame.stream != k
    requires WrittenAt(wire, t, k, f, i - 1, p)
    ensures WrittenAt(wire, s, k, f, i, p)
  {
  }

  lemma StepKeepsKeyed(s: State, step: Step, capacity: nat)
    requires Good(s, capacity) && Keyed(s.scheduled)
    ensures Keyed(Do(s, step, capacity).scheduled)
  {
    StepCarries(s, step, capacity, StreamId(0));
  }

  lemma StepTracks(s: State, step: Step, capacity: nat, k: StreamId, f: Frame, i: nat, t: State)
    requires Good(s, capacity) && Keyed(s.scheduled) && Tracked(s.scheduled, k, f, i) && t == Do(s, step, capacity)
    ensures Good(t, capacity) && Keyed(t.scheduled)
    ensures Picks(s, t, k, f, i) || (Tracked(t.scheduled, k, f, i) && Spends(s, t, i))
  {
    StepKeepsGood(s, step, capacity);
    StepKeepsKeyed(s, step, capacity);
    if step.Work? {
      if s.pc.Pick? { PickSpends(s, capacity, k, f, i); } else { WorkSpends(s, capacity, k, f, i); }
    }
  }

  /** Fairness: within the budget the tracked frame is written, and no other data frame
      of its stream before it, whatever arrives meanwhile. */
  lemma {:induction false} HeadIsWritten(s: State, steps: seq<Step>, capacity: nat, k: StreamId, f: Frame, i: nat)
    returns (p: nat)
    requires Good(s, capacity) && Keyed(s.scheduled) && Tracked(s.scheduled, k, f, i)
    requires |Run(s, steps, capacity).wire| >= |s.wire| + Budget(s, i)
    ensures WrittenAt(Run(s, steps, capacity).wire, s, k, f, i, p)
    decreases |steps|
  {
    var next, rest := Do(s, steps[0], capacity), steps[1..];
    StepTracks(s, steps[0], capacity, k, f, i, next);
    var wire := Run(next, rest, capacity).wire;
    if Picks(s, next, k, f, i) {
      FlightIsNext(next, rest, capacity);
      p := |s.wire|;
      if i > 0 {
        p := HeadIsWritten(next, rest, capacity, k, f, i - 1);
        WrittenAfterPop(wire, s, next, k, f, i, p);
      }
    } else {
      p := HeadIsWritten(next, rest, capacity, k, f, i);
      WireGrows(next, rest, capacity);
      WrittenBefore(wire, s, next, k, f, i, p);
    }
  }

  /** From any point of the loop, the head frame of the stream at index i is among the
      next 9 * (i + 1) frames written; a frame already in flight comes on top. */
  lemma FairnessBound(s: State, steps: seq<Step>, capacity: nat, i: nat) returns (p: nat)
    requires Good(s, capacity) && Keyed(s.scheduled) && i < |s.scheduled.active|
    requires |Run(s, steps, capacity).wire| >= |s.wire| + InFlight(s.pc) + 9 * (i + 1)
    ensures var k := s.scheduled.active[i];
            && |s.wire| <= p < |s.wire| + InFlight(s.pc) + 9 * (i + 1)
            && Run(s, steps, capacity).wire[p] == OnData(s.scheduled.queues[k][0])
            && NoneOf(Run(s, steps, capacity).wire, k, |s.wire| + InFlight(s.pc), p)
  {
    var k := s.scheduled.active[i];
    p := HeadIsWritten(s, steps, capacity, k, s.scheduled.queues[k][0], i);
  }

  /** While data is scheduled, no nine frames in a row come from the control lane. */
  lemma BurstIsBounded(s: State, steps: seq<Step>, capacity: nat) returns (p: nat)
    requires Good(s, capacity) && Keyed(s.scheduled) && s.scheduled.active != []
    requires |Run(s, steps, capacity).wire| >= |s.wire| + 9
    ensures |s.wire| <= p < |s.wire| + 9 && Run(s, steps, capacity).wire[p].OnData?
  {
    if s.pc.Writing? {
      FlightIsNext(s, steps, capacity);
      p := |s.wire|;
    } else {
      p := FairnessBound(s, steps, capacity, 0);
    }
  }
}
