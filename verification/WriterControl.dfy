/** How long a control frame can be kept waiting. */
module WriterControl {
  import opened FairQueue
  import opened Writer
  import opened WriterOrder
  import opened WriterFairness

  /** Frames written until the control frame at index `j` is, that one included, if `room`
      more control frames may pass before the next data frame. */
  function Need(room: nat, j: nat): nat {
    j + 1 + if j < room then 0 else 1 + (j - room) / 8
  }

  /** Beyond the control lane's turn one data frame comes first; a wait ends with a control
      frame, whatever the burst. */
  function ControlBudget(s: State, j: nat): nat {
    if s.pc.Writing? || (s.pc.Pick? && s.scheduled.active != []) then 1 + Need(8, j)
    else if s.pc.Wait? && Room(s) == 0 then Need(1, j)
    else Need(Room(s), j)
  }

  predicate Waits(s: State, g: Frame, j: nat) {
    j < |s.lanes.control| && s.lanes.control[j] == g
  }

  /** Place `p` of the wire is where the frame that waited in `s` went: after the `j` frames
      before it, and within its budget. */
  predicate ControlAt(wire: seq<Sent>, s: State, g: Frame, j: nat, p: nat) {
    |s.wire| + j <= p < |s.wire| + ControlBudget(s, j) && p < |wire| && wire[p] == OnControl(g)
  }

  /** A step from `s` to `t` after which the frame waits at index `i`, with what it wrote
      taken from the budget. */
  predicate Advances(s: State, t: State, j: nat, i: nat) {
    && s.wire <= t.wire && |s.wire| + j <= |t.wire| + i
    && |t.wire| + ControlBudget(t, i) <= |s.wire| + ControlBudget(s, j)
  }

  /** The frame's turn has come. */
  predicate Writes(s: State, t: State, g: Frame, j: nat) {
    j == 0 && t.wire == s.wire + [OnControl(g)]
  }

  /** One control frame written: everybody behind it moves up, and the room shrinks. */
  lemma WriteControlAdvances(s: State, g: Frame, j: nat)
    requires Waits(s, g, j) && (s.pc.Control? || s.pc.Wait?)
    ensures var t := WriteControl(s);
            if j == 0 then Writes(s, t, g, j) else Waits(t, g, j - 1) && Advances(s, t, j, j - 1)
  {
  }

  lemma ControlTurn(s: State, g: Frame, j: nat)
    requires WellFormed(s.scheduled) && s.controlOpen && Waits(s, g, j) && s.pc.Control?
    ensures var t := ControlStep(s);
            || Writes(s, t, g, j)
            || (Waits(t, g, j) && Advances(s, t, j, j))
            || (j > 0 && Waits(t, g, j - 1) && Advances(s, t, j, j - 1))
  {
    if s.burst < MAX_CONTROL_FRAME_BURST || s.scheduled.active == [] { WriteControlAdvances(s, g, j); }
  }

  lemma WorkAdvances(s: State, capacity: nat, g: Frame, j: nat)
    requires Good(s, capacity) && Waits(s, g, j)
    ensures var t := WorkStep(s, capacity);
            || Writes(s, t, g, j)
            || (Waits(t, g, j) && Advances(s, t, j, j))
            || (j > 0 && Waits(t, g, j - 1) && Advances(s, t, j, j - 1))
  {
    match s.pc
    case Control => ControlTurn(s, g, j);
    case Wait => WriteControlAdvances(s, g, j);
    case _ =>
  }

  lemma StepAdvances(s: State, step: Step, capacity: nat, g: Frame, j: nat, t: State)
    requires Good(s, capacity) && Waits(s, g, j) && t == Do(s, step, capacity)
    ensures Good(t, capacity)
    ensures || Writes(s, t, g, j)
            || (Waits(t, g, j) && Advances(s, t, j, j))
            || (j > 0 && Waits(t, g, j - 1) && Advances(s, t, j, j - 1))
  {
    StepKeepsGood(s, step, capacity);
    if step.Work? { WorkAdvances(s, capacity, g, j); }
  }

  /** The dual of data fairness: within its budget a waiting control frame is written,
      whatever arrives meanwhile. */
  lemma {:induction false} ControlIsWritten(s: State, steps: seq<Step>, capacity: nat, g: Frame, j: nat) returns (p: nat)
    requires Good(s, capacity) && Waits(s, g, j)
    requires |Run(s, steps, capacity).wire| >= |s.wire| + ControlBudget(s, j)
    ensures ControlAt(Run(s, steps, capacity).wire, s, g, j, p)
    decreases |steps|
  {
    var next, rest := Do(s, steps[0], capacity), steps[1..];
    StepAdvances(s, steps[0], capacity, g, j, next);
    WireGrows(next, rest, capacity);
    if Writes(s, next, g, j) {
      p := |s.wire|;
    } else if Waits(next, g, j) && Advances(s, next, j, j) {
      p := ControlIsWritten(next, rest, capacity, g, j);
    } else {
      p := ControlIsWritten(next, rest, capacity, g, j - 1);
    }
  }

  /** From any point of the loop, the control frame at index j of the lane is among the
      next j + j / 8 + 2 frames written, and the j frames before it come first. */
  lemma ControlBound(s: State, steps: seq<Step>, capacity: nat, j: nat) returns (p: nat)
    requires Good(s, capacity) && j < |s.lanes.control|
    requires |Run(s, steps, capacity).wire| >= |s.wire| + j + j / 8 + 2
    ensures |s.wire| + j <= p < |s.wire| + j + j / 8 + 2
    ensures Run(s, steps, capacity).wire[p] == OnControl(s.lanes.control[j])
  {
    p := ControlIsWritten(s, steps, capacity, s.lanes.control[j], j);
  }

  /** After a data frame, up to eight control frames that wait go next, in their order and
      with nothing between them. */
  lemma BurstIsUsed(s: State, steps: seq<Step>, capacity: nat, n: nat)
    requires Good(s, capacity) && s.pc.Head? && s.burst == 0 && n <= 8 && n <= |s.lanes.control|
    requires |Run(s, steps, capacity).wire| >= |s.wire| + n
    ensures forall j {:trigger s.lanes.control[j]} | 0 <= j < n ::
              Run(s, steps, capacity).wire[|s.wire| + j] == OnControl(s.lanes.control[j])
  {
    forall j | 0 <= j < n ensures Run(s, steps, capacity).wire[|s.wire| + j] == OnControl(s.lanes.control[j]) {
      var p := ControlIsWritten(s, steps, capacity, s.lanes.control[j], j);
    }
  }

  /** The drain before the control lane's turn is complete: when it ends, nothing is left
      in the data lane, because every item there holds a permit. */
  lemma DrainIsComplete(s: State, capacity: nat)
    requires Good(s, capacity) && s.pc.Drain? && DrainStep(s, capacity).pc.Control?
    ensures s.lanes.data == []
  {
  }

  /** While the loop waits, a control frame that is there is the next frame written, however
      many went before it and whatever data is there too. */
  lemma WaitPrefersControl(s: State, steps: seq<Step>, capacity: nat)
    requires Good(s, capacity) && s.pc.Wait? && s.lanes.control != []
    requires |Run(s, steps, capacity).wire| > |s.wire|
    ensures Run(s, steps, capacity).wire[|s.wire|] == OnControl(s.lanes.control[0])
  {
    var p := ControlIsWritten(s, steps, capacity, s.lanes.control[0], 0);
  }
}
