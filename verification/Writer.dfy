/** The multiplexing writer as a machine: a control lane and a permit-bounded data lane,
    filled at any moment from outside, merged onto one wire. */
module Writer {
  import opened Primitives
  import opened FairQueue

  const MAX_CONTROL_FRAME_BURST := 8

  datatype StreamId = StreamId(id: int)

  datatype FrameType = Data | EndStream | OpenStream | ResetStream | Heartbeat

  datatype Frame = Frame(kind: FrameType, stream: StreamId, payload: Bytes)

  /** A written frame and the lane it came through. */
  datatype Sent = OnControl(frame: Frame) | OnData(frame: Frame)

  type Schedule = Queue<StreamId, Frame>

  /** Both channels and the semaphore: `permits` are free, `held` are with senders that
      have not handed over their item yet. */
  datatype Lanes = Lanes(
    control: seq<Frame>, controlClosed: bool, data: seq<Frame>, dataClosed: bool, permits: nat, held: nat)

  /** Where the actor's loop stands. */
  datatype Pc = Head | Drain | Control | Pick | Writing(frame: Frame) | Wait | Done

  datatype State = State(
    lanes: Lanes, pc: Pc, controlOpen: bool, dataOpen: bool, burst: nat, scheduled: Schedule,
    wire: seq<Sent>, broken: bool)

  datatype Step =
    | SendControl(frame: Frame) | CloseControl
    | Acquire | SendData(frame: Frame) | Abandon | CloseData
    | Work

  // ---------------------------------------------------------------- senders

  /** What the senders do to the lanes. Nothing can be sent through a closed lane, and
      the data lane closes only when no sender is left with a permit. */
  function Outside(l: Lanes, step: Step): Lanes {
    match step
    case SendControl(f) => if l.controlClosed then l else l.(control := l.control + [f])
    case CloseControl => l.(controlClosed := true)
    case Acquire => if l.dataClosed || l.permits == 0 then l else l.(permits := l.permits - 1, held := l.held + 1)
    case SendData(f) => if l.held == 0 then l else l.(held := l.held - 1, data := l.data + [f])
    case Abandon => if l.held == 0 then l else l.(held := l.held - 1, permits := l.permits + 1)
    case CloseData => if l.held > 0 then l else l.(dataClosed := true)
    case Work => l
  }

  // -------------------------------------------------------------- the actor

  /** Takes the next item of the data lane into the schedule. */
  function Take(s: State, capacity: nat, pc: Pc): State
    requires s.lanes.data != []
  {
    var f := s.lanes.data[0];
    var rest := s.(lanes := s.lanes.(data := s.lanes.data[1..]), pc := pc);
    if Size(s.scheduled) < capacity then rest.(scheduled := Pushed(s.scheduled, f.stream, f))
    else rest.(broken := true)
  }

  function WriteControl(s: State): State
    requires s.lanes.control != []
  {
    s.(lanes := s.lanes.(control := s.lanes.control[1..]), wire := s.wire + [OnControl(s.lanes.control[0])],
       burst := s.burst + 1, pc := Head)
  }

  /** The inner loop: take what is there, up to the capacity. */
  function DrainStep(s: State, capacity: nat): State {
    if !s.dataOpen || Size(s.scheduled) >= capacity then s.(pc := Control)
    else if s.lanes.data != [] then Take(s, capacity, Drain)
    else if s.lanes.dataClosed then s.(dataOpen := false)
    else s.(pc := Control)
  }

  /** The control lane goes first, but not more than eight times while data waits. */
  function ControlStep(s: State): State {
    if !s.controlOpen || (s.burst >= MAX_CONTROL_FRAME_BURST && s.scheduled.active != []) then s.(pc := Pick)
    else if s.lanes.control != [] then WriteControl(s)
    else if s.lanes.controlClosed then s.(controlOpen := false, pc := Pick)
    else s.(pc := Pick)
  }

  function PickStep(s: State): State
    requires WellFormed(s.scheduled)
  {
    if s.scheduled.active != [] then
      s.(scheduled := Popped(s.scheduled), pc := Writing(s.scheduled.queues[s.scheduled.active[0]][0]))
    else if !s.controlOpen && !s.dataOpen then s.(pc := Done)
    else s.(pc := Wait)
  }

  /** The frame is written and dropped, and with it its permit. */
  function WriteStep(s: State): State
    requires s.pc.Writing?
  {
    s.(wire := s.wire + [OnData(s.pc.frame)], burst := 0, pc := Head,
       lanes := s.lanes.(permits := s.lanes.permits + 1))
  }

  /** The biased select: control before data, and only lanes still open. */
  function WaitStep(s: State, capacity: nat): State {
    if s.controlOpen && s.lanes.control != [] then WriteControl(s)
    else if s.controlOpen && s.lanes.controlClosed then s.(controlOpen := false, pc := Head)
    else if s.dataOpen && s.lanes.data != [] then Take(s, capacity, Head)
    else if s.dataOpen && s.lanes.dataClosed then s.(dataOpen := false, pc := Head)
    else s
  }

  function WorkStep(s: State, capacity: nat): State
    requires WellFormed(s.scheduled)
  {
    match s.pc
    case Head => s.(pc := if s.controlOpen || s.dataOpen || s.scheduled.active != [] then Drain else Done)
    case Drain => DrainStep(s, capacity)
    case Control => ControlStep(s)
    case Pick => PickStep(s)
    case Writing(_) => WriteStep(s)
    case Wait => WaitStep(s, capacity)
    case Done => s
  }

  function Do(s: State, step: Step, capacity: nat): State
    requires WellFormed(s.scheduled)
  {
    if step.Work? then WorkStep(s, capacity) else s.(lanes := Outside(s.lanes, step))
  }

  function Initial(capacity: nat): State {
    State(Lanes([], false, [], false, capacity, 0), Head, true, true, 0, Queue([], map[]), [], false)
  }

  // -------------------------------------------------------------- admission

  function InFlight(pc: Pc): nat {
    if pc.Writing? then 1 else 0
  }

  /** Every admitted item holds one permit from admission until it is written. */
  ghost predicate Admitted(s: State, capacity: nat) {
    && capacity > 0 && WellFormed(s.scheduled)
    && s.lanes.permits + s.lanes.held + |s.lanes.data| + Size(s.scheduled) + InFlight(s.pc) == capacity
    && !s.broken
  }

  /** A lane the actor has given up is closed and empty. */
  ghost predicate Closing(s: State) {
    && (!s.controlOpen ==> s.lanes.controlClosed && s.lanes.control == [])
    && (!s.dataOpen ==> s.lanes.dataClosed && s.lanes.data == [])
    && (s.lanes.dataClosed ==> s.lanes.held == 0)
    && (s.pc.Wait? ==> s.scheduled.active == [] && (s.controlOpen || s.dataOpen))
    && (s.pc.Done? ==> s.scheduled.active == [] && !s.controlOpen && !s.dataOpen)
  }

  ghost predicate Good(s: State, capacity: nat) {
    Admitted(s, capacity) && Closing(s)
  }

  lemma TakeKeeps(s: State, capacity: nat, pc: Pc)
    requires Good(s, capacity) && s.lanes.data != [] && !s.pc.Writing? && (pc.Head? || pc.Drain?)
    requires Size(s.scheduled) < capacity
    ensures Good(Take(s, capacity, pc), capacity)
  {
    PushKeeps(s.scheduled, s.lanes.data[0].stream, s.lanes.data[0]);
  }

  lemma PickKeeps(s: State, capacity: nat)
    requires Good(s, capacity) && s.pc.Pick?
    ensures Good(PickStep(s), capacity)
  {
    if s.scheduled.active != [] {
      PopKeeps(s.scheduled);
    }
  }

  lemma DrainKeeps(s: State, capacity: nat)
    requires Good(s, capacity) && s.pc.Drain?
    ensures Good(DrainStep(s, capacity), capacity)
  {
    if s.lanes.data != [] && Size(s.scheduled) < capacity { TakeKeeps(s, capacity, Drain); }
  }

  lemma ControlKeeps(s: State, capacity: nat)
    requires Good(s, capacity) && s.pc.Control?
    ensures Good(ControlStep(s), capacity)
  {
  }

  lemma WaitKeeps(s: State, capacity: nat)
    requires Good(s, capacity) && s.pc.Wait?
    ensures Good(WaitStep(s, capacity), capacity)
  {
    EmptyIsIdle(s.scheduled);
    if s.lanes.data != [] { TakeKeeps(s, capacity, Head); }
  }

  lemma WorkKeepsGood(s: State, capacity: nat)
    requires Good(s, capacity)
    ensures Good(WorkStep(s, capacity), capacity)
  {
    match s.pc
    case Drain => DrainKeeps(s, capacity);
    case Control => ControlKeeps(s, capacity);
    case Pick => PickKeeps(s, capacity);
    case Wait => WaitKeeps(s, capacity);
    case _ =>
  }

  lemma StepKeepsGood(s: State, step: Step, capacity: nat)
    requires Good(s, capacity)
    ensures Good(Do(s, step, capacity), capacity)
  {
    if step.Work? { WorkKeepsGood(s, capacity); }
  }

  ghost function Run(s: State, steps: seq<Step>, capacity: nat): State
    requires Good(s, capacity)
    decreases |steps|
  {
    if steps == [] then s
    else StepKeepsGood(s, steps[0], capacity); Run(Do(s, steps[0], capacity), steps[1..], capacity)
  }

  /** Admission: in every run, what is channelled, scheduled and in flight never exceeds
      the capacity, and the schedule never refuses an item. */
  lemma {:induction false} AdmissionHolds(s: State, steps: seq<Step>, capacity: nat)
    requires Good(s, capacity)
    ensures var end := Run(s, steps, capacity);
            && Good(end, capacity)
            && |end.lanes.data| + Size(end.scheduled) + InFlight(end.pc) <= capacity
            && !end.broken
    decreases |steps|
  {
    if steps != [] {
      StepKeepsGood(s, steps[0], capacity);
      AdmissionHolds(Do(s, steps[0], capacity), steps[1..], capacity);
    }
  }

  lemma InitialIsGood(capacity: nat)
    requires capacity > 0
    ensures Good(Initial(capacity), capacity)
  {
  }

  /** Admission is exact: while the data lane is open, a sender is admitted if and only if
      fewer items than the capacity are admitted; its frame then joins the lane, and a
      frame that is written makes room for another. */
  lemma AdmissionIsExact(s: State, f: Frame, capacity: nat)
    requires Good(s, capacity) && !s.lanes.dataClosed
    ensures var taken := s.lanes.held + |s.lanes.data| + Size(s.scheduled) + InFlight(s.pc);
            var t := Do(s, Acquire, capacity);
            && taken <= capacity && t == s.(lanes := t.lanes)
            && t.lanes.held == s.lanes.held + (if taken < capacity then 1 else 0)
            && (taken < capacity ==>
                  Outside(t.lanes, SendData(f)) == s.lanes.(data := s.lanes.data + [f], permits := s.lanes.permits - 1))
            && (t.lanes.held > s.lanes.held ==> Outside(t.lanes, Abandon) == s.lanes)
    ensures s.pc.Writing? ==> WriteStep(s).lanes.permits == s.lanes.permits + 1
  {
  }

  /** A control frame is accepted if and only if the lane is open. */
  lemma ControlIsAccepted(l: Lanes, f: Frame)
    ensures Outside(l, SendControl(f)).control == if l.controlClosed then l.control else l.control + [f]
    ensures Outside(l, CloseControl) == l.(controlClosed := true)
    ensures l.held == 0 ==> Outside(l, CloseData) == l.(dataClosed := true)
    ensures l.held > 0 ==> Outside(l, CloseData) == l
  {
  }
}
