/** The writer's loop as it is written, proved to be a run of the machine. */
module WriterActor {
  import opened Primitives
  import opened FairQueue
  import opened Writer
  import opened WriterOrder
  import opened WriterScript

  /** How a part of the loop's body ends: at the loop's head again, further down, with the
      loop left, or with a write that failed. */
  datatype Turn = Again | Onwards | Finished | Failed

  class Actor {
    const capacity: nat
    const scheduled: BoundedFairQueue<StreamId, Frame>
    var lanes: Lanes
    var controlOpen: bool
    var dataOpen: bool
    var burst: nat
    var wire: seq<Sent>
    /** What the senders are going to do; when it runs out, they close their lanes. */
    const given: seq<seq<Step>>
    var script: seq<seq<Step>>
    /** How many writes succeed before one fails, if one does. */
    const failsAt: Option<nat>
    ghost var past: Past

    ghost function At(pc: Pc): State
      reads this, scheduled
    {
      State(lanes, pc, controlOpen, dataOpen, burst, scheduled.Contents(), wire, false)
    }

    /** The object is in the machine's state with the loop at `pc`. */
    ghost predicate Stands(pc: Pc)
      reads this, scheduled
    {
      && scheduled.Valid() && scheduled.capacity == capacity && Reached(past, At(pc), capacity)
      && (failsAt.Some? ==> |wire| <= failsAt.value)
    }

    /** And the senders have followed the script. */
    ghost predicate In(pc: Pc)
      reads this, scheduled
    {
      Stands(pc) && Follows(Progress(given, script, Acts(past)))
    }

    constructor (limit: nat, events: seq<seq<Step>>, failure: Option<nat>)
      requires limit > 0
      ensures In(Head) && given == events && script == events && capacity == limit && failsAt == failure
      ensures fresh(scheduled) && past == Start && wire == []
    {
      capacity, given, failsAt := limit, events, failure;
      scheduled := new BoundedFairQueue(limit);
      lanes, controlOpen, dataOpen, burst, wire := Lanes([], false, [], false, limit, 0), true, true, 0, [];
      script, past := events, Start;
      new;
      InitialIsGood(limit);
    }

    /** One thing a sender does. */
    method Happen(step: Step, ghost pc: Pc)
      requires Stands(pc) && !step.Work?
      modifies this`lanes, this`past
      ensures Stands(pc) && Acts(past) == Acts(old(past)) + [step] && lanes == Outside(old(lanes), step)
    {
      Advance(past, At(pc), step, capacity);
      past := After(past, At(pc), step);
      lanes := Outside(lanes, step);
    }

    /** One thing that a batch asks of the senders, unless it is not theirs to do. */
    method Try(step: Step, ghost pc: Pc)
      requires Stands(pc)
      modifies this`lanes, this`past
      ensures Stands(pc) && lanes == Outside(old(lanes), step)
      ensures Acts(past) == Acts(old(past)) + if step.Work? then [] else [step]
    {
      if !step.Work? { Happen(step, pc); }
    }

    /** The senders do what a batch asks of them. */
    method DoBatch(batch: seq<Step>, ghost pc: Pc)
      requires Stands(pc)
      modifies this`lanes, this`past
      ensures Stands(pc) && lanes == OutsideAll(old(lanes), batch) && Acts(past) == Acts(old(past)) + Asked(batch)
      decreases |batch|
    {
      if batch != [] {
        DoBatch(batch[..|batch| - 1], pc);
        Try(batch[|batch| - 1], pc);
      }
    }

    /** The next batch of the script. */
    method RunBatch(ghost pc: Pc)
      requires In(pc) && script != []
      modifies this`lanes, this`past, this`script
      ensures In(pc) && script == old(script)[1..] && lanes == OutsideAll(old(lanes), old(script)[0])
    {
      NextBatch(given, script, Acts(past));
      DoBatch(script[0], pc);
      script := script[1..];
    }

    /** One thing a sender does once the script has run out. */
    method Close(step: Step, ghost pc: Pc)
      requires In(pc) && script == [] && Closes(step)
      modifies this`lanes, this`past
      ensures In(pc) && lanes == Outside(old(lanes), step)
    {
      OneMoreClose(given, Acts(past), step);
      Happen(step, pc);
    }

    /** The senders leave: what they hold is given back and both lanes are closed. */
    method CloseAll(ghost pc: Pc)
      requires In(pc) && script == []
      modifies this`lanes, this`past
      ensures In(pc) && Closed(At(pc)) && lanes.control == old(lanes.control) && lanes.data == old(lanes.data)
    {
      Close(CloseControl, pc);
      while lanes.held > 0
        invariant In(pc) && lanes.controlClosed
        invariant lanes.control == old(lanes.control) && lanes.data == old(lanes.data)
        decreases lanes.held
      {
        Close(Abandon, pc);
      }
      Close(CloseData, pc);
    }

    /** Time passes for the senders before a lane is looked at. */
    method Elapse(ghost pc: Pc)
      requires In(pc)
      modifies this`lanes, this`past, this`script
      ensures In(pc)
      ensures old(script) != [] ==> script == old(script)[1..] && lanes == OutsideAll(old(lanes), old(script)[0])
      ensures old(script) == [] ==> script == [] && Closed(At(pc))
                                    && lanes.control == old(lanes.control) && lanes.data == old(lanes.data)
    {
      if script != [] { RunBatch(pc); } else { CloseAll(pc); }
    }

    /** The loop moves on without touching anything else. */
    method Move(ghost from: Pc, ghost to: Pc)
      requires In(from) && WorkStep(At(from), capacity) == At(to) && !from.Done? && !from.Wait?
      modifies this`past
      ensures In(to) && Left(At(to)) < old(Left(At(from)))
    {
      ghost var before := At(from);
      Worked(past, before, At(to), capacity);
      past := After(past, before, Work);
    }

    method TakeData(ghost from: Pc, ghost to: Pc)
      requires In(from) && lanes.data != [] && scheduled.len < capacity
      requires WorkStep(At(from), capacity) == Take(At(from), capacity, to) && Ready(At(from)) && !from.Done?
      modifies this`lanes, this`past, scheduled
      ensures In(to) && Left(At(to)) < old(Left(At(from)))
    {
      ghost var before := At(from);
      var frame := lanes.data[0];
      var accepted := scheduled.Push(frame.stream, frame);
      lanes := lanes.(data := lanes.data[1..]);
      Worked(past, before, At(to), capacity);
      past := After(past, before, Work);
    }

    /** Writes the first control frame, unless this is the write that fails. */
    method WriteControlFrame(ghost from: Pc) returns (ok: bool)
      requires In(from) && lanes.control != []
      requires WorkStep(At(from), capacity) == WriteControl(At(from)) && Ready(At(from)) && !from.Done?
      modifies this`lanes, this`past, this`wire, this`burst
      ensures ok ==> In(Head) && Left(At(Head)) < old(Left(At(from)))
      ensures !ok ==> In(from) && failsAt == Some(|wire|)
    {
      if failsAt == Some(|wire|) { return false; }
      ghost var before := At(from);
      wire := wire + [OnControl(lanes.control[0])];
      lanes := lanes.(control := lanes.control[1..]);
      burst := burst + 1;
      Worked(past, before, At(Head), capacity);
      past := After(past, before, Work);
      return true;
    }

    /** The control lane has ended. */
    method EndControl(ghost from: Pc, ghost to: Pc)
      requires In(from) && !from.Done? && Ready(At(from))
      requires WorkStep(At(from), capacity) == At(from).(controlOpen := false, pc := to)
      modifies this`past, this`controlOpen
      ensures In(to) && !controlOpen && Left(At(to)) < old(Left(At(from)))
    {
      ghost var before := At(from);
      controlOpen := false;
      Worked(past, before, At(to), capacity);
      past := After(past, before, Work);
    }

    /** The data lane has ended. */
    method EndData(ghost from: Pc, ghost to: Pc)
      requires In(from) && !from.Done? && Ready(At(from))
      requires WorkStep(At(from), capacity) == At(from).(dataOpen := false, pc := to)
      modifies this`past, this`dataOpen
      ensures In(to) && !dataOpen && Left(At(to)) < old(Left(At(from)))
    {
      ghost var before := At(from);
      dataOpen := false;
      Worked(past, before, At(to), capacity);
      past := After(past, before, Work);
    }

    /** One try at the data lane: an item, its end, or nothing there. */
    method PollData() returns (more: bool)
      requires In(Drain) && dataOpen && scheduled.len < capacity
      modifies this`lanes, this`past, this`script, this`dataOpen, scheduled
      ensures In(Drain)
      ensures || |script| < |old(script)|
              || (|script| == |old(script)| && more && Left(At(Drain)) < old(Left(At(Drain))))
      ensures !more ==> lanes.data == [] && !lanes.dataClosed
    {
      Elapse(Drain);
      if lanes.data != [] {
        TakeData(Drain, Drain);
        return true;
      }
      if lanes.dataClosed {
        EndData(Drain, Drain);
        return true;
      }
      return false;
    }

    /** Takes what the data lane holds, up to the capacity. */
    method DrainLane()
      requires In(Drain)
      modifies this`lanes, this`past, this`script, this`dataOpen, scheduled
      ensures In(Control)
      ensures |script| < |old(script)| || (|script| == |old(script)| && Left(At(Control)) < old(Left(At(Drain))))
    {
      while dataOpen && scheduled.len < capacity
        invariant In(Drain)
        invariant |script| < |old(script)| || (|script| == |old(script)| && Left(At(Drain)) <= old(Left(At(Drain))))
        decreases |script|, Left(At(Drain))
      {
        var more := PollData();
        if !more { break; }
      }
      Move(Drain, Control);
    }

    /** The control lane's turn, unless eight control frames have passed waiting data. */
    method TryControl() returns (r: Turn)
      requires In(Control)
      modifies this`lanes, this`past, this`script, this`wire, this`burst, this`controlOpen
      ensures !r.Finished? && In(match r case Again => Head case Failed => Control case _ => Pick)
      ensures r.Failed? ==> failsAt == Some(|wire|)
      ensures !r.Failed? ==>
                var to := if r.Again? then Head else Pick;
                |script| < |old(script)| || (|script| == |old(script)| && Left(At(to)) < old(Left(At(Control))))
    {
      EmptyIsIdle(scheduled.Contents());
      if controlOpen && (burst < MAX_CONTROL_FRAME_BURST || scheduled.len == 0) {
        Elapse(Control);
        if lanes.control != [] {
          var ok := WriteControlFrame(Control);
          return if ok then Again else Failed;
        } else if lanes.controlClosed {
          EndControl(Control, Pick);
          return Onwards;
        }
      }
      Move(Control, Pick);
      return Onwards;
    }

    method PopFrame() returns (frame: Option<Frame>)
      requires In(Pick)
      modifies this`past, scheduled
      ensures frame.Some? ==> In(Writing(frame.value)) && Left(At(Writing(frame.value))) < old(Left(At(Pick)))
      ensures frame.None? && (controlOpen || dataOpen) ==> In(Wait) && Left(At(Wait)) < old(Left(At(Pick)))
      ensures frame.None? && !controlOpen && !dataOpen ==> In(Done)
    {
      ghost var before := At(Pick);
      frame := scheduled.Pop();
      ghost var to := if frame.Some? then Writing(frame.value) else if controlOpen || dataOpen then Wait else Done;
      Worked(past, before, At(to), capacity);
      past := After(past, before, Work);
    }

    method WriteFrame(frame: Frame) returns (ok: bool)
      requires In(Writing(frame))
      modifies this`lanes, this`past, this`wire, this`burst
      ensures ok ==> In(Head) && Left(At(Head)) < old(Left(At(Writing(frame))))
      ensures !ok ==> In(Writing(frame)) && failsAt == Some(|wire|)
    {
      if failsAt == Some(|wire|) { return false; }
      ghost var before := At(Writing(frame));
      wire := wire + [OnData(frame)];
      burst := 0;
      lanes := lanes.(permits := lanes.permits + 1);
      Worked(past, before, At(Head), capacity);
      past := After(past, before, Work);
      return true;
    }

    /** Blocks until a lane that is still open has a frame or is closed. */
    method Block()
      requires In(Wait)
      modifies this`lanes, this`past, this`script
      ensures In(Wait) && Ready(At(Wait))
      ensures |script| < |old(script)| || (|script| == |old(script)| && Left(At(Wait)) <= old(Left(At(Wait))))
    {
      Elapse(Wait);
      while !Ready(State(lanes, Wait, controlOpen, dataOpen, burst, Queue([], map[]), [], false))
        invariant In(Wait)
        invariant |script| < |old(script)| || (|script| == |old(script)| && Left(At(Wait)) <= old(Left(At(Wait))))
        decreases |script|, if Closed(At(Wait)) then 0 else 1
      {
        Elapse(Wait);
      }
    }

    /** The biased select: the control lane first. */
    method Select() returns (ok: bool)
      requires In(Wait) && Ready(At(Wait))
      modifies this`lanes, this`past, this`wire, this`burst, this`controlOpen, this`dataOpen, scheduled
      ensures ok ==> In(Head) && Left(At(Head)) < old(Left(At(Wait)))
      ensures !ok ==> In(Wait) && failsAt == Some(|wire|)
    {
      EmptyIsIdle(scheduled.Contents());
      ok := true;
      if controlOpen && lanes.control != [] {
        ok := WriteControlFrame(Wait);
      } else if controlOpen && lanes.controlClosed {
        EndControl(Wait, Head);
      } else if lanes.data != [] {
        TakeData(Wait, Head);
      } else {
        EndData(Wait, Head);
      }
    }

    /** The schedule's turn. */
    method TryData() returns (r: Turn, ghost at: Pc)
      requires In(Pick)
      modifies this`lanes, this`past, this`wire, this`burst, scheduled
      ensures In(at) && (r.Again? ==> at == Head) && (r.Onwards? ==> at == Wait) && (r.Finished? ==> at == Done)
      ensures r.Failed? ==> failsAt == Some(|wire|)
      ensures r.Again? || r.Onwards? ==> Left(At(at)) < old(Left(At(Pick)))
    {
      var frame := PopFrame();
      if frame.Some? {
        var ok := WriteFrame(frame.value);
        if ok { return Again, Head; }
        return Failed, Writing(frame.value);
      }
      if !controlOpen && !dataOpen { return Finished, Done; }
      return Onwards, Wait;
    }

    method Await() returns (ok: bool)
      requires In(Wait)
      modifies this`lanes, this`past, this`script, this`wire, this`burst, this`controlOpen, this`dataOpen, scheduled
      ensures In(if ok then Head else Wait) && (!ok ==> failsAt == Some(|wire|))
      ensures ok ==> |script| < |old(script)| || (|script| == |old(script)| && Left(At(Head)) < old(Left(At(Wait))))
    {
      Block();
      ok := Select();
    }

    /** One round of the loop. */
    method Round() returns (r: Turn, ghost at: Pc)
      requires In(Drain)
      modifies this`lanes, this`past, this`script, this`wire, this`burst, this`controlOpen, this`dataOpen, scheduled
      ensures !r.Onwards? && In(at) && (r.Again? ==> at == Head) && (r.Finished? ==> at == Done)
      ensures r.Failed? ==> failsAt == Some(|wire|)
      ensures r.Again? ==>
                |script| < |old(script)| || (|script| == |old(script)| && Left(At(Head)) < old(Left(At(Drain))))
    {
      DrainLane();
      r := TryControl();
      if r.Again? { return Again, Head; }
      if r.Failed? { return Failed, Control; }
      r, at := TryData();
      if !r.Onwards? { return; }
      var ok := Await();
      if ok { return Again, Head; }
      return Failed, Wait;
    }

    /** The whole session, for every script of the senders. It ends; unless a write fails,
        every control frame that the script sends before the lane is closed and every
        data frame handed over with a permit is on the wire, once and in order. At a
        write that fails, exactly the writes before it are on the wire, and the frames
        are the first of those. */
    method RunUntilClosed() returns (ok: bool, ghost at: Pc)
      requires In(Head)
      modifies this, scheduled
      ensures In(at) && (ok ==> at == Done) && (!ok ==> failsAt == Some(|wire|))
      ensures ControlOn(wire) <= ControlOffered(AllAsked(given))
      ensures ok ==> ControlOn(wire) == ControlOffered(AllAsked(given))
      ensures forall k :: DataOn(wire, k) <= HandedOver(past, k) && Within(HandedOver(past, k), DataOffered(AllAsked(given), k))
      ensures ok ==> forall k :: DataOn(wire, k) == HandedOver(past, k)
    {
      ok, at := Loop();
      forall k
        ensures DataOn(wire, k) <= HandedOver(past, k) && Within(HandedOver(past, k), DataOffered(AllAsked(given), k))
        ensures ok ==> DataOn(wire, k) == HandedOver(past, k)
      {
        SessionFollowsScript(past, At(at), capacity, given, script, k);
      }
      SessionFollowsScript(past, At(at), capacity, given, script, StreamId(0));
    }

    method Loop() returns (ok: bool, ghost at: Pc)
      requires In(Head)
      modifies this, scheduled
      ensures In(at) && (ok ==> at == Done) && (!ok ==> failsAt == Some(|wire|))
    {
      while controlOpen || dataOpen || scheduled.len != 0
        invariant In(Head)
        decreases |script|, Left(At(Head))
      {
        Move(Head, Drain);
        var r;
        r, at := Round();
        if r.Failed? { return false, at; }
        if r.Finished? { return true, Done; }
      }
      Move(Head, Done);
      return true, Done;
    }
  }
}
