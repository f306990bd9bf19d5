/** One logical stream: its half-close bookkeeping, and the shape of what it puts on
    the wire. */
module LocalStream {
  import opened Primitives
  import opened FairQueue
  import opened Writer
  import opened WriterOrder

  const MULTIPLEXED_DATA_PAYLOAD_SIZE := 16 * 1024

  /** What the loop's select can yield: an inbound frame (`decodes` for a valid reset
      code, `delivered` if the local socket took it), the end of the inbound channel, a
      read of the local socket (`queued` if the data lane took the frame), a failed
      read, or the idle timeout. */
  datatype Event =
    | Inbound(frame: Frame, decodes: bool, delivered: bool)
    | InboundClosed
    | Read(bytes: Bytes, queued: bool)
    | ReadFailed
    | IdleElapsed

  datatype Reset = ProtocolViolation | IoFailure | IdleTimeout

  /** Reads fill at most one buffer. */
  predicate FitsBuffer(events: seq<Event>) {
    forall i | 0 <= i < |events| && events[i].Read? :: |events[i].bytes| <= MULTIPLEXED_DATA_PAYLOAD_SIZE
  }

  predicate IsData(f: Frame, k: StreamId) {
    f.stream == k && f.kind.Data? && 1 <= |f.payload| <= 16384
  }

  predicate IsEnd(f: Frame, k: StreamId) {
    f.stream == k && f.kind.EndStream? && f.payload == []
  }

  /** DATA* and then at most one END. */
  predicate Shape(frames: seq<Frame>, k: StreamId) {
    && (forall i | 0 <= i < |frames| - 1 :: IsData(frames[i], k))
    && (frames != [] ==> IsData(frames[|frames| - 1], k) || IsEnd(frames[|frames| - 1], k))
  }

  predicate Ended(frames: seq<Frame>) {
    frames != [] && frames[|frames| - 1].kind.EndStream?
  }

  function Payload(frames: seq<Frame>): Bytes {
    if frames == [] then [] else Payload(frames[..|frames| - 1]) + frames[|frames| - 1].payload
  }

  /** The local socket has reached its end; the peer has sent its END. */
  predicate HasEof(events: seq<Event>) {
    exists i | 0 <= i < |events| :: events[i].Read? && events[i].bytes == []
  }

  predicate HasEnd(events: seq<Event>) {
    exists i | 0 <= i < |events| :: events[i].Inbound? && events[i].frame.kind.EndStream?
  }

  /** All bytes read from the local socket, and all bytes the peer sent before its END. */
  function AllRead(events: seq<Event>): Bytes {
    if events == [] then []
    else
      var e := events[|events| - 1];
      AllRead(events[..|events| - 1]) + (if e.Read? && !HasEof(events[..|events| - 1]) then e.bytes else [])
  }

  /** The frame that a read is queued as: one DATA of its bytes, or END at the end. */
  function ReadFrame(bytes: Bytes, k: StreamId): Frame {
    Frame(if bytes == [] then EndStream else Data, k, bytes)
  }

  /** What the loop hands to the data lane: one frame per read until the local end. */
  function Queued(events: seq<Event>, k: StreamId): seq<Frame> {
    if events == [] then []
    else
      var e := events[|events| - 1];
      Queued(events[..|events| - 1], k)
      + (if e.Read? && !HasEof(events[..|events| - 1]) then [ReadFrame(e.bytes, k)] else [])
  }

  function AllInbound(events: seq<Event>): Bytes {
    if events == [] then []
    else
      var e := events[|events| - 1];
      AllInbound(events[..|events| - 1]) + (if e.Inbound? && e.frame.kind.Data? then e.frame.payload else [])
  }

  /** The events after which the loop is left. A read is not polled once the local side
      has ended, so it cannot stop the loop then. */
  predicate Stops(prior: seq<Event>, e: Event) {
    match e
    case Inbound(frame, _, ok) =>
      || HasEnd(prior) || !ok
      || !(frame.kind.Data? || (frame.kind.EndStream? && frame.payload == []))
    case InboundClosed => true
    case Read(_, queued) => !HasEof(prior) && !queued
    case ReadFailed => !HasEof(prior)
    case IdleElapsed => true
  }

  /** The reset sent on the control lane when an event stops the loop. */
  function ResetFor(prior: seq<Event>, e: Event): Option<Reset> {
    match e
    case Inbound(frame, decodes, _) =>
      if !HasEnd(prior) && (frame.kind.Data? || (frame.kind.EndStream? && frame.payload == [])) then Some(IoFailure)
      else if frame.kind.ResetStream? && decodes then None
      else Some(ProtocolViolation)
    case ReadFailed => Some(IoFailure)
    case IdleElapsed => Some(IdleTimeout)
    case _ => None
  }

  lemma PayloadAppend(frames: seq<Frame>, f: Frame)
    ensures Payload(frames + [f]) == Payload(frames) + f.payload
  {
    assert (frames + [f])[..|frames|] == frames;
  }

  lemma EventsAppend(events: seq<Event>, i: nat, k: StreamId)
    requires i < |events|
    ensures var e := events[i];
            && Queued(events[..i + 1], k)
               == Queued(events[..i], k) + (if e.Read? && !HasEof(events[..i]) then [ReadFrame(e.bytes, k)] else [])
            && HasEof(events[..i + 1]) == (HasEof(events[..i]) || (e.Read? && e.bytes == []))
            && HasEnd(events[..i + 1]) == (HasEnd(events[..i]) || (e.Inbound? && e.frame.kind.EndStream?))
            && AllRead(events[..i + 1])
               == AllRead(events[..i]) + (if e.Read? && !HasEof(events[..i]) then e.bytes else [])
            && AllInbound(events[..i + 1])
               == AllInbound(events[..i]) + (if e.Inbound? && e.frame.kind.Data? then e.frame.payload else [])
  {
    var longer := events[..i + 1];
    assert longer[..i] == events[..i];
    assert forall j | 0 <= j < i :: longer[j] == events[..i][j];
    assert longer[i] == events[i];
  }

  lemma ShapeAppend(frames: seq<Frame>, bytes: Bytes, k: StreamId)
    requires Shape(frames, k) && !Ended(frames) && |bytes| <= MULTIPLEXED_DATA_PAYLOAD_SIZE
    ensures var longer := frames + [ReadFrame(bytes, k)];
            && Shape(longer, k) && Payload(longer) == Payload(frames) + bytes && (Ended(longer) <==> bytes == [])
  {
    PayloadAppend(frames, ReadFrame(bytes, k));
  }

  /** What is queued is DATA* and then END exactly at the local end, and carries exactly
      the bytes read. */
  lemma {:induction false} QueuedRelays(events: seq<Event>, k: StreamId)
    requires FitsBuffer(events)
    ensures Shape(Queued(events, k), k) && Payload(Queued(events, k)) == AllRead(events)
    ensures Ended(Queued(events, k)) <==> HasEof(events)
    decreases |events|
  {
    if events != [] {
      var last := |events| - 1;
      QueuedRelays(events[..last], k);
      EventsAppend(events, last, k);
      assert events[..last + 1] == events;
      if events[last].Read? && !HasEof(events[..last]) {
        ShapeAppend(Queued(events[..last], k), events[last].bytes, k);
      } else {
        assert Queued(events, k) == Queued(events[..last], k) && AllRead(events) == AllRead(events[..last]);
      }
    }
  }

  class Task {
    const stream: StreamId
    var sent: seq<Frame>
    var delivered: Bytes
    var reset: Option<Reset>
    var localEnded: bool
    var peerEnded: bool

    /** The data lane got exactly the frames of the reads; the local socket got exactly
        what the peer sent. */
    ghost predicate Relays(prior: seq<Event>)
      reads this
    {
      sent == Queued(prior, stream) && delivered == AllInbound(prior)
    }

    ghost predicate Valid(prior: seq<Event>)
      reads this
    {
      Relays(prior) && localEnded == HasEof(prior) && peerEnded == HasEnd(prior)
    }

    constructor (k: StreamId)
      ensures stream == k && Valid([]) && reset == None
    {
      stream, sent, delivered, reset, localEnded, peerEnded := k, [], [], None, false, false;
    }

    /** An inbound frame: DATA and END until the peer has ended, a reset at any time. */
    method OnInbound(frame: Frame, decodes: bool, ok: bool) returns (go: bool)
      requires reset.None?
      modifies this`delivered, this`reset, this`peerEnded
      ensures go <==> ok && !old(peerEnded) && (frame.kind.Data? || (frame.kind.EndStream? && frame.payload == []))
      ensures go ==> reset.None? && peerEnded == frame.kind.EndStream?
      ensures !go ==>
                reset == if !old(peerEnded) && (frame.kind.Data? || (frame.kind.EndStream? && frame.payload == []))
                         then Some(IoFailure)
                         else if frame.kind.ResetStream? && decodes then None
                         else Some(ProtocolViolation)
      ensures delivered == old(delivered) + if go && frame.kind.Data? then frame.payload else []
    {
      if frame.kind.Data? && !peerEnded {
        if !ok {
          reset := Some(IoFailure);
          return false;
        }
        delivered := delivered + frame.payload;
        return true;
      }
      if frame.kind.EndStream? && frame.payload == [] && !peerEnded {
        peerEnded := true;
        if !ok { reset := Some(IoFailure); }
        return ok;
      }
      if !(frame.kind.ResetStream? && decodes) { reset := Some(ProtocolViolation); }
      return false;
    }

    /** A read of the local socket: its bytes become one DATA frame, its end the END frame. */
    method OnRead(bytes: Bytes, queued: bool) returns (go: bool)
      modifies this`sent, this`localEnded
      ensures go == queued && localEnded == (old(localEnded) || bytes == [])
      ensures sent == old(sent) + if queued then [ReadFrame(bytes, stream)] else []
    {
      if bytes == [] {
        localEnded := true;
        if queued { sent := sent + [Frame(EndStream, stream, [])]; }
      } else if queued {
        sent := sent + [Frame(Data, stream, bytes)];
      }
      return queued;
    }

    method OnEvent(events: seq<Event>, i: nat) returns (go: bool)
      requires i < |events| && Valid(events[..i]) && reset.None?
      modifies this
      ensures go <==> !Stops(events[..i], events[i])
      ensures if go then Valid(events[..i + 1]) && reset.None?
              else Relays(events[..i]) && reset == ResetFor(events[..i], events[i])
    {
      EventsAppend(events, i, stream);
      match events[i]
      case Inbound(frame, decodes, ok) => go := OnInbound(frame, decodes, ok);
      case InboundClosed => go := false;
      case Read(bytes, queued) =>
        go := true;
        if !localEnded { go := OnRead(bytes, queued); }
      case ReadFailed =>
        if !localEnded { reset := Some(IoFailure); }
        go := localEnded;
      case IdleElapsed =>
        reset := Some(IdleTimeout);
        go := false;
    }

    /** The loop handles `n` events: it stops at the first event it must stop at, with
        the reset that event calls for, or once both sides have ended, and not before.
        Until then it relays both ways. */
    method Run(events: seq<Event>) returns (n: nat)
      requires Valid([]) && reset.None?
      modifies this
      ensures n <= |events| && sent == Queued(events[..n], stream) && delivered == AllInbound(events[..n])
      ensures forall i | 0 <= i < n :: !Stops(events[..i], events[i])
      ensures n < |events| ==> Stops(events[..n], events[n]) || (HasEof(events[..n]) && HasEnd(events[..n]))
      ensures reset == if n < |events| && !(HasEof(events[..n]) && HasEnd(events[..n]))
                       then ResetFor(events[..n], events[n]) else None
    {
      n := 0;
      assert events[..0] == [];
      while n < |events| && !(localEnded && peerEnded)
        invariant n <= |events| && reset.None? && Valid(events[..n])
        invariant forall i | 0 <= i < n :: !Stops(events[..i], events[i])
      {
        var go := OnEvent(events, n);
        if !go { return; }
        n := n + 1;
      }
    }
  }

  // ---------------------------------------------------------- onto the wire

  lemma {:induction false} PayloadPrefix(a: seq<Frame>, b: seq<Frame>)
    requires a <= b
    ensures Payload(a) <= Payload(b)
    decreases |b|
  {
    if |a| < |b| {
      assert a <= b[..|b| - 1];
      PayloadPrefix(a, b[..|b| - 1]);
    } else {
      assert a == b;
    }
  }

  lemma ShapePrefix(a: seq<Frame>, b: seq<Frame>, k: StreamId)
    requires Shape(b, k) && a <= b
    ensures Shape(a, k)
  {
    if a != [] { assert a[|a| - 1] == b[|a| - 1]; }
  }

  lemma WireIsCarried(s: State, k: StreamId)
    ensures DataOn(s.wire, k) <= Carried(s, k)
  {
    FirstOfFour(DataOn(s.wire, k), FlightOn(s.pc, k), Fifo(s.scheduled, k), OnStream(s.lanes.data, k));
  }

  /** What is on the wire of a stream is a prefix of what its data lane accepted. */
  lemma OnWireIsPrefix(steps: seq<Step>, capacity: nat, k: StreamId)
    requires capacity > 0
    ensures DataOn(Run(Initial(capacity), steps, capacity).wire, k) <= AllData(Initial(capacity), steps, capacity, k)
  {
    var end, accepted := Run(Initial(capacity), steps, capacity), AllData(Initial(capacity), steps, capacity, k);
    NothingIsLost(Initial(capacity), steps, capacity, k);
    WireIsCarried(end, k);
    assert Carried(Initial(capacity), k) == [];
    assert [] + accepted == accepted;
  }

  /** Wire shape. Whatever the events of a stream's loop and the run of the writer, if
      the data lane has accepted of the stream what its loop has queued so far, then the
      stream is on the wire as DATA* and then at most one END, with 1 to 16384 bytes
      each, and its bytes are a prefix of the bytes read. Once the session has ended and
      all was accepted, they are the bytes read, and END is there exactly if the local
      socket ended. */
  lemma WireShape(steps: seq<Step>, capacity: nat, k: StreamId, events: seq<Event>)
    requires capacity > 0 && FitsBuffer(events)
    requires AllData(Initial(capacity), steps, capacity, k) <= Queued(events, k)
    ensures var end := Run(Initial(capacity), steps, capacity);
            var onWire := DataOn(end.wire, k);
            && Shape(onWire, k) && Payload(onWire) <= AllRead(events)
            && (end.pc.Done? && AllData(Initial(capacity), steps, capacity, k) == Queued(events, k) ==>
                  Payload(onWire) == AllRead(events) && (Ended(onWire) <==> HasEof(events)))
  {
    var onWire := DataOn(Run(Initial(capacity), steps, capacity).wire, k);
    QueuedRelays(events, k);
    OnWireIsPrefix(steps, capacity, k);
    ShapePrefix(onWire, Queued(events, k), k);
    PayloadPrefix(onWire, Queued(events, k));
    if Run(Initial(capacity), steps, capacity).pc.Done? { EverythingIsWritten(steps, capacity, k); }
  }

  /** After the peer's END the loop takes in nothing more from it, and before that only
      DATA and an empty END that the local socket took. */
  lemma NothingAfterEnd(events: seq<Event>, n: nat, i: nat, j: nat)
    requires n <= |events| && i < j < n && forall q | 0 <= q < n :: !Stops(events[..q], events[q])
    ensures events[i].Inbound? && events[i].frame.kind.EndStream? ==> !events[j].Inbound?
    ensures events[j].Inbound? ==>
              events[j].delivered && (events[j].frame.kind.Data? || events[j].frame.kind.EndStream?)
  {
    assert !Stops(events[..j], events[j]);
    assert events[..j][i] == events[i];
  }
}
