/** The Edge's runtime loop as an object, and its place in the distribution protocol. */
module RouteClient {
  import opened Primitives
  import opened Publication
  import opened RouteDistribution

  /** What a held stream can yield, and what a wait without one can end with. */
  datatype StreamEvent<+T> = Arrived(message: Message<T>) | Broken | CancelledWhileReading

  datatype WaitEvent<+T> =
    | Expiry
    | Answered(message: Message<T>)
    | NotConnected
    | Refusal
    | CancelledWhileWaiting

  datatype Turn<+T> = Turn(stream: StreamEvent<T>, wait: WaitEvent<T>)

  datatype Flow = Continue | FallThrough | Finish | Fail(error: ClientError)

  /** Where the runtime stands after an event, and how the loop goes on. */
  datatype Outcome<+T> = Outcome(client: Client<T>, flow: Flow)

  function Settled<T>(c: Client<T>): Outcome<T> {
    if c.pc.Failed? then Outcome(c, Fail(c.pc.error)) else Outcome(c, Continue)
  }

  function OnStreamEvent<T(==)>(c: Client<T>, e: StreamEvent<T>): Outcome<T> {
    match e
    case CancelledWhileReading => Outcome(c, Finish)
    case Broken => Outcome(c.(stream := false, health := Stale), FallThrough)
    case Arrived(message) => Settled(OnMessage(c, message))
  }

  function OnWaitEvent<T(==)>(c: Client<T>, e: WaitEvent<T>): Outcome<T> {
    match e
    case CancelledWhileWaiting => Outcome(c, Finish)
    case Expiry => Outcome(c.(health := Expired), Continue)
    case NotConnected => Outcome(c, Continue)
    case Refusal => Outcome(c, Fail(Other))
    case Answered(message) => Settled(OnResponse(c, message))
  }

  /** One turn of the loop: the stream if one is held, the wait otherwise or when it breaks. */
  function OnTurn<T(==)>(c: Client<T>, t: Turn<T>): Outcome<T> {
    var first := if c.stream then OnStreamEvent(c, t.stream) else Outcome(c, FallThrough);
    if first.flow.FallThrough? then OnWaitEvent(first.client, t.wait) else first
  }

  function OnTurns<T(==)>(c: Client<T>, turns: seq<Turn<T>>): Outcome<T>
    decreases |turns|
  {
    if turns == [] then Outcome(c, Continue)
    else
      var first := OnTurn(c, turns[0]);
      if first.flow.Continue? then OnTurns(first.client, turns[1..]) else first
  }

  class EdgeRuntime<T(==)> {
    const publisher: Publisher<T, Health>
    const initialDelay: nat
    const maxDelay: nat
    var stream: bool
    var delay: nat

    /** What subscribers of the Edge are shown never goes back. */
    ghost predicate Valid()
      reads this, publisher
    {
      && publisher.Valid() && Ascending(publisher.updates)
      && initialDelay <= maxDelay && initialDelay <= delay <= maxDelay
    }

    /** At the loop head a stream is held exactly when the source is Live. */
    ghost predicate AtLoopHead()
      reads this, publisher
    {
      Valid() && (stream <==> publisher.health.Live?)
    }

    /** The runtime's part of the protocol state. */
    ghost function View(pc: Pc, shown: seq<Versioned<T>>): Client<T>
      reads this, publisher
    {
      Client(publisher.current, publisher.health, stream, pc, shown)
    }

    constructor (p: Publisher<T, Health>, first: nat, most: nat)
      requires p.Valid() && p.health.Live? && Ascending(p.updates) && first <= most
      ensures AtLoopHead() && publisher == p && stream && delay == first
      ensures initialDelay == first && maxDelay == most
    {
      publisher, initialDelay, maxDelay, stream, delay := p, first, most, true, first;
    }

    /** Publishes a catalog and keeps the stream, or ends the runtime. */
    method TakeCatalog(catalog: Versioned<T>, ghost shown: seq<Versioned<T>>) returns (flow: Flow)
      requires Valid()
      modifies this`stream, this`delay, publisher
      ensures Valid()
      ensures var after := Accept(old(View(AtHead, shown)), catalog);
              if after.pc.Failed? then flow == Fail(after.pc.error)
              else flow == Continue && AtLoopHead() && delay == initialDelay && View(AtHead, after.shown) == after
    {
      ghost var before := publisher.updates;
      var published := publisher.PublishCandidate(catalog);
      if published.Err? { return Fail(Update(published.error)); }
      ghost var between := publisher.updates;
      Appended(before, between, publisher.current);
      publisher.SetSourceHealth(Live);
      Appended(between, publisher.updates, publisher.current);
      stream := true;
      delay := initialDelay;
      return Continue;
    }

    method OnStream(event: StreamEvent<T>, ghost shown: seq<Versioned<T>>) returns (flow: Flow)
      requires AtLoopHead() && stream
      modifies this`stream, this`delay, publisher
      ensures Valid() && (flow.Continue? || flow.FallThrough? ==> AtLoopHead())
      ensures var after := OnStreamEvent(old(View(AtHead, shown)), event);
              && flow == after.flow
              && (flow.Continue? || flow.FallThrough? ==> View(AtHead, after.client.shown) == after.client)
              && (flow.Continue? ==> delay == initialDelay)
    {
      stream := false;
      match event
      case CancelledWhileReading => return Finish;
      case Arrived(Catalog(catalog)) => flow := TakeCatalog(catalog, shown);
      case Arrived(_) => return Fail(UnexpectedMessage);
      case Broken =>
        ghost var before := publisher.updates;
        publisher.SetSourceHealth(Stale);
        Appended(before, publisher.updates, publisher.current);
        return FallThrough;
    }

    method OnWait(event: WaitEvent<T>, ghost shown: seq<Versioned<T>>) returns (flow: Flow)
      requires AtLoopHead() && !stream
      modifies this`stream, this`delay, publisher
      ensures Valid() && (flow.Continue? ==> AtLoopHead())
      ensures var after := OnWaitEvent(old(View(AtHead, shown)), event);
              flow == after.flow && (flow.Continue? ==> View(AtHead, after.client.shown) == after.client)
      ensures event.NotConnected? ==> delay == Min(2 * old(delay), maxDelay)
      ensures event.Expiry? ==> delay == old(delay)
      ensures event.Answered? && flow.Continue? ==> delay == initialDelay
    {
      ghost var before := publisher.updates;
      match event
      case CancelledWhileWaiting => return Finish;
      case Expiry =>
        publisher.SetSourceHealth(Expired);
        Appended(before, publisher.updates, publisher.current);
        return Continue;
      case NotConnected =>
        delay := Min(2 * delay, maxDelay);
        return Continue;
      case Refusal => return Fail(Other);
      case Answered(Catalog(catalog)) => flow := TakeCatalog(catalog, shown);
      case Answered(UpToDate(version)) =>
        if version != publisher.current.version { return Fail(UnexpectedMessage); }
        publisher.SetSourceHealth(Live);
        Appended(before, publisher.updates, publisher.current);
        stream := true;
        delay := initialDelay;
        return Continue;
      case Answered(Refused(code)) => return Fail(ByServer(code));
    }

    /** The loop ends as its turns say, and stands at its head with a stream exactly
        when the source is Live. */
    method Run(turns: seq<Turn<T>>, ghost shown: seq<Versioned<T>>) returns (flow: Flow)
      requires AtLoopHead()
      modifies this`stream, this`delay, publisher
      ensures Valid() && (flow.Continue? ==> AtLoopHead())
      ensures var after := OnTurns(old(View(AtHead, shown)), turns);
              flow == after.flow && (flow.Continue? ==> View(AtHead, after.client.shown) == after.client)
    {
      ghost var whole := OnTurns(View(AtHead, shown), turns);
      ghost var c := View(AtHead, shown);
      for i := 0 to |turns|
        invariant AtLoopHead() && c == View(AtHead, c.shown)
        invariant OnTurns(c, turns[i..]) == whole
      {
        assert turns[i..][0] == turns[i] && turns[i..][1..] == turns[i + 1..];
        if stream {
          flow := OnStream(turns[i].stream, c.shown);
          c := OnStreamEvent(c, turns[i].stream).client;
          if flow.Continue? { continue; }
          if !flow.FallThrough? { return flow; }
        }
        flow := OnWait(turns[i].wait, c.shown);
        c := OnWaitEvent(c, turns[i].wait).client;
        if !flow.Continue? { return flow; }
      }
      return Continue;
    }
  }

  lemma Appended<T>(before: seq<Versioned<T>>, after: seq<Versioned<T>>, x: Versioned<T>)
    requires Ascending(before) && before != [] && (after == before || after == before + [x])
    requires before[|before| - 1].version <= x.version
    ensures Ascending(after)
  {
    forall i | 0 <= i < |before| ensures before[i].version <= x.version {
      assert before[i].version <= before[|before| - 1].version;
    }
  }

  /** Each event of the runtime is a step of the protocol's Edge: what a turn makes of the
      runtime, the protocol makes of the Edge. */
  lemma EventsAreSteps<T>(s: State<T>)
    requires s.client.pc.AtHead?
    ensures s.client.stream ==>
              && Do(s, LoseStream).client == OnStreamEvent(s.client, Broken).client
              && (s.conn.Some? && s.conn.value.down != [] ==>
                    Do(s, Receive).client == OnStreamEvent(s.client, Arrived(s.conn.value.down[0])).client)
    ensures !s.client.stream ==>
              && Do(s, Expire).client == OnWaitEvent(s.client, Expiry).client
              && Do(Do(s, Connect), FailToConnect(true)).client == OnWaitEvent(s.client, NotConnected).client
              && Do(Do(s, Connect), FailToConnect(false)).client.pc == Failed(Other)
              && OnWaitEvent(s.client, Refusal).flow == Fail(Other)
  {
  }

  /** An answer is taken as the protocol takes it. */
  lemma AnswerIsStep<T>(s: State<T>, at: Client<T>)
    requires s.client == at.(pc := Subscribing) && at.pc.AtHead? && s.conn.Some? && s.conn.value.down != []
    ensures var after, outcome := Do(s, TakeResponse).client, OnWaitEvent(at, Answered(s.conn.value.down[0]));
            if after.pc.Failed? then outcome.flow == Fail(after.pc.error) else outcome == Outcome(after, Continue)
  {
  }
}
