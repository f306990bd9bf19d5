/** That an Edge gets there: from any point of the distribution, what is still to do leads
    to the server's current catalog. */
module RouteProgress {
  import opened Primitives
  import opened Publication
  import opened RouteDistribution

  lemma {:induction false} RunAppend<T>(s: State<T>, a: seq<Step<T>>, b: seq<Step<T>>)
    ensures Run(s, a + b) == Run(Run(s, a), b)
    decreases |a|
  {
    if a == [] {
      assert a + b == b;
    } else {
      assert (a + b)[1..] == a[1..] + b && (a + b)[0] == a[0];
      RunAppend(Do(s, a[0]), a[1..], b);
    }
  }

  lemma RunOne<T>(s: State<T>, step: Step<T>)
    ensures Run(s, [step]) == Do(s, step)
  {
    assert [step][1..] == [];
  }

  /** The Edge holds a stream that the server has not dropped. */
  predicate Held<T>(s: State<T>) {
    s.client.pc.AtHead? && s.client.stream && s.conn.Some? && !s.conn.value.phase.Gone?
  }

  /** A held stream has catalogs under way only; the next one is taken and the stream kept. */
  lemma ReceiveOne<T>(s: State<T>)
    requires Consistent(s) && Held(s) && s.conn.value.down != []
    ensures var t := Do(s, Receive);
            && Consistent(t) && Held(t) && t.server == s.server
            && t.conn == Some(s.conn.value.(down := s.conn.value.down[1..]))
  {
    StepKeepsConsistent(s, Receive);
    assert s.conn.value.down[0].Catalog?;
    FlowTail(s.server, s.client.catalog, s.conn.value.down, s.conn.value.down[0].catalog);
    AcceptOk(s.server, s.client, s.conn.value.down[0].catalog);
  }

  /** All that is under way arrives. */
  lemma {:induction false} ReceiveAll<T>(s: State<T>) returns (steps: seq<Step<T>>)
    requires Consistent(s) && Held(s)
    ensures var t := Run(s, steps);
            Consistent(t) && Held(t) && t.server == s.server && t.conn == Some(s.conn.value.(down := []))
    ensures |steps| == |s.conn.value.down|
    decreases |s.conn.value.down|
  {
    steps := [];
    if s.conn.value.down != [] {
      ReceiveOne(s);
      var rest := ReceiveAll(Do(s, Receive));
      steps := [Receive] + rest;
      assert steps[1..] == rest;
    }
  }

  /** A message that the server is about to send goes out. */
  lemma Flushes<T>(s: State<T>)
    requires Consistent(s) && Held(s) && s.conn.value.phase.Sending?
    ensures var t := Do(s, SendCurrent);
            && Consistent(t) && Held(t) && t.server == s.server
            && t.conn == Some(Conn(Serving, s.conn.value.seen, s.conn.value.down + [Catalog(s.server.current)]))
  {
    StepKeepsConsistent(s, SendCurrent);
  }

  /** A change that the connection has not seen is seen. */
  lemma Sees<T>(s: State<T>)
    requires Consistent(s) && Held(s) && s.conn.value.phase.Serving? && s.conn.value.seen < s.server.epoch
    ensures var t := Do(s, SeeChange);
            && Consistent(t) && Held(t) && t.server == s.server
            && t.conn == Some(Conn(Sending, s.server.epoch, s.conn.value.down))
  {
    StepKeepsConsistent(s, SeeChange);
  }

  /** A serving connection has seen the latest change after at most two steps. */
  lemma ServesLatest<T>(s: State<T>) returns (steps: seq<Step<T>>)
    requires Consistent(s) && Held(s) && s.conn.value.phase.Serving?
    ensures var t := Run(s, steps);
            && Consistent(t) && Held(t) && t.server == s.server
            && t.conn.value.phase.Serving? && t.conn.value.seen == s.server.epoch
            && |t.conn.value.down| <= |s.conn.value.down| + 1
    ensures |steps| <= 2
  {
    steps := [];
    if s.conn.value.seen < s.server.epoch {
      steps := [SeeChange, SendCurrent];
      Sees(s);
      Flushes(Do(s, SeeChange));
      assert steps[1..] == [SendCurrent];
      RunOne(Do(s, SeeChange), SendCurrent);
    }
  }

  /** The server sends what the connection has not seen. */
  lemma SendAll<T>(s: State<T>) returns (steps: seq<Step<T>>)
    requires Consistent(s) && Held(s)
    ensures var t := Run(s, steps);
            && Consistent(t) && Held(t) && t.server == s.server
            && t.conn.value.phase.Serving? && t.conn.value.seen == s.server.epoch
            && |t.conn.value.down| <= |s.conn.value.down| + 2
    ensures |steps| <= 3
  {
    if s.conn.value.phase.Sending? {
      Flushes(s);
      var rest := ServesLatest(Do(s, SendCurrent));
      steps := [SendCurrent] + rest;
      assert steps[1..] == rest;
    } else {
      steps := ServesLatest(s);
    }
  }

  /** A held stream gets quiet, and then the Edge has the current catalog. */
  lemma HeldCatchesUp<T>(s: State<T>) returns (steps: seq<Step<T>>)
    requires Consistent(s) && Held(s)
    ensures var t := Run(s, steps); Quiet(t) && t.server == s.server && t.client.catalog == s.server.current
    ensures |steps| <= |s.conn.value.down| + 5
  {
    var sending := SendAll(s);
    var receiving := ReceiveAll(Run(s, sending));
    steps := sending + receiving;
    RunAppend(s, sending, receiving);
  }

  lemma Subscribes<T>(s: State<T>)
    requires Consistent(s) && s.client.pc.AtHead? && !s.client.stream
    ensures var t := Do(Do(s, Connect), ServeSubscribe);
            && Consistent(t) && t.server == s.server && t.client == s.client.(pc := Subscribing)
            && t.conn == Some(Conn(Serving, s.server.bound, [Response(s.server.current, s.client.catalog.version)]))
            && s.client.catalog.version <= s.server.current.version
  {
    LastIsGreatest(s.server.history, s.client.catalog);
    StepKeepsConsistent(s, Connect);
    var asked := Do(s, Connect);
    var none: seq<Message<T>> := [];
    var response := Response(s.server.current, s.client.catalog.version);
    assert asked.conn == Some(Conn(AwaitSubscribe(s.client.catalog.version), s.server.bound, none));
    assert none + [response] == [response];
    StepKeepsConsistent(asked, ServeSubscribe);
  }

  lemma Answers<T>(s: State<T>)
    requires Consistent(s) && s.client.pc.Subscribing? && s.conn.Some? && s.conn.value.phase.Serving?
    requires s.client.catalog.version <= s.server.current.version
    requires s.conn.value.down == [Response(s.server.current, s.client.catalog.version)]
    ensures var t := Do(s, TakeResponse);
            && Consistent(t) && Held(t) && t.server == s.server && t.conn == Some(s.conn.value.(down := []))
            && t.client.health.Live? && t.client.catalog == s.server.current
  {
    StepKeepsConsistent(s, TakeResponse);
    if s.client.catalog.version < s.server.current.version {
      AcceptOk(s.server, s.client, s.server.current);
    } else {
      EqualVersionsAreEqual(s.server.history, s.client.catalog, s.server.current);
    }
  }

  /** Without a stream the Edge gets one, at its own version or with the current catalog. */
  lemma Reconnects<T>(s: State<T>)
    requires Consistent(s) && s.client.pc.AtHead? && !s.client.stream
    ensures var t := Run(s, [Connect, ServeSubscribe, TakeResponse]);
            && Consistent(t) && Held(t) && t.server == s.server && t.conn.value.down == [] && t.client.health.Live?
            && t.client.catalog == s.server.current
  {
    Subscribes(s);
    Answers(Do(Do(s, Connect), ServeSubscribe));
    var steps: seq<Step<T>> := [Connect, ServeSubscribe, TakeResponse];
    assert steps[1..] == [ServeSubscribe, TakeResponse] && steps[1..][1..] == [TakeResponse];
    RunOne(Do(Do(s, Connect), ServeSubscribe), TakeResponse);
  }

  /** What brings a runtime without a usable stream back to its loop head without one. */
  function LettingGo<T>(s: State<T>): seq<Step<T>> {
    if s.client.pc.Subscribing? then [FailToConnect(true)]
    else if s.client.stream then [LoseStream]
    else []
  }

  lemma LetsGo<T>(s: State<T>)
    requires Consistent(s) && (s.client.pc.AtHead? || s.client.pc.Subscribing?)
    ensures var t := Run(s, LettingGo(s));
            Consistent(t) && t.client.pc.AtHead? && !t.client.stream && t.server == s.server
  {
    RunOne(s, FailToConnect(true));
    RunOne(s, LoseStream);
    StepKeepsConsistent(s, FailToConnect(true));
    StepKeepsConsistent(s, LoseStream);
  }

  /** Catching up. From every consistent state in which the runtime has not ended, a
      bounded number of steps of the connection and of the Edge, and none of the control
      plane, leads to a quiet stream on which the Edge has the current catalog. */
  lemma EdgeCatchesUp<T>(s: State<T>) returns (steps: seq<Step<T>>)
    requires Consistent(s) && (s.client.pc.AtHead? || s.client.pc.Subscribing?)
    ensures var t := Run(s, steps);
            Quiet(t) && t.client.health.Live? && t.server == s.server && t.client.catalog == s.server.current
    ensures |steps| <= 9 + if s.conn.Some? then |s.conn.value.down| else 0
  {
    if Held(s) {
      steps := HeldCatchesUp(s);
      RunKeepsConsistent(s, steps);
    } else {
      LetsGo(s);
      var free := Run(s, LettingGo(s));
      var connecting: seq<Step<T>> := [Connect, ServeSubscribe, TakeResponse];
      Reconnects(free);
      var rest := HeldCatchesUp(Run(free, connecting));
      steps := LettingGo(s) + (connecting + rest);
      RunAppend(s, LettingGo(s), connecting + rest);
      RunAppend(free, connecting, rest);
      RunKeepsConsistent(s, steps);
    }
  }

  /** How the source's health moves: a lost stream makes it Stale, the age limit Expired,
      and only an answer or a catalog from the server Live again. */
  lemma HealthMoves<T>(s: State<T>, step: Step<T>)
    requires Consistent(s) && Do(s, step).client.health != s.client.health
    ensures var after := Do(s, step).client;
            match after.health
            case Stale => step.LoseStream? && s.client.stream && !after.stream
            case Expired => step.Expire? && !after.stream
            case Live => (step.Receive? || step.TakeResponse?) && after.stream
  {
  }

  /** And does move then. */
  lemma HealthFollows<T>(s: State<T>)
    requires Consistent(s)
    ensures s.client.pc.AtHead? && s.client.stream ==>
              Do(s, LoseStream).client == s.client.(stream := false, health := Stale)
    ensures (s.client.pc.AtHead? && !s.client.stream) || s.client.pc.Subscribing? ==>
              Do(s, Expire).client == s.client.(health := Expired, pc := AtHead)
    ensures s.client.pc.AtHead? || s.client.pc.Subscribing? ==> Do(s, Shutdown).client.pc.Stopped?
  {
  }

  /** End to end: a newer catalog that is published, or found at a restart, reaches every
      Edge whose runtime has not ended, in a bounded number of steps. */
  lemma NewCatalogReachesEdge<T>(s: State<T>, c: Versioned<T>, restart: bool) returns (steps: seq<Step<T>>)
    requires Consistent(s) && (s.client.pc.AtHead? || s.client.pc.Subscribing?) && s.server.current.version < c.version
    ensures var t := Run(Do(s, if restart then Restart(c) else PublishNext(c)), steps);
            Quiet(t) && t.client.catalog == c && t.client.health.Live?
    ensures |steps| <= 9 + if s.conn.Some? then |s.conn.value.down| else 0
  {
    var change := if restart then Restart(c) else PublishNext(c);
    StepKeepsConsistent(s, change);
    steps := EdgeCatchesUp(Do(s, change));
  }
}
