/** Latest-value distribution of the route catalog to an Edge, over connections that
    come and go. */
module RouteDistribution {
  import opened Primitives
  import opened Publication

  datatype ServiceError = InvalidRequest | ClientAhead

  datatype Message<+T> = Catalog(catalog: Versioned<T>) | UpToDate(version: nat) | Refused(code: ServiceError)

  /** The server's end: awaiting the subscription, waiting for a change, about to send
      one, or gone. */
  datatype Phase = AwaitSubscribe(version: nat) | Serving | Sending | Gone

  /** One connection: the epoch its receiver has seen, and the messages under way. */
  datatype Conn<+T> = Conn(phase: Phase, seen: nat, down: seq<Message<T>>)

  /** The watch channel: value and epoch; the epoch the accepting receiver was bound at
      (every connection starts as a clone of it), and all catalogs there have been. */
  datatype Server<+T> = Server(current: Versioned<T>, epoch: nat, bound: nat, history: seq<Versioned<T>>)

  datatype Health = Live | Stale | Expired

  datatype ClientError = Update(error: UpdateError) | ByServer(code: ServiceError) | UnexpectedMessage | Other

  datatype Pc = AtHead | Subscribing | Failed(error: ClientError) | Stopped

  /** The Edge: its publisher's catalog and health, whether it holds a stream, and the
      catalogs it has shown its own subscribers. */
  datatype Client<+T> = Client(
    catalog: Versioned<T>, health: Health, stream: bool, pc: Pc, shown: seq<Versioned<T>>)

  datatype State<+T> = State(server: Server<T>, client: Client<T>, conn: Option<Conn<T>>)

  datatype Step<+T> =
    // the control plane
    | PublishNext(catalog: Versioned<T>) | Touch | Restart(catalog: Versioned<T>)
    // one served connection
    | ServeSubscribe | RefuseRequest | SeeChange | SendCurrent | DropConnection
    // the Edge
    | Receive | LoseStream | Expire | Connect | TakeResponse | FailToConnect(retry: bool) | Shutdown

  // --------------------------------------------------------------- the server

  /** A newer catalog joins the history; an epoch passes either way. */
  function WithCatalog<T>(s: Server<T>, c: Versioned<T>): Server<T> {
    if c.version > s.current.version then s.(current := c, epoch := s.epoch + 1, history := s.history + [c]) else s
  }

  /** After a restart the durable catalog is served: the last one, or a newer one. */
  function Restarted<T>(s: Server<T>, c: Versioned<T>): Server<T> {
    WithCatalog(s, c).(epoch := 0, bound := 0)
  }

  function Gone<T>(conn: Option<Conn<T>>): Option<Conn<T>> {
    match conn case None => None case Some(c) => Some(c.(phase := Phase.Gone))
  }

  function Response<T>(current: Versioned<T>, request: nat): Message<T> {
    if request == current.version then UpToDate(current.version)
    else if request < current.version then Catalog(current)
    else Refused(ClientAhead)
  }

  function Serve<T>(server: Server<T>, conn: Conn<T>, step: Step<T>): Conn<T> {
    match step
    case ServeSubscribe =>
      if !conn.phase.AwaitSubscribe? then conn
      else
        var response := Response(server.current, conn.phase.version);
        conn.(down := conn.down + [response], phase := if response.Refused? then Phase.Gone else Serving)
    case RefuseRequest =>
      if !conn.phase.AwaitSubscribe? then conn
      else conn.(down := conn.down + [Refused(InvalidRequest)], phase := Phase.Gone)
    case SeeChange =>
      if conn.phase.Serving? && conn.seen < server.epoch then conn.(seen := server.epoch, phase := Sending) else conn
    case SendCurrent =>
      if conn.phase.Sending? then conn.(down := conn.down + [Catalog(server.current)], phase := Serving) else conn
    case DropConnection => conn.(phase := Phase.Gone)
    case _ => conn
  }

  // ----------------------------------------------------------------- the Edge

  /** A catalog arrives: it is published, and the stream is kept, or the runtime ends. */
  function Accept<T(==)>(c: Client<T>, catalog: Versioned<T>): Client<T> {
    var outcome := Publish(c.catalog, catalog);
    match outcome.reply
    case Err(e) => c.(pc := Failed(Update(e)), stream := false)
    case Ok(_) =>
      Client(outcome.current, Live, true, AtHead, c.shown + [outcome.current])
  }

  function OnMessage<T(==)>(c: Client<T>, m: Message<T>): Client<T> {
    match m
    case Catalog(catalog) => Accept(c, catalog)
    case _ => c.(pc := Failed(UnexpectedMessage), stream := false)
  }

  function OnResponse<T(==)>(c: Client<T>, m: Message<T>): Client<T> {
    match m
    case Catalog(catalog) => Accept(c, catalog)
    case UpToDate(version) =>
      if version == c.catalog.version then c.(health := Live, stream := true, pc := AtHead)
      else c.(pc := Failed(UnexpectedMessage))
    case Refused(code) => c.(pc := Failed(ByServer(code)))
  }

  /** One step of the Edge, with the connection it is left with. */
  function Act<T(==)>(s: State<T>, step: Step<T>): State<T> {
    var c := s.client;
    match step
    case Receive =>
      if c.pc.AtHead? && c.stream && s.conn.Some? && s.conn.value.down != [] then
        var conn := s.conn.value;
        s.(client := OnMessage(c, conn.down[0]), conn := Some(conn.(down := conn.down[1..])))
      else s
    case LoseStream =>
      if c.pc.AtHead? && c.stream then s.(client := c.(stream := false, health := Stale), conn := None) else s
    case Expire =>
      if (c.pc.AtHead? && !c.stream) || c.pc.Subscribing? then
        s.(client := c.(health := Expired, pc := AtHead), conn := None)
      else s
    case Connect =>
      if c.pc.AtHead? && !c.stream then
        s.(client := c.(pc := Subscribing),
           conn := Some(Conn(AwaitSubscribe(c.catalog.version), s.server.bound, [])))
      else s
    case TakeResponse =>
      if c.pc.Subscribing? && s.conn.Some? && s.conn.value.down != [] then
        var conn := s.conn.value;
        s.(client := OnResponse(c, conn.down[0]), conn := Some(conn.(down := conn.down[1..])))
      else s
    case FailToConnect(retry) =>
      if c.pc.Subscribing? then s.(client := c.(pc := if retry then AtHead else Failed(Other)), conn := None) else s
    case Shutdown =>
      if c.pc.AtHead? || c.pc.Subscribing? then s.(client := c.(pc := Stopped, stream := false), conn := None) else s
    case _ => s
  }

  function Do<T(==)>(s: State<T>, step: Step<T>): State<T> {
    match step
    case PublishNext(c) => s.(server := WithCatalog(s.server, c))
    case Touch => s.(server := s.server.(epoch := s.server.epoch + 1))
    case Restart(c) => s.(server := Restarted(s.server, c), conn := Gone(s.conn))
    case ServeSubscribe => if s.conn.Some? then s.(conn := Some(Serve(s.server, s.conn.value, step))) else s
    case RefuseRequest => if s.conn.Some? then s.(conn := Some(Serve(s.server, s.conn.value, step))) else s
    case SeeChange => if s.conn.Some? then s.(conn := Some(Serve(s.server, s.conn.value, step))) else s
    case SendCurrent => if s.conn.Some? then s.(conn := Some(Serve(s.server, s.conn.value, step))) else s
    case DropConnection => if s.conn.Some? then s.(conn := Some(Serve(s.server, s.conn.value, step))) else s
    case _ => Act(s, step)
  }

  function Run<T(==)>(s: State<T>, steps: seq<Step<T>>): State<T>
    decreases |steps|
  {
    if steps == [] then s else Run(Do(s, steps[0]), steps[1..])
  }

  /** Just bootstrapped, from a server with any history behind it and any changes since it
      was bound: the Edge holds a stream and the catalog that answered its subscription
      from version zero. */
  ghost predicate Bootstrapped<T>(s: State<T>) {
    && ServerOk(s.server) && Response(s.server.current, 0) == Catalog(s.client.catalog)
    && s.client == Client(s.client.catalog, Live, true, AtHead, [s.client.catalog])
    && s.conn == Some(Conn(Serving, s.server.bound, []))
  }

  // ---------------------------------------------------------------- invariant

  ghost predicate Increasing<T>(log: seq<Versioned<T>>) {
    forall i, j {:trigger log[i].version, log[j].version} | 0 <= i < j < |log| :: log[i].version < log[j].version
  }

  ghost predicate Ascending<T>(log: seq<Versioned<T>>) {
    forall i, j {:trigger log[i].version, log[j].version} | 0 <= i < j < |log| :: log[i].version <= log[j].version
  }

  /** The catalogs under way, in order. */
  function Catalogs<T>(down: seq<Message<T>>): seq<Versioned<T>> {
    if down == [] then []
    else (if down[0].Catalog? then [down[0].catalog] else []) + Catalogs(down[1..])
  }

  /** The catalog the Edge will have once everything under way has arrived. */
  function Upcoming<T>(catalog: Versioned<T>, down: seq<Message<T>>): Versioned<T> {
    var under := Catalogs(down);
    if under == [] then catalog else under[|under| - 1]
  }

  ghost predicate ServerOk<T>(s: Server<T>) {
    && s.history != [] && s.history[|s.history| - 1] == s.current && Increasing(s.history)
    && s.bound <= s.epoch
  }

  /** What the Edge has and what is under way were all served, in ascending order. */
  ghost predicate FlowOk<T>(server: Server<T>, catalog: Versioned<T>, down: seq<Message<T>>) {
    && (forall x | x in [catalog] + Catalogs(down) :: x in server.history)
    && Ascending([catalog] + Catalogs(down))
  }

  /** Only a first message can be other than a catalog, and then it answers the subscription. */
  ghost predicate DownOk<T>(version: nat, down: seq<Message<T>>, subscribing: bool) {
    && (forall i | 0 < i < |down| :: down[i].Catalog?)
    && (down != [] && !down[0].Catalog? ==>
          subscribing && (down[0] == UpToDate(version) || down[0] == Refused(InvalidRequest)))
  }

  ghost predicate ConnOk<T>(server: Server<T>, client: Client<T>, conn: Conn<T>) {
    && FlowOk(server, client.catalog, conn.down)
    && DownOk(client.catalog.version, conn.down, client.pc.Subscribing?)
    && (conn.phase.Gone? || conn.seen <= server.epoch)
    && match conn.phase
       case AwaitSubscribe(version) => client.pc.Subscribing? && conn.down == [] && version == client.catalog.version
       case Serving => conn.seen == server.epoch ==> Upcoming(client.catalog, conn.down) == server.current
       case _ => true
  }

  ghost predicate ClientOk<T>(server: Server<T>, c: Client<T>) {
    && c.catalog in server.history
    && (forall x | x in c.shown :: x in server.history)
    && Ascending(c.shown) && c.shown != [] && c.shown[|c.shown| - 1] == c.catalog
    && (c.pc.Failed? ==> c.pc.error == Other || c.pc.error == ByServer(InvalidRequest))
    && (c.pc.AtHead? ==> (c.stream <==> c.health.Live?))
    && (c.pc.Subscribing? ==> !c.stream && !c.health.Live?)
  }

  ghost predicate Consistent<T>(s: State<T>) {
    && ServerOk(s.server) && ClientOk(s.server, s.client)
    && (s.conn.Some? ==> ConnOk(s.server, s.client, s.conn.value))
    && (s.client.pc.AtHead? && s.client.stream ==> s.conn.Some?)
  }

  // --------------------------------------------------------- catalogs in order

  lemma LastIsGreatest<T>(log: seq<Versioned<T>>, x: Versioned<T>)
    requires Increasing(log) && x in log
    ensures x.version <= log[|log| - 1].version
    ensures x.version == log[|log| - 1].version ==> x == log[|log| - 1]
  {
    var i :| 0 <= i < |log| && log[i] == x;
    assert log[i].version <= log[|log| - 1].version;
  }

  lemma EqualVersionsAreEqual<T>(log: seq<Versioned<T>>, x: Versioned<T>, y: Versioned<T>)
    requires Increasing(log) && x in log && y in log && x.version == y.version
    ensures x == y
  {
    var i :| 0 <= i < |log| && log[i] == x;
    var j :| 0 <= j < |log| && log[j] == y;
    assert log[i].version == log[j].version;
  }

  lemma {:induction false} CatalogsAppend<T>(down: seq<Message<T>>, m: Message<T>)
    ensures Catalogs(down + [m]) == Catalogs(down) + (if m.Catalog? then [m.catalog] else [])
    decreases |down|
  {
    var longer := down + [m];
    if down == [] {
      assert longer == [m] && longer[1..] == [];
    } else {
      CatalogsAppend(down[1..], m);
      assert longer[1..] == down[1..] + [m] && longer[0] == down[0];
      CatalogsTail(longer);
      CatalogsTail(down);
    }
  }

  lemma AscendingAppend<T>(log: seq<Versioned<T>>, x: Versioned<T>)
    requires Ascending(log) && forall y | y in log :: y.version <= x.version
    ensures Ascending(log + [x])
  {
  }

  // -------------------------------------------------------------- server steps

  /** The history only grows, and a grown history has passed an epoch. */
  ghost predicate Grows<T>(a: Server<T>, b: Server<T>) {
    && |a.history| <= |b.history| && b.history[..|a.history|] == a.history
    && a.epoch < b.epoch
  }

  lemma NewCatalogOk<T>(s: Server<T>, c: Versioned<T>)
    requires ServerOk(s)
    ensures ServerOk(WithCatalog(s, c)) && WithCatalog(s, c).history[..|s.history|] == s.history
    ensures c.version > s.current.version ==> Grows(s, WithCatalog(s, c))
  {
    var log := s.history + [c];
    if c.version > s.current.version {
      forall i | 0 <= i < |s.history| ensures s.history[i].version < c.version {
        LastIsGreatest(s.history, s.history[i]);
      }
      assert log[..|s.history|] == s.history;
    } else {
      assert s.history[..|s.history|] == s.history;
    }
  }

  lemma Inherits<T>(a: seq<Versioned<T>>, b: seq<Versioned<T>>, x: Versioned<T>)
    requires |a| <= |b| && b[..|a|] == a && x in a
    ensures x in b
  {
    var i :| 0 <= i < |a| && a[i] == x;
    assert b[i] == b[..|a|][i];
  }

  lemma ClientSurvives<T>(a: Server<T>, b: Server<T>, c: Client<T>)
    requires ClientOk(a, c) && |a.history| <= |b.history| && b.history[..|a.history|] == a.history
    ensures ClientOk(b, c)
  {
    forall x | x in a.history ensures x in b.history { Inherits(a.history, b.history, x); }
  }

  lemma ConnSurvives<T>(a: Server<T>, b: Server<T>, client: Client<T>, conn: Conn<T>)
    requires ConnOk(a, client, conn) && |a.history| <= |b.history| && b.history[..|a.history|] == a.history
    requires conn.phase.Gone? || a.epoch < b.epoch
    ensures ConnOk(b, client, conn)
  {
    forall x | x in a.history ensures x in b.history { Inherits(a.history, b.history, x); }
  }

  lemma ControlPlaneStep<T>(s: State<T>, step: Step<T>)
    requires Consistent(s) && (step.PublishNext? || step.Touch? || step.Restart?)
    ensures Consistent(Do(s, step))
  {
    var after := Do(s, step);
    if step.PublishNext? || step.Restart? { NewCatalogOk(s.server, step.catalog); }
    if after.server != s.server || step.Restart? {
      assert after.server.history[..|s.server.history|] == s.server.history;
      ClientSurvives(s.server, after.server, s.client);
      if s.conn.Some? { ConnSurvives(s.server, after.server, s.client, after.conn.value); }
    }
  }

  lemma AppendedFlow<T>(server: Server<T>, catalog: Versioned<T>, down: seq<Message<T>>)
    requires ServerOk(server) && FlowOk(server, catalog, down)
    ensures FlowOk(server, catalog, down + [Catalog(server.current)])
    ensures Upcoming(catalog, down + [Catalog(server.current)]) == server.current
  {
    CatalogsAppend(down, Catalog(server.current));
    var before := [catalog] + Catalogs(down);
    forall x | x in before ensures x.version <= server.current.version { LastIsGreatest(server.history, x); }
    AscendingAppend(before, server.current);
    assert [catalog] + Catalogs(down + [Catalog(server.current)]) == before + [server.current];
  }

  lemma SubscribeStep<T>(server: Server<T>, client: Client<T>, conn: Conn<T>)
    requires ServerOk(server) && ClientOk(server, client) && ConnOk(server, client, conn) && conn.phase.AwaitSubscribe?
    ensures ConnOk(server, client, Serve(server, conn, ServeSubscribe))
    ensures ConnOk(server, client, Serve(server, conn, RefuseRequest))
  {
    LastIsGreatest(server.history, client.catalog);
    AppendedFlow(server, client.catalog, conn.down);
    CatalogsAppend(conn.down, UpToDate(server.current.version));
    CatalogsAppend(conn.down, Refused(InvalidRequest));
  }

  lemma ServeStep<T>(server: Server<T>, client: Client<T>, conn: Conn<T>, step: Step<T>)
    requires ServerOk(server) && ClientOk(server, client) && ConnOk(server, client, conn)
    ensures ConnOk(server, client, Serve(server, conn, step))
  {
    if conn.phase.AwaitSubscribe? && (step.ServeSubscribe? || step.RefuseRequest?) {
      SubscribeStep(server, client, conn);
    } else if conn.phase.Sending? && step.SendCurrent? {
      AppendedFlow(server, client.catalog, conn.down);
    }
  }

  // --------------------------------------------------------------- Edge steps

  /** The catalog that arrives next is accepted. */
  lemma AcceptOk<T>(server: Server<T>, c: Client<T>, catalog: Versioned<T>)
    requires ServerOk(server) && ClientOk(server, c)
    requires catalog in server.history && c.catalog.version <= catalog.version
    ensures var after := Accept(c, catalog); after == Client(catalog, Live, true, AtHead, c.shown + [catalog])
    ensures ClientOk(server, Accept(c, catalog))
  {
    if catalog.version == c.catalog.version {
      EqualVersionsAreEqual(server.history, catalog, c.catalog);
    }
    forall y | y in c.shown ensures y.version <= catalog.version {
      var i :| 0 <= i < |c.shown| && c.shown[i] == y;
      assert c.shown[i].version <= c.shown[|c.shown| - 1].version;
    }
    AscendingAppend(c.shown, catalog);
  }

  lemma AscendingTail<T>(x: Versioned<T>, rest: seq<Versioned<T>>)
    requires Ascending([x] + rest)
    ensures Ascending(rest) && (rest != [] ==> x.version <= rest[0].version)
  {
    var all := [x] + rest;
    forall i, j | 0 <= i < j < |rest| ensures rest[i].version <= rest[j].version {
      assert all[i + 1].version <= all[j + 1].version;
    }
    if rest != [] { assert all[0].version <= all[1].version; }
  }

  lemma CatalogsTail<T>(down: seq<Message<T>>)
    requires down != []
    ensures Catalogs(down) == (if down[0].Catalog? then [down[0].catalog] else []) + Catalogs(down[1..])
  {
  }

  lemma FlowTail<T>(server: Server<T>, catalog: Versioned<T>, down: seq<Message<T>>, next: Versioned<T>)
    requires FlowOk(server, catalog, down) && down != []
    requires next == if down[0].Catalog? then down[0].catalog else catalog
    ensures next in server.history && catalog.version <= next.version
    ensures FlowOk(server, next, down[1..]) && Upcoming(next, down[1..]) == Upcoming(catalog, down)
  {
    var rest := Catalogs(down[1..]);
    CatalogsTail(down);
    if down[0].Catalog? {
      assert Catalogs(down) == [next] + rest;
      AscendingTail(catalog, [next] + rest);
      forall x | x in [next] + rest ensures x in server.history {
        assert x in [catalog] + ([next] + rest);
      }
      assert next in [next] + rest;
    } else {
      assert Catalogs(down) == rest;
      assert next in [catalog] + rest;
    }
  }

  lemma ArrivalStep<T>(s: State<T>)
    requires Consistent(s) && s.conn.Some? && s.conn.value.down != [] && s.conn.value.down[0].Catalog?
    requires s.client.pc.AtHead? || s.client.pc.Subscribing?
    ensures var conn := s.conn.value;
            Consistent(s.(client := Accept(s.client, conn.down[0].catalog), conn := Some(conn.(down := conn.down[1..]))))
  {
    var conn := s.conn.value;
    FlowTail(s.server, s.client.catalog, conn.down, conn.down[0].catalog);
    AcceptOk(s.server, s.client, conn.down[0].catalog);
  }

  lemma EdgeStep<T>(s: State<T>, step: Step<T>)
    requires Consistent(s)
    ensures Consistent(Act(s, step))
  {
    if step.Receive? && s.client.pc.AtHead? && s.client.stream && s.conn.value.down != [] {
      ArrivalStep(s);
    } else if step.TakeResponse? && s.client.pc.Subscribing? && s.conn.Some? && s.conn.value.down != [] {
      var conn := s.conn.value;
      if conn.down[0].Catalog? {
        ArrivalStep(s);
      } else {
        FlowTail(s.server, s.client.catalog, conn.down, s.client.catalog);
      }
    } else if step.Connect? {
      assert FlowOk(s.server, s.client.catalog, []);
    }
  }

  lemma StepKeepsConsistent<T>(s: State<T>, step: Step<T>)
    requires Consistent(s)
    ensures Consistent(Do(s, step))
  {
    if step.PublishNext? || step.Touch? || step.Restart? {
      ControlPlaneStep(s, step);
    } else if step.ServeSubscribe? || step.RefuseRequest? || step.SeeChange? || step.SendCurrent? || step.DropConnection? {
      if s.conn.Some? { ServeStep(s.server, s.client, s.conn.value, step); }
    } else {
      EdgeStep(s, step);
    }
  }

  lemma {:induction false} RunKeepsConsistent<T>(s: State<T>, steps: seq<Step<T>>)
    requires Consistent(s)
    ensures Consistent(Run(s, steps))
    decreases |steps|
  {
    if steps != [] {
      StepKeepsConsistent(s, steps[0]);
      RunKeepsConsistent(Do(s, steps[0]), steps[1..]);
    }
  }

  /** Nothing is left to send or to receive on a stream that is held. */
  predicate Quiet<T>(s: State<T>) {
    && s.client.pc.AtHead? && s.client.stream && s.conn.Some?
    && s.conn.value.phase.Serving? && s.conn.value.seen == s.server.epoch && s.conn.value.down == []
  }

  /** Route distribution. Across any disconnects, restarts, refusals and expiries, the
      Edge's catalog is one the server served, what it shows never goes back, the
      runtime never ends for an update error, an unexpected message or for being ahead,
      a stream is held at the loop head exactly when the source is Live, and once
      nothing is under way the Edge has the server's current catalog. */
  lemma DistributionHolds<T>(s: State<T>, steps: seq<Step<T>>)
    requires Bootstrapped(s)
    ensures var end := Run(s, steps);
            && end.client.catalog in end.server.history && Increasing(end.server.history)
            && (forall x | x in end.client.shown :: x in end.server.history) && Ascending(end.client.shown)
            && (end.client.pc.Failed? ==>
                  end.client.pc.error == Other || end.client.pc.error == ByServer(InvalidRequest))
            && (end.client.pc.AtHead? ==> (end.client.stream <==> end.client.health.Live?))
            && (Quiet(end) ==> end.client.catalog == end.server.current)
  {
    assert FlowOk(s.server, s.client.catalog, []);
    RunKeepsConsistent(s, steps);
  }
}
