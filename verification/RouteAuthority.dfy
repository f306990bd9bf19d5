/** The authority that puts the durable route catalog in front of its subscribers, while
    other processes change the tables. Its load is not one transaction: the version is
    read first and the routes after it. */
module RouteAuthority {
  import opened Primitives
  import opened RouteRepository
  import Publication

  type Routes = map<Host, Entry>
  type Catalog = Publication.Versioned<Routes>

  function CatalogOf(s: Store): Catalog {
    Publication.Versioned(s.version, s.routes)
  }

  /** The holder of the refresh gate: a call about to load, with the version its own
      mutation made, if any; one that has read the version of `read`, the tables at that
      moment; one that has its catalog. */
  datatype Gate =
    | Free
    | Loading(owed: Option<nat>)
    | HasVersion(owed: Option<nat>, read: Store)
    | HasCatalog(owed: Option<nat>, catalog: Catalog)

  /** A reply with the version of its mutation and the version live when it was sent. */
  datatype Reply = Reply(mutation: nat, live: nat)

  /** `torn` says that some load found other routes than those of its version, `refused`
      that the publisher refused a load. */
  datatype State = State(
    store: Store, durable: seq<Catalog>, live: Catalog, published: seq<Catalog>, gate: Gate,
    replies: seq<Reply>, torn: bool, refused: bool)

  datatype Step =
    | Elsewhere(op: Op)
    | Mutate(op: Op)
    | BeginRefresh
    | ReadVersion
    | ReadRoutes
    | FinishPublish
    | Abort

  /** The tables change; a new catalog joins the durable history. */
  function WithStore(s: State, store: Store): State {
    s.(store := store, durable := if store == s.store then s.durable else s.durable + [CatalogOf(store)])
  }

  /** The publisher's turn. */
  function Finish(s: State): State
    requires s.gate.HasCatalog?
  {
    var outcome := Publication.Publish(s.live, s.gate.catalog);
    if outcome.reply.Err? then s.(gate := Free, refused := true)
    else
      s.(gate := Free, live := outcome.current,
         published := if outcome.reply.value.Applied? then s.published + [s.gate.catalog] else s.published,
         replies := if s.gate.owed.None? then s.replies
                    else s.replies + [Reply(s.gate.owed.value, outcome.current.version)])
  }

  /** One step. The gate admits one call at a time, while `Elsewhere` happens at any
      moment; arguments are of their types. A call that fails anywhere gives the gate up. */
  ghost function Do(k: Rules, s: State, step: Step): State {
    match step
    case Elsewhere(op) => if Typed(k, op) then WithStore(s, Apply(k, s.store, op)) else s
    case Mutate(op) =>
      if !s.gate.Free? || !(op.DoAllocate? || op.DoRelease?) || !Typed(k, op) then s
      else if ErrorOf(k, s.store, op).Some? then s
      else
        var after := WithStore(s, Apply(k, s.store, op));
        after.(gate := Loading(Some(after.store.version)))
    case BeginRefresh => if s.gate.Free? then s.(gate := Loading(None)) else s
    case ReadVersion => if s.gate.Loading? then s.(gate := HasVersion(s.gate.owed, s.store)) else s
    case ReadRoutes =>
      if !s.gate.HasVersion? then s
      else if !RoutesOk(k, s.store.routes) then s.(gate := Free)
      else
        s.(gate := HasCatalog(s.gate.owed, Publication.Versioned(s.gate.read.version, s.store.routes)),
           torn := s.torn || s.store.routes != s.gate.read.routes)
    case FinishPublish =>
      if !s.gate.HasCatalog? then s
      else if !ManagedOk(k, s.store.routes, s.store.managed) then s.(gate := Free)
      else Finish(s)
    case Abort => s.(gate := Free)
  }

  ghost function Run(k: Rules, s: State, steps: seq<Step>): State
    decreases |steps|
  {
    if steps == [] then s else Run(k, Do(k, s, steps[0]), steps[1..])
  }

  /** A freshly opened authority. */
  ghost predicate Opened(k: Rules, s: State) {
    && Valid(k, s.store) && s.live == CatalogOf(s.store)
    && s.durable == [s.live] && s.published == [s.live] && s.gate == Free && s.replies == []
    && !s.torn && !s.refused
  }

  // ---------------------------------------------------------------- invariant

  ghost predicate Increasing(log: seq<Catalog>) {
    forall i, j {:trigger log[i].version, log[j].version} | 0 <= i < j < |log| :: log[i].version < log[j].version
  }

  ghost predicate HistoryOk(k: Rules, s: State) {
    && Valid(k, s.store) && s.durable != [] && s.durable[|s.durable| - 1] == CatalogOf(s.store)
    && Increasing(s.durable)
  }

  /** Versions are in order whether or not a load was torn. */
  ghost predicate VersionsOk(s: State) {
    && s.live.version <= s.store.version
    && s.published != [] && s.published[|s.published| - 1] == s.live && Increasing(s.published)
    && (forall r | r in s.replies :: r.mutation <= r.live)
    && match s.gate
       case Free => true
       case Loading(owed) => owed.Some? ==> owed.value <= s.store.version
       case HasVersion(owed, read) =>
         && s.live.version <= read.version <= s.store.version && CatalogOf(read) in s.durable
         && (owed.Some? ==> owed.value <= read.version)
       case HasCatalog(owed, c) =>
         s.live.version <= c.version <= s.store.version && (owed.Some? ==> owed.value <= c.version)
  }

  /** Without a torn load, everything loaded and published was durable. */
  ghost predicate ContentOk(s: State) {
    !s.torn ==>
      && !s.refused
      && (forall c | c in s.published :: c in s.durable)
      && (s.gate.HasCatalog? ==> s.gate.catalog in s.durable)
  }

  ghost predicate Consistent(k: Rules, s: State) {
    HistoryOk(k, s) && VersionsOk(s) && ContentOk(s)
  }

  lemma LastIsGreatest(log: seq<Catalog>, x: Catalog)
    requires Increasing(log) && x in log
    ensures x.version <= log[|log| - 1].version
    ensures x.version == log[|log| - 1].version ==> x == log[|log| - 1]
  {
    var i :| 0 <= i < |log| && log[i] == x;
    assert log[i].version <= log[|log| - 1].version;
  }

  lemma EqualVersionsAreEqual(log: seq<Catalog>, x: Catalog, y: Catalog)
    requires Increasing(log) && x in log && y in log && x.version == y.version
    ensures x == y
  {
    var i :| 0 <= i < |log| && log[i] == x;
    var j :| 0 <= j < |log| && log[j] == y;
    assert log[i].version == log[j].version;
  }

  lemma OneMore(log: seq<Catalog>, c: Catalog)
    requires log != [] && Increasing(log) && log[|log| - 1].version < c.version
    ensures Increasing(log + [c])
  {
    forall x | x in log ensures x.version < c.version { LastIsGreatest(log, x); }
  }

  lemma StoreStep(k: Rules, s: State, op: Op)
    requires Lawful(k) && Consistent(k, s) && Typed(k, op)
    ensures Consistent(k, WithStore(s, Apply(k, s.store, op)))
  {
    StepKeepsValid(k, s.store, op);
    var after := Apply(k, s.store, op);
    if after != s.store { OneMore(s.durable, CatalogOf(after)); }
  }

  lemma MutateStep(k: Rules, s: State, op: Op)
    requires Lawful(k) && Consistent(k, s) && s.gate.Free? && Typed(k, op)
    ensures Consistent(k, Do(k, s, Mutate(op)))
  {
    StoreStep(k, s, op);
  }

  /** What a load yields was durable exactly if the routes it read are those of the
      version it read; otherwise it never was and never will be. */
  lemma LoadIsDurable(k: Rules, s: State)
    requires Consistent(k, s) && s.gate.HasVersion?
    ensures Publication.Versioned(s.gate.read.version, s.store.routes) in s.durable <==>
            s.store.routes == s.gate.read.routes
  {
    var c := Publication.Versioned(s.gate.read.version, s.store.routes);
    if c in s.durable { EqualVersionsAreEqual(s.durable, c, CatalogOf(s.gate.read)); }
  }

  /** The publisher refuses a load exactly if it carries other routes under the version
      that is already live. */
  lemma RefusedExactly(k: Rules, s: State)
    requires Consistent(k, s) && s.gate.HasCatalog?
    ensures Publication.Publish(s.live, s.gate.catalog).reply.Err? <==>
            s.gate.catalog.version == s.live.version && s.gate.catalog.content != s.live.content
  {
  }

  lemma FinishStep(k: Rules, s: State)
    requires Consistent(k, s) && s.gate.HasCatalog?
    ensures Consistent(k, Finish(s))
  {
    RefusedExactly(k, s);
    if !s.torn && s.gate.catalog.version == s.live.version {
      EqualVersionsAreEqual(s.durable, s.gate.catalog, s.live);
    }
    if s.gate.catalog.version > s.live.version { OneMore(s.published, s.gate.catalog); }
  }

  lemma StepKeepsConsistent(k: Rules, s: State, step: Step)
    requires Lawful(k) && Consistent(k, s)
    ensures Consistent(k, Do(k, s, step))
  {
    match step
    case Elsewhere(op) => if Typed(k, op) { StoreStep(k, s, op); }
    case Mutate(op) => if s.gate.Free? && Typed(k, op) { MutateStep(k, s, op); }
    case ReadVersion => LastIsGreatest(s.durable, CatalogOf(s.store));
    case ReadRoutes => if s.gate.HasVersion? { LoadIsDurable(k, s); }
    case FinishPublish => if s.gate.HasCatalog? { FinishStep(k, s); }
    case _ =>
  }

  lemma {:induction false} RunKeepsConsistent(k: Rules, s: State, steps: seq<Step>)
    requires Lawful(k) && Consistent(k, s)
    ensures Consistent(k, Run(k, s, steps))
    decreases |steps|
  {
    if steps != [] {
      StepKeepsConsistent(k, s, steps[0]);
      RunKeepsConsistent(k, Do(k, s, steps[0]), steps[1..]);
    }
  }

  /** Routes live. In every run the catalogs published have increasing versions, none
      newer than the tables, and the reply to an allocation or release goes out only when
      its version is live. Unless a change elsewhere fell between the two reads of a load
      and left other routes, every catalog published was durable, the same version as the
      tables means the same routes, and the publisher refuses nothing. */
  lemma RoutesAreDurableBeforeLive(k: Rules, s: State, steps: seq<Step>)
    requires Lawful(k) && Opened(k, s)
    ensures var end := Run(k, s, steps);
            && Increasing(end.published) && end.live.version <= end.store.version
            && (forall r | r in end.replies :: r.mutation <= r.live)
            && (!end.torn ==>
                  && !end.refused && (forall c | c in end.published :: c in end.durable)
                  && (end.live.version == end.store.version ==> end.live == CatalogOf(end.store)))
  {
    RunKeepsConsistent(k, s, steps);
    var end := Run(k, s, steps);
    if !end.torn { LastIsGreatest(end.durable, end.live); }
  }

  // ------------------------------------------------------------- torn loads

  /** No other process acts between the two reads of a load. */
  ghost predicate Undisturbed(k: Rules, s: State, steps: seq<Step>)
    decreases |steps|
  {
    steps == [] ||
    (!(steps[0].Elsewhere? && s.gate.HasVersion?) && Undisturbed(k, Do(k, s, steps[0]), steps[1..]))
  }

  lemma {:induction false} UndisturbedIsWhole(k: Rules, s: State, steps: seq<Step>)
    requires !s.torn && (s.gate.HasVersion? ==> s.gate.read == s.store) && Undisturbed(k, s, steps)
    ensures !Run(k, s, steps).torn
    decreases |steps|
  {
    if steps != [] { UndisturbedIsWhole(k, Do(k, s, steps[0]), steps[1..]); }
  }

  /** So with the tables to itself during its loads, the authority never refuses a load,
      and publishes durable catalogs only. */
  lemma UndisturbedLoadsAreSafe(k: Rules, s: State, steps: seq<Step>)
    requires Lawful(k) && Opened(k, s) && Undisturbed(k, s, steps)
    ensures var end := Run(k, s, steps); !end.refused && forall c | c in end.published :: c in end.durable
  {
    UndisturbedIsWhole(k, s, steps);
    RoutesAreDurableBeforeLive(k, s, steps);
  }

  /** A route that can be added. */
  ghost predicate Addable(k: Rules, s: Store, host: Host, entry: Entry) {
    && RouteRowOk(k, host, entry) && host !in s.routes && !IsManaged(s, host)
    && |s.routes| < MAX_ROUTES && s.version < U64_MAX
  }

  function Added(s: Store, host: Host, entry: Entry): Store {
    s.(version := s.version + 1, routes := s.routes[host := entry])
  }

  /** A load that another process's upsert falls into. */
  function Disturbed(host: Host, entry: Entry): seq<Step> {
    [BeginRefresh, ReadVersion, Elsewhere(DoUpsert(host, entry)), ReadRoutes, FinishPublish]
  }

  lemma LoadsTorn(k: Rules, s: State, host: Host, entry: Entry)
    requires Lawful(k) && Valid(k, s.store) && s.gate == Free && Addable(k, s.store, host, entry)
    ensures var torn := State(Added(s.store, host, entry), s.durable + [CatalogOf(Added(s.store, host, entry))], s.live,
                              s.published, HasCatalog(None, Publication.Versioned(s.store.version,
                                                                                  s.store.routes[host := entry])),
                              s.replies, true, s.refused);
            Run(k, s, Disturbed(host, entry)) == Finish(torn)
  {
    var steps := Disturbed(host, entry);
    var read := s.(gate := HasVersion(None, s.store));
    var changed := WithStore(read, Added(s.store, host, entry));
    assert Do(k, Do(k, s, steps[0]), steps[1]) == read;
    assert Do(k, read, steps[2]) == changed;
    UpsertKeeps(k, s.store, host, entry);
    assert s.store.routes[host := entry] != s.store.routes;
    FiveSteps(k, s, steps);
  }

  lemma FiveSteps(k: Rules, s: State, steps: seq<Step>)
    requires |steps| == 5
    ensures Run(k, s, steps)
            == Do(k, Do(k, Do(k, Do(k, Do(k, s, steps[0]), steps[1]), steps[2]), steps[3]), steps[4])
  {
    assert steps[1..][1..] == steps[2..] && steps[2..][1..] == steps[3..] && steps[3..][1..] == steps[4..];
    var two := Do(k, Do(k, s, steps[0]), steps[1]);
    assert Run(k, s, steps) == Run(k, two, steps[2..]);
    var four := Do(k, Do(k, two, steps[2]), steps[3]);
    assert Run(k, two, steps[2..]) == Run(k, four, steps[4..]);
    assert steps[4..] == [steps[4]] && steps[4..][1..] == [];
    assert Run(k, four, steps[4..]) == Run(k, Do(k, four, steps[4]), []);
  }

  /** The two reads do matter. From every opened authority, one upsert elsewhere during a
      refresh makes the publisher refuse the load. If the tables were already ahead of
      what is live, the load is published instead, as a catalog that never was durable. */
  lemma TornLoadFails(k: Rules, s: State, host: Host, entry: Entry)
    requires Lawful(k) && Consistent(k, s) && s.gate == Free && Addable(k, s.store, host, entry)
    ensures var end := Run(k, s, Disturbed(host, entry));
            && (s.live == CatalogOf(s.store) ==> end.refused && end.live == s.live)
            && (s.live.version < s.store.version ==>
                  end.live.version == s.store.version && end.live in end.published && end.live !in end.durable)
  {
    LoadsTorn(k, s, host, entry);
    var loaded := Publication.Versioned(s.store.version, s.store.routes[host := entry]);
    if loaded in s.durable { LastIsGreatest(s.durable, loaded); }
    assert s.store.routes[host := entry] != s.store.routes;
  }

  // ------------------------------------------------------------------ progress

  /** The three steps of a load and its publication. */
  ghost function Loaded(k: Rules, s: State): State {
    Do(k, Do(k, Do(k, s, ReadVersion), ReadRoutes), FinishPublish)
  }

  /** A load that nothing disturbs puts the durable catalog live, and sends the reply that
      waits for it. */
  lemma LoadMakesLive(k: Rules, s: State)
    requires Consistent(k, s) && s.gate.Loading? && !s.torn
    ensures var t := Loaded(k, s);
            && t.live == CatalogOf(s.store) && t.store == s.store && t.gate.Free? && !t.torn && !t.refused
            && t.replies == s.replies + (if s.gate.owed.None? then [] else [Reply(s.gate.owed.value, s.store.version)])
  {
    var read := Do(k, s, ReadVersion);
    var loaded := Do(k, read, ReadRoutes);
    assert loaded == s.(gate := HasCatalog(s.gate.owed, CatalogOf(s.store)));
    assert s.live in s.durable;
    LastIsGreatest(s.durable, s.live);
  }

  lemma RefreshMakesLive(k: Rules, s: State)
    requires Consistent(k, s) && s.gate.Free? && !s.torn
    ensures var t := Loaded(k, Do(k, s, BeginRefresh)); t.live == CatalogOf(s.store) && t.store == s.store && t.gate.Free?
  {
    LoadMakesLive(k, Do(k, s, BeginRefresh));
  }

  /** An allocation or release that succeeds is live, and answered, when nothing disturbs it. */
  lemma MutationIsAnswered(k: Rules, s: State, op: Op)
    requires Lawful(k) && Consistent(k, s) && s.gate.Free? && !s.torn
    requires (op.DoAllocate? || op.DoRelease?) && Typed(k, op) && ErrorOf(k, s.store, op).None?
    ensures var t := Loaded(k, Do(k, s, Mutate(op)));
            && t.store == Apply(k, s.store, op) && t.live == CatalogOf(t.store)
            && t.replies == s.replies + [Reply(t.store.version, t.store.version)]
  {
    StepKeepsConsistent(k, s, Mutate(op));
    LoadMakesLive(k, Do(k, s, Mutate(op)));
  }
}
