/** Durable before live: the authority that puts the repository's head in front of its
    subscribers, while enrollment, operators and other processes change the head. */
module Authority {
  import opened Primitives
  import opened Snapshots
  import opened Enrollment
  import Publication
  import SnapshotRepository

  /** Who holds the commit gate, and the snapshot about to be published. */
  datatype Gate = Free | Publishing(snapshot: Snapshot, forService: bool)

  /** One request behind the mutation gate: mutated, refreshing, ready to reply. */
  datatype Service = Idle | Mutated(version: nat) | Refreshing(version: nat) | Ready(version: nat)

  /** A reply with the version of its mutation and the version live when it was sent. */
  datatype Reply = Reply(mutation: nat, live: nat)

  datatype State = State(
    db: Db, durable: seq<Snapshot>, live: Snapshot, published: seq<Snapshot>,
    gate: Gate, service: Service, replies: seq<Reply>, broken: bool)

  datatype Step =
    | Elsewhere(op: Op)
    | Import(snapshot: Snapshot)
    | BeginCommit(snapshot: Snapshot)
    | BeginRefresh
    | FinishPublish
    | Enroll(candidate: Candidate, now: nat, row: Option<Fingerprint>)
    | Activating(request: RequestId, renewal: TokenHash, fingerprint: Fingerprint, now: nat)
    | RefreshForReply
    | SendReply

  /** The tables change; a new head joins the durable history. */
  function WithDb(s: State, db: Db): State {
    s.(db := db,
       durable := if db.head == s.db.head || db.head.None? then s.durable else s.durable + [db.head.value])
  }

  function Imported(s: State, snapshot: Snapshot): State {
    WithDb(s, s.db.(head := SnapshotRepository.CommitSnapshot(s.db.head, snapshot).head))
  }

  function Load(s: State, forService: bool): State {
    match LoadSnapshot(s.db)
    case Ok(snapshot) => s.(gate := Publishing(snapshot, forService))
    case Err(_) => if forService then s.(service := Idle) else s
  }

  /** The publisher's turn, and what the waiting request makes of it. */
  function Finish(s: State): State {
    if s.gate.Free? then s
    else
      var candidate := Publication.Versioned(s.gate.snapshot.version, s.gate.snapshot.grants);
      var outcome := Publication.Publish(Publication.Versioned(s.live.version, s.live.grants), candidate);
      var next := s.(gate := Free, broken := s.broken || outcome.reply.Err?,
                     service := if !s.gate.forService then s.service
                                else if outcome.reply.Ok? && s.service.Refreshing? then Ready(s.service.version)
                                else Idle);
      if outcome.reply.Ok? && outcome.reply.value.Applied? then
        next.(live := s.gate.snapshot, published := s.published + [s.gate.snapshot])
      else next
  }

  /** One step; the commit gate admits one publication and the mutation gate one
      request at a time, while `Elsewhere` and `Import` happen at any moment. */
  ghost function Do(s: State, step: Step): State {
    match step
    case Elsewhere(op) => WithDb(s, Apply(s.db, op))
    case Import(snapshot) => if 1 <= snapshot.version <= U64_MAX then Imported(s, snapshot) else s
    case BeginCommit(snapshot) =>
      if !s.gate.Free? || !(1 <= snapshot.version <= U64_MAX) then s
      else if SnapshotRepository.CommitSnapshot(s.db.head, snapshot).reply.Err? then s
      else Imported(s, snapshot).(gate := Publishing(snapshot, false))
    case BeginRefresh => if s.gate.Free? then Load(s, false) else s
    case FinishPublish => Finish(s)
    case Enroll(c, now, row) =>
      if !s.service.Idle? || !AnswersRenewalQuery(s.db, c.presented, row) then s
      else
        var txn := CommitIssuance(s.db, c, now, row);
        if txn.reply.Err? then WithDb(s, txn.db)
        else WithDb(s, txn.db).(service := Mutated(txn.reply.value.generation))
    case Activating(request, renewal, fp, now) =>
      if !s.service.Idle? then s
      else
        var txn := Activate(s.db, request, renewal, fp, now);
        if txn.reply.Ok? then WithDb(s, txn.db).(service := Mutated(txn.reply.value))
        else if txn.reply.error.RequestExpired? && txn.db.head.Some? then
          WithDb(s, txn.db).(service := Mutated(txn.db.head.value.version))
        else WithDb(s, txn.db)
    case RefreshForReply =>
      if s.service.Mutated? && s.gate.Free? then
        Load(s.(service := Refreshing(s.service.version)), true)
      else s
    case SendReply =>
      if s.service.Ready? then
        s.(service := Idle, replies := s.replies + [Reply(s.service.version, s.live.version)])
      else s
  }

  ghost function Run(s: State, steps: seq<Step>): State
    decreases |steps|
  {
    if steps == [] then s else Run(Do(s, steps[0]), steps[1..])
  }

  // ---------------------------------------------------------------- the head

  /** The head moves only to a higher version, also in tables an import has made incoherent. */
  predicate HeadMoves(before: Option<Snapshot>, after: Option<Snapshot>) {
    || after == before
    || (after.Some? && (before.Some? ==> before.value.version < after.value.version))
  }

  ghost predicate Generations(db: Db) {
    && (db.head.None? ==> db.credentials == map[])
    && forall fp {:trigger db.credentials[fp]} | fp in db.credentials ::
         db.credentials[fp].terms.generation <= db.head.value.version
  }

  lemma CommitMovesHead(db: Db, c: Candidate, now: nat, row: Option<Fingerprint>, after: Db)
    requires Generations(db) && after == CommitIssuance(db, c, now, row).db
    ensures HeadMoves(db.head, after.head) && Generations(after)
    ensures CommitIssuance(db, c, now, row).reply.Ok? ==>
              after.head.Some? && CommitIssuance(db, c, now, row).reply.value.generation <= after.head.value.version
  {
    if RequestRow(db, c.request).Some? {
      assert IsRequestRow(db, c.request, RequestRow(db, c.request).value);
    }
  }

  lemma ExpiryMovesHead(db: Db, fp: Fingerprint, now: nat, after: Db)
    requires Generations(db) && fp in db.credentials && after == ExpirePending(db, fp, now).db
    ensures HeadMoves(db.head, after.head) && Generations(after) && ExpirePending(db, fp, now).reply.Err?
  {
  }

  lemma PromotionMovesHead(db: Db, fp: Fingerprint, after: Db)
    requires Generations(db) && fp in db.credentials && after == Promote(db, fp).db
    ensures HeadMoves(db.head, after.head) && Generations(after)
    ensures Promote(db, fp).reply.Ok? ==> after.head.Some? && Promote(db, fp).reply.value <= after.head.value.version
  {
  }

  lemma ActivationMovesHead(db: Db, request: RequestId, renewal: TokenHash, fp: Fingerprint, now: nat, after: Db)
    requires Generations(db) && after == Activate(db, request, renewal, fp, now).db
    ensures HeadMoves(db.head, after.head) && Generations(after)
    ensures Activate(db, request, renewal, fp, now).reply.Ok? ==>
              after.head.Some? && Activate(db, request, renewal, fp, now).reply.value <= after.head.value.version
  {
    if fp in db.credentials && db.credentials[fp].state.Pending? {
      ExpiryMovesHead(db, fp, now, ExpirePending(db, fp, now).db);
      PromotionMovesHead(db, fp, Promote(db, fp).db);
    }
  }

  lemma RevocationMovesHead(db: Db, agent: AgentId, tunnel: TunnelId, now: nat, after: Db)
    requires Generations(db) && after == RevokeAgent(db, agent, tunnel, now).db
    ensures HeadMoves(db.head, after.head) && Generations(after)
  {
  }

  lemma ReconciliationMovesHead(db: Db, now: nat, batch: set<Fingerprint>, after: Db)
    requires Generations(db) && after == ReconcileBatch(db, now, batch).db
    ensures HeadMoves(db.head, after.head) && Generations(after)
  {
  }

  lemma OperationMovesHead(db: Db, op: Op, after: Db)
    requires Generations(db) && after == Apply(db, op)
    ensures HeadMoves(db.head, after.head) && Generations(after)
  {
    match op
    case CreateToken(_, _, _, _) =>
    case Commit(c, now, row) =>
      if AnswersRenewalQuery(db, c.presented, row) { CommitMovesHead(db, c, now, row, after); }
    case Activation(request, renewal, fp, now) => ActivationMovesHead(db, request, renewal, fp, now, after);
    case Revocation(agent, tunnel, now) => RevocationMovesHead(db, agent, tunnel, now, after);
    case Reconciliation(now) => ReconciliationMovesHead(db, now, ReconcileSelection(db, now), after);
  }

  // --------------------------------------------------------------- invariant

  /** Versions strictly increase, so equal versions are the same snapshot. */
  ghost predicate Increasing(log: seq<Snapshot>) {
    forall i, j {:trigger log[i].version, log[j].version} | 0 <= i < j < |log| :: log[i].version < log[j].version
  }

  ghost predicate HistoryOk(s: State) {
    && Generations(s.db)
    && s.durable != [] && s.db.head == Some(s.durable[|s.durable| - 1])
    && Increasing(s.durable)
  }

  ghost predicate LiveOk(s: State) {
    && s.live in s.durable
    && s.published != [] && s.published[|s.published| - 1] == s.live
    && (forall x | x in s.published :: x in s.durable)
    && Increasing(s.published)
    && !s.broken
    && (s.gate.Publishing? ==> s.gate.snapshot in s.durable && s.live.version <= s.gate.snapshot.version)
  }

  ghost predicate ServiceOk(s: State) {
    && (s.service.Mutated? || s.service.Refreshing? ==>
          s.db.head.Some? && s.service.version <= s.db.head.value.version)
    && (s.service.Refreshing? ==>
          s.gate.Publishing? && s.gate.forService && s.service.version <= s.gate.snapshot.version)
    && (s.gate.Publishing? && s.gate.forService ==> s.service.Refreshing?)
    && (s.service.Ready? ==> s.service.version <= s.live.version)
    && (forall r | r in s.replies :: r.mutation <= r.live)
  }

  ghost predicate Consistent(s: State) {
    HistoryOk(s) && LiveOk(s) && ServiceOk(s)
  }

  lemma LastIsGreatest(log: seq<Snapshot>, x: Snapshot)
    requires Increasing(log) && x in log
    ensures x.version <= log[|log| - 1].version
    ensures x.version == log[|log| - 1].version ==> x == log[|log| - 1]
  {
    var i :| 0 <= i < |log| && log[i] == x;
    assert log[i].version <= log[|log| - 1].version;
  }

  lemma EqualVersionsAreEqual(log: seq<Snapshot>, x: Snapshot, y: Snapshot)
    requires Increasing(log) && x in log && y in log && x.version == y.version
    ensures x == y
  {
    var i :| 0 <= i < |log| && log[i] == x;
    var j :| 0 <= j < |log| && log[j] == y;
    assert log[i].version == log[j].version;
  }

  lemma TablesStep(s: State, db: Db)
    requires Consistent(s) && HeadMoves(s.db.head, db.head) && Generations(db)
    ensures Consistent(WithDb(s, db))
  {
    var after := WithDb(s, db);
    if db.head != s.db.head {
      assert after.durable == s.durable + [db.head.value];
      forall x | x in s.durable ensures x in after.durable && x.version < db.head.value.version {
        LastIsGreatest(s.durable, x);
      }
    }
  }

  lemma ImportStep(s: State, snapshot: Snapshot)
    requires Consistent(s)
    ensures Consistent(Imported(s, snapshot))
  {
    TablesStep(s, s.db.(head := SnapshotRepository.CommitSnapshot(s.db.head, snapshot).head));
  }

  lemma BeginCommitStep(s: State, snapshot: Snapshot)
    requires Consistent(s) && s.gate.Free? && SnapshotRepository.CommitSnapshot(s.db.head, snapshot).reply.Ok?
    ensures Consistent(Imported(s, snapshot).(gate := Publishing(snapshot, false)))
  {
    ImportStep(s, snapshot);
    var after := Imported(s, snapshot);
    assert after.db.head == Some(snapshot);
    LastIsGreatest(after.durable, after.live);
  }

  lemma LoadStep(s: State, forService: bool)
    requires HistoryOk(s) && LiveOk(s) && s.gate.Free?
    requires if forService then s.service.Refreshing? && s.service.version <= s.db.head.value.version
                                && (forall r | r in s.replies :: r.mutation <= r.live)
             else ServiceOk(s)
    ensures Consistent(Load(s, forService))
  {
    LastIsGreatest(s.durable, s.live);
  }

  /** The publisher never refuses what it is given. */
  lemma FinishStep(s: State)
    requires Consistent(s)
    ensures Consistent(Finish(s))
  {
    if s.gate.Publishing? {
      if s.gate.snapshot.version == s.live.version {
        EqualVersionsAreEqual(s.durable, s.gate.snapshot, s.live);
      } else {
        forall x | x in s.published ensures x.version <= s.live.version {
          LastIsGreatest(s.published, x);
        }
      }
    }
  }

  lemma RequestStep(s: State, db: Db, version: nat)
    requires Consistent(s) && s.service.Idle? && HeadMoves(s.db.head, db.head) && Generations(db)
    requires db.head.Some? && version <= db.head.value.version
    ensures Consistent(WithDb(s, db).(service := Mutated(version)))
  {
    TablesStep(s, db);
  }

  lemma EnrollStep(s: State, c: Candidate, now: nat, row: Option<Fingerprint>)
    requires Consistent(s)
    ensures Consistent(Do(s, Enroll(c, now, row)))
  {
    if s.service.Idle? && AnswersRenewalQuery(s.db, c.presented, row) {
      var txn := CommitIssuance(s.db, c, now, row);
      CommitMovesHead(s.db, c, now, row, txn.db);
      if txn.reply.Err? { TablesStep(s, txn.db); } else { RequestStep(s, txn.db, txn.reply.value.generation); }
    }
  }

  lemma ActivatingStep(s: State, request: RequestId, renewal: TokenHash, fp: Fingerprint, now: nat)
    requires Consistent(s)
    ensures Consistent(Do(s, Activating(request, renewal, fp, now)))
  {
    if s.service.Idle? {
      var txn := Activate(s.db, request, renewal, fp, now);
      ActivationMovesHead(s.db, request, renewal, fp, now, txn.db);
      if txn.reply.Ok? {
        RequestStep(s, txn.db, txn.reply.value);
      } else if txn.reply.error.RequestExpired? && txn.db.head.Some? {
        RequestStep(s, txn.db, txn.db.head.value.version);
      } else {
        TablesStep(s, txn.db);
      }
    }
  }

  lemma StepKeepsOk(s: State, step: Step)
    requires Consistent(s)
    ensures Consistent(Do(s, step))
  {
    match step
    case Elsewhere(op) =>
      OperationMovesHead(s.db, op, Apply(s.db, op));
      TablesStep(s, Apply(s.db, op));
    case Import(snapshot) => ImportStep(s, snapshot);
    case BeginCommit(snapshot) =>
      if s.gate.Free? && SnapshotRepository.CommitSnapshot(s.db.head, snapshot).reply.Ok? {
        BeginCommitStep(s, snapshot);
      }
    case BeginRefresh => if s.gate.Free? { LoadStep(s, false); }
    case FinishPublish => FinishStep(s);
    case Enroll(c, now, row) => EnrollStep(s, c, now, row);
    case Activating(request, renewal, fp, now) => ActivatingStep(s, request, renewal, fp, now);
    case RefreshForReply =>
      if s.service.Mutated? && s.gate.Free? { LoadStep(s.(service := Refreshing(s.service.version)), true); }
    case SendReply =>
  }

  /** A freshly opened authority: the durable head is live and nothing is under way. */
  ghost predicate Opened(s: State) {
    && Generations(s.db) && s.db.head == Some(s.live)
    && s.durable == [s.live] && s.published == [s.live]
    && s.gate == Free && s.service == Idle && s.replies == [] && !s.broken
  }

  lemma {:induction false} RunKeepsOk(s: State, steps: seq<Step>)
    requires Consistent(s)
    ensures Consistent(Run(s, steps))
    decreases |steps|
  {
    if steps != [] {
      StepKeepsOk(s, steps[0]);
      RunKeepsOk(Do(s, steps[0]), steps[1..]);
    }
  }

  /** Durable before live. Whatever is committed, imported or enrolled meanwhile, the
      publisher never meets a stale or conflicting version; subscribers see only
      snapshots that were durable, each newer than the one before; and a reply to an
      enrollment or activation goes out only when its mutation is live. */
  lemma DurableBeforeLive(s: State, steps: seq<Step>)
    requires Opened(s)
    ensures var end := Run(s, steps);
            && !end.broken
            && end.db.head.Some? && end.live.version <= end.db.head.value.version
            && Increasing(end.durable) && Increasing(end.published)
            && (forall x | x in end.published :: x in end.durable)
            && (forall r | r in end.replies :: r.mutation <= r.live)
  {
    RunKeepsOk(s, steps);
    LastIsGreatest(Run(s, steps).durable, Run(s, steps).live);
  }

  /** A refresh that nothing interrupts puts the durable head live. */
  lemma RefreshMakesLive(s: State)
    requires Consistent(s) && s.gate.Free? && Encodable(s.db.head.value.grants)
    ensures var t := Do(Do(s, BeginRefresh), FinishPublish);
            t.db == s.db && t.live == s.db.head.value && t.gate.Free? && t.published[|t.published| - 1] == s.db.head.value
  {
    StepKeepsOk(s, BeginRefresh);
    var loaded := Do(s, BeginRefresh);
    assert loaded.gate == Publishing(s.db.head.value, false);
    PublishesHead(loaded);
  }

  lemma PublishesHead(s: State)
    requires Consistent(s) && s.gate.Publishing? && s.gate.snapshot == s.db.head.value
    ensures var t := Finish(s);
            && t.live == s.db.head.value && t.gate.Free? && t.db == s.db
            && t.published != [] && t.published[|t.published| - 1] == t.live
            && (s.gate.forService && s.service.Refreshing? ==> t.service == Ready(s.service.version))
  {
    FinishStep(s);
    LastIsGreatest(s.durable, s.live);
    if s.gate.snapshot.version == s.live.version { EqualVersionsAreEqual(s.durable, s.gate.snapshot, s.live); }
  }

  /** A mutation that succeeded is answered: three steps that nothing interrupts put the head
      live and send the reply. */
  lemma ReplyGoesOut(s: State)
    requires Consistent(s) && s.gate.Free? && s.service.Mutated? && Encodable(s.db.head.value.grants)
    ensures var t := Do(Do(Do(s, RefreshForReply), FinishPublish), SendReply);
            && t.live == s.db.head.value && t.service.Idle? && t.gate.Free?
            && t.replies == s.replies + [Reply(s.service.version, s.db.head.value.version)]
  {
    StepKeepsOk(s, RefreshForReply);
    var loaded := Do(s, RefreshForReply);
    assert loaded.gate == Publishing(s.db.head.value, true) && loaded.service == Refreshing(s.service.version);
    PublishesHead(loaded);
  }

  /** And every request that succeeds gets there. */
  lemma SuccessIsAnswered(s: State, c: Candidate, now: nat, row: Option<Fingerprint>)
    requires s.service.Idle? && AnswersRenewalQuery(s.db, c.presented, row)
    ensures CommitIssuance(s.db, c, now, row).reply.Ok? ==>
              Do(s, Enroll(c, now, row)).service == Mutated(CommitIssuance(s.db, c, now, row).reply.value.generation)
              && Do(s, Enroll(c, now, row)).db == CommitIssuance(s.db, c, now, row).db
  {
  }

  lemma ActivationIsAnswered(s: State, request: RequestId, renewal: TokenHash, fp: Fingerprint, now: nat)
    requires s.service.Idle?
    ensures var txn, t := Activate(s.db, request, renewal, fp, now), Do(s, Activating(request, renewal, fp, now));
            && t.db == txn.db && (txn.reply.Ok? ==> t.service == Mutated(txn.reply.value))
            && (txn.reply == Err(RequestExpired) && txn.db.head.Some? ==> t.service == Mutated(txn.db.head.value.version))
  {
  }

  /** A commit that nothing interrupts is durable and live. */
  lemma CommitMakesLive(s: State, snapshot: Snapshot)
    requires Consistent(s) && s.gate.Free? && 1 <= snapshot.version <= U64_MAX
    requires SnapshotRepository.CommitSnapshot(s.db.head, snapshot).reply.Ok?
    ensures var t := Do(Do(s, BeginCommit(snapshot)), FinishPublish);
            t.db.head == Some(snapshot) && t.live == snapshot && t.gate.Free?
  {
    StepKeepsOk(s, BeginCommit(snapshot));
    PublishesHead(Do(s, BeginCommit(snapshot)));
  }

  /** End to end: what another process does to the tables is live after one refresh. */
  lemma ElsewhereGetsLive(s: State, op: Op)
    requires Consistent(s) && s.gate.Free?
    requires Apply(s.db, op).head.Some? && Encodable(Apply(s.db, op).head.value.grants)
    ensures var t := Do(Do(Do(s, Elsewhere(op)), BeginRefresh), FinishPublish);
            t.db == Apply(s.db, op) && Some(t.live) == t.db.head
  {
    StepKeepsOk(s, Elsewhere(op));
    RefreshMakesLive(Do(s, Elsewhere(op)));
  }

  /** And so is an operator's import that is accepted. */
  lemma ImportGetsLive(s: State, snapshot: Snapshot)
    requires Consistent(s) && s.gate.Free? && 1 <= snapshot.version <= U64_MAX
    requires SnapshotRepository.CommitSnapshot(s.db.head, snapshot).reply.Ok?
    ensures Do(Do(Do(s, Import(snapshot)), BeginRefresh), FinishPublish).live == snapshot
  {
    StepKeepsOk(s, Import(snapshot));
    SnapshotRepository.CommitOutcomeIsExact(s.db.head, snapshot);
    assert Do(s, Import(snapshot)).db.head == Some(snapshot);
    RefreshMakesLive(Do(s, Import(snapshot)));
  }
}
