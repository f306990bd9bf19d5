/** The bundles an Agent publishes over its life. */
module RotationGenerations {
  import opened Primitives
  import opened Snapshots
  import opened Enrollment
  import opened EnrollmentInvariants
  import opened EnrollmentRuns
  import opened CredentialBundles
  import opened Rotation
  import opened RotationLedger
  import opened RotationViews
  import opened RotationSafety
  import opened RotationRecovery
  import TlsReload

  type Attempts = map<RequestId, Attempt>

  /** The bundle of one credential of the Agent. */
  predicate BundleOf(attempts: Attempts, c: Credential, b: Bundle) {
    && c.terms.request in attempts
    && b == Bundle(c.terms.generation, c.terms.certificate, attempts[c.terms.request].journal.key)
  }

  predicate IsOrigin(attempts: Attempts, rows: Rows, fp: Fingerprint, b: Bundle) {
    fp in rows && BundleOf(attempts, rows[fp], b)
  }

  ghost predicate HasOrigin(attempts: Attempts, rows: Rows, b: Bundle) {
    exists fp :: IsOrigin(attempts, rows, fp, b)
  }

  ghost predicate Originates(attempts: Attempts, rows: Rows, bundles: seq<Bundle>) {
    forall i | 0 <= i < |bundles| :: HasOrigin(attempts, rows, bundles[i])
  }

  /** The credential of the journal's request is younger than all others of the Agent. */
  predicate Younger(attempts: Attempts, disk: Disk, c: Credential, d: Credential) {
    c.terms.request in attempts && d.terms.request in attempts
    && Current(disk, d.terms.request) && c.terms.request != d.terms.request ==>
      c.terms.generation < d.terms.generation
  }

  ghost predicate CurrentIsYoungest(attempts: Attempts, rows: Rows, disk: Disk) {
    forall a, b {:trigger Younger(attempts, disk, rows[a], rows[b])} | a in rows && b in rows ::
      Younger(attempts, disk, rows[a], rows[b])
  }

  ghost predicate BundlesOk(w: World) {
    && Originates(w.ledger.attempts, w.db.credentials, w.bundles)
    && CurrentIsYoungest(w.ledger.attempts, w.db.credentials, w.disk)
    && Progressive(w.bundles)
  }

  // ------------------------------------------------------------ database steps

  /** New rows of the Agent are the journal's, and carry a new generation. */
  ghost predicate AddsOnlyCurrent(attempts: Attempts, rows: Rows, later: Rows, disk: Disk) {
    forall b {:trigger later[b]} | b in later && b !in rows && later[b].terms.request in attempts ::
      && Current(disk, later[b].terms.request)
      && forall a | a in rows :: rows[a].terms.generation < later[b].terms.generation
  }

  lemma RowsKeepOrigins(attempts: Attempts, rows: Rows, later: Rows, bundles: seq<Bundle>)
    requires Originates(attempts, rows, bundles) && RowsEvolve(rows, later)
    ensures Originates(attempts, later, bundles)
  {
    forall i | 0 <= i < |bundles| ensures HasOrigin(attempts, later, bundles[i]) {
      assert HasOrigin(attempts, rows, bundles[i]);
      var fp :| IsOrigin(attempts, rows, fp, bundles[i]);
      assert RowEvolves(rows[fp], later[fp]);
      assert IsOrigin(attempts, later, fp, bundles[i]);
    }
  }

  lemma RowsKeepYoungest(attempts: Attempts, rows: Rows, later: Rows, disk: Disk)
    requires CurrentIsYoungest(attempts, rows, disk) && RowsEvolve(rows, later)
    requires AddsOnlyCurrent(attempts, rows, later, disk)
    ensures CurrentIsYoungest(attempts, later, disk)
  {
    forall a, b | a in later && b in later ensures Younger(attempts, disk, later[a], later[b]) {
      if a in rows { assert RowEvolves(rows[a], later[a]); }
      if b in rows { assert RowEvolves(rows[b], later[b]); }
      if a in rows && b in rows { assert Younger(attempts, disk, rows[a], rows[b]); }
    }
  }

  lemma TablesKeepBundles(w: World, db: Db, replies: set<Reply>)
    requires BundlesOk(w) && RowsEvolve(w.db.credentials, db.credentials)
    requires AddsOnlyCurrent(w.ledger.attempts, w.db.credentials, db.credentials, w.disk)
    ensures BundlesOk(w.(db := db, replies := replies))
  {
    RowsKeepOrigins(w.ledger.attempts, w.db.credentials, db.credentials, w.bundles);
    RowsKeepYoungest(w.ledger.attempts, w.db.credentials, db.credentials, w.disk);
  }

  lemma ForeignBundles(w: World, op: Op)
    requires WorldOk(w) && BundlesOk(w) && ForeignOp(w.ledger, op)
    ensures BundlesOk(w.(db := Apply(w.db, op)))
  {
    var db := Apply(w.db, op);
    ForeignView(w.ledger, w.db, op, db);
    ForeignKeepsMine(w.ledger, w.db, op, db);
    TablesKeepBundles(w, db, w.replies);
  }

  lemma AbsentIsCurrent(l: Ledger, v: View, disk: Disk, r: RequestId)
    requires ViewOk(l, v, disk) && r in l.attempts && v.status[r] == None
    ensures Current(disk, r)
  {
    assert !Settled(l, v, disk.token, r);
  }

  lemma CommitAddsCurrent(l: Ledger, db: Db, c: Candidate, now: nat, row: Option<Fingerprint>, disk: Disk, after: Db)
    requires Inv(db) && ViewOk(l, Look(l, db), disk) && c.request in l.attempts
    requires after == CommitIssuance(db, c, now, row).db && after != db
    ensures AddsOnlyCurrent(l.attempts, db.credentials, after.credentials, disk)
  {
    assert Status(db, c.request) == None;
    AbsentIsCurrent(l, Look(l, db), disk, c.request);
    forall b | b in after.credentials && b !in db.credentials
      ensures after.credentials[b].terms.request == c.request
      ensures forall a | a in db.credentials :: db.credentials[a].terms.generation < after.credentials[b].terms.generation
    {
      CommitNumbersNext(db, c, now, row, b);
    }
  }

  lemma EnrollBundles(w: World, m: Message, c: Candidate, now: nat, row: Option<Fingerprint>)
    requires WorldOk(w) && BundlesOk(w) && m in w.sent && m.Enroll? && AnswersRenewalQuery(w.db, c.presented, row)
    requires c.request == m.request
    ensures BundlesOk(AnswerEnroll(w, m, c, now, row))
  {
    var db := CommitIssuance(w.db, c, now, row).db;
    assert MessageOk(w.ledger, m);
    CommitStep(w.db, c, now, row, db);
    if db != w.db {
      CommitAddsCurrent(w.ledger, w.db, c, now, row, w.disk, db);
    }
    TablesKeepBundles(w, db, AnswerEnroll(w, m, c, now, row).replies);
  }

  lemma ActivationBundles(w: World, m: Message, now: nat)
    requires WorldOk(w) && BundlesOk(w) && m in w.sent && m.Activating?
    ensures BundlesOk(AnswerActivation(w, m, now))
  {
    var db := Activate(w.db, m.request, Sha256(m.renewal), m.fingerprint, now).db;
    ActivateKeepsTables(w.db, m.request, Sha256(m.renewal), m.fingerprint, now, db);
    TablesKeepBundles(w, db, AnswerActivation(w, m, now).replies);
  }

  // -------------------------------------------------------------- agent steps

  lemma NewJournalBundles(w: World, j: Journal, pc: Pc)
    requires BundlesOk(w) && Fresh(w, j)
    ensures BundlesOk(WithJournal(w, j).(pc := pc))
  {
    var later := WithJournal(w, j).(pc := pc);
    forall i | 0 <= i < |w.bundles| ensures HasOrigin(later.ledger.attempts, w.db.credentials, w.bundles[i]) {
      assert HasOrigin(w.ledger.attempts, w.db.credentials, w.bundles[i]);
      var fp :| IsOrigin(w.ledger.attempts, w.db.credentials, fp, w.bundles[i]);
      assert IsOrigin(later.ledger.attempts, w.db.credentials, fp, w.bundles[i]);
    }
  }

  lemma DiskBundles(w: World, disk: Disk, pc: Pc, sent: set<Message>, gone: bool)
    requires BundlesOk(w) && (disk.journal.None? || disk.journal == w.disk.journal)
    ensures BundlesOk(w.(disk := disk, pc := pc, sent := sent, gone := gone))
  {
    var rows, attempts := w.db.credentials, w.ledger.attempts;
    forall a, b | a in rows && b in rows ensures Younger(attempts, disk, rows[a], rows[b]) {
      assert Younger(attempts, w.disk, rows[a], rows[b]);
    }
  }

  lemma IssuedOrigin(attempts: Attempts, db: Db, disk: Disk, j: Journal, issuance: Issuance)
    requires j.request in attempts && attempts[j.request].journal == j && disk.journal == Some(j)
    requires Holds(db, j.request, issuance)
    ensures var b := Bundle(issuance.generation, issuance.certificate, j.key);
            IsOrigin(attempts, db.credentials, issuance.fingerprint, b)
    ensures Current(disk, db.credentials[issuance.fingerprint].terms.request)
  {
  }

  /** Every bundle so far is older than the journal's, or is that bundle. */
  lemma NewestBundle(attempts: Attempts, rows: Rows, disk: Disk, bundles: seq<Bundle>, fp: Fingerprint, b: Bundle)
    requires UniqueRequests(rows) && Originates(attempts, rows, bundles) && CurrentIsYoungest(attempts, rows, disk)
    requires IsOrigin(attempts, rows, fp, b) && Current(disk, rows[fp].terms.request)
    requires Progressive(bundles)
    ensures Originates(attempts, rows, bundles + [b]) && Progressive(bundles + [b])
  {
    forall i | 0 <= i < |bundles|
      ensures bundles[i].generation <= b.generation
      ensures bundles[i].generation == b.generation ==> bundles[i] == b
    {
      assert HasOrigin(attempts, rows, bundles[i]);
      var f :| IsOrigin(attempts, rows, f, bundles[i]);
      assert Younger(attempts, disk, rows[f], rows[fp]);
    }
    assert HasOrigin(attempts, rows, b);
  }

  lemma PublishBundles(w: World)
    requires WorldOk(w) && BundlesOk(w) && w.pc.HasIssued?
    ensures BundlesOk(Publish(w))
  {
    UniqueIn(w.db);
    IssuedOrigin(w.ledger.attempts, w.db, w.disk, w.pc.journal, w.pc.issuance);
    NewestBundle(w.ledger.attempts, w.db.credentials, w.disk, w.bundles, w.pc.issuance.fingerprint,
                 Bundle(w.pc.issuance.generation, w.pc.issuance.certificate, w.pc.journal.key));
  }

  lemma ServeEnrollBundles(w: World, m: Message, certificate: Bytes, fp: Fingerprint, notAfter: nat, deadline: nat,
                           now: nat, row: Option<Fingerprint>)
    requires WorldOk(w) && BundlesOk(w)
    ensures BundlesOk(ServeEnroll(w, m, certificate, fp, notAfter, deadline, now, row))
  {
    if m in w.sent && m.Enroll? && AnswersRenewalQuery(w.db, Sha256(m.token), row) {
      EnrollBundles(w, m, CandidateFor(w.ledger.me, m, certificate, fp, notAfter, deadline), now, row);
    }
  }

  lemma PreflightBundles(w: World, m: Message, now: nat, row: Option<Fingerprint>)
    requires BundlesOk(w)
    ensures BundlesOk(AnswerPreflight(w, m, now, row))
  {
    TablesKeepBundles(w, w.db, AnswerPreflight(w, m, now, row).replies);
  }

  lemma ServiceBundles(w: World, step: Step)
    requires WorldOk(w) && BundlesOk(w)
    requires step.ServePreflight? || step.ServeCommit? || step.ServeActivate? || step.Foreign?
    ensures BundlesOk(Do(w, step))
  {
    match step
    case ServePreflight(m, now, row) => PreflightBundles(w, m, now, row);
    case ServeCommit(m, certificate, fp, notAfter, deadline, now, row) =>
      ServeEnrollBundles(w, m, certificate, fp, notAfter, deadline, now, row);
    case ServeActivate(m, now) => if m in w.sent && m.Activating? { ActivationBundles(w, m, now); }
    case Foreign(op) => if ForeignOp(w.ledger, op) { ForeignBundles(w, op); }
  }

  lemma JournalBundles(w: World, step: Step)
    requires BundlesOk(w) && (step.LoadJournal? || step.ReplaceJournal?)
    ensures BundlesOk(Do(w, step))
  {
    var after := Do(w, step);
    if after.ledger != w.ledger {
      NewJournalBundles(w, step.made, after.pc);
    } else {
      DiskBundles(w, w.disk, after.pc, w.sent, w.gone);
    }
  }

  /** Steps of the Agent that write no journal and publish no bundle. */
  predicate Plain(step: Step) {
    || step.ReadToken? || step.Begin? || step.ReceiveIssued? || step.SendActivate? || step.ReceiveActivated?
    || step.RemoveToken? || step.WriteToken? || step.RemoveJournal? || step.Crash?
  }

  lemma PlainStep(w: World, step: Step)
    requires Plain(step)
    ensures var t := Do(w, step);
            && t == w.(disk := t.disk, pc := t.pc, sent := t.sent, gone := t.gone)
            && (t.disk.journal.None? || t.disk.journal == w.disk.journal)
  {
  }

  lemma PlainBundles(w: World, step: Step)
    requires BundlesOk(w) && Plain(step)
    ensures BundlesOk(Do(w, step))
  {
    PlainStep(w, step);
    DiskBundles(w, Do(w, step).disk, Do(w, step).pc, Do(w, step).sent, Do(w, step).gone);
  }

  lemma StepKeepsBundles(w: World, step: Step)
    requires WorldOk(w) && BundlesOk(w)
    ensures BundlesOk(Do(w, step))
  {
    if step.ServePreflight? || step.ServeCommit? || step.ServeActivate? || step.Foreign? {
      ServiceBundles(w, step);
    } else if step.LoadJournal? || step.ReplaceJournal? {
      JournalBundles(w, step);
    } else if step.PublishBundle? {
      if w.pc.HasIssued? { PublishBundles(w); }
    } else {
      PlainBundles(w, step);
    }
  }

  lemma {:induction false} RunKeepsBundles(w: World, steps: seq<Step>)
    requires WorldOk(w) && BundlesOk(w)
    ensures BundlesOk(Run(w, steps))
    decreases |steps|
  {
    if steps != [] {
      StepKeepsWorld(w, steps[0]);
      StepKeepsBundles(w, steps[0]);
      RunKeepsBundles(Do(w, steps[0]), steps[1..]);
    }
  }

  // ------------------------------------------------ a directory already in use

  function HeadVersion(db: Db): nat {
    if db.head.Some? then db.head.value.version else 0
  }

  /** Everything issued to the Agent since the version was `floor` is above it. */
  ghost predicate Above(attempts: Attempts, db: Db, floor: nat) {
    && floor <= HeadVersion(db)
    && forall fp {:trigger db.credentials[fp]} | fp in db.credentials && db.credentials[fp].terms.request in attempts ::
         floor < db.credentials[fp].terms.generation
  }

  lemma OperationKeepsAbove(attempts: Attempts, db: Db, op: Op, floor: nat)
    requires Inv(db) && Above(attempts, db, floor)
    ensures Above(attempts, Apply(db, op), floor)
  {
    StepKeepsInvariant(db, op);
    var after := Apply(db, op);
    forall fp | fp in after.credentials && after.credentials[fp].terms.request in attempts
      ensures floor < after.credentials[fp].terms.generation
    {
      if fp in db.credentials {
        assert RowEvolves(db.credentials[fp], after.credentials[fp]);
      } else {
        InsertionNumbersNext(db, op, fp);
      }
    }
  }

  /** The operation on the tables that a step of the service is, if any. */
  ghost function OpOf(w: World, step: Step): Option<Op> {
    match step
    case ServeCommit(m, certificate, fp, notAfter, deadline, now, row) =>
      if m in w.sent && m.Enroll? then
        Some(Commit(CandidateFor(w.ledger.me, m, certificate, fp, notAfter, deadline), now, row))
      else None
    case ServeActivate(m, now) =>
      if m in w.sent && m.Activating? then Some(Activation(m.request, Sha256(m.renewal), m.fingerprint, now)) else None
    case Foreign(op) => if ForeignOp(w.ledger, op) then Some(op) else None
    case _ => None
  }

  lemma TablesAfter(w: World, step: Step)
    ensures Do(w, step).db == match OpOf(w, step) case Some(op) => Apply(w.db, op) case None => w.db
  {
  }

  /** Only a fresh journal adds an attempt, and no row is of a fresh request. */
  lemma AttemptsAfter(w: World, step: Step, fp: Fingerprint)
    requires OpOf(w, step).None? && fp in w.db.credentials
    requires w.db.credentials[fp].terms.request in Do(w, step).ledger.attempts
    ensures w.db.credentials[fp].terms.request in w.ledger.attempts
  {
  }

  lemma LedgerStays(w: World, step: Step)
    requires OpOf(w, step).Some?
    ensures Do(w, step).ledger == w.ledger
  {
  }

  lemma StepKeepsAbove(w: World, step: Step, floor: nat)
    requires Inv(w.db) && Above(w.ledger.attempts, w.db, floor)
    ensures Above(Do(w, step).ledger.attempts, Do(w, step).db, floor)
  {
    TablesAfter(w, step);
    match OpOf(w, step)
    case Some(op) =>
      LedgerStays(w, step);
      OperationKeepsAbove(w.ledger.attempts, w.db, op, floor);
    case None =>
      var attempts := Do(w, step).ledger.attempts;
      forall fp | fp in w.db.credentials && w.db.credentials[fp].terms.request in attempts
        ensures floor < w.db.credentials[fp].terms.generation
      {
        AttemptsAfter(w, step, fp);
      }
  }

  lemma {:induction false} RunKeepsAbove(w: World, steps: seq<Step>, floor: nat)
    requires WorldOk(w) && Above(w.ledger.attempts, w.db, floor)
    ensures Above(Run(w, steps).ledger.attempts, Run(w, steps).db, floor)
    decreases |steps|
  {
    if steps != [] {
      StepKeepsWorld(w, steps[0]);
      StepKeepsAbove(w, steps[0], floor);
      RunKeepsAbove(Do(w, steps[0]), steps[1..], floor);
    }
  }

  lemma ProgressiveAppend(prior: seq<Bundle>, bundles: seq<Bundle>, floor: nat)
    requires Progressive(prior) && Progressive(bundles)
    requires forall i | 0 <= i < |prior| :: prior[i].generation <= floor
    requires forall i | 0 <= i < |bundles| :: floor < bundles[i].generation
    ensures Progressive(prior + bundles)
  {
  }

  /** What earlier lives of the Agent have left in its directory: any bundles in order of
      their generations, none above what the service has issued. */
  ghost predicate LeftBehind(prior: seq<Bundle>, db: Db) {
    Progressive(prior) && forall i | 0 <= i < |prior| :: prior[i].generation <= HeadVersion(db)
  }

  /** Over its whole life an Agent publishes bundles whose generations never go back,
      after whatever it already had, and publishes two bundles of one generation only if
      they are the same bundle. */
  lemma GenerationsNeverGoBack(w: World, steps: seq<Step>, prior: seq<Bundle>)
    requires Start(w) && LeftBehind(prior, w.db)
    ensures Progressive(prior + Run(w, steps).bundles)
  {
    StartIsOk(w);
    RunKeepsBundles(w, steps);
    RunKeepsAbove(w, steps, HeadVersion(w.db));
    var end := Run(w, steps);
    forall i | 0 <= i < |end.bundles| ensures HeadVersion(w.db) < end.bundles[i].generation {
      assert HasOrigin(end.ledger.attempts, end.db.credentials, end.bundles[i]);
      var fp :| IsOrigin(end.ledger.attempts, end.db.credentials, fp, end.bundles[i]);
    }
    ProgressiveAppend(prior, end.bundles, HeadVersion(w.db));
  }

  /** So the reload cell of an Agent whose directory holds what its rotations published,
      after what it held before, never meets a stale or conflicting generation. */
  lemma AgentReloadNeverRefuses<T(!new)>(w: World, steps: seq<Step>, prior: seq<Bundle>, ca: Bytes, states: seq<State>,
                                         cell: TlsReload.Cell<T>, at: nat, from: nat, polls: seq<TlsReload.Poll<T>>)
    requires Start(w) && LeftBehind(prior, w.db)
    requires History(ca, states) && states[|states| - 1].begun == prior + Run(w, steps).bundles
    requires TlsReload.HoldsFrom(cell, states, at) && at <= from && TlsReload.Polls(states, from, polls)
    ensures !TlsReload.EverRefused(cell, states, from, polls)
  {
    GenerationsNeverGoBack(w, steps, prior);
    TlsReload.ReloadNeverRefuses(ca, states, cell, at, from, polls);
  }
}
