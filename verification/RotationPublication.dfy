/** No credential of an Agent is activated before its bundle is on disk. */
module RotationPublication {
  import opened Primitives
  import opened Snapshots
  import opened Enrollment
  import opened EnrollmentInvariants
  import opened EnrollmentRuns
  import opened CredentialBundles
  import opened Rotation
  import opened RotationLedger
  import opened RotationViews
  import opened RotationSafety
  import opened RotationRecovery
  import opened RotationGenerations

  /** The bundle of a credential of the Agent has been published. */
  ghost predicate Shipped(attempts: Attempts, rows: Rows, bundles: seq<Bundle>, fp: Fingerprint) {
    exists i | 0 <= i < |bundles| :: IsOrigin(attempts, rows, fp, bundles[i])
  }

  /** A row of the Agent that has been activated. */
  predicate WasActivated(attempts: Attempts, rows: Rows, fp: Fingerprint) {
    fp in rows && rows[fp].terms.request in attempts && (rows[fp].state.Active? || rows[fp].state.Retired?)
  }

  ghost predicate Ships(w: World) {
    var attempts, rows := w.ledger.attempts, w.db.credentials;
    && (forall fp | WasActivated(attempts, rows, fp) :: Shipped(attempts, rows, w.bundles, fp))
    && (forall m | m in w.sent && m.Activating? :: Shipped(attempts, rows, w.bundles, m.fingerprint))
    && (w.pc.Published? ==> Shipped(attempts, rows, w.bundles, w.pc.issuance.fingerprint))
  }

  /** What has been shipped stays so while rows evolve and attempts and bundles are added. */
  lemma ShippedStays(attempts: Attempts, more: Attempts, rows: Rows, later: Rows, bundles: seq<Bundle>, all: seq<Bundle>,
                     fp: Fingerprint)
    requires Shipped(attempts, rows, bundles, fp) && RowsEvolve(rows, later) && bundles <= all
    requires forall r | r in attempts :: r in more && more[r] == attempts[r]
    ensures Shipped(more, later, all, fp)
  {
    var i :| 0 <= i < |bundles| && IsOrigin(attempts, rows, fp, bundles[i]);
    assert RowEvolves(rows[fp], later[fp]);
    assert IsOrigin(more, later, fp, all[i]);
  }

  /** An operation activates a credential of the Agent only as its own activation. */
  lemma ActivatedByRequest(l: Ledger, db: Db, op: Op, fp: Fingerprint, after: Db)
    requires LedgerOk(l) && DbOk(l, db) && Inv(db) && after == Apply(db, op)
    requires WasActivated(l.attempts, after.credentials, fp) && !WasActivated(l.attempts, db.credentials, fp)
    ensures op.Activation? && op.fingerprint == fp && fp in db.credentials
    ensures db.credentials[fp].terms.request == op.request && db.credentials[fp].terms.renewalHash == op.renewal
  {
    StepKeepsInvariant(db, op);
    assert fp in db.credentials ==> RowEvolves(db.credentials[fp], after.credentials[fp]);
    assert after.credentials[fp].state.Active?;
    ActivationBeatsDeadline(db, op, fp, after);
    ActivationNames(db, op.request, op.renewal, fp, op.now);
  }

  lemma ActivationNames(db: Db, request: RequestId, renewal: TokenHash, fp: Fingerprint, now: nat)
    requires fp in db.credentials && Activate(db, request, renewal, fp, now).db.credentials[fp] != db.credentials[fp]
    ensures db.credentials[fp].terms.request == request && db.credentials[fp].terms.renewalHash == renewal
  {
  }

  /** The Agent's own messages are the only activations that can be of its credentials. */
  lemma AskedFor(w: World, step: Step, op: Op, fp: Fingerprint)
    requires WorldOk(w) && OpOf(w, step) == Some(op) && op.Activation? && op.fingerprint == fp && fp in w.db.credentials
    requires w.db.credentials[fp].terms.request == op.request && w.db.credentials[fp].terms.renewalHash == op.renewal
    requires op.request in w.ledger.attempts
    ensures step.ServeActivate? && step.message in w.sent && step.message.Activating? && step.message.fingerprint == fp
  {
    InvHolds(w);
    assert RowOk(w.ledger, fp, w.db.credentials[fp]);
    assert op.renewal in w.ledger.owner;
  }

  lemma OperationShips(w: World, step: Step, op: Op, fp: Fingerprint)
    requires WorldOk(w) && Ships(w) && OpOf(w, step) == Some(op)
    requires WasActivated(w.ledger.attempts, Apply(w.db, op).credentials, fp)
    ensures Shipped(w.ledger.attempts, w.db.credentials, w.bundles, fp)
  {
    if !WasActivated(w.ledger.attempts, w.db.credentials, fp) {
      InvHolds(w);
      ActivatedByRequest(w.ledger, w.db, op, fp, Apply(w.db, op));
      StepKeepsInvariant(w.db, op);
      assert RowEvolves(w.db.credentials[fp], Apply(w.db, op).credentials[fp]);
      AskedFor(w, step, op, fp);
    }
  }

  /** A step of the service leaves the Agent's side as it is. */
  lemma ServiceKeepsAgent(w: World, step: Step)
    requires OpOf(w, step).Some?
    ensures var t := Do(w, step);
            t.ledger == w.ledger && t.bundles == w.bundles && t.sent == w.sent && t.pc == w.pc
  {
  }

  lemma TablesShip(w: World, step: Step, op: Op)
    requires WorldOk(w) && Ships(w) && OpOf(w, step) == Some(op)
    ensures Ships(Do(w, step))
  {
    var attempts, rows, later := w.ledger.attempts, w.db.credentials, Apply(w.db, op).credentials;
    TablesAfter(w, step);
    ServiceKeepsAgent(w, step);
    InvHolds(w);
    StepKeepsInvariant(w.db, op);
    forall fp | WasActivated(attempts, later, fp) ensures Shipped(attempts, later, w.bundles, fp) {
      OperationShips(w, step, op, fp);
      ShippedStays(attempts, attempts, rows, later, w.bundles, w.bundles, fp);
    }
    forall fp | Shipped(attempts, rows, w.bundles, fp) ensures Shipped(attempts, later, w.bundles, fp) {
      ShippedStays(attempts, attempts, rows, later, w.bundles, w.bundles, fp);
    }
  }

  /** A step of the Agent: the tables stay, attempts and bundles are only added. */
  lemma AgentKeeps(w: World, step: Step)
    requires OpOf(w, step).None?
    ensures var t := Do(w, step);
            && t.db == w.db && w.bundles <= t.bundles
            && (forall r | r in w.ledger.attempts :: r in t.ledger.attempts && t.ledger.attempts[r] == w.ledger.attempts[r])
  {
    TablesAfter(w, step);
  }

  /** The Agent asks for the activation of what it has published, and nothing else. */
  lemma AgentAsks(w: World, step: Step)
    requires OpOf(w, step).None?
    ensures var t := Do(w, step);
            && (forall m | m in t.sent && m !in w.sent && m.Activating? ::
                  w.pc.Published? && m.fingerprint == w.pc.issuance.fingerprint)
            && (t.pc.Published? ==>
                  || (w.pc.Published? && t.pc == w.pc)
                  || (w.pc.HasIssued? && t.pc.issuance == w.pc.issuance && t.ledger == w.ledger
                      && t.bundles == w.bundles + [Bundle(w.pc.issuance.generation, w.pc.issuance.certificate, w.pc.journal.key)]))
  {
  }

  lemma PublishedIsShipped(w: World, bundles: seq<Bundle>)
    requires WorldOk(w) && w.pc.HasIssued? && bundles != []
    requires bundles[|bundles| - 1] == Bundle(w.pc.issuance.generation, w.pc.issuance.certificate, w.pc.journal.key)
    ensures Shipped(w.ledger.attempts, w.db.credentials, bundles, w.pc.issuance.fingerprint)
  {
    PcHolds(w);
    assert IsOrigin(w.ledger.attempts, w.db.credentials, w.pc.issuance.fingerprint, bundles[|bundles| - 1]);
  }

  lemma AgentShips(w: World, step: Step)
    requires WorldOk(w) && Ships(w) && OpOf(w, step).None?
    ensures Ships(Do(w, step))
  {
    var t := Do(w, step);
    var attempts, more, rows := w.ledger.attempts, t.ledger.attempts, w.db.credentials;
    AgentKeeps(w, step);
    AgentAsks(w, step);
    forall fp | Shipped(attempts, rows, w.bundles, fp) ensures Shipped(more, rows, t.bundles, fp) {
      ShippedStays(attempts, more, rows, rows, w.bundles, t.bundles, fp);
    }
    forall fp | WasActivated(more, rows, fp) ensures WasActivated(attempts, rows, fp) {
      AttemptsAfter(w, step, fp);
    }
    if t.pc.Published? && !(w.pc.Published? && t.pc == w.pc) { PublishedIsShipped(w, t.bundles); }
  }

  lemma {:induction false} RunShips(w: World, steps: seq<Step>)
    requires WorldOk(w) && Ships(w)
    ensures Ships(Run(w, steps))
    decreases |steps|
  {
    if steps != [] {
      StepKeepsWorld(w, steps[0]);
      match OpOf(w, steps[0]) {
        case Some(op) => TablesShip(w, steps[0], op);
        case None => AgentShips(w, steps[0]);
      }
      RunShips(Do(w, steps[0]), steps[1..]);
    }
  }

  /** Publish before activate. In every run from a first start, a credential that the Agent
      requested is Active, or was, only if the bundle of its certificate and of the key that
      its journal holds has been published: no crash leaves an active certificate
      without its key. */
  lemma ActiveIsPublished(w: World, steps: seq<Step>, fp: Fingerprint)
    requires Start(w) && WasActivated(Run(w, steps).ledger.attempts, Run(w, steps).db.credentials, fp)
    ensures var end := Run(w, steps);
            && var c := end.db.credentials[fp];
               Bundle(c.terms.generation, c.terms.certificate, end.ledger.attempts[c.terms.request].journal.key) in end.bundles
  {
    StartIsOk(w);
    RunShips(w, steps);
  }
}
