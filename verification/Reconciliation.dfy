/** Bounded reconciliation of overdue Pending credentials. */
module Reconciliation {
  import opened Primitives
  import opened Snapshots
  import opened Enrollment
  import opened EnrollmentInvariants

  /** The states that repeated reconciliation at one time goes through. */
  ghost predicate ReconcileRun(states: seq<Db>, now: nat) {
    forall i {:trigger ReconcilesAt(states, now, i)} | 0 < i < |states| :: ReconcilesAt(states, now, i)
  }

  ghost predicate ReconcilesAt(states: seq<Db>, now: nat, i: nat)
    requires 0 < i < |states|
  {
    states[i] == ReconcileExpired(states[i - 1], now).db
  }

  /** How many batches of 256 hold `n` credentials. */
  function Batches(n: nat): nat {
    (n + 255) / 256
  }

  lemma Precedes(batch: set<Fingerprint>, rows: set<Fingerprint>, limit: nat, x: Fingerprint, y: Fingerprint)
    requires IsFirst(batch, rows, limit) && x in batch && y in rows && y !in batch
    ensures x.digest < y.digest
  {
    assert y in rows - batch;
  }

  lemma FirstIsUnique(a: set<Fingerprint>, b: set<Fingerprint>, rows: set<Fingerprint>, limit: nat)
    requires IsFirst(a, rows, limit) && IsFirst(b, rows, limit)
    ensures a == b
  {
    if a != b {
      if a <= b { SameSize(a, b); }
      if b <= a { SameSize(b, a); }
      var x :| x in a && x !in b;
      var y :| y in b && y !in a;
      Precedes(a, rows, limit, x, y);
      Precedes(b, rows, limit, y, x);
    }
  }

  lemma SameSize(small: set<Fingerprint>, large: set<Fingerprint>)
    requires small <= large && |small| == |large|
    ensures small == large
  {
    assert large == small + (large - small);
  }

  /** Taking Pending credentials always changes the grants: each of them has one. */
  lemma BatchIsGranted(rows: Rows, grants: Grants, batch: set<Fingerprint>)
    requires Coherent(rows, grants) && batch != {}
    requires forall fp | fp in batch :: fp in rows && rows[fp].state.Pending?
    ensures grants - batch != grants
  {
    var fp :| fp in batch;
    assert GrantMatches(grants, fp, rows[fp]);
    assert fp in grants && fp !in grants - batch;
  }

  lemma BatchReplaces(rows: Rows, current: Snapshot, batch: set<Fingerprint>)
    requires current.version < U64_MAX && Coherent(rows, current.grants) && Encodable(current.grants)
    requires forall fp | fp in batch :: fp in rows && rows[fp].state.Pending?
    requires batch != {}
    ensures current.grants - batch != current.grants
    ensures ReplaceIfChanged(current, current.grants - batch)
            == Ok(Snapshot(current.version + 1, current.grants - batch))
  {
    BatchIsGranted(rows, current.grants, batch);
    WithoutIsEncodable(current.grants, batch);
  }

  /** What reconciliation relies on of the invariant. */
  ghost predicate Sound(db: Db) {
    && db.head.Some?
    && Encodable(db.head.value.grants)
    && Coherent(db.credentials, db.head.value.grants)
  }

  /** One call at time `now` with something overdue. */
  lemma BatchStep(db: Db, now: nat, batch: set<Fingerprint>, next: Db)
    requires Sound(db) && now <= I64_MAX && db.head.value.version < U64_MAX
    requires batch <= Overdue(db, now) && batch != {}
    requires next == ReconcileBatch(db, now, batch).db
    ensures Sound(next)
    ensures next.credentials == ExpiredCredentials(db.credentials, batch, now)
    ensures next.head == Some(Snapshot(db.head.value.version + 1, db.head.value.grants - batch))
    ensures ReconcileBatch(db, now, batch).reply == Ok(Mutation(db.head.value.version + 1, |batch|, true))
  {
    BatchReplaces(db.credentials, db.head.value, batch);
    WithoutIsEncodable(db.head.value.grants, batch);
    ExpiredRowsMatch(db.credentials, db.head.value.grants, batch, now);
  }

  lemma CallTakesBatch(db: Db, now: nat) returns (batch: set<Fingerprint>)
    requires Overdue(db, now) != {}
    ensures batch <= Overdue(db, now) && batch != {}
    ensures |batch| == Min(MAX_RECONCILE_BATCH, |Overdue(db, now)|)
    ensures ReconcileExpired(db, now) == ReconcileBatch(db, now, batch)
  {
    SelectionIsFirst(db, now);
    batch := ReconcileSelection(db, now);
    assert |Overdue(db, now)| > 0;
  }

  lemma OverdueShrinks(db: Db, now: nat, batch: set<Fingerprint>, next: Db)
    requires batch <= Overdue(db, now)
    requires next.credentials == ExpiredCredentials(db.credentials, batch, now)
    ensures Overdue(next, now) == Overdue(db, now) - batch
    ensures |Overdue(next, now)| == |Overdue(db, now)| - |batch|
  {
  }

  /** Nothing overdue: reconciliation is a no-op. */
  lemma ReconcileIdle(db: Db, now: nat)
    requires Sound(db) && now <= I64_MAX && Overdue(db, now) == {}
    ensures ReconcileExpired(db, now) == Txn(db, Ok(Mutation(db.head.value.version, 0, false)))
  {
    SelectionIsFirst(db, now);
  }

  /** With no version left, an overdue credential stays: the call fails and changes nothing. */
  lemma ReconcileExhausted(db: Db, now: nat)
    requires Inv(db) && db.head.Some? && now <= I64_MAX && db.head.value.version == U64_MAX
    requires Overdue(db, now) != {}
    ensures ReconcileExpired(db, now) == Txn(db, Err(VersionExhausted))
  {
    var batch := CallTakesBatch(db, now);
    BatchIsGranted(db.credentials, db.head.value.grants, batch);
  }

  /** `after` is where `calls` reconciliations at `now` lead from `db`: 256 fewer
      overdue for each call, one version for each that found any, and no row
      touched but those that were overdue. */
  ghost predicate Drained(db: Db, now: nat, calls: nat, after: Db) {
    var n := |Overdue(db, now)|;
    && |Overdue(after, now)| == (if n > 256 * calls then n - 256 * calls else 0)
    && Overdue(after, now) <= Overdue(db, now)
    && after.credentials == ExpiredCredentials(db.credentials, Overdue(db, now) - Overdue(after, now), now)
    && db.head.Some? && after.head.Some?
    && after.head.value.version == db.head.value.version + Min(calls, Batches(n))
  }

  lemma DrainStep(db: Db, now: nat, calls: nat, mid: Db, batch: set<Fingerprint>, after: Db)
    requires Drained(db, now, calls, mid)
    requires batch <= Overdue(mid, now) && |batch| == Min(MAX_RECONCILE_BATCH, |Overdue(mid, now)|) && |batch| > 0
    requires after.credentials == ExpiredCredentials(mid.credentials, batch, now)
    requires after.head.Some? && after.head.value.version == mid.head.value.version + 1
    ensures Drained(db, now, calls + 1, after)
  {
    OverdueShrinks(mid, now, batch, after);
    ExpiredTwice(db.credentials, Overdue(db, now) - Overdue(mid, now), batch, now);
    assert Overdue(db, now) - Overdue(after, now) == Overdue(db, now) - Overdue(mid, now) + batch;
  }

  lemma ExpiredTwice(rows: Rows, first: set<Fingerprint>, second: set<Fingerprint>, now: nat)
    ensures ExpiredCredentials(ExpiredCredentials(rows, first, now), second, now)
            == ExpiredCredentials(rows, first + second, now)
  {
  }

  lemma NextCall(db: Db, now: nat, next: Db) returns (batch: set<Fingerprint>)
    requires Sound(db) && now <= I64_MAX && db.head.value.version < U64_MAX
    requires Overdue(db, now) != {} && next == ReconcileExpired(db, now).db
    ensures Sound(next) && next.head.value.version == db.head.value.version + 1
    ensures batch <= Overdue(db, now) && |batch| == Min(MAX_RECONCILE_BATCH, |Overdue(db, now)|) && |batch| > 0
    ensures next.credentials == ExpiredCredentials(db.credentials, batch, now)
  {
    batch := CallTakesBatch(db, now);
    BatchStep(db, now, batch, next);
  }

  lemma IdleStep(db: Db, now: nat, calls: nat, mid: Db)
    requires Drained(db, now, calls, mid) && Overdue(mid, now) == {}
    ensures Drained(db, now, calls + 1, mid)
  {
  }

  lemma DrainsOnce(db: Db, now: nat, calls: nat, mid: Db, after: Db)
    requires Sound(mid) && Drained(db, now, calls, mid) && now <= I64_MAX
    requires Overdue(mid, now) != {} ==> mid.head.value.version < U64_MAX
    requires after == ReconcileExpired(mid, now).db
    ensures Sound(after) && Drained(db, now, calls + 1, after)
  {
    if Overdue(mid, now) == {} {
      ReconcileIdle(mid, now);
      IdleStep(db, now, calls, mid);
    } else {
      var batch := NextCall(mid, now, after);
      DrainStep(db, now, calls, mid, batch, after);
    }
  }

  lemma NoneYet(db: Db, now: nat)
    requires Sound(db)
    ensures Drained(db, now, 0, db)
  {
    assert ExpiredCredentials(db.credentials, {}, now) == db.credentials;
  }

  /** As long as credentials are overdue, a version is used by every call. */
  lemma VersionLeft(db: Db, now: nat, calls: nat, mid: Db)
    requires Sound(db) && Drained(db, now, calls, mid) && Overdue(mid, now) != {}
    requires db.head.value.version + Min(calls + 1, Batches(|Overdue(db, now)|)) <= U64_MAX
    ensures mid.head.value.version < U64_MAX
  {
    assert |Overdue(mid, now)| > 0;
  }

  lemma {:induction false} Drains(states: seq<Db>, now: nat, calls: nat)
    requires ReconcileRun(states, now) && calls < |states| && now <= I64_MAX
    requires Sound(states[0])
    requires states[0].head.value.version + Min(calls, Batches(|Overdue(states[0], now)|)) <= U64_MAX
    ensures Sound(states[calls]) && Drained(states[0], now, calls, states[calls])
    decreases calls
  {
    if calls == 0 {
      NoneYet(states[0], now);
    } else {
      Drains(states, now, calls - 1);
      var mid := states[calls - 1];
      assert ReconcilesAt(states, now, calls);
      if Overdue(mid, now) != {} { VersionLeft(states[0], now, calls - 1, mid); }
      DrainsOnce(states[0], now, calls - 1, mid, states[calls]);
    }
  }

  /** `n` credentials overdue at `now` are gone after exactly ceil(n / 256) calls at
      that time: each call before takes 256 of them and one version, every call
      after changes nothing. */
  lemma ReconcileDrains(states: seq<Db>, now: nat, calls: nat)
    requires ReconcileRun(states, now) && calls < |states| && now <= I64_MAX
    requires Inv(states[0]) && states[0].head.Some?
    requires states[0].head.value.version + Min(calls, Batches(|Overdue(states[0], now)|)) <= U64_MAX
    ensures Drained(states[0], now, calls, states[calls])
    ensures Overdue(states[calls], now) == {} <==> calls >= Batches(|Overdue(states[0], now)|)
    ensures Overdue(states[calls], now) == {} ==> ReconcileExpired(states[calls], now).db == states[calls]
  {
    Drains(states, now, calls);
    if Overdue(states[calls], now) == {} {
      ReconcileIdle(states[calls], now);
    } else {
      assert |Overdue(states[calls], now)| > 0;
    }
  }
}
