/** What every run of enrollment transactions keeps. */
module EnrollmentInvariants {
  import opened Primitives
  import opened Snapshots
  import opened Enrollment

  type Rows = map<Fingerprint, Credential>

  ghost predicate UniqueRequests(rows: Rows) {
    forall a, b {:trigger rows[a].terms.request, rows[b].terms.request} | a in rows && b in rows ::
      rows[a].terms.request == rows[b].terms.request ==> a == b
  }

  /** No two credentials share a generation, and each is a version the snapshot has reached. */
  ghost predicate Numbered(rows: Rows, version: nat) {
    && (forall fp {:trigger rows[fp].terms.generation} | fp in rows :: 1 <= rows[fp].terms.generation <= version)
    && (forall a, b {:trigger rows[a].terms.generation, rows[b].terms.generation} | a in rows && b in rows ::
          rows[a].terms.generation == rows[b].terms.generation ==> a == b)
  }

  ghost predicate Dated(rows: Rows) {
    forall fp {:trigger rows[fp].terms.deadline} | fp in rows :: rows[fp].terms.deadline <= rows[fp].terms.notAfter <= I64_MAX
  }

  /** A credential's predecessor has its identity and carries the token it was
      requested with; while the credential is Pending, the predecessor is Active
      or Retired. */
  predicate LinkedTo(rows: Rows, c: Credential, q: Fingerprint) {
    && q in rows
    && BoundTo(rows[q], c.terms.agent, c.terms.tunnel)
    && rows[q].terms.renewalHash == c.terms.authHash
    && rows[q].terms.generation < c.terms.generation
    && (c.state.Pending? ==> rows[q].state.Active? || rows[q].state.Retired?)
  }

  ghost predicate Linked(rows: Rows) {
    forall fp {:trigger LinkedTo(rows, rows[fp], rows[fp].terms.previous.value)}
      | fp in rows && rows[fp].terms.previous.Some? ::
      LinkedTo(rows, rows[fp], rows[fp].terms.previous.value)
  }

  /** A fingerprint is granted exactly while its credential is Pending or Active,
      and then for its own Agent and its one enabled tunnel. */
  predicate GrantMatches(grants: Grants, fp: Fingerprint, c: Credential) {
    && (fp in grants <==> Live(c.state))
    && (fp in grants ==> grants[fp] == AgentGrant(c.terms.agent, map[c.terms.tunnel := Enabled]))
  }

  ghost predicate Coherent(rows: Rows, grants: Grants) {
    forall fp | fp in rows :: GrantMatches(grants, fp, rows[fp])
  }

  ghost predicate Inv(db: Db) {
    match db.head
    case None => db.credentials == map[]
    case Some(head) =>
      && 1 <= head.version <= U64_MAX
      && Encodable(head.grants)
      && UniqueRequests(db.credentials)
      && Numbered(db.credentials, head.version)
      && Dated(db.credentials)
      && Linked(db.credentials)
      && Coherent(db.credentials, head.grants)
  }

  predicate Transition(from: CredentialState, to: CredentialState) {
    || (from.Pending? && (to.Active? || to.Expired? || to.Revoked?))
    || (from.Active? && (to.Retired? || to.Revoked?))
  }

  /** Only the state and its terminal time ever change, and only along `Transition`. */
  predicate RowEvolves(c: Credential, d: Credential) {
    d == c || (d.terms == c.terms && Transition(c.state, d.state))
  }

  ghost predicate RowsEvolve(rows: Rows, later: Rows) {
    forall fp | fp in rows :: fp in later && RowEvolves(rows[fp], later[fp])
  }

  ghost predicate NewRowsArePending(rows: Rows, later: Rows) {
    forall fp | fp in later && fp !in rows :: later[fp].state.Pending?
  }

  /** The snapshot is unchanged, or its version is the next one. */
  predicate Advances(before: Option<Snapshot>, after: Option<Snapshot>) {
    || after == before
    || (before.Some? && after.Some? && after.value.version == before.value.version + 1)
  }

  ghost predicate GoodStep(before: Db, after: Db) {
    && Inv(after)
    && RowsEvolve(before.credentials, after.credentials)
    && NewRowsArePending(before.credentials, after.credentials)
    && Advances(before.head, after.head)
  }

  // --------------------------------------------------- updates of known rows

  /** An update that only moves states forward keeps everything the terms say. */
  lemma UpdateKeepsTerms(rows: Rows, later: Rows, version: nat, newVersion: nat)
    requires later.Keys == rows.Keys && RowsEvolve(rows, later)
    requires UniqueRequests(rows) && Numbered(rows, version) && Dated(rows) && version <= newVersion
    ensures UniqueRequests(later) && Numbered(later, newVersion) && Dated(later)
  {
    forall fp | fp in later ensures later[fp].terms == rows[fp].terms {}
  }

  /** Links survive as long as no predecessor leaves Active or Retired. */
  lemma UpdateKeepsLinks(rows: Rows, later: Rows)
    requires later.Keys == rows.Keys && RowsEvolve(rows, later) && Linked(rows)
    requires forall q | q in rows :: !rows[q].state.Pending? && !later[q].state.Active? && !later[q].state.Retired?
                                     ==> later[q] == rows[q]
    ensures Linked(later)
  {
    forall fp | fp in later && later[fp].terms.previous.Some?
      ensures LinkedTo(later, later[fp], later[fp].terms.previous.value)
    {
      var q := rows[fp].terms.previous.value;
      assert LinkedTo(rows, rows[fp], q);
      assert RowEvolves(rows[q], later[q]);
    }
  }

  /** A row update beside a head that stays or moves on by one. */
  lemma UpdateStep(db: Db, after: Db)
    requires Inv(db) && db.head.Some? && after.head.Some? && Advances(db.head, after.head)
    requires after.head.value.version <= U64_MAX && Encodable(after.head.value.grants)
    requires after.credentials.Keys == db.credentials.Keys && RowsEvolve(db.credentials, after.credentials)
    requires Linked(after.credentials) && Coherent(after.credentials, after.head.value.grants)
    ensures GoodStep(db, after)
  {
    UpdateKeepsTerms(db.credentials, after.credentials, db.head.value.version, after.head.value.version);
  }

  // ------------------------------------------------------ one step at a time

  lemma RequestRowIsUnique(db: Db, fp: Fingerprint)
    requires UniqueRequests(db.credentials) && fp in db.credentials
    ensures RequestRow(db, db.credentials[fp].terms.request) == Some(fp)
  {
    assert IsRequestRow(db, db.credentials[fp].terms.request, fp);
  }

  predicate GoodPredecessor(rows: Rows, c: Candidate, kind: Presented) {
    kind.Renewal? ==>
      && kind.fingerprint in rows
      && rows[kind.fingerprint].state.Active?
      && BoundTo(rows[kind.fingerprint], c.agent, c.tunnel)
      && rows[kind.fingerprint].terms.renewalHash == c.presented
  }

  lemma InsertedRow(rows: Rows, c: Candidate, kind: Presented, version: nat, later: Rows)
    requires UniqueRequests(rows) && Numbered(rows, version) && Dated(rows) && Linked(rows)
    requires c.fingerprint !in rows && c.deadline <= c.notAfter <= I64_MAX
    requires forall fp | fp in rows :: rows[fp].terms.request != c.request
    requires GoodPredecessor(rows, c, kind)
    requires later == rows[c.fingerprint := NewCredential(c, kind, version + 1)]
    ensures UniqueRequests(later) && Numbered(later, version + 1) && Dated(later) && Linked(later)
    ensures RowsEvolve(rows, later) && NewRowsArePending(rows, later)
  {
    forall fp | fp in later && later[fp].terms.previous.Some?
      ensures LinkedTo(later, later[fp], later[fp].terms.previous.value)
    {
      if fp != c.fingerprint {
        assert LinkedTo(rows, rows[fp], rows[fp].terms.previous.value);
      }
    }
  }

  lemma InsertedGrant(rows: Rows, grants: Grants, c: Candidate, kind: Presented, generation: nat, later: Rows,
                      granted: Grants)
    requires Coherent(rows, grants) && c.fingerprint !in rows
    requires later == rows[c.fingerprint := NewCredential(c, kind, generation)]
    requires granted == grants[c.fingerprint := AgentGrant(c.agent, map[c.tunnel := Enabled])]
    ensures Coherent(later, granted)
  {
    forall fp | fp in later ensures GrantMatches(granted, fp, later[fp]) {
      if fp != c.fingerprint {
        assert GrantMatches(grants, fp, rows[fp]);
      }
    }
  }

  lemma RequestIsNew(db: Db, request: RequestId)
    requires RequestRow(db, request).None?
    ensures forall fp | fp in db.credentials :: db.credentials[fp].terms.request != request
  {
    forall fp | fp in db.credentials ensures db.credentials[fp].terms.request != request {
      assert !IsRequestRow(db, request, fp);
    }
  }

  /** What a successful insertion leaves behind. */
  lemma IssuedTables(db: Db, c: Candidate, kind: Presented)
    requires Issue(db, c, kind).reply.Ok?
    ensures db.head.Some? && db.head.value.version < U64_MAX
    ensures c.fingerprint !in db.credentials && c.notAfter <= I64_MAX
    ensures var version := db.head.value.version + 1; var after := Issue(db, c, kind).db;
            var grants := db.head.value.grants[c.fingerprint := AgentGrant(c.agent, map[c.tunnel := Enabled])];
            && after.credentials == db.credentials[c.fingerprint := NewCredential(c, kind, version)]
            && after.head == Some(Snapshot(version, grants)) && Encodable(grants)
  {
  }

  lemma IssueStep(db: Db, c: Candidate, kind: Presented, after: Db)
    requires after == Issue(db, c, kind).db
    requires Inv(db)
    requires c.deadline <= c.notAfter
    requires RequestRow(db, c.request).None?
    requires GoodPredecessor(db.credentials, c, kind)
    ensures GoodStep(db, after)
  {
    if Issue(db, c, kind).reply.Ok? {
      IssuedTables(db, c, kind);
      RequestIsNew(db, c.request);
      IssuedStep(db, c, kind, after);
    }
  }

  lemma IssuedStep(db: Db, c: Candidate, kind: Presented, after: Db)
    requires db.head.Some? && db.head.value.version < U64_MAX && after.head.Some?
    requires UniqueRequests(db.credentials) && Numbered(db.credentials, db.head.value.version)
    requires Dated(db.credentials) && Linked(db.credentials) && Coherent(db.credentials, db.head.value.grants)
    requires c.fingerprint !in db.credentials && c.deadline <= c.notAfter <= I64_MAX
    requires forall fp | fp in db.credentials :: db.credentials[fp].terms.request != c.request
    requires GoodPredecessor(db.credentials, c, kind)
    requires after.credentials == db.credentials[c.fingerprint := NewCredential(c, kind, db.head.value.version + 1)]
    requires after.head.value.version == db.head.value.version + 1 && Encodable(after.head.value.grants)
    requires after.head.value.grants
             == db.head.value.grants[c.fingerprint := AgentGrant(c.agent, map[c.tunnel := Enabled])]
    ensures GoodStep(db, after)
  {
    var version := db.head.value.version;
    InsertedRow(db.credentials, c, kind, version, after.credentials);
    InsertedGrant(db.credentials, db.head.value.grants, c, kind, version + 1, after.credentials, after.head.value.grants);
    InsertStep(db, after.credentials, after.head.value, after);
  }

  lemma InsertStep(db: Db, rows: Rows, head: Snapshot, after: Db)
    requires db.head.Some? && head.version == db.head.value.version + 1
    requires after.credentials == rows && after.head == Some(head)
    requires head.version <= U64_MAX && Encodable(head.grants)
    requires UniqueRequests(rows) && Numbered(rows, head.version) && Dated(rows) && Linked(rows)
    requires Coherent(rows, head.grants) && RowsEvolve(db.credentials, rows) && NewRowsArePending(db.credentials, rows)
    ensures GoodStep(db, after)
  {
  }

  lemma CommitStep(db: Db, c: Candidate, now: nat, row: Option<Fingerprint>, after: Db)
    requires after == CommitIssuance(db, c, now, row).db
    requires Inv(db) && AnswersRenewalQuery(db, c.presented, row)
    ensures GoodStep(db, after)
  {
    var auth := AuthenticateToken(db, c.presented, c.agent, c.tunnel, now, row);
    if c.deadline > now && c.deadline <= c.notAfter && RequestRow(db, c.request).None? && auth.Ok? {
      IssueStep(db, c, auth.value, after);
    }
  }

  lemma ExpiredRowsEvolve(rows: Rows, batch: set<Fingerprint>, now: nat)
    requires Linked(rows)
    ensures var later := ExpiredCredentials(rows, batch, now);
            later.Keys == rows.Keys && RowsEvolve(rows, later) && Linked(later)
  {
    UpdateKeepsLinks(rows, ExpiredCredentials(rows, batch, now));
  }

  lemma ExpiredRowsMatch(rows: Rows, grants: Grants, batch: set<Fingerprint>, now: nat)
    requires Coherent(rows, grants)
    requires forall fp | fp in batch :: fp in rows && rows[fp].state.Pending?
    ensures Coherent(ExpiredCredentials(rows, batch, now), grants - batch)
  {
    var later := ExpiredCredentials(rows, batch, now);
    forall fp | fp in later ensures GrantMatches(grants - batch, fp, later[fp]) {
      assert GrantMatches(grants, fp, rows[fp]);
    }
  }

  /** Pending credentials leave together with their grants. */
  lemma ExpiryStep(db: Db, batch: set<Fingerprint>, now: nat, head: Snapshot, after: Db)
    requires Inv(db) && db.head.Some?
    requires forall fp | fp in batch :: fp in db.credentials && db.credentials[fp].state.Pending?
    requires ReplaceIfChanged(db.head.value, db.head.value.grants - batch) == Ok(head)
    requires after == Db(db.tokens, ExpiredCredentials(db.credentials, batch, now), Some(head))
    ensures GoodStep(db, after)
  {
    ExpiredRowsEvolve(db.credentials, batch, now);
    ExpiredRowsMatch(db.credentials, db.head.value.grants, batch, now);
    UpdateStep(db, after);
  }

  lemma PromotedRowsEvolve(rows: Rows, fp: Fingerprint, q: Fingerprint)
    requires Linked(rows) && fp in rows && rows[fp].state.Pending? && LinkedTo(rows, rows[fp], q)
    ensures var later := SetState(SetState(rows, q, Retired), fp, Active);
            later.Keys == rows.Keys && RowsEvolve(rows, later) && Linked(later)
  {
    var later := SetState(SetState(rows, q, Retired), fp, Active);
    assert later == rows[q := rows[q].(state := Retired)][fp := rows[fp].(state := Active)];
    UpdateKeepsLinks(rows, later);
  }

  lemma PromotedRowsMatch(rows: Rows, grants: Grants, fp: Fingerprint, q: Fingerprint)
    requires Coherent(rows, grants)
    requires fp in rows && rows[fp].state.Pending? && LinkedTo(rows, rows[fp], q)
    ensures Coherent(SetState(SetState(rows, q, Retired), fp, Active), grants - {q})
  {
    var later := SetState(SetState(rows, q, Retired), fp, Active);
    forall c | c in later ensures GrantMatches(grants - {q}, c, later[c]) {
      assert GrantMatches(grants, c, rows[c]);
    }
  }

  lemma FirstPromotion(rows: Rows, grants: Grants, fp: Fingerprint)
    requires Linked(rows) && Coherent(rows, grants) && fp in rows && rows[fp].state.Pending?
    ensures var later := SetState(rows, fp, Active);
            && later.Keys == rows.Keys && RowsEvolve(rows, later)
            && Linked(later) && Coherent(later, grants)
  {
    var later := SetState(rows, fp, Active);
    UpdateKeepsLinks(rows, later);
    forall c | c in later ensures GrantMatches(grants, c, later[c]) {
      assert GrantMatches(grants, c, rows[c]);
    }
  }

  lemma PromoteStep(db: Db, fp: Fingerprint, after: Db)
    requires Inv(db) && fp in db.credentials && db.credentials[fp].state.Pending?
    requires after == Promote(db, fp).db && after != db
    ensures GoodStep(db, after)
  {
    var grants := db.head.value.grants;
    match db.credentials[fp].terms.previous
    case None =>
      FirstPromotion(db.credentials, grants, fp);
      UpdateStep(db, after);
    case Some(q) =>
      assert LinkedTo(db.credentials, db.credentials[fp], q);
      PromotedRowsEvolve(db.credentials, fp, q);
      PromotedRowsMatch(db.credentials, grants, fp, q);
      UpdateStep(db, after);
  }

  lemma ActivateStep(db: Db, request: RequestId, renewal: TokenHash, fp: Fingerprint, now: nat, after: Db)
    requires after == Activate(db, request, renewal, fp, now).db
    requires Inv(db)
    ensures GoodStep(db, after)
  {
    if fp in db.credentials && db.credentials[fp].state.Pending? && after != db {
      if db.credentials[fp].terms.deadline <= now {
        ExpiryStep(db, {fp}, now, after.head.value, after);
      } else {
        PromoteStep(db, fp, after);
      }
    }
  }

  lemma RevokedGrantMatches(grants: Grants, agent: AgentId, tunnel: TunnelId, fp: Fingerprint,
                            c: Credential, now: nat)
    requires GrantMatches(grants, fp, c)
    ensures GrantMatches(RemoveAgentTunnel(grants, agent, tunnel), fp,
                         if BoundTo(c, agent, tunnel) && Live(c.state) then Terminate(c, Revoked, now) else c)
  {
    if fp in grants {
      var rest := WithoutTunnel(grants[fp], agent, tunnel);
      if BoundTo(c, agent, tunnel) {
        assert rest.tunnels == map[];
      } else {
        assert c.terms.tunnel in rest.tunnels;
        assert rest.tunnels == map[c.terms.tunnel := Enabled];
      }
    }
  }

  lemma RevokedRowsAreLinked(rows: Rows, agent: AgentId, tunnel: TunnelId, now: nat)
    requires Linked(rows)
    ensures Linked(RevokedCredentials(rows, agent, tunnel, now))
  {
    var later := RevokedCredentials(rows, agent, tunnel, now);
    forall fp | fp in later && later[fp].terms.previous.Some?
      ensures LinkedTo(later, later[fp], later[fp].terms.previous.value)
    {
      assert LinkedTo(rows, rows[fp], rows[fp].terms.previous.value);
    }
  }

  lemma RevokedRowsMatch(rows: Rows, grants: Grants, agent: AgentId, tunnel: TunnelId, now: nat)
    requires Coherent(rows, grants)
    ensures Coherent(RevokedCredentials(rows, agent, tunnel, now), RemoveAgentTunnel(grants, agent, tunnel))
  {
    forall fp | fp in rows
      ensures GrantMatches(RemoveAgentTunnel(grants, agent, tunnel), fp,
                           RevokedCredentials(rows, agent, tunnel, now)[fp])
    {
      RevokedGrantMatches(grants, agent, tunnel, fp, rows[fp], now);
    }
  }

  lemma RevokeStep(db: Db, agent: AgentId, tunnel: TunnelId, now: nat, after: Db)
    requires after == RevokeAgent(db, agent, tunnel, now).db
    requires Inv(db) && RevokeAgent(db, agent, tunnel, now).reply.Ok?
    ensures GoodStep(db, after)
  {
    var grants := db.head.value.grants;
    assert after.credentials == RevokedCredentials(db.credentials, agent, tunnel, now);
    assert after.head.value.grants == RemoveAgentTunnel(grants, agent, tunnel);
    RevokedRowsMatch(db.credentials, grants, agent, tunnel, now);
    RevokedRowsAreLinked(db.credentials, agent, tunnel, now);
    UpdateStep(db, after);
  }

  lemma ReconcileStep(db: Db, now: nat, batch: set<Fingerprint>, after: Db)
    requires after == ReconcileBatch(db, now, batch).db
    requires Inv(db) && batch <= Overdue(db, now)
    ensures GoodStep(db, after)
  {
    if ReconcileBatch(db, now, batch).reply.Ok? && batch != {} {
      ExpiryStep(db, batch, now, after.head.value, after);
    }
  }

  lemma SelectionIsFirst(db: Db, now: nat)
    ensures IsFirst(ReconcileSelection(db, now), Overdue(db, now), MAX_RECONCILE_BATCH)
  {
    FirstExists(Overdue(db, now), MAX_RECONCILE_BATCH);
  }

  /** Every transaction, whatever its outcome, keeps the invariant and moves every
      credential only forward. */
  lemma StepKeepsInvariant(db: Db, op: Op)
    requires Inv(db)
    ensures GoodStep(db, Apply(db, op))
  {
    match op
    case CreateToken(_, _, _, _) =>
    case Commit(c, now, row) =>
      if AnswersRenewalQuery(db, c.presented, row) { CommitStep(db, c, now, row, Apply(db, op)); }
    case Activation(request, renewal, fp, now) => ActivateStep(db, request, renewal, fp, now, Apply(db, op));
    case Revocation(agent, tunnel, now) =>
      if RevokeAgent(db, agent, tunnel, now).reply.Ok? { RevokeStep(db, agent, tunnel, now, Apply(db, op)); }
    case Reconciliation(now) =>
      SelectionIsFirst(db, now);
      ReconcileStep(db, now, ReconcileSelection(db, now), Apply(db, op));
  }
}
