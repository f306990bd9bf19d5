/** Safety of enrollment over whole runs. */
module EnrollmentRuns {
  import opened Primitives
  import opened Snapshots
  import opened Enrollment
  import opened EnrollmentInvariants

  lemma {:induction false} RunKeepsInvariant(db: Db, ops: seq<Op>)
    requires Inv(db)
    ensures Inv(Exec(db, ops))
    decreases |ops|
  {
    if ops != [] {
      StepKeepsInvariant(db, ops[0]);
      RunKeepsInvariant(Apply(db, ops[0]), ops[1..]);
    }
  }

  /** Coherence. In every run from an empty enrollment database, the certificate
      of a credential is granted exactly while the credential is Pending or Active,
      and then authorized for exactly its own Agent and tunnel. */
  lemma AuthorityFollowsState(db: Db, ops: seq<Op>, fp: Fingerprint, a: AgentId, t: TunnelId)
    requires Initial(db)
    requires fp in Exec(db, ops).credentials
    ensures Exec(db, ops).head.Some?
    ensures var after := Exec(db, ops); var c := after.credentials[fp];
            && (fp in after.head.value.grants <==> Live(c.state))
            && (Authorize(after.head.value.grants, fp, a, t).Ok? <==> Live(c.state) && BoundTo(c, a, t))
  {
    RunKeepsInvariant(db, ops);
    assert GrantMatches(Exec(db, ops).head.value.grants, fp, Exec(db, ops).credentials[fp]);
  }

  // -------------------------------------------------------- terminal states

  predicate Follows(c: Credential, d: Credential) {
    && d.terms == c.terms
    && (d == c || Live(c.state))
    && (d.state.Pending? ==> c.state.Pending?)
  }

  lemma {:induction false} RowsFollow(db: Db, ops: seq<Op>, fp: Fingerprint)
    requires Inv(db) && fp in db.credentials
    ensures fp in Exec(db, ops).credentials && Follows(db.credentials[fp], Exec(db, ops).credentials[fp])
    decreases |ops|
  {
    if ops != [] {
      StepKeepsInvariant(db, ops[0]);
      assert RowEvolves(db.credentials[fp], Apply(db, ops[0]).credentials[fp]);
      RowsFollow(Apply(db, ops[0]), ops[1..], fp);
    }
  }

  /** Retired, Revoked and Expired are absorbing: no run changes any column of such
      a row, although activation overwrites two states without looking at them. */
  lemma TerminalStatesAbsorb(db: Db, ops: seq<Op>, fp: Fingerprint)
    requires Inv(db) && fp in db.credentials && !Live(db.credentials[fp].state)
    ensures fp in Exec(db, ops).credentials && Exec(db, ops).credentials[fp] == db.credentials[fp]
  {
    RowsFollow(db, ops, fp);
  }

  // --------------------------------------------- versions and generations

  /** Versions never go back, and the same version always carries the same grants. */
  lemma {:induction false} VersionsAreMonotone(db: Db, ops: seq<Op>)
    requires Inv(db) && db.head.Some?
    ensures var after := Exec(db, ops).head;
            && after.Some? && db.head.value.version <= after.value.version
            && (after.value.version == db.head.value.version ==> after == db.head)
    decreases |ops|
  {
    if ops != [] {
      StepKeepsInvariant(db, ops[0]);
      VersionsAreMonotone(Apply(db, ops[0]), ops[1..]);
    }
  }

  /** A credential that a run adds carries a generation above every version, and so
      above every generation, that existed before it. */
  lemma GenerationsIncrease(db: Db, ops: seq<Op>, earlier: Fingerprint, added: Fingerprint)
    requires Inv(db) && earlier in db.credentials
    requires added in Exec(db, ops).credentials && added !in db.credentials
    ensures db.head.value.version < Exec(db, ops).credentials[added].terms.generation
    ensures earlier in Exec(db, ops).credentials
    ensures Exec(db, ops).credentials[earlier].terms.generation < Exec(db, ops).credentials[added].terms.generation
  {
    RowsFollow(db, ops, earlier);
    NewGenerationsAreAbove(db, ops, added);
  }

  lemma {:induction false} NewGenerationsAreAbove(db: Db, ops: seq<Op>, fp: Fingerprint)
    requires Inv(db) && db.head.Some?
    requires fp in Exec(db, ops).credentials && fp !in db.credentials
    ensures db.head.value.version < Exec(db, ops).credentials[fp].terms.generation
    decreases |ops|
  {
    var next := Apply(db, ops[0]);
    StepKeepsInvariant(db, ops[0]);
    if fp in next.credentials {
      InsertionNumbersNext(db, ops[0], fp);
      RowsFollow(next, ops[1..], fp);
    } else {
      NewGenerationsAreAbove(next, ops[1..], fp);
    }
  }

  lemma ActivateKeepsKeys(db: Db, request: RequestId, renewal: TokenHash, f: Fingerprint, now: nat)
    ensures Activate(db, request, renewal, f, now).db.credentials.Keys == db.credentials.Keys
  {
  }

  lemma CommitNumbersNext(db: Db, c: Candidate, now: nat, row: Option<Fingerprint>, fp: Fingerprint)
    requires fp !in db.credentials && fp in CommitIssuance(db, c, now, row).db.credentials
    ensures db.head.Some?
    ensures CommitIssuance(db, c, now, row).db.credentials[fp].terms.generation == db.head.value.version + 1
  {
  }

  lemma InsertionNumbersNext(db: Db, op: Op, fp: Fingerprint)
    requires fp !in db.credentials && fp in Apply(db, op).credentials
    ensures db.head.Some? && Apply(db, op).credentials[fp].terms.generation == db.head.value.version + 1
  {
    match op
    case Commit(c, now, row) => CommitNumbersNext(db, c, now, row, fp);
    case Activation(request, renewal, f, now) => ActivateKeepsKeys(db, request, renewal, f, now);
    case _ =>
  }

  /** A granted issuance is the one its request's row holds. */
  ghost predicate Holds(db: Db, request: RequestId, issuance: Issuance) {
    && issuance.fingerprint in db.credentials
    && db.credentials[issuance.fingerprint].terms.request == request
    && issuance == IssuanceOf(issuance.fingerprint, db.credentials[issuance.fingerprint])
  }

  lemma CommitHolds(db: Db, c: Candidate, now: nat, row: Option<Fingerprint>)
    requires CommitIssuance(db, c, now, row).reply.Ok?
    ensures var txn := CommitIssuance(db, c, now, row); Holds(txn.db, c.request, txn.reply.value)
  {
    if RequestRow(db, c.request).Some? {
      assert IsRequestRow(db, c.request, RequestRow(db, c.request).value);
    }
  }

  lemma ReplayHolds(db: Db, c: Candidate, now: nat, row: Option<Fingerprint>, issuance: Issuance)
    requires UniqueRequests(db.credentials) && Holds(db, c.request, issuance)
    requires CommitIssuance(db, c, now, row).reply.Ok?
    ensures CommitIssuance(db, c, now, row).reply == Ok(issuance)
    ensures CommitIssuance(db, c, now, row).db == db
  {
    RequestRowIsUnique(db, issuance.fingerprint);
  }

  /** A replayed request is answered with the issuance it was first given, however
      much later and whatever the replay claims about time or certificate. */
  lemma ReplayRepeatsIssuance(db: Db, c: Candidate, now: nat, row: Option<Fingerprint>, ops: seq<Op>,
                              d: Candidate, later: nat, laterRow: Option<Fingerprint>)
    requires Inv(db) && AnswersRenewalQuery(db, c.presented, row)
    requires CommitIssuance(db, c, now, row).reply.Ok?
    requires d.request == c.request
    requires var after := Exec(CommitIssuance(db, c, now, row).db, ops);
             CommitIssuance(after, d, later, laterRow).reply.Ok?
    ensures var after := Exec(CommitIssuance(db, c, now, row).db, ops);
            && CommitIssuance(after, d, later, laterRow).reply == CommitIssuance(db, c, now, row).reply
            && CommitIssuance(after, d, later, laterRow).db == after
  {
    var first := CommitIssuance(db, c, now, row).db;
    var issuance := CommitIssuance(db, c, now, row).reply.value;
    CommitHolds(db, c, now, row);
    CommitStep(db, c, now, row, first);
    HoldsForever(first, ops, c.request, issuance);
    ReplayHolds(Exec(first, ops), d, later, laterRow, issuance);
  }

  lemma HoldsForever(db: Db, ops: seq<Op>, request: RequestId, issuance: Issuance)
    requires Inv(db) && Holds(db, request, issuance)
    ensures UniqueRequests(Exec(db, ops).credentials) && Holds(Exec(db, ops), request, issuance)
  {
    RunKeepsInvariant(db, ops);
    RowsFollow(db, ops, issuance.fingerprint);
  }

  // --------------------------------------------------------------- deadlines

  lemma ActivationTouches(db: Db, request: RequestId, renewal: TokenHash, f: Fingerprint, now: nat, fp: Fingerprint)
    requires fp in Activate(db, request, renewal, f, now).db.credentials
    requires Activate(db, request, renewal, f, now).db.credentials[fp].state.Active?
    ensures fp in db.credentials
    ensures !db.credentials[fp].state.Active? ==> f == fp && now < db.credentials[fp].terms.deadline
  {
  }

  lemma CommitTouches(db: Db, c: Candidate, now: nat, row: Option<Fingerprint>, fp: Fingerprint)
    requires fp in db.credentials
    ensures fp in CommitIssuance(db, c, now, row).db.credentials
    ensures CommitIssuance(db, c, now, row).db.credentials[fp] == db.credentials[fp]
  {
  }

  lemma TerminationTouches(db: Db, op: Op, fp: Fingerprint)
    requires op.Revocation? || op.Reconciliation?
    requires fp in db.credentials && fp in Apply(db, op).credentials
    ensures Apply(db, op).credentials[fp] == db.credentials[fp] || !Live(Apply(db, op).credentials[fp].state)
  {
  }

  /** No step of any run makes a credential Active at or after its activation deadline. */
  lemma ActivationBeatsDeadline(db: Db, op: Op, fp: Fingerprint, after: Db)
    requires Inv(db) && after == Apply(db, op)
    requires fp in after.credentials && after.credentials[fp].state.Active?
    requires fp in db.credentials ==> !db.credentials[fp].state.Active?
    ensures fp in db.credentials && db.credentials[fp].state.Pending?
    ensures op.Activation? && op.fingerprint == fp && op.now < db.credentials[fp].terms.deadline
  {
    StepKeepsInvariant(db, op);
    assert fp in db.credentials && RowEvolves(db.credentials[fp], after.credentials[fp]);
    if op.Commit? {
      CommitTouches(db, op.candidate, op.now, op.row, fp);
    } else if op.Activation? {
      ActivationTouches(db, op.request, op.renewal, op.fingerprint, op.now, fp);
    } else if !op.CreateToken? {
      TerminationTouches(db, op, fp);
    }
  }

  // -------------------------------------------------------------- revocation

  ghost predicate TokensCut(tokens: map<TokenHash, BootstrapRow>, agent: AgentId, tunnel: TunnelId) {
    forall h | h in tokens && tokens[h].agent == agent && tokens[h].tunnel == tunnel :: tokens[h].revoked
  }

  ghost predicate RowsCut(rows: Rows, agent: AgentId, tunnel: TunnelId) {
    forall fp | fp in rows && BoundTo(rows[fp], agent, tunnel) :: !Live(rows[fp].state)
  }

  ghost predicate GrantsCut(grants: Grants, agent: AgentId, tunnel: TunnelId) {
    forall c :: !Authorize(grants, c, agent, tunnel).Ok?
  }

  /** Nothing of (agent, tunnel) is left that could authorize or be renewed. */
  ghost predicate Cut(db: Db, agent: AgentId, tunnel: TunnelId) {
    && TokensCut(db.tokens, agent, tunnel)
    && RowsCut(db.credentials, agent, tunnel)
    && (db.head.Some? ==> GrantsCut(db.head.value.grants, agent, tunnel))
  }

  lemma RemovalCuts(grants: Grants, a: AgentId, t: TunnelId, agent: AgentId, tunnel: TunnelId)
    requires (a, t) == (agent, tunnel) || GrantsCut(grants, agent, tunnel)
    ensures GrantsCut(RemoveAgentTunnel(grants, a, t), agent, tunnel)
  {
    forall c ensures !Authorize(RemoveAgentTunnel(grants, a, t), c, agent, tunnel).Ok? {
      RemoveAgentTunnelExact(grants, a, t, c, agent, tunnel);
    }
  }

  lemma RevokeCuts(db: Db, agent: AgentId, tunnel: TunnelId, now: nat)
    requires RevokeAgent(db, agent, tunnel, now).reply.Ok?
    ensures Cut(RevokeAgent(db, agent, tunnel, now).db, agent, tunnel)
  {
    RemovalCuts(db.head.value.grants, agent, tunnel, agent, tunnel);
  }

  /** No token, new or old, authenticates for a cut pair. */
  lemma CutRefusesTokens(db: Db, agent: AgentId, tunnel: TunnelId, hash: TokenHash, now: nat, row: Option<Fingerprint>)
    requires Cut(db, agent, tunnel) && AnswersRenewalQuery(db, hash, row)
    ensures AuthenticateToken(db, hash, agent, tunnel, now, row).Err?
  {
  }

  predicate CreatesTokenFor(op: Op, agent: AgentId, tunnel: TunnelId) {
    op.CreateToken? && op.agent == agent && op.tunnel == tunnel
  }

  /** Rows that only evolve stay cut, if none that is added is of the pair. */
  lemma EvolvedRowsStayCut(rows: Rows, later: Rows, agent: AgentId, tunnel: TunnelId)
    requires RowsCut(rows, agent, tunnel) && RowsEvolve(rows, later)
    requires forall fp | fp in later && fp !in rows :: !BoundTo(later[fp], agent, tunnel)
    ensures RowsCut(later, agent, tunnel)
  {
    forall fp | fp in later && BoundTo(later[fp], agent, tunnel) ensures !Live(later[fp].state) {
      assert RowEvolves(rows[fp], later[fp]);
    }
  }

  /** `later` grants nothing new to the pair. */
  ghost predicate GrantsNoMore(grants: Grants, later: Grants, agent: AgentId, tunnel: TunnelId) {
    forall c | c in later && later[c].agent == agent && tunnel in later[c].tunnels ::
      c in grants && grants[c] == later[c]
  }

  lemma StaysCut(grants: Grants, later: Grants, agent: AgentId, tunnel: TunnelId)
    requires GrantsCut(grants, agent, tunnel) && GrantsNoMore(grants, later, agent, tunnel)
    ensures GrantsCut(later, agent, tunnel)
  {
    forall c ensures !Authorize(later, c, agent, tunnel).Ok? {
      assert !Authorize(grants, c, agent, tunnel).Ok?;
    }
  }

  lemma CommitKeepsCut(db: Db, c: Candidate, now: nat, row: Option<Fingerprint>, agent: AgentId, tunnel: TunnelId,
                       after: Db)
    requires Cut(db, agent, tunnel) && AnswersRenewalQuery(db, c.presented, row)
    requires after == CommitIssuance(db, c, now, row).db && after != db
    requires RowsEvolve(db.credentials, after.credentials)
    ensures Cut(after, agent, tunnel)
  {
    if c.agent == agent && c.tunnel == tunnel {
      CutRefusesTokens(db, agent, tunnel, c.presented, now, row);
      assert false;
    }
    EvolvedRowsStayCut(db.credentials, after.credentials, agent, tunnel);
    StaysCut(db.head.value.grants, after.head.value.grants, agent, tunnel);
  }

  /** `after` keeps the tokens and the keys, and at most drops grants. */
  ghost predicate OnlyRemoves(db: Db, after: Db) {
    && after.tokens == db.tokens && after.credentials.Keys == db.credentials.Keys
    && db.head.Some? && after.head.Some?
    && forall c | c in after.head.value.grants ::
         c in db.head.value.grants && after.head.value.grants[c] == db.head.value.grants[c]
  }

  lemma PromoteRemoves(db: Db, fp: Fingerprint, after: Db)
    requires fp in db.credentials && after == Promote(db, fp).db && after != db
    ensures OnlyRemoves(db, after)
  {
  }

  lemma ExpireRemoves(db: Db, fp: Fingerprint, now: nat, after: Db)
    requires fp in db.credentials && after == ExpirePending(db, fp, now).db && after != db
    ensures OnlyRemoves(db, after)
  {
  }

  lemma ActivateKeepsCut(db: Db, request: RequestId, renewal: TokenHash, fp: Fingerprint, now: nat,
                         agent: AgentId, tunnel: TunnelId, after: Db)
    requires Cut(db, agent, tunnel)
    requires after == Activate(db, request, renewal, fp, now).db && after != db
    requires RowsEvolve(db.credentials, after.credentials)
    ensures Cut(after, agent, tunnel)
  {
    if db.credentials[fp].terms.deadline <= now {
      ExpireRemoves(db, fp, now, after);
    } else {
      PromoteRemoves(db, fp, after);
    }
    EvolvedRowsStayCut(db.credentials, after.credentials, agent, tunnel);
    StaysCut(db.head.value.grants, after.head.value.grants, agent, tunnel);
  }

  lemma ReconcileKeepsCut(db: Db, now: nat, batch: set<Fingerprint>, agent: AgentId, tunnel: TunnelId, after: Db)
    requires Cut(db, agent, tunnel)
    requires after == ReconcileBatch(db, now, batch).db && after != db
    requires RowsEvolve(db.credentials, after.credentials)
    ensures Cut(after, agent, tunnel)
  {
    EvolvedRowsStayCut(db.credentials, after.credentials, agent, tunnel);
    StaysCut(db.head.value.grants, after.head.value.grants, agent, tunnel);
  }

  lemma RevokeKeepsCut(db: Db, a: AgentId, t: TunnelId, now: nat, agent: AgentId, tunnel: TunnelId, after: Db)
    requires Cut(db, agent, tunnel)
    requires after == RevokeAgent(db, a, t, now).db && after != db
    requires RowsEvolve(db.credentials, after.credentials)
    ensures Cut(after, agent, tunnel)
  {
    EvolvedRowsStayCut(db.credentials, after.credentials, agent, tunnel);
    RemovalCuts(db.head.value.grants, a, t, agent, tunnel);
  }

  lemma StepKeepsCut(db: Db, op: Op, agent: AgentId, tunnel: TunnelId, after: Db)
    requires Inv(db) && Cut(db, agent, tunnel) && !CreatesTokenFor(op, agent, tunnel)
    requires after == Apply(db, op)
    ensures Inv(after) && Cut(after, agent, tunnel)
  {
    StepKeepsInvariant(db, op);
    if after != db {
      match op
      case CreateToken(_, _, _, _) =>
      case Commit(c, now, row) => CommitKeepsCut(db, c, now, row, agent, tunnel, after);
      case Activation(request, renewal, fp, now) =>
        ActivateKeepsCut(db, request, renewal, fp, now, agent, tunnel, after);
      case Revocation(a, t, now) => RevokeKeepsCut(db, a, t, now, agent, tunnel, after);
      case Reconciliation(now) =>
        ReconcileKeepsCut(db, now, ReconcileSelection(db, now), agent, tunnel, after);
    }
  }

  lemma {:induction false} RunKeepsCut(db: Db, ops: seq<Op>, agent: AgentId, tunnel: TunnelId)
    requires Inv(db) && Cut(db, agent, tunnel)
    requires forall i | 0 <= i < |ops| :: !CreatesTokenFor(ops[i], agent, tunnel)
    ensures Cut(Exec(db, ops), agent, tunnel)
    decreases |ops|
  {
    if ops != [] {
      StepKeepsCut(db, ops[0], agent, tunnel, Apply(db, ops[0]));
      RunKeepsCut(Apply(db, ops[0]), ops[1..], agent, tunnel);
    }
  }

  /** The presented token is the pair's: its bootstrap token, or the renewal token of the
      credential that the query answers with. */
  predicate TokenOf(db: Db, agent: AgentId, tunnel: TunnelId, presented: TokenHash, row: Option<Fingerprint>) {
    if presented in db.tokens then db.tokens[presented].agent == agent && db.tokens[presented].tunnel == tunnel
    else row.Some? && row.value in db.credentials && BoundTo(db.credentials[row.value], agent, tunnel)
  }

  /** A request concerns the pair if it claims to be of it, repeats a request of it, or is
      new and made with a token of it, under whatever identity. */
  ghost predicate Concerns(db: Db, agent: AgentId, tunnel: TunnelId, c: Candidate, row: Option<Fingerprint>) {
    || (c.agent == agent && c.tunnel == tunnel)
    || match RequestRow(db, c.request)
       case Some(fp) => fp in db.credentials && BoundTo(db.credentials[fp], agent, tunnel)
       case None => TokenOf(db, agent, tunnel, c.presented, row)
  }

  /** What a cut pair refuses: any certificate, any issuance or replay that concerns the
      pair, and the activation of any of its credentials. */
  ghost predicate Refuses(db: Db, agent: AgentId, tunnel: TunnelId, certificate: Fingerprint, c: Candidate, at: nat,
                          row: Option<Fingerprint>)
  {
    && (db.head.Some? ==> !Authorize(db.head.value.grants, certificate, agent, tunnel).Ok?)
    && (Concerns(db, agent, tunnel, c, row) ==>
          && CommitIssuance(db, c, at, row).reply.Err?
          && PreflightIssuance(db, c.request, c.presented, c.next, c.agent, c.tunnel, c.csr, at, row).Err?)
    && (certificate in db.credentials && BoundTo(db.credentials[certificate], agent, tunnel) ==>
          Activate(db, c.request, c.next, certificate, at).reply.Err?)
  }

  lemma CutRefusesCandidate(db: Db, agent: AgentId, tunnel: TunnelId, c: Candidate, at: nat, row: Option<Fingerprint>)
    requires Cut(db, agent, tunnel) && AnswersRenewalQuery(db, c.presented, row) && Concerns(db, agent, tunnel, c, row)
    ensures CommitIssuance(db, c, at, row).reply.Err?
    ensures PreflightIssuance(db, c.request, c.presented, c.next, c.agent, c.tunnel, c.csr, at, row).Err?
  {
    if RequestRow(db, c.request).Some? {
      assert IsRequestRow(db, c.request, RequestRow(db, c.request).value);
    } else if c.agent == agent && c.tunnel == tunnel {
      CutRefusesTokens(db, agent, tunnel, c.presented, at, row);
    }
  }

  lemma CutRefuses(db: Db, agent: AgentId, tunnel: TunnelId, certificate: Fingerprint, c: Candidate, at: nat,
                   row: Option<Fingerprint>)
    requires Cut(db, agent, tunnel) && AnswersRenewalQuery(db, c.presented, row)
    ensures Refuses(db, agent, tunnel, certificate, c, at, row)
  {
    if Concerns(db, agent, tunnel, c, row) { CutRefusesCandidate(db, agent, tunnel, c, at, row); }
  }

  /** Revocation holds over whole runs: until a bootstrap token for the pair is created
      again, no certificate is authorized for it, nothing is issued to it or for a token
      of it, no request of it is replayed, and none of its credentials is activated. */
  lemma RevocationHolds(db: Db, agent: AgentId, tunnel: TunnelId, now: nat, ops: seq<Op>,
                        certificate: Fingerprint, c: Candidate, at: nat, row: Option<Fingerprint>)
    requires Inv(db) && RevokeAgent(db, agent, tunnel, now).reply.Ok?
    requires forall i | 0 <= i < |ops| :: !CreatesTokenFor(ops[i], agent, tunnel)
    requires AnswersRenewalQuery(Exec(RevokeAgent(db, agent, tunnel, now).db, ops), c.presented, row)
    ensures Refuses(Exec(RevokeAgent(db, agent, tunnel, now).db, ops), agent, tunnel, certificate, c, at, row)
  {
    var once := RevokeAgent(db, agent, tunnel, now).db;
    RevokeStep(db, agent, tunnel, now, once);
    RevokeCuts(db, agent, tunnel, now);
    RunKeepsCut(once, ops, agent, tunnel);
    CutRefuses(Exec(once, ops), agent, tunnel, certificate, c, at, row);
  }

  /** Revoking one pair changes the answer for no other triple. */
  lemma RevocationIsExact(db: Db, agent: AgentId, tunnel: TunnelId, now: nat,
                          certificate: Fingerprint, a: AgentId, t: TunnelId)
    requires RevokeAgent(db, agent, tunnel, now).reply.Ok?
    ensures var once := RevokeAgent(db, agent, tunnel, now).db;
            && once.head.Some?
            && (Authorize(once.head.value.grants, certificate, a, t).Ok? <==>
                Authorize(db.head.value.grants, certificate, a, t).Ok? && (a, t) != (agent, tunnel))
  {
    RemoveAgentTunnelExact(db.head.value.grants, agent, tunnel, certificate, a, t);
  }

  /** Revoking it again leaves every table as it is. */
  lemma RevocationIsIdempotent(db: Db, agent: AgentId, tunnel: TunnelId, now: nat, later: nat)
    requires RevokeAgent(db, agent, tunnel, now).reply.Ok? && later <= I64_MAX
    ensures var once := RevokeAgent(db, agent, tunnel, now).db;
            && RevokeAgent(once, agent, tunnel, later).db == once
            && RevokeAgent(once, agent, tunnel, later).reply == Ok(Mutation(once.head.value.version, 0, false))
  {
    var once := RevokeAgent(db, agent, tunnel, now).db;
    RemoveAgentTunnelIdempotent(db.head.value.grants, agent, tunnel);
    assert LiveOf(once.credentials, agent, tunnel) == {};
    assert RevokedTokens(once.tokens, agent, tunnel) == once.tokens;
    assert RevokedCredentials(once.credentials, agent, tunnel, later) == once.credentials;
  }
}
