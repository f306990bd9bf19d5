/** When each enrollment transaction succeeds, and everything it then does. */
module EnrollmentOutcomes {
  import opened Primitives
  import opened Snapshots
  import opened Enrollment
  import opened EnrollmentInvariants
  import opened EnrollmentRuns

  // --------------------------------------------------------------- activation

  /** The row that an activation names. */
  predicate Names(db: Db, request: RequestId, renewal: TokenHash, fp: Fingerprint) {
    fp in db.credentials && db.credentials[fp].terms.request == request && db.credentials[fp].terms.renewalHash == renewal
  }

  /** Outside `touched`, rows are as before. */
  ghost predicate OthersKept(rows: Rows, later: Rows, touched: set<Fingerprint>) {
    later.Keys == rows.Keys && forall fp {:trigger later[fp]} | fp in rows && fp !in touched :: later[fp] == rows[fp]
  }

  /** No certificate of `fp` is authorized for anything. */
  ghost predicate WithoutAuthority(db: Db, fp: Fingerprint) {
    db.head.Some? ==> forall a, t :: !Authorize(db.head.value.grants, fp, a, t).Ok?
  }

  /** An activation succeeds exactly for the row it names, if that is Active already, or
      Pending before its deadline with a version left to retire its predecessor. */
  lemma ActivationSucceeds(db: Db, request: RequestId, renewal: TokenHash, fp: Fingerprint, now: nat)
    requires Inv(db)
    ensures Activate(db, request, renewal, fp, now).reply.Ok? <==>
            && Names(db, request, renewal, fp)
            && var c := db.credentials[fp];
               || c.state.Active?
               || (c.state.Pending? && now < c.terms.deadline
                   && (c.terms.previous.Some? ==> db.head.value.version < U64_MAX))
  {
    if Names(db, request, renewal, fp) && db.credentials[fp].state.Pending? && db.credentials[fp].terms.previous.Some? {
      WithoutIsEncodable(db.head.value.grants, {db.credentials[fp].terms.previous.value});
    }
  }

  /** A first credential becomes Active and nothing else changes. A later one also retires
      its predecessor and takes its authority, in the next version. The reply is the
      version that is then the head's. */
  lemma ActivationTakesOver(db: Db, request: RequestId, renewal: TokenHash, fp: Fingerprint, now: nat)
    requires Inv(db) && Activate(db, request, renewal, fp, now).reply.Ok?
    requires db.credentials[fp].state.Pending?
    ensures var txn := Activate(db, request, renewal, fp, now);
            var after, previous := txn.db, db.credentials[fp].terms.previous;
            && after.tokens == db.tokens
            && after.credentials[fp] == db.credentials[fp].(state := Active)
            && after.head.Some? && txn.reply.value == after.head.value.version
            && OthersKept(db.credentials, after.credentials, if previous.Some? then {fp, previous.value} else {fp})
            && (previous.None? ==> after.head == db.head)
            && (previous.Some? ==>
                  && after.head.value.version == db.head.value.version + 1
                  && previous.value in after.credentials && previous.value != fp
                  && after.credentials[previous.value] == db.credentials[previous.value].(state := Retired)
                  && WithoutAuthority(after, previous.value))
  {
    if db.credentials[fp].terms.previous.Some? {
      var q := db.credentials[fp].terms.previous.value;
      assert LinkedTo(db.credentials, db.credentials[fp], q);
    }
  }

  /** An activation that comes too late expires its row and takes its authority, in the
      next version, and says so; it fails otherwise and changes nothing. */
  lemma LateActivationExpires(db: Db, request: RequestId, renewal: TokenHash, fp: Fingerprint, now: nat)
    requires Inv(db) && Names(db, request, renewal, fp)
    requires db.credentials[fp].state.Pending? && db.credentials[fp].terms.deadline <= now
    ensures var txn := Activate(db, request, renewal, fp, now);
            if now > I64_MAX || db.head.value.version >= U64_MAX then txn.db == db && txn.reply.Err?
            else
              && txn.reply == Err(RequestExpired) && txn.db.tokens == db.tokens
              && OthersKept(db.credentials, txn.db.credentials, {fp})
              && txn.db.credentials[fp] == Credential(db.credentials[fp].terms, Expired, Some(now))
              && txn.db.head.Some? && txn.db.head.value.version == db.head.value.version + 1
              && WithoutAuthority(txn.db, fp)
  {
    assert GrantMatches(db.head.value.grants, fp, db.credentials[fp]);
    WithoutIsEncodable(db.head.value.grants, {fp});
  }

  /** And so it stays: the predecessor is Retired and without authority in every later run. */
  lemma PredecessorStaysRetired(db: Db, request: RequestId, renewal: TokenHash, fp: Fingerprint, now: nat, ops: seq<Op>)
    requires Inv(db) && Activate(db, request, renewal, fp, now).reply.Ok?
    requires db.credentials[fp].state.Pending? && db.credentials[fp].terms.previous.Some?
    ensures var q := db.credentials[fp].terms.previous.value;
            var later := Exec(Activate(db, request, renewal, fp, now).db, ops);
            q in later.credentials && later.credentials[q].state.Retired? && WithoutAuthority(later, q)
  {
    var q := db.credentials[fp].terms.previous.value;
    var after := Activate(db, request, renewal, fp, now).db;
    ActivateStep(db, request, renewal, fp, now, after);
    ActivationTakesOver(db, request, renewal, fp, now);
    TerminalStatesAbsorb(after, ops, q);
    RunKeepsInvariant(after, ops);
    var later := Exec(after, ops);
    if later.head.Some? { assert GrantMatches(later.head.value.grants, q, later.credentials[q]); }
  }

  // --------------------------------------------------------------- revocation

  /** No grant would lose anything: none is without tunnels, none holds the pair. */
  ghost predicate NothingGranted(grants: Grants, agent: AgentId, tunnel: TunnelId) {
    forall c {:trigger grants[c]} | c in grants ::
      grants[c].tunnels != map[] && !(grants[c].agent == agent && tunnel in grants[c].tunnels)
  }

  lemma RemovalIsIdle(grants: Grants, agent: AgentId, tunnel: TunnelId)
    ensures RemoveAgentTunnel(grants, agent, tunnel) == grants <==> NothingGranted(grants, agent, tunnel)
  {
    var rest := RemoveAgentTunnel(grants, agent, tunnel);
    if NothingGranted(grants, agent, tunnel) {
      forall c | c in grants ensures WithoutTunnel(grants[c], agent, tunnel) == grants[c] {
        assert grants[c].agent == agent ==> grants[c].tunnels - {tunnel} == grants[c].tunnels;
      }
      assert rest == grants;
    }
  }

  lemma RemovalIsEncodable(grants: Grants, agent: AgentId, tunnel: TunnelId)
    requires Encodable(grants)
    ensures Encodable(RemoveAgentTunnel(grants, agent, tunnel))
  {
    SmallerIsEncodable(RemoveAgentTunnel(grants, agent, tunnel), grants);
  }

  /** A revocation is refused only for a time out of range, without a snapshot, or when it
      would need a version and none is left. */
  lemma RevocationSucceeds(db: Db, agent: AgentId, tunnel: TunnelId, now: nat)
    requires Inv(db)
    ensures RevokeAgent(db, agent, tunnel, now).reply.Ok? <==>
            && now <= I64_MAX && db.head.Some?
            && (NothingGranted(db.head.value.grants, agent, tunnel) || db.head.value.version < U64_MAX)
  {
    if db.head.Some? {
      RemovalIsIdle(db.head.value.grants, agent, tunnel);
      RemovalIsEncodable(db.head.value.grants, agent, tunnel);
    }
  }

  /** What becomes of one row and of one bootstrap token. */
  predicate RowRevoked(c: Credential, d: Credential, agent: AgentId, tunnel: TunnelId, now: nat) {
    if BoundTo(c, agent, tunnel) && Live(c.state) then d == Credential(c.terms, Revoked, Some(now)) else d == c
  }

  predicate TokenRevoked(c: BootstrapRow, d: BootstrapRow, agent: AgentId, tunnel: TunnelId) {
    if c.agent == agent && c.tunnel == tunnel then d.revoked && d.consumed && d.expires == c.expires else d == c
  }

  /** Exactly the pair's Pending and Active credentials are revoked, and counted; exactly
      its bootstrap tokens too; the version moves exactly if a grant did. */
  lemma RevocationRevokes(db: Db, agent: AgentId, tunnel: TunnelId, now: nat)
    requires Inv(db) && RevokeAgent(db, agent, tunnel, now).reply.Ok?
    ensures var txn := RevokeAgent(db, agent, tunnel, now);
            && txn.db.credentials.Keys == db.credentials.Keys && txn.db.tokens.Keys == db.tokens.Keys
            && (forall fp | fp in db.credentials ::
                  RowRevoked(db.credentials[fp], txn.db.credentials[fp], agent, tunnel, now))
            && (forall h | h in db.tokens :: TokenRevoked(db.tokens[h], txn.db.tokens[h], agent, tunnel))
            && txn.reply.value.affected
               == |set fp | fp in db.credentials && BoundTo(db.credentials[fp], agent, tunnel) && Live(db.credentials[fp].state)|
    ensures var txn := RevokeAgent(db, agent, tunnel, now);
            && txn.db.head.Some? && txn.reply.value.version == txn.db.head.value.version
            && (txn.reply.value.changed <==> !NothingGranted(db.head.value.grants, agent, tunnel))
            && txn.db.head.value.version == db.head.value.version + (if txn.reply.value.changed then 1 else 0)
            && (!txn.reply.value.changed ==> txn.db.head == db.head)
  {
    RemovalIsIdle(db.head.value.grants, agent, tunnel);
  }

  /** With a live credential there is something to revoke: its certificate is authorized
      before and not after, and the version has moved. */
  lemma RevocationBites(db: Db, agent: AgentId, tunnel: TunnelId, now: nat, fp: Fingerprint)
    requires Inv(db) && fp in db.credentials && BoundTo(db.credentials[fp], agent, tunnel) && Live(db.credentials[fp].state)
    requires now <= I64_MAX && db.head.value.version < U64_MAX
    ensures var txn := RevokeAgent(db, agent, tunnel, now);
            && txn.reply.Ok? && txn.reply.value.affected > 0 && txn.reply.value.changed
            && Authorize(db.head.value.grants, fp, agent, tunnel).Ok?
            && WithoutAuthority(txn.db, fp) && txn.db.credentials[fp].state.Revoked?
  {
    assert GrantMatches(db.head.value.grants, fp, db.credentials[fp]);
    RevocationSucceeds(db, agent, tunnel, now);
    RevocationRevokes(db, agent, tunnel, now);
    var txn := RevokeAgent(db, agent, tunnel, now);
    assert fp in LiveOf(db.credentials, agent, tunnel);
    RevokeStep(db, agent, tunnel, now, txn.db);
    assert RowRevoked(db.credentials[fp], txn.db.credentials[fp], agent, tunnel, now);
    assert GrantMatches(txn.db.head.value.grants, fp, txn.db.credentials[fp]);
  }

  // ----------------------------------------------------------------- issuance

  /** An unused bootstrap token of the pair, in its time. */
  predicate GoodBootstrap(db: Db, hash: TokenHash, agent: AgentId, tunnel: TunnelId, now: nat) {
    hash in db.tokens &&
    var t := db.tokens[hash];
    t.agent == agent && t.tunnel == tunnel && !t.revoked && !t.consumed && now < t.expires
  }

  /** The renewal token of an Active credential of the pair. */
  predicate GoodRenewal(db: Db, hash: TokenHash, agent: AgentId, tunnel: TunnelId, row: Option<Fingerprint>) {
    && hash !in db.tokens && row.Some? && row.value in db.credentials
    && db.credentials[row.value].state.Active? && BoundTo(db.credentials[row.value], agent, tunnel)
  }

  lemma TokenIsGood(db: Db, hash: TokenHash, agent: AgentId, tunnel: TunnelId, now: nat, row: Option<Fingerprint>)
    requires AnswersRenewalQuery(db, hash, row)
    ensures var auth := AuthenticateToken(db, hash, agent, tunnel, now, row);
            && (auth == Ok(Bootstrap) <==> GoodBootstrap(db, hash, agent, tunnel, now))
            && (row.Some? ==> (auth == Ok(Renewal(row.value)) <==> GoodRenewal(db, hash, agent, tunnel, row)))
            && (auth.Ok? <==> GoodBootstrap(db, hash, agent, tunnel, now) || GoodRenewal(db, hash, agent, tunnel, row))
  {
  }

  /** There is room for one more certificate and one more version. */
  predicate HasRoom(db: Db, fp: Fingerprint) {
    && db.head.Some? && db.head.value.version < U64_MAX && |db.head.value.grants| < 4096
    && fp !in db.head.value.grants && fp !in db.credentials
  }

  lemma OneMoreIsEncodable(grants: Grants, fp: Fingerprint, agent: AgentId, tunnel: TunnelId)
    requires Encodable(grants) && fp !in grants
    ensures Encodable(grants[fp := AgentGrant(agent, map[tunnel := Enabled])]) <==> |grants| < 4096
  {
    var more := grants[fp := AgentGrant(agent, map[tunnel := Enabled])];
    assert |more| == |grants| + 1;
    forall f | f in more ensures Bounded(more[f]) {
      if f != fp { assert Bounded(grants[f]); }
    }
  }

  predicate InTime(c: Candidate, now: nat) {
    now < c.deadline <= c.notAfter <= I64_MAX
  }

  /** A new request is issued exactly with a good token, in time and with room. */
  lemma IssuanceSucceeds(db: Db, c: Candidate, now: nat, row: Option<Fingerprint>)
    requires Inv(db) && AnswersRenewalQuery(db, c.presented, row) && RequestRow(db, c.request).None?
    ensures CommitIssuance(db, c, now, row).reply.Ok? <==>
            && InTime(c, now) && HasRoom(db, c.fingerprint)
            && (|| GoodBootstrap(db, c.presented, c.agent, c.tunnel, now)
                || GoodRenewal(db, c.presented, c.agent, c.tunnel, row))
  {
    TokenIsGood(db, c.presented, c.agent, c.tunnel, now, row);
    if db.head.Some? && c.fingerprint !in db.head.value.grants {
      OneMoreIsEncodable(db.head.value.grants, c.fingerprint, c.agent, c.tunnel);
    }
  }

  /** What an issuance adds: a Pending credential on the candidate's terms, after its
      predecessor if it renews one, numbered by the version that grants it; a bootstrap
      token is consumed; nothing else changes. */
  lemma IssuanceAdds(db: Db, c: Candidate, now: nat, row: Option<Fingerprint>)
    requires Inv(db) && AnswersRenewalQuery(db, c.presented, row) && RequestRow(db, c.request).None?
    requires CommitIssuance(db, c, now, row).reply.Ok?
    ensures var txn := CommitIssuance(db, c, now, row);
            var after, version := txn.db, db.head.value.version + 1;
            var renews := c.presented !in db.tokens;
            && txn.reply == Ok(Issuance(version, c.certificate, c.fingerprint, c.notAfter))
            && after.head.Some? && after.head.value.version == version
            && after.head.value.grants - {c.fingerprint} == db.head.value.grants
            && (forall a, t :: Authorize(after.head.value.grants, c.fingerprint, a, t).Ok? <==> (a, t) == (c.agent, c.tunnel))
            && after.credentials - {c.fingerprint} == db.credentials && c.fingerprint in after.credentials
            && after.credentials[c.fingerprint]
               == Credential(Terms(c.request, c.agent, c.tunnel, c.csr, c.presented, c.next, c.certificate, c.notAfter,
                                   version, if renews then row else None, c.deadline), Pending, None)
            && (renews ==> row.Some? && after.tokens == db.tokens)
            && (!renews ==> after.tokens == db.tokens[c.presented := db.tokens[c.presented].(consumed := true)])
  {
    TokenIsGood(db, c.presented, c.agent, c.tunnel, now, row);
    var after := CommitIssuance(db, c, now, row).db;
    var grants := after.head.value.grants;
    assert grants[c.fingerprint] == AgentGrant(c.agent, map[c.tunnel := Enabled]);
    assert grants - {c.fingerprint} == db.head.value.grants;
    assert after.credentials - {c.fingerprint} == db.credentials;
  }

  /** A request that has a credential is answered with it exactly if it is the same request
      in every respect and the credential is still alive; the tables stay. */
  lemma RetrySucceeds(db: Db, c: Candidate, now: nat, row: Option<Fingerprint>, fp: Fingerprint)
    requires Inv(db) && fp in db.credentials && db.credentials[fp].terms.request == c.request
    ensures CommitIssuance(db, c, now, row).db == db
    ensures var d := db.credentials[fp];
            CommitIssuance(db, c, now, row).reply.Ok? <==>
            && now < c.deadline <= c.notAfter && Live(d.state)
            && d.terms.authHash == c.presented && d.terms.renewalHash == c.next && d.terms.csr == c.csr
            && BoundTo(d, c.agent, c.tunnel)
  {
    RequestRowIsUnique(db, fp);
  }

  /** The check before signing agrees with the transaction after it, on the same tables and
      in time: what it answers or refuses is what the transaction answers or refuses, and
      what it lets through has a good token. */
  lemma PreflightAgrees(db: Db, c: Candidate, now: nat, row: Option<Fingerprint>)
    requires Inv(db) && AnswersRenewalQuery(db, c.presented, row) && now < c.deadline <= c.notAfter
    ensures match PreflightIssuance(db, c.request, c.presented, c.next, c.agent, c.tunnel, c.csr, now, row)
            case Ok(Some(issuance)) => CommitIssuance(db, c, now, row) == Txn(db, Ok(issuance))
            case Err(e) => CommitIssuance(db, c, now, row) == Txn(db, Err(e))
            case Ok(None) =>
              (|| GoodBootstrap(db, c.presented, c.agent, c.tunnel, now)
               || GoodRenewal(db, c.presented, c.agent, c.tunnel, row)) && RequestRow(db, c.request).None?
  {
    TokenIsGood(db, c.presented, c.agent, c.tunnel, now, row);
  }

  /** A bootstrap token is made exactly under a new hash with a time in range; it is then
      good for its pair, and for no other, until it runs out. */
  lemma CreatedTokenIsGood(db: Db, hash: TokenHash, agent: AgentId, tunnel: TunnelId, expires: nat,
                           a: AgentId, t: TunnelId, now: nat)
    ensures var txn := CreateBootstrapToken(db, hash, agent, tunnel, expires);
            && (txn.reply.Ok? <==> expires <= I64_MAX && hash !in db.tokens)
            && (txn.reply.Err? ==> txn.db == db)
            && (txn.reply.Ok? ==>
                  && txn.db.tokens - {hash} == db.tokens && txn.db.credentials == db.credentials && txn.db.head == db.head
                  && (GoodBootstrap(txn.db, hash, a, t, now) <==> (a, t) == (agent, tunnel) && now < expires))
  {
    var txn := CreateBootstrapToken(db, hash, agent, tunnel, expires);
    if txn.reply.Ok? { assert txn.db.tokens - {hash} == db.tokens; }
  }

  /** Why a token is refused. A token that is known is refused first for another identity,
      then for a revocation, then for having been used, then for its time. */
  lemma RefusalIsExact(db: Db, hash: TokenHash, agent: AgentId, tunnel: TunnelId, now: nat, row: Option<Fingerprint>)
    requires AnswersRenewalQuery(db, hash, row)
    ensures var auth := AuthenticateToken(db, hash, agent, tunnel, now, row);
            var known := hash in db.tokens || row.Some?;
            var mine := if hash in db.tokens then db.tokens[hash].agent == agent && db.tokens[hash].tunnel == tunnel
                        else row.Some? && BoundTo(db.credentials[row.value], agent, tunnel);
            var revoked := if hash in db.tokens then db.tokens[hash].revoked
                           else row.Some? && db.credentials[row.value].state.Revoked?;
            var used := hash in db.tokens && db.tokens[hash].consumed;
            && (auth == Err(IdentityMismatch) <==> known && !mine)
            && (auth == Err(CredentialRevoked) <==> mine && revoked)
            && (auth == Err(Unauthorized) <==> !known || (mine && !revoked && used))
            && (auth == Err(TokenExpired) <==>
                  mine && !revoked && !used && hash in db.tokens && db.tokens[hash].expires <= now)
  {
  }
}
