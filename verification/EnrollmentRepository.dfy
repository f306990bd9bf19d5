/** The repository object: its methods read and update the tables statement by
    statement, and each is proved to be the transaction of the same name. */
module EnrollmentRepository {
  import opened Primitives
  import opened Snapshots
  import opened Enrollment
  import opened EnrollmentInvariants
  import opened Reconciliation
  import SnapshotRepository

  /** A query answer always exists. */
  lemma RenewalAnswer(db: Db, hash: TokenHash) returns (row: Option<Fingerprint>)
    ensures AnswersRenewalQuery(db, hash, row)
  {
    if exists fp :: IsRenewalRow(db, hash, fp) && db.credentials[fp].state.Revoked? {
      var fp :| IsRenewalRow(db, hash, fp) && db.credentials[fp].state.Revoked?;
      row := Some(fp);
    } else if exists fp :: IsRenewalRow(db, hash, fp) {
      var fp :| IsRenewalRow(db, hash, fp);
      row := Some(fp);
    } else {
      row := None;
    }
  }

  /** ORDER BY fingerprint LIMIT `limit`. */
  method TakeFirst(rows: set<Fingerprint>, limit: nat) returns (batch: seq<Fingerprint>)
    ensures IsFirst(ToSet(batch), rows, limit)
    ensures |batch| == |ToSet(batch)|
  {
    var left := rows;
    ghost var taken: set<Fingerprint> := {};
    batch := [];
    while |batch| < limit && left != {}
      invariant taken == ToSet(batch) && |taken| == |batch| <= limit
      invariant taken !! left && taken + left == rows
      invariant forall a, b | a in taken && b in left :: a.digest < b.digest
      decreases |left|
    {
      ghost var first := LeastExists(left);
      var least :| least in left && forall fp | fp in left :: least.digest <= fp.digest;
      assert ToSet(batch + [least]) == taken + {least};
      batch := batch + [least];
      taken := taken + {least};
      left := left - {least};
    }
    assert rows - taken == left;
    assert |taken + left| == |taken| + |left|;
  }

  class Repository {
    var tokens: map<TokenHash, BootstrapRow>
    var credentials: map<Fingerprint, Credential>
    const snapshots: SnapshotRepository.SnapshotTables

    ghost function Tables(): Db
      reads this, snapshots
    {
      Db(tokens, credentials, snapshots.Latest())
    }

    ghost predicate Valid()
      reads this, snapshots
    {
      snapshots.Valid() && Inv(Tables())
    }

    constructor (store: SnapshotRepository.SnapshotTables)
      requires store.Valid()
      requires store.Latest().Some? ==>
                 1 <= store.Latest().value.version <= U64_MAX && Encodable(store.Latest().value.grants)
      ensures Valid() && Initial(Tables()) && snapshots == store
    {
      tokens, credentials, snapshots := map[], map[], store;
    }

    // --------------------------------------------------------------- queries

    method FindRequest(request: RequestId) returns (row: Option<Fingerprint>)
      requires Valid()
      ensures row == RequestRow(Tables(), request)
    {
      if exists fp :: fp in credentials && credentials[fp].terms.request == request {
        var fp :| fp in credentials && credentials[fp].terms.request == request;
        RequestRowIsUnique(Tables(), fp);
        return Some(fp);
      }
      assert forall fp :: !IsRequestRow(Tables(), request, fp);
      return None;
    }

    /** ORDER BY state DESC LIMIT 1 over the Active and Revoked rows of a token. */
    method FindRenewal(hash: TokenHash) returns (row: Option<Fingerprint>)
      ensures AnswersRenewalQuery(Tables(), hash, row)
    {
      if exists fp :: fp in credentials && credentials[fp].terms.renewalHash == hash && credentials[fp].state.Revoked? {
        var fp :| fp in credentials && credentials[fp].terms.renewalHash == hash && credentials[fp].state.Revoked?;
        return Some(fp);
      }
      if exists fp :: fp in credentials && credentials[fp].terms.renewalHash == hash && credentials[fp].state.Active? {
        var fp :| fp in credentials && credentials[fp].terms.renewalHash == hash && credentials[fp].state.Active?;
        return Some(fp);
      }
      return None;
    }

    method Authenticate(hash: TokenHash, agent: AgentId, tunnel: TunnelId, now: nat)
      returns (r: Result<Presented, Error>, ghost row: Option<Fingerprint>)
      ensures AnswersRenewalQuery(Tables(), hash, row)
      ensures r == AuthenticateToken(Tables(), hash, agent, tunnel, now, row)
    {
      if hash in tokens {
        row := RenewalAnswer(Tables(), hash);
        var token := tokens[hash];
        if token.agent != agent || token.tunnel != tunnel { return Err(IdentityMismatch), row; }
        if token.revoked { return Err(CredentialRevoked), row; }
        if token.consumed { return Err(Unauthorized), row; }
        if token.expires <= now { return Err(TokenExpired), row; }
        return Ok(Bootstrap), row;
      }
      var found := FindRenewal(hash);
      row := found;
      if found.None? { return Err(Unauthorized), row; }
      var credential := credentials[found.value];
      if credential.terms.agent != agent || credential.terms.tunnel != tunnel { return Err(IdentityMismatch), row; }
      if credential.state.Revoked? { return Err(CredentialRevoked), row; }
      return Ok(Renewal(found.value)), row;
    }

    method Load() returns (r: Result<Snapshot, Error>)
      requires snapshots.Valid()
      ensures r == LoadSnapshot(Tables())
    {
      var loaded := snapshots.LoadLatest();
      if loaded.Err? { return Err(Storage); }
      if loaded.value.None? { return Err(Uninitialized); }
      return Ok(loaded.value.value);
    }

    // ---------------------------------------------------------- transactions

    method CreateToken(hash: TokenHash, agent: AgentId, tunnel: TunnelId, expires: nat) returns (r: Result<(), Error>)
      requires Valid()
      modifies this`tokens
      ensures Valid()
      ensures Txn(Tables(), r) == CreateBootstrapToken(old(Tables()), hash, agent, tunnel, expires)
    {
      if expires > I64_MAX { return Err(InvalidTime); }
      if hash in tokens { return Err(Conflict); }
      tokens := tokens[hash := BootstrapRow(agent, tunnel, expires, false, false)];
      return Ok(());
    }

    method Preflight(request: RequestId, presented: TokenHash, next: TokenHash, agent: AgentId, tunnel: TunnelId,
                     csr: CsrDigest, now: nat)
      returns (r: Result<Option<Issuance>, Error>, ghost row: Option<Fingerprint>)
      requires Valid()
      ensures AnswersRenewalQuery(Tables(), presented, row)
      ensures r == PreflightIssuance(Tables(), request, presented, next, agent, tunnel, csr, now, row)
    {
      var existing := FindRequest(request);
      if existing.Some? {
        row := RenewalAnswer(Tables(), presented);
        assert IsRequestRow(Tables(), request, existing.value);
        var replay := ReplayOf(existing.value, presented, next, agent, tunnel, csr);
        if replay.Err? { return Err(replay.error), row; }
        return Ok(Some(replay.value)), row;
      }
      var auth, answer := Authenticate(presented, agent, tunnel, now);
      row := answer;
      if auth.Err? { return Err(auth.error), row; }
      return Ok(None), row;
    }

    method ReplayOf(fp: Fingerprint, presented: TokenHash, next: TokenHash, agent: AgentId, tunnel: TunnelId,
                    csr: CsrDigest) returns (r: Result<Issuance, Error>)
      requires fp in credentials
      ensures r == Replay(Tables(), fp, presented, next, agent, tunnel, csr)
    {
      var existing := credentials[fp];
      if existing.terms.authHash != presented || existing.terms.renewalHash != next || existing.terms.agent != agent
         || existing.terms.tunnel != tunnel || existing.terms.csr != csr {
        return Err(Conflict);
      }
      match existing.state
      case Revoked => return Err(CredentialRevoked);
      case Expired => return Err(RequestExpired);
      case Retired => return Err(Conflict);
      case _ => return Ok(Issuance(existing.terms.generation, existing.terms.certificate, fp, existing.terms.notAfter));
    }

    /** The writes of a fresh issuance; a failure before the commit leaves nothing behind. */
    method Insert(c: Candidate, kind: Presented) returns (r: Result<Issuance, Error>)
      requires snapshots.Valid() && (kind.Bootstrap? ==> c.presented in tokens)
      modifies this, snapshots
      ensures snapshots.Valid() && Txn(Tables(), r) == Issue(old(Tables()), c, kind)
    {
      var current := Load();
      if current.Err? { return Err(current.error); }
      if current.value.version >= U64_MAX { return Err(VersionExhausted); }
      var generation := current.value.version + 1;
      var grants := current.value.grants;
      if c.fingerprint in grants { return Err(Conflict); }
      grants := grants[c.fingerprint := AgentGrant(c.agent, map[c.tunnel := Enabled])];
      if !Encodable(grants) { return Err(Corrupt); }
      if c.notAfter > I64_MAX || c.deadline > I64_MAX { return Err(InvalidTime); }
      if c.fingerprint in credentials { return Err(Storage); }
      snapshots.Replace(Snapshot(generation, grants));
      var previous := if kind.Bootstrap? then None else Some(kind.fingerprint);
      credentials := credentials[c.fingerprint :=
        Credential(Terms(c.request, c.agent, c.tunnel, c.csr, c.presented, c.next, c.certificate, c.notAfter,
                         generation, previous, c.deadline), Pending, None)];
      if kind.Bootstrap? {
        tokens := tokens[c.presented := tokens[c.presented].(consumed := true)];
      }
      return Ok(Issuance(generation, c.certificate, c.fingerprint, c.notAfter));
    }

    method Commit(c: Candidate, now: nat) returns (r: Result<Issuance, Error>, ghost row: Option<Fingerprint>)
      requires Valid()
      modifies this, snapshots
      ensures Valid() && AnswersRenewalQuery(old(Tables()), c.presented, row)
      ensures Txn(Tables(), r) == CommitIssuance(old(Tables()), c, now, row)
    {
      ghost var before := Tables();
      row := RenewalAnswer(before, c.presented);
      if c.deadline <= now || c.deadline > c.notAfter { return Err(InvalidTime), row; }
      var existing := FindRequest(c.request);
      if existing.Some? {
        assert IsRequestRow(before, c.request, existing.value);
        r := ReplayOf(existing.value, c.presented, c.next, c.agent, c.tunnel, c.csr);
        return r, row;
      }
      var auth, answer := Authenticate(c.presented, c.agent, c.tunnel, now);
      row := answer;
      if auth.Err? { return Err(auth.error), row; }
      r := Insert(c, auth.value);
      CommitStep(before, c, now, row, Tables());
    }

    /** Replaces the head when the grants changed. */
    method ReplaceChanged(current: Snapshot, grants: Grants) returns (r: Result<nat, Error>)
      requires snapshots.Valid() && snapshots.Latest() == Some(current)
      modifies snapshots
      ensures snapshots.Valid()
      ensures match ReplaceIfChanged(current, grants)
              case Ok(head) => r == Ok(head.version) && snapshots.Latest() == Some(head)
              case Err(e) => r == Err(e) && snapshots.Latest() == Some(current)
    {
      if grants == current.grants { return Ok(current.version); }
      if current.version >= U64_MAX { return Err(VersionExhausted); }
      if !Encodable(grants) { return Err(Corrupt); }
      snapshots.Replace(Snapshot(current.version + 1, grants));
      return Ok(current.version + 1);
    }

    method Expire(fp: Fingerprint, now: nat) returns (r: Result<nat, Error>)
      requires snapshots.Valid() && fp in credentials && credentials[fp].state.Pending?
      modifies this`credentials, snapshots
      ensures snapshots.Valid() && Txn(Tables(), r) == ExpirePending(old(Tables()), fp, now)
    {
      var current := Load();
      if current.Err? { return Err(current.error); }
      var grants := current.value.grants - {fp};
      if grants != current.value.grants && current.value.version >= U64_MAX { return Err(VersionExhausted); }
      if grants != current.value.grants && !Encodable(grants) { return Err(Corrupt); }
      if now > I64_MAX { return Err(InvalidTime); }
      var version := ReplaceChanged(current.value, grants);
      credentials := credentials[fp := Credential(credentials[fp].terms, Expired, Some(now))];
      assert credentials == ExpiredCredentials(old(credentials), {fp}, now);
      return Err(RequestExpired);
    }

    method Promoted(fp: Fingerprint) returns (r: Result<nat, Error>)
      requires snapshots.Valid() && fp in credentials
      modifies this`credentials, snapshots
      ensures snapshots.Valid() && Txn(Tables(), r) == Promote(old(Tables()), fp)
    {
      var current := Load();
      if current.Err? { return Err(current.error); }
      var version := current.value.version;
      var previous := credentials[fp].terms.previous;
      if previous.Some? {
        if version >= U64_MAX { return Err(VersionExhausted); }
        var grants := current.value.grants - {previous.value};
        if !Encodable(grants) { return Err(Corrupt); }
        version := version + 1;
        snapshots.Replace(Snapshot(version, grants));
        if previous.value in credentials {
          credentials := credentials[previous.value := credentials[previous.value].(state := Retired)];
        }
      }
      credentials := credentials[fp := credentials[fp].(state := Active)];
      return Ok(version);
    }

    method ActivateCredential(request: RequestId, renewal: TokenHash, fp: Fingerprint, now: nat)
      returns (r: Result<nat, Error>)
      requires Valid()
      modifies this, snapshots
      ensures Valid()
      ensures Txn(Tables(), r) == Activate(old(Tables()), request, renewal, fp, now)
    {
      ghost var before := Tables();
      if fp !in credentials || credentials[fp].terms.request != request || credentials[fp].terms.renewalHash != renewal {
        return Err(Unauthorized);
      }
      var credential := credentials[fp];
      if credential.state.Active? {
        var current := Load();
        match current {
          case Ok(snapshot) => return Ok(snapshot.version);
          case Err(e) => return Err(e);
        }
      }
      match credential.state {
        case Revoked => return Err(CredentialRevoked);
        case Expired => return Err(RequestExpired);
        case Retired => return Err(Conflict);
        case _ =>
      }
      if credential.terms.deadline <= now {
        r := Expire(fp, now);
      } else {
        r := Promoted(fp);
      }
      ActivateStep(before, request, renewal, fp, now, Tables());
    }

    method Revoke(agent: AgentId, tunnel: TunnelId, now: nat) returns (r: Result<Mutation, Error>)
      requires Valid()
      modifies this, snapshots
      ensures Valid()
      ensures Txn(Tables(), r) == RevokeAgent(old(Tables()), agent, tunnel, now)
    {
      ghost var before := Tables();
      if now > I64_MAX { return Err(InvalidTime); }
      var current := Load();
      if current.Err? { return Err(current.error); }
      var grants := RemoveAgentTunnel(current.value.grants, agent, tunnel);
      var version := ReplaceChanged(current.value, grants);
      if version.Err? { return Err(version.error); }
      var affected := |LiveOf(credentials, agent, tunnel)|;
      tokens := RevokedTokens(tokens, agent, tunnel);
      credentials := RevokedCredentials(credentials, agent, tunnel, now);
      r := Ok(Mutation(version.value, affected, grants != current.value.grants));
      RevokeStep(before, agent, tunnel, now, Tables());
    }

    method SelectOverdue(now: nat) returns (batch: seq<Fingerprint>)
      ensures ToSet(batch) == ReconcileSelection(Tables(), now)
      ensures |batch| == |ReconcileSelection(Tables(), now)|
    {
      var rows := Overdue(Db(tokens, credentials, None), now);
      assert rows == Overdue(Tables(), now);
      batch := TakeFirst(rows, MAX_RECONCILE_BATCH);
      SelectionIsFirst(Tables(), now);
      FirstIsUnique(ToSet(batch), ReconcileSelection(Tables(), now), rows, MAX_RECONCILE_BATCH);
    }

    /** One UPDATE per selected fingerprint. */
    method ExpireRows(batch: seq<Fingerprint>, now: nat)
      modifies this`credentials
      ensures credentials == ExpiredCredentials(old(credentials), ToSet(batch), now)
    {
      for i := 0 to |batch|
        invariant credentials == ExpiredCredentials(old(credentials), ToSet(batch[..i]), now)
      {
        var fp := batch[i];
        if fp in credentials && credentials[fp].state.Pending? {
          credentials := credentials[fp := Credential(credentials[fp].terms, Expired, Some(now))];
        }
        assert batch[..i + 1] == batch[..i] + [fp];
      }
      assert batch[..|batch|] == batch;
    }

    method Reconcile(now: nat) returns (r: Result<Mutation, Error>)
      requires Valid()
      modifies this, snapshots
      ensures Valid()
      ensures Txn(Tables(), r) == ReconcileExpired(old(Tables()), now)
    {
      ghost var before := Tables();
      if now > I64_MAX { return Err(InvalidTime); }
      var batch := SelectOverdue(now);
      ghost var chosen := ReconcileSelection(before, now);
      var current := Load();
      if current.Err? { return Err(current.error); }
      if batch == [] { return Ok(Mutation(current.value.version, 0, false)); }
      var grants := current.value.grants - ToSet(batch);
      var version := ReplaceChanged(current.value, grants);
      if version.Err? { return Err(version.error); }
      ExpireRows(batch, now);
      r := Ok(Mutation(version.value, |batch|, grants != current.value.grants));
      SelectionIsFirst(before, now);
      ReconcileStep(before, now, chosen, Tables());
    }
  }
}
