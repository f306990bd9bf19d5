/** The enrollment tables and their transactions, each as a function from the
    tables before to the tables after and the reply. */
module Enrollment {
  import opened Primitives
  import opened Snapshots

  datatype Token = Token(secret: int)
  datatype RequestId = RequestId(id: int)
  type TokenHash = Digest<Token>
  type CsrDigest = Digest<Bytes>

  const MAX_RECONCILE_BATCH := 256

  datatype CredentialState = Pending | Active | Retired | Revoked | Expired

  predicate Live(state: CredentialState) {
    state.Pending? || state.Active?
  }

  datatype BootstrapRow = BootstrapRow(
    agent: AgentId, tunnel: TunnelId, expires: nat, consumed: bool, revoked: bool)

  /** The columns of a credential row that no statement ever updates. */
  datatype Terms = Terms(
    request: RequestId, agent: AgentId, tunnel: TunnelId, csr: CsrDigest,
    authHash: TokenHash, renewalHash: TokenHash, certificate: Bytes,
    notAfter: nat, generation: nat, previous: Option<Fingerprint>, deadline: nat)

  datatype Credential = Credential(terms: Terms, state: CredentialState, terminalAt: Option<nat>)

  predicate BoundTo(c: Credential, agent: AgentId, tunnel: TunnelId) {
    c.terms.agent == agent && c.terms.tunnel == tunnel
  }

  datatype Db = Db(
    tokens: map<TokenHash, BootstrapRow>,
    credentials: map<Fingerprint, Credential>,
    head: Option<Snapshot>)

  datatype Candidate = Candidate(
    request: RequestId, presented: TokenHash, next: TokenHash,
    agent: AgentId, tunnel: TunnelId, csr: CsrDigest, certificate: Bytes,
    fingerprint: Fingerprint, notAfter: nat, deadline: nat)

  datatype Issuance = Issuance(
    generation: nat, certificate: Bytes, fingerprint: Fingerprint, notAfter: nat)

  datatype Mutation = Mutation(version: nat, affected: nat, changed: bool)

  datatype Presented = Bootstrap | Renewal(fingerprint: Fingerprint)

  datatype Error =
    | Storage | Uninitialized | Unauthorized | TokenExpired | CredentialRevoked
    | RequestExpired | IdentityMismatch | Conflict | Corrupt | InvalidTime | VersionExhausted

  /** A finished transaction: the tables it leaves and the reply it gives. */
  datatype Txn<+R> = Txn(db: Db, reply: Result<R, Error>)

  // ---------------------------------------------------------------- queries

  ghost predicate IsRequestRow(db: Db, request: RequestId, fp: Fingerprint) {
    fp in db.credentials && db.credentials[fp].terms.request == request
  }

  /** The credential of a request; the request column is unique. */
  ghost function RequestRow(db: Db, request: RequestId): Option<Fingerprint> {
    if exists fp :: IsRequestRow(db, request, fp) then
      var fp :| IsRequestRow(db, request, fp);
      Some(fp)
    else None
  }

  ghost predicate IsRenewalRow(db: Db, hash: TokenHash, fp: Fingerprint) {
    && fp in db.credentials
    && db.credentials[fp].terms.renewalHash == hash
    && (db.credentials[fp].state.Active? || db.credentials[fp].state.Revoked?)
  }

  /** `row` is a possible answer to the renewal-token query: an Active or Revoked
      credential with that token, a Revoked one first. Which of several equal rows
      comes back is left open. */
  ghost predicate AnswersRenewalQuery(db: Db, hash: TokenHash, row: Option<Fingerprint>) {
    match row
    case None => forall fp :: !IsRenewalRow(db, hash, fp)
    case Some(fp) =>
      && IsRenewalRow(db, hash, fp)
      && (db.credentials[fp].state.Active? ==>
            forall other :: IsRenewalRow(db, hash, other) ==> db.credentials[other].state.Active?)
  }

  function AuthenticateToken(db: Db, hash: TokenHash, agent: AgentId, tunnel: TunnelId, now: nat,
                             row: Option<Fingerprint>): Result<Presented, Error>
  {
    if hash in db.tokens then
      var token := db.tokens[hash];
      if token.agent != agent || token.tunnel != tunnel then Err(IdentityMismatch)
      else if token.revoked then Err(CredentialRevoked)
      else if token.consumed then Err(Unauthorized)
      else if token.expires <= now then Err(TokenExpired)
      else Ok(Bootstrap)
    else if row.None? || row.value !in db.credentials then Err(Unauthorized)
    else
      var credential := db.credentials[row.value];
      if !BoundTo(credential, agent, tunnel) then Err(IdentityMismatch)
      else if credential.state.Revoked? then Err(CredentialRevoked)
      else Ok(Renewal(row.value))
  }

  function LoadSnapshot(db: Db): Result<Snapshot, Error> {
    if db.head.None? then Err(Uninitialized)
    else if !Encodable(db.head.value.grants) then Err(Storage)
    else Ok(db.head.value)
  }

  function EnsureRetryable(state: CredentialState): Result<(), Error> {
    match state
    case Pending => Ok(())
    case Active => Ok(())
    case Revoked => Err(CredentialRevoked)
    case Expired => Err(RequestExpired)
    case Retired => Err(Conflict)
  }

  function IssuanceOf(fp: Fingerprint, c: Credential): Issuance {
    Issuance(c.terms.generation, c.terms.certificate, fp, c.terms.notAfter)
  }

  /** The answer to a request that already has a credential. */
  function Replay(db: Db, fp: Fingerprint, presented: TokenHash, next: TokenHash,
                  agent: AgentId, tunnel: TunnelId, csr: CsrDigest): Result<Issuance, Error>
    requires fp in db.credentials
  {
    var c := db.credentials[fp];
    if c.terms.authHash != presented || c.terms.renewalHash != next || !BoundTo(c, agent, tunnel)
       || c.terms.csr != csr then Err(Conflict)
    else if EnsureRetryable(c.state).Err? then Err(EnsureRetryable(c.state).error)
    else Ok(IssuanceOf(fp, c))
  }

  /** Authentication before signing: the durable issuance of an exact retry, or nothing yet. */
  ghost function PreflightIssuance(db: Db, request: RequestId, presented: TokenHash, next: TokenHash,
                                   agent: AgentId, tunnel: TunnelId, csr: CsrDigest, now: nat,
                                   row: Option<Fingerprint>): Result<Option<Issuance>, Error>
  {
    match RequestRow(db, request)
    case Some(fp) =>
      (match Replay(db, fp, presented, next, agent, tunnel, csr)
       case Ok(issuance) => Ok(Some(issuance))
       case Err(e) => Err(e))
    case None =>
      match AuthenticateToken(db, presented, agent, tunnel, now, row)
      case Ok(_) => Ok(None)
      case Err(e) => Err(e)
  }

  // ----------------------------------------------------------- transactions

  function CreateBootstrapToken(db: Db, hash: TokenHash, agent: AgentId, tunnel: TunnelId,
                                expires: nat): Txn<()>
  {
    if expires > I64_MAX then Txn(db, Err(InvalidTime))
    else if hash in db.tokens then Txn(db, Err(Conflict))
    else Txn(db.(tokens := db.tokens[hash := BootstrapRow(agent, tunnel, expires, false, false)]), Ok(()))
  }

  function NewCredential(c: Candidate, kind: Presented, generation: nat): Credential {
    Credential(
      Terms(c.request, c.agent, c.tunnel, c.csr, c.presented, c.next, c.certificate, c.notAfter,
            generation, if kind.Bootstrap? then None else Some(kind.fingerprint), c.deadline),
      Pending, None)
  }

  function Consume(tokens: map<TokenHash, BootstrapRow>, hash: TokenHash, kind: Presented)
    : map<TokenHash, BootstrapRow>
  {
    if kind.Bootstrap? && hash in tokens then tokens[hash := tokens[hash].(consumed := true)] else tokens
  }

  /** The insertion of a new credential, once its token is known to be good. */
  function Issue(db: Db, c: Candidate, kind: Presented): Txn<Issuance> {
    match LoadSnapshot(db)
    case Err(e) => Txn(db, Err(e))
    case Ok(current) =>
      var generation := current.version + 1;
      var grants := current.grants[c.fingerprint := AgentGrant(c.agent, map[c.tunnel := Enabled])];
      if current.version >= U64_MAX then Txn(db, Err(VersionExhausted))
      else if c.fingerprint in current.grants then Txn(db, Err(Conflict))
      else if !Encodable(grants) then Txn(db, Err(Corrupt))
      else if c.notAfter > I64_MAX || c.deadline > I64_MAX then Txn(db, Err(InvalidTime))
      else if c.fingerprint in db.credentials then Txn(db, Err(Storage))
      else
        Txn(Db(Consume(db.tokens, c.presented, kind),
               db.credentials[c.fingerprint := NewCredential(c, kind, generation)],
               Some(Snapshot(generation, grants))),
            Ok(Issuance(generation, c.certificate, c.fingerprint, c.notAfter)))
  }

  ghost function CommitIssuance(db: Db, c: Candidate, now: nat, row: Option<Fingerprint>): Txn<Issuance> {
    if c.deadline <= now || c.deadline > c.notAfter then Txn(db, Err(InvalidTime))
    else match RequestRow(db, c.request)
      case Some(fp) => Txn(db, Replay(db, fp, c.presented, c.next, c.agent, c.tunnel, c.csr))
      case None =>
        match AuthenticateToken(db, c.presented, c.agent, c.tunnel, now, row)
        case Err(e) => Txn(db, Err(e))
        case Ok(kind) => Issue(db, c, kind)
  }

  function SetState(credentials: map<Fingerprint, Credential>, fp: Fingerprint, state: CredentialState)
    : map<Fingerprint, Credential>
  {
    if fp in credentials then credentials[fp := credentials[fp].(state := state)] else credentials
  }

  function Terminate(credential: Credential, state: CredentialState, now: nat): Credential {
    Credential(credential.terms, state, Some(now))
  }

  /** A new head when the grants changed, the old one otherwise. */
  function ReplaceIfChanged(current: Snapshot, grants: Grants): Result<Snapshot, Error> {
    if grants == current.grants then Ok(current)
    else if current.version >= U64_MAX then Err(VersionExhausted)
    else if !Encodable(grants) then Err(Corrupt)
    else Ok(Snapshot(current.version + 1, grants))
  }

  /** Expiry of one Pending credential, found overdue at its own activation. */
  function ExpirePending(db: Db, fp: Fingerprint, now: nat): Txn<nat>
    requires fp in db.credentials
  {
    match LoadSnapshot(db)
    case Err(e) => Txn(db, Err(e))
    case Ok(current) =>
      match ReplaceIfChanged(current, current.grants - {fp})
      case Err(e) => Txn(db, Err(e))
      case Ok(head) =>
        if now > I64_MAX then Txn(db, Err(InvalidTime))
        else Txn(db.(credentials := ExpiredCredentials(db.credentials, {fp}, now), head := Some(head)),
                 Err(RequestExpired))
  }

  /** The Pending credential becomes Active and its predecessor, if any, Retired.
      Neither update looks at the state it overwrites. */
  function Promote(db: Db, fp: Fingerprint): Txn<nat>
    requires fp in db.credentials
  {
    match LoadSnapshot(db)
    case Err(e) => Txn(db, Err(e))
    case Ok(current) =>
      match db.credentials[fp].terms.previous
      case None => Txn(db.(credentials := SetState(db.credentials, fp, Active)), Ok(current.version))
      case Some(previous) =>
        if current.version >= U64_MAX then Txn(db, Err(VersionExhausted))
        else if !Encodable(current.grants - {previous}) then Txn(db, Err(Corrupt))
        else
          Txn(db.(credentials := SetState(SetState(db.credentials, previous, Retired), fp, Active),
                  head := Some(Snapshot(current.version + 1, current.grants - {previous}))),
              Ok(current.version + 1))
  }

  function Activate(db: Db, request: RequestId, renewal: TokenHash, fp: Fingerprint, now: nat): Txn<nat> {
    if fp !in db.credentials || db.credentials[fp].terms.request != request
       || db.credentials[fp].terms.renewalHash != renewal then Txn(db, Err(Unauthorized))
    else
      match db.credentials[fp].state
      case Active =>
        (match LoadSnapshot(db)
         case Ok(current) => Txn(db, Ok(current.version))
         case Err(e) => Txn(db, Err(e)))
      case Revoked => Txn(db, Err(CredentialRevoked))
      case Expired => Txn(db, Err(RequestExpired))
      case Retired => Txn(db, Err(Conflict))
      case Pending =>
        if db.credentials[fp].terms.deadline <= now then ExpirePending(db, fp, now) else Promote(db, fp)
  }

  function RevokedTokens(tokens: map<TokenHash, BootstrapRow>, agent: AgentId, tunnel: TunnelId)
    : map<TokenHash, BootstrapRow>
  {
    map h | h in tokens ::
      if tokens[h].agent == agent && tokens[h].tunnel == tunnel
      then tokens[h].(consumed := true, revoked := true) else tokens[h]
  }

  function RevokedCredentials(credentials: map<Fingerprint, Credential>, agent: AgentId, tunnel: TunnelId,
                              now: nat): map<Fingerprint, Credential>
  {
    map fp | fp in credentials ::
      if BoundTo(credentials[fp], agent, tunnel) && Live(credentials[fp].state)
      then Terminate(credentials[fp], Revoked, now) else credentials[fp]
  }

  function LiveOf(credentials: map<Fingerprint, Credential>, agent: AgentId, tunnel: TunnelId): set<Fingerprint> {
    set fp | fp in credentials && BoundTo(credentials[fp], agent, tunnel) && Live(credentials[fp].state)
  }

  function RevokeAgent(db: Db, agent: AgentId, tunnel: TunnelId, now: nat): Txn<Mutation> {
    if now > I64_MAX then Txn(db, Err(InvalidTime))
    else match LoadSnapshot(db)
      case Err(e) => Txn(db, Err(e))
      case Ok(current) =>
        var grants := RemoveAgentTunnel(current.grants, agent, tunnel);
        match ReplaceIfChanged(current, grants)
        case Err(e) => Txn(db, Err(e))
        case Ok(head) =>
          Txn(Db(RevokedTokens(db.tokens, agent, tunnel),
                 RevokedCredentials(db.credentials, agent, tunnel, now), Some(head)),
              Ok(Mutation(head.version, |LiveOf(db.credentials, agent, tunnel)|, grants != current.grants)))
  }

  // -------------------------------------------------------------- reconcile

  function Overdue(db: Db, now: nat): set<Fingerprint> {
    set fp | fp in db.credentials && db.credentials[fp].state.Pending? && db.credentials[fp].terms.deadline <= now
  }

  /** `batch` is what ORDER BY fingerprint LIMIT `limit` returns of `rows`. */
  ghost predicate IsFirst(batch: set<Fingerprint>, rows: set<Fingerprint>, limit: nat) {
    && batch <= rows
    && |batch| == Min(limit, |rows|)
    && forall a, b :: a in batch && b in rows - batch ==> a.digest < b.digest
  }

  lemma LeastExists(rows: set<Fingerprint>) returns (least: Fingerprint)
    requires rows != {}
    ensures least in rows && forall fp | fp in rows :: least.digest <= fp.digest
  {
    least :| least in rows;
    if rows != {least} {
      var rest := LeastExists(rows - {least});
      assert forall fp | fp in rows :: fp == least || fp in rows - {least};
      if rest.digest < least.digest { least := rest; }
    }
  }

  lemma FirstExists(rows: set<Fingerprint>, limit: nat)
    ensures exists batch :: IsFirst(batch, rows, limit)
  {
    if limit == 0 || rows == {} {
      assert IsFirst({}, rows, limit);
    } else {
      var least := LeastExists(rows);
      FirstExists(rows - {least}, limit - 1);
      var rest :| IsFirst(rest, rows - {least}, limit - 1);
      assert rows - ({least} + rest) == rows - {least} - rest;
      assert IsFirst({least} + rest, rows, limit);
    }
  }

  /** The fingerprints that one reconciliation selects. */
  ghost function ReconcileSelection(db: Db, now: nat): set<Fingerprint> {
    FirstExists(Overdue(db, now), MAX_RECONCILE_BATCH);
    var batch :| IsFirst(batch, Overdue(db, now), MAX_RECONCILE_BATCH);
    batch
  }

  function ExpiredCredentials(credentials: map<Fingerprint, Credential>, batch: set<Fingerprint>, now: nat)
    : map<Fingerprint, Credential>
  {
    map fp | fp in credentials ::
      if fp in batch && credentials[fp].state.Pending?
      then Terminate(credentials[fp], Expired, now) else credentials[fp]
  }

  /** One reconciliation of a batch that the overdue query returned. */
  function ReconcileBatch(db: Db, now: nat, batch: set<Fingerprint>): Txn<Mutation> {
    if now > I64_MAX then Txn(db, Err(InvalidTime))
    else match LoadSnapshot(db)
      case Err(e) => Txn(db, Err(e))
      case Ok(current) =>
        if batch == {} then Txn(db, Ok(Mutation(current.version, 0, false)))
        else
          match ReplaceIfChanged(current, current.grants - batch)
          case Err(e) => Txn(db, Err(e))
          case Ok(head) =>
            Txn(db.(credentials := ExpiredCredentials(db.credentials, batch, now), head := Some(head)),
                Ok(Mutation(head.version, |batch|, current.grants - batch != current.grants)))
  }

  ghost function ReconcileExpired(db: Db, now: nat): Txn<Mutation> {
    ReconcileBatch(db, now, ReconcileSelection(db, now))
  }

  // ------------------------------------------------------------------- runs

  datatype Op =
    | CreateToken(hash: TokenHash, agent: AgentId, tunnel: TunnelId, expires: nat)
    | Commit(candidate: Candidate, now: nat, row: Option<Fingerprint>)
    | Activation(request: RequestId, renewal: TokenHash, fingerprint: Fingerprint, now: nat)
    | Revocation(agent: AgentId, tunnel: TunnelId, now: nat)
    | Reconciliation(now: nat)

  /** The tables after one operation. An operation whose query answer is not one
      the tables could have given does not happen. */
  ghost function Apply(db: Db, op: Op): Db {
    match op
    case CreateToken(hash, agent, tunnel, expires) => CreateBootstrapToken(db, hash, agent, tunnel, expires).db
    case Commit(c, now, row) =>
      if AnswersRenewalQuery(db, c.presented, row) then CommitIssuance(db, c, now, row).db else db
    case Activation(request, renewal, fp, now) => Activate(db, request, renewal, fp, now).db
    case Revocation(agent, tunnel, now) => RevokeAgent(db, agent, tunnel, now).db
    case Reconciliation(now) => ReconcileExpired(db, now).db
  }

  ghost function Exec(db: Db, ops: seq<Op>): Db
    decreases |ops|
  {
    if ops == [] then db else Exec(Apply(db, ops[0]), ops[1..])
  }

  /** No enrollment yet; any operator snapshot, or none. */
  ghost predicate Initial(db: Db) {
    && db.tokens == map[]
    && db.credentials == map[]
    && (db.head.Some? ==> 1 <= db.head.value.version <= U64_MAX && Encodable(db.head.value.grants))
  }
}
