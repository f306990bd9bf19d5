/** How the enrollment tables look from one Agent: the credentials of its own
    attempts, and what each operation can do to them. */
module RotationLedger {
  import opened Primitives
  import opened Snapshots
  import opened Enrollment
  import opened EnrollmentInvariants
  import opened Rotation

  /** The state of the credential of a request, if it has one. */
  ghost function Status(db: Db, r: RequestId): Option<CredentialState> {
    var row := RequestRow(db, r);
    if row.Some? && row.value in db.credentials then Some(db.credentials[row.value].state) else None
  }

  lemma StatusAt(db: Db, fp: Fingerprint)
    requires UniqueRequests(db.credentials) && fp in db.credentials
    ensures Status(db, db.credentials[fp].terms.request) == Some(db.credentials[fp].state)
  {
    RequestRowIsUnique(db, fp);
  }

  lemma StatusNone(db: Db, r: RequestId)
    ensures Status(db, r).None? ==> RequestRow(db, r).None?
    ensures Status(db, r).None? ==> forall fp | fp in db.credentials :: db.credentials[fp].terms.request != r
  {
    if RequestRow(db, r).Some? {
      assert IsRequestRow(db, r, RequestRow(db, r).value);
    } else {
      RequestIsNew(db, r);
    }
  }

  lemma StatusRow(db: Db, r: RequestId) returns (fp: Fingerprint)
    requires Status(db, r).Some?
    ensures fp in db.credentials && db.credentials[fp].terms.request == r
    ensures RequestRow(db, r) == Some(fp) && db.credentials[fp].state == Status(db, r).value
  {
    fp := RequestRow(db, r).value;
    assert IsRequestRow(db, r, fp);
  }

  predicate RowMatches(t: Terms, a: Attempt, me: Identity) {
    && t.renewalHash == Sha256(a.journal.next)
    && t.authHash == Sha256(a.auth)
    && Identity(t.agent, t.tunnel) == me
    && t.csr == Sha256(a.journal.csr)
  }

  /** The history is consistent: tokens and attempts name each other one to one. */
  ghost predicate LedgerOk(l: Ledger) {
    && Sha256(l.start) in l.owner && l.owner[Sha256(l.start)] == None
    && (forall r {:trigger l.attempts[r]} | r in l.attempts ::
          var a := l.attempts[r];
          && a.journal.request == r
          && Sha256(a.journal.next) in l.owner && l.owner[Sha256(a.journal.next)] == Some(r)
          && Sha256(a.auth) in l.owner
          && a.auth != a.journal.next)
    && (forall h {:trigger l.owner[h]} | h in l.owner && l.owner[h].None? :: h == Sha256(l.start))
    && (forall h {:trigger l.owner[h]} | h in l.owner && l.owner[h].Some? ::
          l.owner[h].value in l.attempts && h == Sha256(l.attempts[l.owner[h].value].journal.next))
  }

  /** A row belongs to the Agent exactly through its request, or is the root. */
  predicate Mine(l: Ledger, fp: Fingerprint, c: Credential) {
    c.terms.request in l.attempts || l.root == Some(fp)
  }

  /** One row agrees with the history: the Agent's requests carry the Agent's
      tokens, and nobody else's carry them. */
  predicate RowOk(l: Ledger, fp: Fingerprint, c: Credential) {
    && (c.terms.request in l.attempts ==> RowMatches(c.terms, l.attempts[c.terms.request], l.me))
    && (c.terms.renewalHash in l.owner ==>
          match l.owner[c.terms.renewalHash]
          case None => l.root == Some(fp)
          case Some(r) => c.terms.request == r)
    && (c.terms.authHash in l.owner && Live(c.state) ==> c.terms.request in l.attempts)
  }

  ghost predicate RowsOk(l: Ledger, rows: Rows) {
    forall fp {:trigger RowOk(l, fp, rows[fp])} | fp in rows :: RowOk(l, fp, rows[fp])
  }

  /** The start of the history: the root credential, or the bootstrap token. */
  ghost predicate StartOk(l: Ledger, db: Db) {
    match l.root
    case Some(root) =>
      && root in db.credentials
      && db.credentials[root].terms.renewalHash == Sha256(l.start)
      && BoundTo(db.credentials[root], l.me.agent, l.me.tunnel)
      && db.credentials[root].terms.request !in l.attempts
    case None =>
      && Sha256(l.start) in db.tokens
      && db.tokens[Sha256(l.start)].agent == l.me.agent
      && db.tokens[Sha256(l.start)].tunnel == l.me.tunnel
      && !db.tokens[Sha256(l.start)].revoked
  }

  /** None of the Agent's tokens is a bootstrap token, but perhaps the first. */
  ghost predicate TokensOk(l: Ledger, tokens: map<TokenHash, BootstrapRow>) {
    forall h {:trigger h in tokens} | h in l.owner && h in tokens :: l.root.None? && h == Sha256(l.start)
  }

  ghost predicate DbOk(l: Ledger, db: Db) {
    RowsOk(l, db.credentials) && StartOk(l, db) && TokensOk(l, db.tokens)
  }

  // ------------------------------------------------------ foreign operations

  /** The Agent's rows stay, but for an expiry. */
  predicate RowKept(c: Credential, d: Credential) {
    d == c || (d.terms == c.terms && c.state.Pending? && d.state.Expired?)
  }

  ghost predicate MineKept(l: Ledger, rows: Rows, later: Rows) {
    && (forall fp {:trigger later[fp]} | fp in rows && Mine(l, fp, rows[fp]) ::
          fp in later && RowKept(rows[fp], later[fp]))
    && (forall fp {:trigger later[fp]} | fp in later && fp !in rows ::
          && later[fp].terms.request !in l.attempts
          && later[fp].terms.renewalHash !in l.owner
          && later[fp].terms.authHash !in l.owner)
  }

  ghost predicate StartKept(l: Ledger, db: Db, after: Db) {
    && (forall h {:trigger h in after.tokens} | h in l.owner :: h in after.tokens <==> h in db.tokens)
    && (l.root.None? && Sha256(l.start) in db.tokens && Sha256(l.start) in after.tokens ==>
          after.tokens[Sha256(l.start)] == db.tokens[Sha256(l.start)])
  }

  lemma CommitKeepsMine(l: Ledger, db: Db, c: Candidate, now: nat, row: Option<Fingerprint>, after: Db)
    requires c.presented !in l.owner && c.next !in l.owner && c.request !in l.attempts
    requires Sha256(l.start) in l.owner
    requires after == CommitIssuance(db, c, now, row).db
    ensures MineKept(l, db.credentials, after.credentials) && StartKept(l, db, after)
  {
  }

  lemma PromotionIsForeign(l: Ledger, db: Db, fp: Fingerprint)
    requires LedgerOk(l) && RowsOk(l, db.credentials) && StartOk(l, db) && Linked(db.credentials)
    requires fp in db.credentials && db.credentials[fp].state.Pending?
    requires db.credentials[fp].terms.renewalHash !in l.owner
    ensures !Mine(l, fp, db.credentials[fp])
    ensures db.credentials[fp].terms.previous.Some? ==>
              && db.credentials[fp].terms.previous.value in db.credentials
              && !Mine(l, db.credentials[fp].terms.previous.value,
                       db.credentials[db.credentials[fp].terms.previous.value])
  {
    var c := db.credentials[fp];
    assert RowOk(l, fp, c);
    if c.terms.previous.Some? {
      var q := c.terms.previous.value;
      assert LinkedTo(db.credentials, c, q);
      assert RowOk(l, q, db.credentials[q]);
    }
  }

  lemma ActivationKeepsMine(l: Ledger, db: Db, request: RequestId, renewal: TokenHash, fp: Fingerprint, now: nat,
                            after: Db)
    requires LedgerOk(l) && RowsOk(l, db.credentials) && StartOk(l, db) && Linked(db.credentials)
    requires renewal !in l.owner
    requires after == Activate(db, request, renewal, fp, now).db
    ensures MineKept(l, db.credentials, after.credentials) && StartKept(l, db, after)
  {
    if after != db {
      PromotionIsForeign(l, db, fp);
      if db.credentials[fp].terms.deadline <= now {
        assert after == ExpirePending(db, fp, now).db;
      } else {
        assert after == Promote(db, fp).db;
      }
    }
  }

  lemma RevocationKeepsMine(l: Ledger, db: Db, agent: AgentId, tunnel: TunnelId, now: nat, after: Db)
    requires LedgerOk(l) && RowsOk(l, db.credentials) && StartOk(l, db)
    requires Identity(agent, tunnel) != l.me
    requires after == RevokeAgent(db, agent, tunnel, now).db
    ensures MineKept(l, db.credentials, after.credentials) && StartKept(l, db, after)
  {
    forall fp | fp in db.credentials && Mine(l, fp, db.credentials[fp])
      ensures !BoundTo(db.credentials[fp], agent, tunnel)
    {
      assert RowOk(l, fp, db.credentials[fp]);
    }
  }

  lemma ForeignKeepsMine(l: Ledger, db: Db, op: Op, after: Db)
    requires LedgerOk(l) && RowsOk(l, db.credentials) && StartOk(l, db) && Inv(db)
    requires ForeignOp(l, op) && after == Apply(db, op)
    ensures MineKept(l, db.credentials, after.credentials) && StartKept(l, db, after)
  {
    if after != db {
      match op
      case CreateToken(_, _, _, _) =>
      case Commit(c, now, row) => CommitKeepsMine(l, db, c, now, row, after);
      case Activation(request, renewal, fp, now) =>
        LinksOf(db);
        ActivationKeepsMine(l, db, request, renewal, fp, now, after);
      case Revocation(agent, tunnel, now) => RevocationKeepsMine(l, db, agent, tunnel, now, after);
      case Reconciliation(now) =>
    }
  }

  lemma LinksOf(db: Db)
    requires Inv(db)
    ensures Linked(db.credentials)
  {
  }

  /** Rows that evolve, and new rows that are consistent, leave the history consistent. */
  lemma EvolvedRowsOk(l: Ledger, rows: Rows, later: Rows)
    requires RowsOk(l, rows) && RowsEvolve(rows, later)
    requires forall fp | fp in later && fp !in rows :: RowOk(l, fp, later[fp])
    ensures RowsOk(l, later)
  {
    forall fp | fp in later ensures RowOk(l, fp, later[fp]) {
      if fp in rows {
        assert RowOk(l, fp, rows[fp]);
        assert RowEvolves(rows[fp], later[fp]);
      }
    }
  }
}
