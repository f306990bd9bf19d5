/** What one Agent can tell apart in the enrollment tables, and how each operation
    moves it. */
module RotationViews {
  import opened Primitives
  import opened Snapshots
  import opened Enrollment
  import opened EnrollmentInvariants
  import opened Rotation
  import opened RotationLedger

  /** The state of each of the Agent's requests, and the standing of its first token:
      an Active root credential, or a bootstrap token not yet consumed. */
  datatype View = View(status: map<RequestId, Option<CredentialState>>, rootActive: bool, consumed: bool)

  ghost function RootActive(l: Ledger, db: Db): bool {
    l.root.Some? && l.root.value in db.credentials && db.credentials[l.root.value].state.Active?
  }

  ghost function Consumed(l: Ledger, db: Db): bool {
    l.root.None? && Sha256(l.start) in db.tokens && db.tokens[Sha256(l.start)].consumed
  }

  ghost function Look(l: Ledger, db: Db): View {
    View(map r | r in l.attempts :: Status(db, r), RootActive(l, db), Consumed(l, db))
  }

  /** The credential behind a token of the Agent is Active, or the token is an
      unconsumed bootstrap token. */
  ghost predicate TokenLive(l: Ledger, v: View, t: Token) {
    Sha256(t) in l.owner &&
    match l.owner[Sha256(t)]
    case Some(r) => r in v.status && v.status[r] == Some(Active)
    case None => if l.root.Some? then v.rootActive else !v.consumed
  }

  predicate Booting(l: Ledger, t: Token) {
    l.root.None? && t == l.start
  }

  // ------------------------------------------------------------------- moves

  /** Somebody else's operation at most expires a Pending request. */
  ghost predicate ForeignMove(v: View, after: View) {
    && after.rootActive == v.rootActive && after.consumed == v.consumed
    && after.status.Keys == v.status.Keys
    && forall r | r in v.status ::
         after.status[r] == v.status[r] || (v.status[r] == Some(Pending) && after.status[r] == Some(Expired))
  }

  /** A served enrollment creates the credential of a request that had none, on a live token. */
  ghost predicate IssueMove(l: Ledger, v: View, after: View, r: RequestId, auth: Token) {
    && r in v.status && v.status[r] == None
    && after.status == v.status[r := Some(Pending)]
    && after.rootActive == v.rootActive
    && TokenLive(l, v, auth)
    && after.consumed == (v.consumed || Booting(l, auth))
  }

  ghost predicate ExpireMove(v: View, after: View, r: RequestId) {
    r in v.status && v.status[r] == Some(Pending) && after == v.(status := v.status[r := Some(Expired)])
  }

  /** An activation makes its request Active and at most retires Active credentials. */
  ghost predicate PromoteMove(v: View, after: View, r: RequestId) {
    && r in v.status && v.status[r] == Some(Pending)
    && after.status.Keys == v.status.Keys && after.status[r] == Some(Active)
    && after.consumed == v.consumed
    && (after.rootActive == v.rootActive || !after.rootActive)
    && forall q | q in v.status && q != r ::
         || after.status[q] == v.status[q]
         || (v.status[q] == Some(Active) && after.status[q] == Some(Retired))
  }

  // --------------------------------------------------------- status of a row

  lemma KeptStatus(db: Db, after: Db, fp: Fingerprint, r: RequestId)
    requires UniqueRequests(db.credentials) && UniqueRequests(after.credentials)
    requires fp in db.credentials && fp in after.credentials
    requires db.credentials[fp].terms.request == r && after.credentials[fp].terms.request == r
    ensures Status(db, r) == Some(db.credentials[fp].state)
    ensures Status(after, r) == Some(after.credentials[fp].state)
  {
    StatusAt(db, fp);
    StatusAt(after, fp);
  }

  /** A request without a credential has none after, unless one was added. */
  lemma AbsentStatus(db: Db, after: Db, r: RequestId)
    requires RowsEvolve(db.credentials, after.credentials) && Status(db, r) == None
    requires forall fp | fp in after.credentials && fp !in db.credentials :: after.credentials[fp].terms.request != r
    ensures Status(after, r) == None
  {
    StatusNone(db, r);
    if Status(after, r).Some? {
      var fp := StatusRow(after, r);
    }
  }

  lemma UniqueIn(db: Db)
    requires Inv(db)
    ensures UniqueRequests(db.credentials)
  {
  }

  // -------------------------------------------------------- foreign operations

  lemma ForeignStatus(l: Ledger, db: Db, after: Db, r: RequestId)
    requires UniqueRequests(db.credentials) && UniqueRequests(after.credentials)
    requires RowsEvolve(db.credentials, after.credentials) && MineKept(l, db.credentials, after.credentials)
    requires r in l.attempts
    ensures Status(after, r) == Status(db, r)
            || (Status(db, r) == Some(Pending) && Status(after, r) == Some(Expired))
  {
    if Status(db, r).Some? {
      var fp := StatusRow(db, r);
      assert Mine(l, fp, db.credentials[fp]) && RowKept(db.credentials[fp], after.credentials[fp]);
      KeptStatus(db, after, fp, r);
    } else {
      AbsentStatus(db, after, r);
    }
  }

  lemma ForeignRoot(l: Ledger, db: Db, after: Db)
    requires StartOk(l, db) && MineKept(l, db.credentials, after.credentials) && StartKept(l, db, after)
    requires Sha256(l.start) in l.owner && RowsEvolve(db.credentials, after.credentials)
    ensures RootActive(l, after) == RootActive(l, db) && Consumed(l, after) == Consumed(l, db)
    ensures StartOk(l, after)
  {
    if l.root.Some? {
      assert Mine(l, l.root.value, db.credentials[l.root.value]);
      assert RowKept(db.credentials[l.root.value], after.credentials[l.root.value]);
    } else {
      assert Sha256(l.start) in after.tokens;
    }
  }

  lemma ForeignRowsOk(l: Ledger, rows: Rows, later: Rows)
    requires RowsOk(l, rows) && RowsEvolve(rows, later) && MineKept(l, rows, later)
    ensures RowsOk(l, later)
  {
    EvolvedRowsOk(l, rows, later);
  }

  lemma ForeignView(l: Ledger, db: Db, op: Op, after: Db)
    requires LedgerOk(l) && DbOk(l, db) && Inv(db)
    requires ForeignOp(l, op) && after == Apply(db, op)
    ensures Inv(after) && DbOk(l, after) && RowsEvolve(db.credentials, after.credentials)
    ensures ForeignMove(Look(l, db), Look(l, after))
  {
    StepKeepsInvariant(db, op);
    ForeignKeepsMine(l, db, op, after);
    UniqueIn(db);
    UniqueIn(after);
    ForeignRowsOk(l, db.credentials, after.credentials);
    ForeignRoot(l, db, after);
    forall r | r in l.attempts
      ensures Status(after, r) == Status(db, r) || (Status(db, r) == Some(Pending) && Status(after, r) == Some(Expired))
    {
      ForeignStatus(l, db, after, r);
    }
  }

  // --------------------------------------------------------- own enrollment

  /** The query for one of the Agent's tokens answers only with a credential of the Agent. */
  lemma AuthenticatedToken(l: Ledger, db: Db, t: Token, now: nat, row: Option<Fingerprint>)
    requires LedgerOk(l) && DbOk(l, db) && UniqueRequests(db.credentials) && Sha256(t) in l.owner
    requires AnswersRenewalQuery(db, Sha256(t), row)
    requires AuthenticateToken(db, Sha256(t), l.me.agent, l.me.tunnel, now, row).Ok?
    ensures TokenLive(l, Look(l, db), t)
    ensures AuthenticateToken(db, Sha256(t), l.me.agent, l.me.tunnel, now, row).value.Bootstrap? <==> Booting(l, t)
  {
    if Sha256(t) !in db.tokens {
      var fp := row.value;
      assert RowOk(l, fp, db.credentials[fp]);
      StatusAt(db, fp);
    }
  }

  /** What a served enrollment adds. */
  ghost predicate Inserts(l: Ledger, db: Db, after: Db, a: Attempt, fp: Fingerprint) {
    && fp !in db.credentials && fp in after.credentials
    && after.credentials == db.credentials[fp := after.credentials[fp]]
    && after.credentials[fp].terms.request == a.journal.request
    && RowMatches(after.credentials[fp].terms, a, l.me)
    && after.credentials[fp].state.Pending?
    && (forall h | h in db.tokens :: h in after.tokens
          && (h == Sha256(a.auth) || after.tokens[h] == db.tokens[h])
          && after.tokens[h] == db.tokens[h].(consumed := after.tokens[h].consumed))
    && after.tokens.Keys == db.tokens.Keys
    && (Sha256(a.auth) in db.tokens ==> after.tokens[Sha256(a.auth)].consumed)
  }

  lemma CommitInserts(l: Ledger, db: Db, a: Attempt, c: Candidate, now: nat, row: Option<Fingerprint>, after: Db)
    requires c.request == a.journal.request && c.presented == Sha256(a.auth) && c.next == Sha256(a.journal.next)
    requires Identity(c.agent, c.tunnel) == l.me && c.csr == Sha256(a.journal.csr)
    requires after == CommitIssuance(db, c, now, row).db && after != db
    ensures RequestRow(db, c.request).None?
    ensures AuthenticateToken(db, Sha256(a.auth), l.me.agent, l.me.tunnel, now, row).Ok?
    ensures Inserts(l, db, after, a, c.fingerprint)
  {
  }

  lemma InsertedStart(l: Ledger, db: Db, after: Db, a: Attempt, fp: Fingerprint)
    requires DbOk(l, db) && Inserts(l, db, after, a, fp)
    requires a.journal.request in l.attempts && Sha256(l.start) in l.owner
    requires Sha256(a.auth) in l.owner
    ensures StartOk(l, after) && TokensOk(l, after.tokens)
    ensures RootActive(l, after) == RootActive(l, db)
    ensures Consumed(l, after) == (Consumed(l, db) || Booting(l, a.auth))
  {
  }

  lemma InsertedStatus(l: Ledger, db: Db, after: Db, a: Attempt, fp: Fingerprint)
    requires Inserts(l, db, after, a, fp)
    requires UniqueRequests(db.credentials) && UniqueRequests(after.credentials)
    requires RowsEvolve(db.credentials, after.credentials)
    requires a.journal.request in l.attempts && RequestRow(db, a.journal.request).None?
    ensures Look(l, db).status[a.journal.request] == None
    ensures Look(l, after).status == Look(l, db).status[a.journal.request := Some(Pending)]
  {
    forall r | r in l.attempts && r != a.journal.request ensures Status(after, r) == Status(db, r) {
      if Status(db, r).Some? {
        var f := StatusRow(db, r);
        KeptStatus(db, after, f, r);
      } else {
        AbsentStatus(db, after, r);
      }
    }
    StatusAt(after, fp);
    assert Status(db, a.journal.request) == None;
  }

  lemma InsertedRowsOk(l: Ledger, db: Db, after: Db, a: Attempt, fp: Fingerprint)
    requires LedgerOk(l) && RowsOk(l, db.credentials) && Inserts(l, db, after, a, fp)
    requires RowsEvolve(db.credentials, after.credentials)
    requires a.journal.request in l.attempts && l.attempts[a.journal.request] == a
    ensures RowsOk(l, after.credentials)
  {
    forall f | f in after.credentials && f !in db.credentials ensures RowOk(l, f, after.credentials[f]) {
      assert f == fp;
    }
    EvolvedRowsOk(l, db.credentials, after.credentials);
  }

  lemma CommitView(l: Ledger, db: Db, a: Attempt, c: Candidate, now: nat, row: Option<Fingerprint>, after: Db)
    requires LedgerOk(l) && DbOk(l, db) && Inv(db)
    requires a.journal.request in l.attempts && l.attempts[a.journal.request] == a
    requires c.request == a.journal.request && c.presented == Sha256(a.auth) && c.next == Sha256(a.journal.next)
    requires Identity(c.agent, c.tunnel) == l.me && c.csr == Sha256(a.journal.csr)
    requires AnswersRenewalQuery(db, Sha256(a.auth), row)
    requires after == CommitIssuance(db, c, now, row).db
    ensures Inv(after) && DbOk(l, after) && RowsEvolve(db.credentials, after.credentials)
    ensures after == db || IssueMove(l, Look(l, db), Look(l, after), a.journal.request, a.auth)
  {
    CommitStep(db, c, now, row, after);
    if after != db {
      CommitInserts(l, db, a, c, now, row, after);
      UniqueIn(db);
      UniqueIn(after);
      AuthenticatedToken(l, db, a.auth, now, row);
      InsertedStart(l, db, after, a, c.fingerprint);
      InsertedStatus(l, db, after, a, c.fingerprint);
      InsertedRowsOk(l, db, after, a, c.fingerprint);
    }
  }

  // ---------------------------------------------------------- own activation

  /** One Pending row becomes Active; others change at most from Active to Retired. */
  ghost predicate OnlyRetires(db: Db, after: Db, fp: Fingerprint) {
    && after.credentials.Keys == db.credentials.Keys && after.tokens == db.tokens
    && fp in db.credentials && db.credentials[fp].state.Pending? && after.credentials[fp].state.Active?
    && forall q {:trigger after.credentials[q]} | q in db.credentials && q != fp ::
         || after.credentials[q] == db.credentials[q]
         || (db.credentials[q].state.Active? && after.credentials[q].state.Retired?)
  }

  lemma ExpiryChanges(db: Db, fp: Fingerprint, now: nat, after: Db)
    requires fp in db.credentials && db.credentials[fp].state.Pending?
    requires after == ExpirePending(db, fp, now).db && after != db
    ensures OnlyExpires(db, after, fp)
  {
  }

  lemma PromotionChanges(db: Db, fp: Fingerprint, after: Db)
    requires fp in db.credentials && db.credentials[fp].state.Pending? && Linked(db.credentials)
    requires after == Promote(db, fp).db && after != db
    ensures OnlyRetires(db, after, fp)
  {
    if db.credentials[fp].terms.previous.Some? {
      assert LinkedTo(db.credentials, db.credentials[fp], db.credentials[fp].terms.previous.value);
    }
  }

  lemma ActivatedStatus(l: Ledger, db: Db, after: Db, r: RequestId)
    requires UniqueRequests(db.credentials) && UniqueRequests(after.credentials)
    requires RowsEvolve(db.credentials, after.credentials) && after.credentials.Keys == db.credentials.Keys
    requires r in l.attempts
    ensures Status(db, r) == None ==> Status(after, r) == None
    ensures Status(db, r).Some? ==>
              exists fp | fp in db.credentials :: db.credentials[fp].terms.request == r
                && Status(db, r) == Some(db.credentials[fp].state) && Status(after, r) == Some(after.credentials[fp].state)
  {
    if Status(db, r).Some? {
      var fp := StatusRow(db, r);
      assert RowEvolves(db.credentials[fp], after.credentials[fp]);
      KeptStatus(db, after, fp, r);
    } else {
      AbsentStatus(db, after, r);
    }
  }

  /** One Pending row expires and nothing else changes. */
  ghost predicate OnlyExpires(db: Db, after: Db, fp: Fingerprint) {
    && after.credentials.Keys == db.credentials.Keys && after.tokens == db.tokens
    && fp in db.credentials && db.credentials[fp].state.Pending? && after.credentials[fp].state.Expired?
    && forall q {:trigger after.credentials[q]} | q in db.credentials && q != fp ::
         after.credentials[q] == db.credentials[q]
  }

  lemma ExpireView(l: Ledger, db: Db, fp: Fingerprint, after: Db)
    requires UniqueRequests(db.credentials) && UniqueRequests(after.credentials)
    requires RowsEvolve(db.credentials, after.credentials) && StartOk(l, db)
    requires OnlyExpires(db, after, fp)
    requires db.credentials[fp].terms.request in l.attempts
    ensures ExpireMove(Look(l, db), Look(l, after), db.credentials[fp].terms.request)
  {
    var r := db.credentials[fp].terms.request;
    assert RowEvolves(db.credentials[fp], after.credentials[fp]);
    KeptStatus(db, after, fp, r);
    forall q | q in l.attempts && q != r ensures Status(after, q) == Status(db, q) {
      ActivatedStatus(l, db, after, q);
    }
    assert Look(l, after).status == Look(l, db).status[r := Some(Expired)];
  }

  lemma PromoteView(l: Ledger, db: Db, fp: Fingerprint, after: Db)
    requires UniqueRequests(db.credentials) && UniqueRequests(after.credentials)
    requires RowsEvolve(db.credentials, after.credentials) && StartOk(l, db)
    requires OnlyRetires(db, after, fp)
    requires db.credentials[fp].terms.request in l.attempts
    ensures PromoteMove(Look(l, db), Look(l, after), db.credentials[fp].terms.request)
  {
    var r := db.credentials[fp].terms.request;
    assert RowEvolves(db.credentials[fp], after.credentials[fp]);
    KeptStatus(db, after, fp, r);
    forall q | q in l.attempts && q != r
      ensures Status(after, q) == Status(db, q) || (Status(db, q) == Some(Active) && Status(after, q) == Some(Retired))
    {
      ActivatedStatus(l, db, after, q);
    }
  }

  lemma KeptStart(l: Ledger, db: Db, after: Db)
    requires StartOk(l, db) && TokensOk(l, db.tokens) && after.tokens == db.tokens
    requires RowsEvolve(db.credentials, after.credentials)
    ensures StartOk(l, after) && TokensOk(l, after.tokens)
  {
    if l.root.Some? {
      assert RowEvolves(db.credentials[l.root.value], after.credentials[l.root.value]);
    }
  }

  lemma ActivateKeepsTables(db: Db, request: RequestId, renewal: TokenHash, fp: Fingerprint, now: nat, after: Db)
    requires Inv(db) && after == Activate(db, request, renewal, fp, now).db
    ensures Inv(after) && RowsEvolve(db.credentials, after.credentials)
    ensures after.tokens == db.tokens && after.credentials.Keys == db.credentials.Keys
    ensures after == db || OnlyExpires(db, after, fp) || OnlyRetires(db, after, fp)
    ensures after != db ==> db.credentials[fp].terms.request == request
  {
    ActivateStep(db, request, renewal, fp, now, after);
    if after != db {
      if db.credentials[fp].terms.deadline <= now {
        ExpiryChanges(db, fp, now, after);
      } else {
        LinksOf(db);
        PromotionChanges(db, fp, after);
      }
    }
  }

  lemma ActivateView(l: Ledger, db: Db, r: RequestId, renewal: TokenHash, fp: Fingerprint, now: nat, after: Db)
    requires DbOk(l, db) && Inv(db) && r in l.attempts
    requires after == Activate(db, r, renewal, fp, now).db
    ensures Inv(after) && DbOk(l, after) && RowsEvolve(db.credentials, after.credentials)
    ensures || after == db
            || ExpireMove(Look(l, db), Look(l, after), r)
            || PromoteMove(Look(l, db), Look(l, after), r)
  {
    ActivateKeepsTables(db, r, renewal, fp, now, after);
    ActivatedTables(l, db, r, fp, after);
  }

  lemma ActivatedTables(l: Ledger, db: Db, r: RequestId, fp: Fingerprint, after: Db)
    requires DbOk(l, db) && Inv(db) && r in l.attempts
    requires Inv(after) && RowsEvolve(db.credentials, after.credentials)
    requires after.tokens == db.tokens && after.credentials.Keys == db.credentials.Keys
    requires after == db || OnlyExpires(db, after, fp) || OnlyRetires(db, after, fp)
    requires after != db ==> db.credentials[fp].terms.request == r
    ensures DbOk(l, after)
    ensures || after == db
            || ExpireMove(Look(l, db), Look(l, after), r)
            || PromoteMove(Look(l, db), Look(l, after), r)
  {
    UniqueIn(db);
    UniqueIn(after);
    EvolvedRowsOk(l, db.credentials, after.credentials);
    KeptStart(l, db, after);
    if OnlyExpires(db, after, fp) {
      ExpireView(l, db, fp, after);
    } else if OnlyRetires(db, after, fp) {
      PromoteView(l, db, fp, after);
    }
  }
}
