/** Crash-safe rotation: whatever is lost, repeated, interrupted or expires, the disk
    keeps a way to go on. */
module RotationSafety {
  import opened Primitives
  import opened Snapshots
  import opened Enrollment
  import opened CredentialBundles
  import opened EnrollmentInvariants
  import opened EnrollmentRuns
  import opened Rotation
  import opened RotationLedger
  import opened RotationViews

  // -------------------------------------------------------- what the disk shows

  predicate Current(disk: Disk, r: RequestId) {
    disk.journal.Some? && disk.journal.value.request == r
  }

  predicate ExpiredAttempt(l: Ledger, v: View, t: Token, r: RequestId) {
    r in l.attempts && l.attempts[r].auth == t && r in v.status && v.status[r] == Some(Expired)
  }

  /** The bootstrap token was consumed by a request that has expired. */
  ghost predicate Spent(l: Ledger, v: View, t: Token) {
    Booting(l, t) && v.consumed && exists r :: ExpiredAttempt(l, v, t, r)
  }

  ghost predicate TokenOk(l: Ledger, v: View, t: Token) {
    TokenLive(l, v, t) || Spent(l, v, t)
  }

  /** An attempt that is no longer in the journal is over: expired, or activated with
      a token that is no longer on disk. */
  predicate Settled(l: Ledger, v: View, t: Token, r: RequestId)
    requires r in l.attempts
  {
    && r in v.status
    && (|| v.status[r] == Some(Expired)
        || ((v.status[r] == Some(Active) || v.status[r] == Some(Retired)) && l.attempts[r].auth != t))
  }

  ghost predicate PastOk(l: Ledger, v: View, disk: Disk) {
    forall r {:trigger l.attempts[r]} | r in l.attempts && !Current(disk, r) :: Settled(l, v, disk.token, r)
  }

  /** The journal on disk, by the state of its request. */
  ghost predicate JournalOk(l: Ledger, v: View, t: Token, j: Journal) {
    && j.request in l.attempts && l.attempts[j.request].journal == j && j.request in v.status
    && if t == j.next then v.status[j.request] == Some(Active)
       else
         && l.attempts[j.request].auth == t
         && (forall r {:trigger l.attempts[r]} | r in l.attempts :: l.attempts[r].auth != j.next)
         && match v.status[j.request]
            case None => TokenOk(l, v, t)
            case Some(Expired) => TokenOk(l, v, t)
            case Some(Pending) => if Booting(l, t) then v.consumed else TokenLive(l, v, t)
            case Some(Active) => Booting(l, t) ==> v.consumed
            case Some(_) => false
  }

  ghost predicate DiskOk(l: Ledger, v: View, disk: Disk) {
    match disk.journal
    case None => TokenOk(l, v, disk.token)
    case Some(j) => JournalOk(l, v, disk.token, j)
  }

  predicate Booted(l: Ledger, v: View, r: RequestId) {
    r in l.attempts && r in v.status && l.attempts[r].auth == l.start && v.status[r].Some?
  }

  /** A bootstrap token makes at most one credential, and is consumed by it. */
  ghost predicate BootsOnce(l: Ledger, v: View) {
    l.root.None? ==>
      && (forall r | Booted(l, v, r) :: v.consumed)
      && (forall r, q | Booted(l, v, r) && Booted(l, v, q) :: r == q)
  }

  ghost predicate ViewOk(l: Ledger, v: View, disk: Disk) {
    && v.status.Keys == l.attempts.Keys
    && Sha256(disk.token) in l.owner
    && PastOk(l, v, disk) && DiskOk(l, v, disk) && BootsOnce(l, v)
  }

  // ------------------------------------------------------------ moves keep it

  /** Ends stay ends. */
  predicate EndsKept(s: Option<CredentialState>, t: Option<CredentialState>) {
    && (s == Some(Expired) ==> t == s)
    && (s == Some(Active) || s == Some(Retired) ==> t == Some(Active) || t == Some(Retired))
  }

  ghost predicate Forward(v: View, after: View) {
    forall r {:trigger after.status[r]} | r in v.status :: r in after.status && EndsKept(v.status[r], after.status[r])
  }

  lemma ForeignKeeps(l: Ledger, v: View, after: View, disk: Disk)
    requires ViewOk(l, v, disk) && ForeignMove(v, after)
    ensures ViewOk(l, after, disk) && Forward(v, after)
  {
    ForeignKeepsDisk(l, v, after, disk);
    assert forall r | Booted(l, after, r) :: Booted(l, v, r);
  }

  lemma ForeignKeepsToken(l: Ledger, v: View, after: View, t: Token)
    requires v.status.Keys == l.attempts.Keys && ForeignMove(v, after)
    ensures TokenLive(l, v, t) ==> TokenLive(l, after, t)
    ensures Spent(l, v, t) ==> Spent(l, after, t)
  {
    if Spent(l, v, t) {
      var r :| ExpiredAttempt(l, v, t, r);
      assert ExpiredAttempt(l, after, t, r);
    }
  }

  lemma ForeignKeepsDisk(l: Ledger, v: View, after: View, disk: Disk)
    requires v.status.Keys == l.attempts.Keys && DiskOk(l, v, disk) && ForeignMove(v, after)
    ensures DiskOk(l, after, disk)
  {
    ForeignKeepsToken(l, v, after, disk.token);
    if disk.journal.Some? {
      var r := disk.journal.value.request;
      if after.status[r] == Some(Expired) && Booting(l, disk.token) {
        assert ExpiredAttempt(l, after, disk.token, r) || v.status[r] == Some(Expired);
      }
    }
  }

  /** Only the journal's own request can still be issued, and only before the token file moves on. */
  lemma IssueKeeps(l: Ledger, v: View, after: View, disk: Disk, r: RequestId)
    requires LedgerOk(l) && ViewOk(l, v, disk) && r in l.attempts
    requires IssueMove(l, v, after, r, l.attempts[r].auth)
    ensures ViewOk(l, after, disk) && Forward(v, after)
  {
    assert !Settled(l, v, disk.token, r);
    var j := disk.journal.value;
    assert l.attempts[r].auth == disk.token;
    assert TokenLive(l, v, disk.token);
    if !Booting(l, disk.token) {
      LiveElsewhere(l, v, after, disk.token, r);
    }
    IssueBootsOnce(l, v, after, r);
  }

  lemma LiveElsewhere(l: Ledger, v: View, after: View, t: Token, r: RequestId)
    requires TokenLive(l, v, t) && after.rootActive == v.rootActive
    requires l.root.None? ==> after.consumed == v.consumed
    requires r in v.status && v.status[r] != Some(Active)
    requires forall q | q in v.status && q != r :: q in after.status && after.status[q] == v.status[q]
    ensures TokenLive(l, after, t)
  {
  }

  lemma IssueBootsOnce(l: Ledger, v: View, after: View, r: RequestId)
    requires LedgerOk(l) && BootsOnce(l, v) && r in l.attempts
    requires IssueMove(l, v, after, r, l.attempts[r].auth)
    ensures BootsOnce(l, after)
  {
    assert forall q | Booted(l, after, q) && q != r :: Booted(l, v, q);
    if l.root.None? && Booted(l, after, r) {
      assert !v.consumed;
    }
  }

  lemma PendingIsCurrent(l: Ledger, v: View, disk: Disk, r: RequestId)
    requires ViewOk(l, v, disk) && r in l.attempts && v.status[r] == Some(Pending)
    ensures Current(disk, r) && disk.token != disk.journal.value.next && l.attempts[r].auth == disk.token
    ensures if Booting(l, disk.token) then v.consumed else TokenLive(l, v, disk.token)
  {
    assert !Settled(l, v, disk.token, r);
  }

  lemma ExpireKeeps(l: Ledger, v: View, after: View, disk: Disk, r: RequestId)
    requires ViewOk(l, v, disk) && r in l.attempts && ExpireMove(v, after, r)
    ensures ViewOk(l, after, disk) && Forward(v, after)
  {
    PendingIsCurrent(l, v, disk, r);
    if Booting(l, disk.token) {
      assert ExpiredAttempt(l, after, disk.token, r);
    } else {
      LiveElsewhere(l, v, after, disk.token, r);
    }
    assert forall q | Booted(l, after, q) :: Booted(l, v, q);
  }

  lemma PromoteKeeps(l: Ledger, v: View, after: View, disk: Disk, r: RequestId)
    requires ViewOk(l, v, disk) && r in l.attempts && PromoteMove(v, after, r)
    ensures ViewOk(l, after, disk) && Forward(v, after)
  {
    PendingIsCurrent(l, v, disk, r);
    forall q | q in l.attempts && !Current(disk, q) ensures Settled(l, after, disk.token, q) {
      assert Settled(l, v, disk.token, q);
    }
    assert forall q | Booted(l, after, q) :: Booted(l, v, q);
  }

  // ------------------------------------------------------- the Agent's own disk

  predicate FreshIn(l: Ledger, j: Journal) {
    j.request !in l.attempts && Sha256(j.next) !in l.owner
  }

  function Extend(l: Ledger, j: Journal, t: Token): Ledger {
    l.(attempts := l.attempts[j.request := Attempt(j, t)], owner := l.owner[Sha256(j.next) := Some(j.request)])
  }

  lemma ExtendKeepsLedger(l: Ledger, j: Journal, t: Token)
    requires LedgerOk(l) && FreshIn(l, j) && Sha256(t) in l.owner
    ensures LedgerOk(Extend(l, j, t))
  {
  }

  /** A journal is replaced only once its request has expired; it may be removed then. */
  lemma DropJournalKeeps(l: Ledger, v: View, disk: Disk)
    requires LedgerOk(l) && ViewOk(l, v, disk) && disk.journal.Some?
    requires disk.token != disk.journal.value.next && v.status[disk.journal.value.request] == Some(Expired)
    ensures ViewOk(l, v, Disk(disk.token, None))
  {
    assert TokenOk(l, v, disk.token);
    forall r | r in l.attempts ensures Settled(l, v, disk.token, r) {
      if !Current(disk, r) { assert Settled(l, v, disk.token, r); }
    }
  }

  /** A new journal is written only when there is none. */
  lemma NewJournalKeeps(l: Ledger, v: View, disk: Disk, j: Journal)
    requires LedgerOk(l) && ViewOk(l, v, disk) && FreshIn(l, j) && disk.journal.None?
    ensures ViewOk(Extend(l, j, disk.token), v.(status := v.status[j.request := None]),
                   Disk(disk.token, Some(j)))
  {
    var m := Extend(l, j, disk.token);
    var after := v.(status := v.status[j.request := None]);
    assert TokenOk(l, v, disk.token);
    if Spent(l, v, disk.token) {
      var r :| ExpiredAttempt(l, v, disk.token, r);
      assert ExpiredAttempt(m, after, disk.token, r);
    }
    assert TokenOk(m, after, disk.token);
    forall r | r in m.attempts && r != j.request ensures Settled(m, after, disk.token, r) {
      assert r in l.attempts;
      if !Current(disk, r) { assert Settled(l, v, disk.token, r); }
    }
    forall r | r in m.attempts ensures m.attempts[r].auth != j.next {
      if r != j.request { assert Sha256(l.attempts[r].auth) in l.owner; }
    }
    assert forall r | Booted(m, after, r) :: Booted(l, v, r);
  }

  /** The journal is removed only once its token is the one on disk. */
  lemma RemoveJournalKeeps(l: Ledger, v: View, disk: Disk)
    requires LedgerOk(l) && ViewOk(l, v, disk)
    requires disk.journal.Some? && disk.token == disk.journal.value.next
    ensures ViewOk(l, v, Disk(disk.token, None))
  {
    var r := disk.journal.value.request;
    forall q | q in l.attempts ensures Settled(l, v, disk.token, q) {
      if q != r { assert !Current(disk, q); }
    }
  }

  lemma WriteTokenKeeps(l: Ledger, v: View, disk: Disk)
    requires LedgerOk(l) && ViewOk(l, v, disk)
    requires disk.journal.Some? && disk.token != disk.journal.value.next
    requires v.status[disk.journal.value.request] == Some(Active)
    ensures ViewOk(l, v, Disk(disk.journal.value.next, disk.journal))
  {
    var after := Disk(disk.journal.value.next, disk.journal);
    forall q | q in l.attempts && !Current(after, q) ensures Settled(l, v, after.token, q) {
      assert Settled(l, v, disk.token, q);
    }
  }

  // ------------------------------------------------- messages and the program

  predicate MessageOk(l: Ledger, m: Message) {
    m.request in l.attempts &&
    var a := l.attempts[m.request];
    match m
    case Enroll(_, token, next, csr) => token == a.auth && next == a.journal.next && csr == a.journal.csr
    case Activating(_, renewal, _) => renewal == a.journal.next
  }

  /** A reply still says something true. */
  ghost predicate ReplyOk(v: View, db: Db, reply: Reply) {
    reply.request in v.status &&
    match reply
    case Issued(r, Ok(issuance)) => Holds(db, r, issuance)
    case Issued(r, Err(e)) => e.RequestExpired? ==> v.status[r] == Some(Expired)
    case Activated(r, Ok(_)) => v.status[r] == Some(Active) || v.status[r] == Some(Retired)
    case Activated(r, Err(e)) => e.RequestExpired? ==> v.status[r] == Some(Expired)
  }

  ghost predicate PcOk(v: View, db: Db, disk: Disk, pc: Pc) {
    match pc
    case Idle => true
    case HasToken(t) => t == disk.token
    case HasJournal(t, j) => t == disk.token && disk.journal == Some(j)
    case AwaitIssued(j) => disk.journal == Some(j) && disk.token != j.next
    case HasIssued(j, issuance) => disk.journal == Some(j) && disk.token != j.next && Holds(db, j.request, issuance)
    case Published(j, issuance) => disk.journal == Some(j) && disk.token != j.next && Holds(db, j.request, issuance)
    case AwaitActivated(j) => disk.journal == Some(j) && disk.token != j.next
    case Confirmed(j) =>
      disk.journal == Some(j) && disk.token != j.next && j.request in v.status && v.status[j.request] == Some(Active)
    case TokenRemoved(j) =>
      disk.journal == Some(j) && disk.token != j.next && j.request in v.status && v.status[j.request] == Some(Active)
    case TokenWritten(j) => disk.journal == Some(j) && disk.token == j.next
    case Replacing => disk.journal == None
  }

  ghost predicate TalkOk(w: World, v: View) {
    && (forall m | m in w.sent :: MessageOk(w.ledger, m))
    && (forall reply | reply in w.replies :: ReplyOk(v, w.db, reply))
    && PcOk(v, w.db, w.disk, w.pc)
  }

  ghost predicate WorldOk(w: World) {
    match w
    case World(l, db, disk, _, _, _, _, _) =>
      LedgerOk(l) && Inv(db) && DbOk(l, db) && ViewOk(l, Look(l, db), disk) && TalkOk(w, Look(l, db))
  }

  lemma HoldsKept(db: Db, after: Db, r: RequestId, issuance: Issuance)
    requires Holds(db, r, issuance) && RowsEvolve(db.credentials, after.credentials)
    ensures Holds(after, r, issuance)
  {
    assert RowEvolves(db.credentials[issuance.fingerprint], after.credentials[issuance.fingerprint]);
  }

  lemma ReplyKept(v: View, after: View, db: Db, next: Db, reply: Reply)
    requires ReplyOk(v, db, reply) && Forward(v, after) && RowsEvolve(db.credentials, next.credentials)
    requires after.status.Keys == v.status.Keys
    ensures ReplyOk(after, next, reply)
  {
    assert EndsKept(v.status[reply.request], after.status[reply.request]);
    if reply.Issued? && reply.issued.Ok? {
      HoldsKept(db, next, reply.request, reply.issued.value);
    }
  }

  /** Activation of the journal's request is not undone while the old token is on disk. */
  lemma PcKept(l: Ledger, v: View, after: View, db: Db, next: Db, disk: Disk, pc: Pc)
    requires PcOk(v, db, disk, pc) && Forward(v, after) && RowsEvolve(db.credentials, next.credentials)
    requires after.status.Keys == v.status.Keys && ViewOk(l, after, disk)
    ensures PcOk(after, next, disk, pc)
  {
    if pc.HasIssued? || pc.Published? {
      HoldsKept(db, next, pc.journal.request, pc.issuance);
    } else if pc.Confirmed? || pc.TokenRemoved? {
      assert EndsKept(v.status[pc.journal.request], after.status[pc.journal.request]);
    }
  }

  /** A database step that moves the view keeps everything said so far. */
  lemma TalkKept(w: World, v: View, db: Db, after: View)
    requires TalkOk(w, v) && Forward(v, after) && RowsEvolve(w.db.credentials, db.credentials)
    requires after.status.Keys == v.status.Keys && ViewOk(w.ledger, after, w.disk)
    ensures TalkOk(w.(db := db), after)
  {
    forall reply | reply in w.replies ensures ReplyOk(after, db, reply) {
      ReplyKept(v, after, w.db, db, reply);
    }
    PcKept(w.ledger, v, after, w.db, db, w.disk, w.pc);
  }

  // ------------------------------------------------------------ server steps

  lemma ForeignStep(w: World, op: Op)
    requires WorldOk(w) && ForeignOp(w.ledger, op)
    ensures WorldOk(w.(db := Apply(w.db, op)))
  {
    var db := Apply(w.db, op);
    ForeignView(w.ledger, w.db, op, db);
    ForeignKeeps(w.ledger, Look(w.ledger, w.db), Look(w.ledger, db), w.disk);
    TalkKept(w, Look(w.ledger, w.db), db, Look(w.ledger, db));
  }

  lemma SayReply(w: World, reply: Reply)
    requires WorldOk(w) && ReplyOk(Look(w.ledger, w.db), w.db, reply)
    ensures WorldOk(w.(replies := w.replies + {reply}))
  {
  }

  lemma ReplayReply(db: Db, fp: Fingerprint, presented: TokenHash, next: TokenHash, agent: AgentId, tunnel: TunnelId,
                    csr: CsrDigest, r: RequestId, v: View)
    requires UniqueRequests(db.credentials) && RequestRow(db, r) == Some(fp)
    requires r in v.status && v.status[r] == Status(db, r)
    ensures fp in db.credentials
    ensures ReplyOk(v, db, Issued(r, Replay(db, fp, presented, next, agent, tunnel, csr)))
  {
    assert IsRequestRow(db, r, fp);
    StatusAt(db, fp);
  }

  lemma PreflightReply(w: World, m: Message, now: nat, row: Option<Fingerprint>)
    requires WorldOk(w) && m in w.sent && m.Enroll?
    requires Preflight(w, m, now, row) != Ok(None)
    ensures var p := Preflight(w, m, now, row);
            ReplyOk(Look(w.ledger, w.db), w.db, Issued(m.request, if p.Ok? then Ok(p.value.value) else Err(p.error)))
  {
    UniqueIn(w.db);
    assert MessageOk(w.ledger, m);
    var fp := RequestRow(w.db, m.request);
    if fp.Some? {
      ReplayReply(w.db, fp.value, Sha256(m.token), Sha256(m.next), w.ledger.me.agent, w.ledger.me.tunnel, Sha256(m.csr),
                  m.request, Look(w.ledger, w.db));
    }
  }

  lemma CommitReply(l: Ledger, db: Db, c: Candidate, now: nat, row: Option<Fingerprint>, after: Db)
    requires UniqueRequests(after.credentials) && c.request in l.attempts
    requires after == CommitIssuance(db, c, now, row).db
    ensures ReplyOk(Look(l, after), after, Issued(c.request, CommitIssuance(db, c, now, row).reply))
  {
    var reply := CommitIssuance(db, c, now, row).reply;
    if reply.Ok? {
      CommitHolds(db, c, now, row);
    } else if reply.error.RequestExpired? {
      ReplayReply(after, RequestRow(db, c.request).value, c.presented, c.next, c.agent, c.tunnel, c.csr,
                  c.request, Look(l, after));
    }
  }

  lemma CommitKeepsWorld(w: World, c: Candidate, now: nat, row: Option<Fingerprint>)
    requires WorldOk(w) && c.request in w.ledger.attempts
    requires var a := w.ledger.attempts[c.request];
             c.presented == Sha256(a.auth) && c.next == Sha256(a.journal.next) && c.csr == Sha256(a.journal.csr)
    requires Identity(c.agent, c.tunnel) == w.ledger.me && AnswersRenewalQuery(w.db, c.presented, row)
    ensures var txn := CommitIssuance(w.db, c, now, row);
            WorldOk(w.(db := txn.db, replies := w.replies + {Issued(c.request, txn.reply)}))
  {
    var db := CommitIssuance(w.db, c, now, row).db;
    var a := w.ledger.attempts[c.request];
    CommitView(w.ledger, w.db, a, c, now, row, db);
    if db != w.db {
      IssueKeeps(w.ledger, Look(w.ledger, w.db), Look(w.ledger, db), w.disk, c.request);
      TalkKept(w, Look(w.ledger, w.db), db, Look(w.ledger, db));
    }
    UniqueIn(db);
    CommitReply(w.ledger, w.db, c, now, row, db);
    SayReply(w.(db := db), Issued(c.request, CommitIssuance(w.db, c, now, row).reply));
  }

  lemma ExpiryAnswers(db: Db, fp: Fingerprint, now: nat)
    requires fp in db.credentials && db.credentials[fp].state.Pending?
    ensures var txn := ExpirePending(db, fp, now);
            && txn.reply.Err?
            && (txn.reply == Err(RequestExpired) ==> fp in txn.db.credentials && txn.db.credentials[fp].state.Expired?)
  {
  }

  lemma PromotionAnswers(db: Db, fp: Fingerprint)
    requires fp in db.credentials
    ensures var txn := Promote(db, fp);
            && (txn.reply.Ok? ==> fp in txn.db.credentials && txn.db.credentials[fp].state.Active?)
            && txn.reply != Err(RequestExpired)
  {
  }

  lemma ActivationAnswers(db: Db, r: RequestId, renewal: TokenHash, fp: Fingerprint, now: nat)
    ensures var txn := Activate(db, r, renewal, fp, now);
            txn.reply.Ok? || txn.reply == Err(RequestExpired) ==>
              && fp in db.credentials && fp in txn.db.credentials && db.credentials[fp].terms.request == r
              && (txn.reply.Ok? ==> txn.db.credentials[fp].state.Active?)
              && (txn.reply.Err? ==> txn.db.credentials[fp].state.Expired?)
  {
    if fp in db.credentials && db.credentials[fp].state.Pending? {
      if db.credentials[fp].terms.deadline <= now { ExpiryAnswers(db, fp, now); } else { PromotionAnswers(db, fp); }
    }
  }

  lemma ActivationReply(l: Ledger, db: Db, r: RequestId, fp: Fingerprint, after: Db, reply: Result<nat, Error>)
    requires UniqueRequests(after.credentials) && r in l.attempts
    requires RowsEvolve(db.credentials, after.credentials)
    requires reply.Ok? || reply == Err(RequestExpired) ==>
               && fp in db.credentials && fp in after.credentials && db.credentials[fp].terms.request == r
               && (reply.Ok? ==> after.credentials[fp].state.Active?)
               && (reply.Err? ==> after.credentials[fp].state.Expired?)
    ensures ReplyOk(Look(l, after), after, Activated(r, reply))
  {
    if reply.Ok? || reply == Err(RequestExpired) {
      assert RowEvolves(db.credentials[fp], after.credentials[fp]);
      StatusAt(after, fp);
    }
  }

  lemma ActivateKeepsWorld(w: World, r: RequestId, renewal: TokenHash, fp: Fingerprint, now: nat)
    requires WorldOk(w) && r in w.ledger.attempts
    ensures var txn := Activate(w.db, r, renewal, fp, now);
            WorldOk(w.(db := txn.db, replies := w.replies + {Activated(r, txn.reply)}))
  {
    var db := Activate(w.db, r, renewal, fp, now).db;
    var v, after := Look(w.ledger, w.db), Look(w.ledger, db);
    ActivateView(w.ledger, w.db, r, renewal, fp, now, db);
    if db != w.db {
      if ExpireMove(v, after, r) {
        ExpireKeeps(w.ledger, v, after, w.disk, r);
      } else {
        PromoteKeeps(w.ledger, v, after, w.disk, r);
      }
      TalkKept(w, v, db, after);
    }
    UniqueIn(db);
    ActivationAnswers(w.db, r, renewal, fp, now);
    ActivationReply(w.ledger, w.db, r, fp, db, Activate(w.db, r, renewal, fp, now).reply);
    SayReply(w.(db := db), Activated(r, Activate(w.db, r, renewal, fp, now).reply));
  }

  // ------------------------------------------------------------- agent steps

  lemma FreshView(w: World, j: Journal)
    requires LedgerOk(w.ledger) && DbOk(w.ledger, w.db) && Fresh(w, j)
    ensures Look(Extend(w.ledger, j, w.disk.token), w.db)
            == Look(w.ledger, w.db).(status := Look(w.ledger, w.db).status[j.request := None])
  {
    if Status(w.db, j.request).Some? {
      var fp := StatusRow(w.db, j.request);
    }
    assert Status(w.db, j.request) == None;
  }

  lemma FreshDbOk(w: World, j: Journal)
    requires LedgerOk(w.ledger) && DbOk(w.ledger, w.db) && Fresh(w, j)
    ensures DbOk(Extend(w.ledger, j, w.disk.token), w.db)
  {
    var m := Extend(w.ledger, j, w.disk.token);
    forall fp | fp in w.db.credentials ensures RowOk(m, fp, w.db.credentials[fp]) {
      assert RowOk(w.ledger, fp, w.db.credentials[fp]);
    }
  }

  /** What was said about the old history stays true of the longer one. */
  lemma TalkExtends(w: World, j: Journal, v: View, after: View, pc: Pc)
    requires TalkOk(w, v) && FreshIn(w.ledger, j) && v.status.Keys == w.ledger.attempts.Keys
    requires after == v.(status := v.status[j.request := None])
    requires pc == Idle || pc == HasJournal(w.disk.token, j)
    ensures TalkOk(WithJournal(w, j).(pc := pc), after)
  {
    var m := Extend(w.ledger, j, w.disk.token);
    forall x | x in w.sent ensures MessageOk(m, x) { assert MessageOk(w.ledger, x); }
    forall x | x in w.replies ensures ReplyOk(after, w.db, x) { assert ReplyOk(v, w.db, x); }
  }

  lemma NewJournalStep(w: World, j: Journal, pc: Pc)
    requires WorldOk(w) && Fresh(w, j) && w.disk.journal.None?
    requires pc == Idle || pc == HasJournal(w.disk.token, j)
    ensures WorldOk(WithJournal(w, j).(pc := pc))
  {
    var v := Look(w.ledger, w.db);
    NewJournalKeeps(w.ledger, v, w.disk, j);
    ExtendKeepsLedger(w.ledger, j, w.disk.token);
    FreshView(w, j);
    FreshDbOk(w, j);
    TalkExtends(w, j, v, Look(Extend(w.ledger, j, w.disk.token), w.db), pc);
  }

  /** What is known where the program stands. */
  lemma PcHolds(w: World)
    requires WorldOk(w)
    ensures LedgerOk(w.ledger) && ViewOk(w.ledger, Look(w.ledger, w.db), w.disk)
    ensures PcOk(Look(w.ledger, w.db), w.db, w.disk, w.pc)
  {
  }

  /** What is known of the tables. */
  lemma InvHolds(w: World)
    requires WorldOk(w)
    ensures Inv(w.db) && LedgerOk(w.ledger) && DbOk(w.ledger, w.db)
  {
  }

  lemma RejectStep(w: World, error: Error)
    requires WorldOk(w) && (w.pc.AwaitIssued? || w.pc.AwaitActivated?)
    requires error.RequestExpired? ==>
               w.pc.journal.request in w.ledger.attempts && Status(w.db, w.pc.journal.request) == Some(Expired)
    ensures WorldOk(Reject(w, error))
  {
    PcHolds(w);
    if error.RequestExpired? {
      DropJournalKeeps(w.ledger, Look(w.ledger, w.db), w.disk);
      LocalStep(w, Disk(w.disk.token, None), Replacing, w.sent, w.bundles, w.gone);
    } else {
      LocalStep(w, w.disk, Idle, w.sent, w.bundles, w.gone);
    }
  }

  lemma RenewStep(w: World, made: Journal)
    requires WorldOk(w)
    ensures WorldOk(Renew(w, made))
  {
    if w.pc.Replacing? && Fresh(w, made) {
      PcHolds(w);
      NewJournalStep(w, made, Idle);
    }
  }

  lemma LoadStep(w: World, made: Journal)
    requires WorldOk(w)
    ensures WorldOk(LoadOrCreate(w, made))
  {
    if w.pc.HasToken? {
      PcHolds(w);
      if w.disk.journal.Some? {
        LocalStep(w, w.disk, HasJournal(w.pc.token, w.disk.journal.value), w.sent, w.bundles, w.gone);
      } else if Fresh(w, made) {
        NewJournalStep(w, made, HasJournal(w.pc.token, made));
      }
    }
  }

  /** Steps that leave the tables and the history alone. */
  lemma LocalStep(w: World, disk: Disk, pc: Pc, sent: set<Message>, bundles: seq<Bundle>, gone: bool)
    requires WorldOk(w) && ViewOk(w.ledger, Look(w.ledger, w.db), disk)
    requires PcOk(Look(w.ledger, w.db), w.db, disk, pc)
    requires forall m | m in sent :: m in w.sent || MessageOk(w.ledger, m)
    ensures WorldOk(w.(disk := disk, pc := pc, sent := sent, bundles := bundles, gone := gone))
  {
  }

  lemma BeginStep(w: World)
    requires WorldOk(w)
    ensures WorldOk(BeginExchange(w))
  {
    if w.pc.HasJournal? {
      PcHolds(w);
      var j := w.pc.journal;
      if w.pc.token == j.next {
        RemoveJournalKeeps(w.ledger, Look(w.ledger, w.db), w.disk);
        LocalStep(w, Disk(w.disk.token, None), Idle, w.sent, w.bundles, w.gone);
      } else {
        var m := Enroll(j.request, w.pc.token, j.next, j.csr);
        assert MessageOk(w.ledger, m);
        LocalStep(w, w.disk, AwaitIssued(j), w.sent + {m}, w.bundles, w.gone);
      }
    }
  }

  lemma TakeIssuedStep(w: World, reply: Reply)
    requires WorldOk(w)
    ensures WorldOk(TakeIssued(w, reply))
  {
    if w.pc.AwaitIssued? && reply in w.replies && reply.Issued? && reply.request == w.pc.journal.request {
      PcHolds(w);
      assert ReplyOk(Look(w.ledger, w.db), w.db, reply);
      match reply.issued
      case Ok(issuance) => LocalStep(w, w.disk, HasIssued(w.pc.journal, issuance), w.sent, w.bundles, w.gone);
      case Err(e) => RejectStep(w, e);
    }
  }

  lemma TakeActivatedStep(w: World, reply: Reply)
    requires WorldOk(w)
    ensures WorldOk(TakeActivated(w, reply))
  {
    if w.pc.AwaitActivated? && reply in w.replies && reply.Activated? && reply.request == w.pc.journal.request {
      PcHolds(w);
      assert ReplyOk(Look(w.ledger, w.db), w.db, reply);
      match reply.activated
      case Ok(_) => LocalStep(w, w.disk, Confirmed(w.pc.journal), w.sent, w.bundles, w.gone);
      case Err(e) => RejectStep(w, e);
    }
  }

  lemma PublishStep(w: World)
    requires WorldOk(w)
    ensures WorldOk(Publish(w))
  {
    if w.pc.HasIssued? {
      PcHolds(w);
      LocalStep(w, w.disk, Published(w.pc.journal, w.pc.issuance), w.sent, Publish(w).bundles, w.gone);
    }
  }

  lemma AskStep(w: World)
    requires WorldOk(w)
    ensures WorldOk(AskActivation(w))
  {
    if w.pc.Published? {
      PcHolds(w);
      var j := w.pc.journal;
      var m := Activating(j.request, j.next, w.pc.issuance.fingerprint);
      assert MessageOk(w.ledger, m);
      LocalStep(w, w.disk, AwaitActivated(j), w.sent + {m}, w.bundles, w.gone);
    }
  }

  lemma DropTokenStep(w: World)
    requires WorldOk(w)
    ensures WorldOk(DropToken(w))
  {
    if w.pc.Confirmed? {
      PcHolds(w);
      assert PcOk(Look(w.ledger, w.db), w.db, w.disk, TokenRemoved(w.pc.journal));
      LocalStep(w, w.disk, TokenRemoved(w.pc.journal), w.sent, w.bundles, true);
    }
  }

  lemma MoveTokenStep(w: World)
    requires WorldOk(w)
    ensures WorldOk(MoveToken(w))
  {
    if w.pc.TokenRemoved? {
      PcHolds(w);
      WriteTokenKeeps(w.ledger, Look(w.ledger, w.db), w.disk);
      LocalStep(w, Disk(w.pc.journal.next, w.disk.journal), TokenWritten(w.pc.journal), w.sent, w.bundles, false);
    }
  }

  lemma FinishStep(w: World)
    requires WorldOk(w)
    ensures WorldOk(Finish(w))
  {
    if w.pc.TokenWritten? {
      PcHolds(w);
      RemoveJournalKeeps(w.ledger, Look(w.ledger, w.db), w.disk);
      LocalStep(w, Disk(w.disk.token, None), Idle, w.sent, w.bundles, w.gone);
    }
  }

  lemma PreflightStep(w: World, m: Message, now: nat, row: Option<Fingerprint>)
    requires WorldOk(w)
    ensures WorldOk(AnswerPreflight(w, m, now, row))
  {
    if m in w.sent && m.Enroll? && AnswersRenewalQuery(w.db, Sha256(m.token), row) {
      var p := Preflight(w, m, now, row);
      if p != Ok(None) {
        PreflightReply(w, m, now, row);
        SayReply(w, Issued(m.request, if p.Ok? then Ok(p.value.value) else Err(p.error)));
      }
    }
  }

  lemma EnrollStep(w: World, m: Message, certificate: Bytes, fp: Fingerprint, notAfter: nat, deadline: nat,
                   now: nat, row: Option<Fingerprint>)
    requires WorldOk(w)
    ensures WorldOk(ServeEnroll(w, m, certificate, fp, notAfter, deadline, now, row))
  {
    if m in w.sent && m.Enroll? && AnswersRenewalQuery(w.db, Sha256(m.token), row) {
      assert MessageOk(w.ledger, m);
      CommitKeepsWorld(w, CandidateFor(w.ledger.me, m, certificate, fp, notAfter, deadline), now, row);
    }
  }

  lemma ActivationStep(w: World, m: Message, now: nat)
    requires WorldOk(w) && m in w.sent && m.Activating?
    ensures WorldOk(AnswerActivation(w, m, now))
  {
    assert MessageOk(w.ledger, m);
    ActivateKeepsWorld(w, m.request, Sha256(m.renewal), m.fingerprint, now);
  }

  lemma ServiceStep(w: World, step: Step)
    requires WorldOk(w) && (step.ServePreflight? || step.ServeCommit? || step.ServeActivate?)
    ensures WorldOk(Do(w, step))
  {
    match step
    case ServePreflight(m, now, row) => PreflightStep(w, m, now, row);
    case ServeCommit(m, certificate, fp, notAfter, deadline, now, row) =>
      EnrollStep(w, m, certificate, fp, notAfter, deadline, now, row);
    case ServeActivate(m, now) => if m in w.sent && m.Activating? { ActivationStep(w, m, now); }
  }

  lemma PcStep(w: World, pc: Pc)
    requires WorldOk(w) && (pc == Idle || pc == HasToken(w.disk.token))
    ensures WorldOk(w.(pc := pc))
  {
    PcHolds(w);
    LocalStep(w, w.disk, pc, w.sent, w.bundles, w.gone);
  }

  lemma OutsideStep(w: World, step: Step)
    requires WorldOk(w) && (step.ReadToken? || step.Crash? || step.Foreign?)
    ensures WorldOk(Do(w, step))
  {
    match step
    case ReadToken => if w.pc.Idle? && !w.gone { PcStep(w, HasToken(w.disk.token)); }
    case Crash => PcStep(w, Idle);
    case Foreign(op) => if ForeignOp(w.ledger, op) { ForeignStep(w, op); }
  }

  lemma ExchangeStep(w: World, step: Step)
    requires WorldOk(w) && (step.ReceiveIssued? || step.PublishBundle? || step.SendActivate? || step.ReceiveActivated?)
    ensures WorldOk(Do(w, step))
  {
    match step
    case ReceiveIssued(reply) => TakeIssuedStep(w, reply);
    case PublishBundle => PublishStep(w);
    case SendActivate => AskStep(w);
    case ReceiveActivated(reply) => TakeActivatedStep(w, reply);
  }

  lemma JournalStep(w: World, step: Step)
    requires WorldOk(w) && (step.LoadJournal? || step.Begin? || step.ReplaceJournal?)
    ensures WorldOk(Do(w, step))
  {
    match step
    case LoadJournal(made) => LoadStep(w, made);
    case Begin => BeginStep(w);
    case ReplaceJournal(made) => RenewStep(w, made);
  }

  lemma TokenStep(w: World, step: Step)
    requires WorldOk(w) && (step.RemoveToken? || step.WriteToken? || step.RemoveJournal?)
    ensures WorldOk(Do(w, step))
  {
    match step
    case RemoveToken => DropTokenStep(w);
    case WriteToken => MoveTokenStep(w);
    case RemoveJournal => FinishStep(w);
  }

  lemma StepKeepsWorld(w: World, step: Step)
    requires WorldOk(w)
    ensures WorldOk(Do(w, step))
  {
    if step.LoadJournal? || step.Begin? || step.ReplaceJournal? {
      JournalStep(w, step);
    } else if step.RemoveToken? || step.WriteToken? || step.RemoveJournal? {
      TokenStep(w, step);
    } else if step.ReceiveIssued? || step.PublishBundle? || step.SendActivate? || step.ReceiveActivated? {
      ExchangeStep(w, step);
    } else if step.ServePreflight? || step.ServeCommit? || step.ServeActivate? {
      ServiceStep(w, step);
    } else {
      OutsideStep(w, step);
    }
  }

  lemma StepKeepsStart(w: World, step: Step)
    ensures var l := Do(w, step).ledger; (l.me, l.start, l.root) == (w.ledger.me, w.ledger.start, w.ledger.root)
  {
  }

  lemma {:induction false} RunKeepsWorld(w: World, steps: seq<Step>)
    requires WorldOk(w)
    ensures WorldOk(Run(w, steps))
    ensures var l := Run(w, steps).ledger; (l.me, l.start, l.root) == (w.ledger.me, w.ledger.start, w.ledger.root)
    decreases |steps|
  {
    if steps != [] {
      StepKeepsWorld(w, steps[0]);
      StepKeepsStart(w, steps[0]);
      RunKeepsWorld(Do(w, steps[0]), steps[1..]);
    }
  }
}
