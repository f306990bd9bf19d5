/** Progress of rotation: wherever an Agent's files can be recovered from, answered calls
    lead to a new Active credential. */
module RotationProgress {
  import opened Primitives
  import opened Snapshots
  import opened Enrollment
  import opened EnrollmentInvariants
  import opened EnrollmentRuns
  import opened EnrollmentOutcomes
  import opened CredentialBundles
  import opened Rotation
  import opened RotationLedger
  import opened RotationViews
  import opened RotationSafety
  import opened RotationRecovery
  import opened RotationGenerations

  // ------------------------------------------------------ values nobody has used

  /** There is always a journal of values that occur nowhere. */
  lemma FreshJournal(w: World) returns (j: Journal)
    ensures Fresh(w, j)
  {
    var rows := w.db.credentials;
    var requests := (set r | r in w.ledger.attempts :: Number(r.id)) + (set fp | fp in rows :: Number(rows[fp].terms.request.id));
    var tokens := (set h | h in w.ledger.owner :: Number(h.of.secret)) + (set h | h in w.db.tokens :: Number(h.of.secret))
                  + (set fp | fp in rows :: Number(rows[fp].terms.renewalHash.of.secret))
                  + (set fp | fp in rows :: Number(rows[fp].terms.authHash.of.secret));
    var request := AboveAll(requests);
    var token := AboveAll(tokens);
    j := Journal(RequestId(request), Token(token), [], []);
    assert j.request in w.ledger.attempts ==> Number(j.request.id) in requests;
    assert Sha256(j.next) in w.ledger.owner || Sha256(j.next) in w.db.tokens ==> Number(Sha256(j.next).of.secret) in tokens;
    forall fp | fp in rows
      ensures rows[fp].terms.request != j.request && rows[fp].terms.renewalHash != Sha256(j.next)
      ensures rows[fp].terms.authHash != Sha256(j.next)
    {
      assert Number(rows[fp].terms.request.id) in requests;
      assert Number(rows[fp].terms.renewalHash.of.secret) in tokens && Number(rows[fp].terms.authHash.of.secret) in tokens;
    }
  }

  lemma FreshFingerprint(db: Db) returns (fp: Fingerprint)
    ensures fp !in db.credentials && (db.head.Some? ==> fp !in db.head.value.grants)
  {
    var granted := if db.head.Some? then db.head.value.grants.Keys else {};
    var digests := (set f | f in db.credentials :: Number(f.digest)) + (set f | f in granted :: Number(f.digest));
    var digest := AboveAll(digests);
    fp := Fingerprint(digest);
    assert fp in db.credentials || fp in granted ==> Number(fp.digest) in digests;
  }

  /** The renewal-token query always has an answer. */
  lemma SomeAnswer(db: Db, hash: TokenHash) returns (row: Option<Fingerprint>)
    ensures AnswersRenewalQuery(db, hash, row)
  {
    if fp :| IsRenewalRow(db, hash, fp) && db.credentials[fp].state.Revoked? {
      row := Some(fp);
    } else if fp :| IsRenewalRow(db, hash, fp) {
      row := Some(fp);
    } else {
      row := None;
    }
  }

  // ------------------------------------------------------------- the exchanges

  function Asked(w: World, j: Journal): World {
    w.(pc := AwaitIssued(j), sent := w.sent + {Enroll(j.request, w.disk.token, j.next, j.csr)})
  }

  function Asking(made: Journal): seq<Step> {
    [ReadToken, LoadJournal(made), Begin]
  }

  lemma ThreeSteps(w: World, a: Step, b: Step, c: Step)
    ensures Run(w, [a, b, c]) == Do(Do(Do(w, a), b), c)
  {
    assert [a, b, c][1..] == [b, c] && [b, c][1..] == [c];
    RunOne(Do(Do(w, a), b), c);
  }

  /** A call sends the request of the journal on disk, */
  lemma AsksStored(w: World, made: Journal)
    requires w.pc.Idle? && !w.gone && w.disk.journal.Some? && w.disk.token != w.disk.journal.value.next
    ensures Run(w, Asking(made)) == Asked(w, w.disk.journal.value)
  {
    ThreeSteps(w, ReadToken, LoadJournal(made), Begin);
  }

  /** of a new one if there is none, */
  lemma AsksNew(w: World, made: Journal)
    requires w.pc.Idle? && !w.gone && w.disk.journal.None? && Fresh(w, made) && w.disk.token != made.next
    ensures Run(w, Asking(made)) == Asked(WithJournal(w, made), made)
  {
    assert Fresh(Do(w, ReadToken), made);
    ThreeSteps(w, ReadToken, LoadJournal(made), Begin);
  }

  /** or removes a journal whose token is already the one on disk. */
  lemma FinishesOld(w: World, made: Journal)
    requires w.pc.Idle? && !w.gone && w.disk.journal.Some? && w.disk.token == w.disk.journal.value.next
    ensures Run(w, Asking(made)) == w.(disk := Disk(w.disk.token, None))
  {
    ThreeSteps(w, ReadToken, LoadJournal(made), Begin);
  }

  /** The service has versions and room left, and a clock in range. */
  predicate InService(db: Db, now: nat, versions: nat) {
    && db.head.Some? && db.head.value.version + versions <= U64_MAX
    && |db.head.value.grants| < 4096 && now < I64_MAX
  }

  /** The answer of the service is there, and the tables have moved by at most `versions`. */
  predicate Answered(w: World, t: World, versions: nat) {
    && t == w.(db := t.db, replies := t.replies)
    && w.db.head.Some? && t.db.head.Some? && t.db.head.value.version <= w.db.head.value.version + versions
  }

  predicate Waiting(w: World, j: Journal) {
    && w.pc == AwaitIssued(j) && w.disk.journal == Some(j) && w.disk.token != j.next && !w.gone
    && Enroll(j.request, w.disk.token, j.next, j.csr) in w.sent
  }

  /** An accepted token, time and room are enough. */
  lemma NewIsIssued(db: Db, c: Candidate, now: nat, row: Option<Fingerprint>)
    requires Inv(db) && AnswersRenewalQuery(db, c.presented, row) && RequestRow(db, c.request).None?
    requires AuthenticateToken(db, c.presented, c.agent, c.tunnel, now, row).Ok?
    requires InTime(c, now) && HasRoom(db, c.fingerprint)
    ensures var txn := CommitIssuance(db, c, now, row);
            && txn.reply.Ok? && txn.reply.value.fingerprint == c.fingerprint && c.fingerprint in txn.db.credentials
            && txn.db.head.Some? && txn.db.head.value.version == db.head.value.version + 1
            && var d := txn.db.credentials[c.fingerprint];
               d.terms.request == c.request && d.state.Pending? && d.terms.deadline == c.deadline
  {
    TokenIsGood(db, c.presented, c.agent, c.tunnel, now, row);
    IssuanceSucceeds(db, c, now, row);
    IssuanceAdds(db, c, now, row);
  }

  /** A new request with an accepted token is issued a credential, with time to activate it. */
  lemma ServesNew(w: World, j: Journal, now: nat, row: Option<Fingerprint>) returns (step: Step, issuance: Issuance)
    requires Inv(w.db) && Waiting(w, j) && Status(w.db, j.request) == None && InService(w.db, now, 1)
    requires AnswersRenewalQuery(w.db, Sha256(w.disk.token), row) && TokenAccepted(w, now, row)
    ensures var t := Do(w, step);
            && Answered(w, t, 1) && Issued(j.request, Ok(issuance)) in t.replies
            && OnTime(t.db, j.request, issuance.fingerprint, now)
  {
    var m := Enroll(j.request, w.disk.token, j.next, j.csr);
    var fp := FreshFingerprint(w.db);
    var c := CandidateFor(w.ledger.me, m, [], fp, now + 1, now + 1);
    StatusNone(w.db, j.request);
    NewIsIssued(w.db, c, now, row);
    step := ServeCommit(m, [], fp, now + 1, now + 1, now, row);
    issuance := CommitIssuance(w.db, c, now, row).reply.value;
    ServesCommit(w, m, fp, now, row);
  }

  lemma ServesCommit(w: World, m: Message, fp: Fingerprint, now: nat, row: Option<Fingerprint>)
    requires m in w.sent && m.Enroll? && AnswersRenewalQuery(w.db, Sha256(m.token), row)
    ensures Do(w, ServeCommit(m, [], fp, now + 1, now + 1, now, row))
            == AnswerEnroll(w, m, CandidateFor(w.ledger.me, m, [], fp, now + 1, now + 1), now, row)
  {
  }

  /** The request's credential is Pending, with time to activate it. */
  predicate OnTime(db: Db, r: RequestId, fp: Fingerprint, now: nat) {
    && fp in db.credentials && db.credentials[fp].terms.request == r
    && db.credentials[fp].state.Pending? && now < db.credentials[fp].terms.deadline
  }

  /** A request that has a live credential is answered with it. */
  lemma ServesStored(w: World, j: Journal, now: nat, row: Option<Fingerprint>) returns (step: Step, issuance: Issuance)
    requires WorldOk(w) && Waiting(w, j) && AnswersRenewalQuery(w.db, Sha256(w.disk.token), row) && w.db.head.Some?
    requires Status(w.db, j.request) == Some(Pending) || Status(w.db, j.request) == Some(Active)
    ensures var t := Do(w, step);
            && Answered(w, t, 0) && t.db == w.db && Issued(j.request, Ok(issuance)) in t.replies
            && Holds(w.db, j.request, issuance)
  {
    var m := Enroll(j.request, w.disk.token, j.next, j.csr);
    JournalAnswer(w, now, row);
    step := ServePreflight(m, now, row);
    issuance := Preflight(w, m, now, row).value.value;
  }

  /** A request whose credential has expired is told so. */
  lemma ServesExpired(w: World, j: Journal, now: nat, row: Option<Fingerprint>) returns (step: Step)
    requires WorldOk(w) && Waiting(w, j) && AnswersRenewalQuery(w.db, Sha256(w.disk.token), row) && w.db.head.Some?
    requires Status(w.db, j.request) == Some(Expired)
    ensures var t := Do(w, step);
            Answered(w, t, 0) && t.db == w.db && Issued(j.request, Err(RequestExpired)) in t.replies
  {
    step := ServePreflight(Enroll(j.request, w.disk.token, j.next, j.csr), now, row);
    var fp := StatusRow(w.db, j.request);
    JournalRow(w, fp);
  }

  // ---------------------------------------------------- the rest of a rotation

  function Taken(w: World, j: Journal, issuance: Issuance): World {
    w.(pc := AwaitActivated(j), sent := w.sent + {Activating(j.request, j.next, issuance.fingerprint)},
       bundles := w.bundles + [Bundle(issuance.generation, issuance.certificate, j.key)])
  }

  function Taking(j: Journal, issuance: Issuance): seq<Step> {
    [ReceiveIssued(Issued(j.request, Ok(issuance))), PublishBundle, SendActivate]
  }

  /** An issued credential is published, and its activation asked for. */
  lemma Takes(w: World, j: Journal, issuance: Issuance)
    requires w.pc == AwaitIssued(j) && Issued(j.request, Ok(issuance)) in w.replies
    ensures Run(w, Taking(j, issuance)) == Taken(w, j, issuance)
  {
    ThreeSteps(w, ReceiveIssued(Issued(j.request, Ok(issuance))), PublishBundle, SendActivate);
  }

  function Completing(j: Journal, version: nat): seq<Step> {
    [ReceiveActivated(Activated(j.request, Ok(version))), RemoveToken] + [WriteToken, RemoveJournal]
  }

  lemma TwoSteps(w: World, a: Step, b: Step)
    ensures Run(w, [a, b]) == Do(Do(w, a), b)
  {
    assert [a, b][1..] == [b];
    RunOne(Do(w, a), b);
  }

  lemma RemovesToken(w: World, j: Journal, version: nat)
    requires w.pc == AwaitActivated(j) && Activated(j.request, Ok(version)) in w.replies
    ensures Run(w, [ReceiveActivated(Activated(j.request, Ok(version))), RemoveToken])
            == w.(gone := true, pc := TokenRemoved(j))
  {
    TwoSteps(w, ReceiveActivated(Activated(j.request, Ok(version))), RemoveToken);
  }

  lemma PutsToken(w: World, j: Journal)
    requires w.pc == TokenRemoved(j)
    ensures Run(w, [WriteToken, RemoveJournal]) == w.(disk := Disk(j.next, None), gone := false, pc := Idle)
  {
    TwoSteps(w, WriteToken, RemoveJournal);
  }

  /** A confirmed activation puts the next token on disk and removes the journal. */
  lemma Completes(w: World, j: Journal, version: nat)
    requires w.pc == AwaitActivated(j) && Activated(j.request, Ok(version)) in w.replies
    ensures Run(w, Completing(j, version)) == w.(disk := Disk(j.next, None), gone := false, pc := Idle)
  {
    RunAppend(w, [ReceiveActivated(Activated(j.request, Ok(version))), RemoveToken], [WriteToken, RemoveJournal]);
    RemovesToken(w, j, version);
    PutsToken(w.(gone := true, pc := TokenRemoved(j)), j);
  }

  function Replaced(w: World, again: Journal): World {
    WithJournal(w.(disk := Disk(w.disk.token, None)), again).(pc := Idle)
  }

  /** The word that a request has expired, */
  predicate SaysExpired(w: World, said: Step) {
    || (w.pc.AwaitIssued? && said == ReceiveIssued(Issued(w.pc.journal.request, Err(RequestExpired))) && said.reply in w.replies)
    || (w.pc.AwaitActivated? && said == ReceiveActivated(Activated(w.pc.journal.request, Err(RequestExpired)))
        && said.reply in w.replies)
  }

  /** puts a fresh journal in place of its own. */
  lemma Replaces(w: World, said: Step, again: Journal)
    requires SaysExpired(w, said) && Fresh(w, again)
    ensures Run(w, [said, ReplaceJournal(again)]) == Replaced(w, again)
  {
    var dropped := w.(disk := Disk(w.disk.token, None), pc := Replacing);
    assert Do(w, said) == dropped && Fresh(dropped, again);
    TwoSteps(w, said, ReplaceJournal(again));
  }

  /** The service confirms an activation that comes in time, or again. */
  lemma ServesActivation(w: World, j: Journal, fp: Fingerprint, now: nat) returns (version: nat)
    requires Inv(w.db) && w.db.head.Some? && w.db.head.value.version < U64_MAX
    requires Activating(j.request, j.next, fp) in w.sent && Names(w.db, j.request, Sha256(j.next), fp)
    requires w.db.credentials[fp].state.Active? || OnTime(w.db, j.request, fp, now)
    ensures var t := Do(w, ServeActivate(Activating(j.request, j.next, fp), now));
            t == w.(db := t.db, replies := t.replies) && Activated(j.request, Ok(version)) in t.replies
  {
    ActivationSucceeds(w.db, j.request, Sha256(j.next), fp, now);
    version := Activate(w.db, j.request, Sha256(j.next), fp, now).reply.value;
  }

  /** And expires one that comes too late. */
  lemma ServesLate(w: World, j: Journal, fp: Fingerprint, now: nat)
    requires Inv(w.db) && InService(w.db, now, 1)
    requires Activating(j.request, j.next, fp) in w.sent && Names(w.db, j.request, Sha256(j.next), fp)
    requires w.db.credentials[fp].state.Pending? && w.db.credentials[fp].terms.deadline <= now
    ensures var t := Do(w, ServeActivate(Activating(j.request, j.next, fp), now));
            && Answered(w, t, 1) && Activated(j.request, Err(RequestExpired)) in t.replies
            && |t.db.head.value.grants| <= |w.db.head.value.grants|
  {
    LateActivationExpires(w.db, j.request, Sha256(j.next), fp, now);
    var after := Activate(w.db, j.request, Sha256(j.next), fp, now).db;
    assert after.head.value.grants == w.db.head.value.grants - {fp};
    Subset(after.head.value.grants.Keys, w.db.head.value.grants.Keys);
  }

  // ------------------------------------------------------------------- the goal

  /** A rotation is complete: a token that was not on disk before is there alone, its
      credential is Active, and the last bundle published is that credential's. */
  ghost predicate Renewed(w: World, end: World) {
    && end.pc.Idle? && !end.gone && end.disk.journal.None? && end.disk.token != w.disk.token
    && Sha256(end.disk.token) in end.ledger.owner
    && match end.ledger.owner[Sha256(end.disk.token)]
       case None => false
       case Some(r) =>
         && Status(end.db, r) == Some(Active) && end.bundles != []
         && exists fp :: IsRequestRow(end.db, r, fp)
                         && IsOrigin(end.ledger.attempts, end.db.credentials, fp, end.bundles[|end.bundles| - 1])
  }

  lemma IsRenewed(w: World, end: World, j: Journal, issuance: Issuance)
    requires WorldOk(end) && end.pc.Idle? && !end.gone && end.disk == Disk(j.next, None) && j.next != w.disk.token
    requires j.request in end.ledger.attempts && end.ledger.attempts[j.request].journal == j
    requires Holds(end.db, j.request, issuance) && end.bundles != []
    requires end.bundles[|end.bundles| - 1] == Bundle(issuance.generation, issuance.certificate, j.key)
    ensures Renewed(w, end)
  {
    PcHolds(end);
    assert IsRequestRow(end.db, j.request, issuance.fingerprint);
    assert IsOrigin(end.ledger.attempts, end.db.credentials, issuance.fingerprint, end.bundles[|end.bundles| - 1]);
  }

  lemma NextIsOthers(w: World, j: Journal)
    requires WorldOk(w) && j.request in w.ledger.attempts && w.ledger.attempts[j.request].journal == j
    ensures Sha256(j.next) in w.ledger.owner && w.ledger.owner[Sha256(j.next)] == Some(j.request)
  {
  }

  /** What a world says of the journal its program works with. */
  lemma JournalHolds(w: World, j: Journal, issuance: Issuance)
    requires WorldOk(w) && w.disk.journal == Some(j) && Issued(j.request, Ok(issuance)) in w.replies
    ensures j.request in w.ledger.attempts && w.ledger.attempts[j.request].journal == j
    ensures Holds(w.db, j.request, issuance) && Names(w.db, j.request, Sha256(j.next), issuance.fingerprint)
  {
    PcHolds(w);
    assert ReplyOk(Look(w.ledger, w.db), w.db, Issued(j.request, Ok(issuance)));
    assert RowOk(w.ledger, issuance.fingerprint, w.db.credentials[issuance.fingerprint]);
  }

  // --------------------------------------------------------------------- calls

  /** Where an exchange stands once its request has been issued a credential. */
  ghost predicate HasAnswer(w: World, j: Journal, issuance: Issuance, now: nat) {
    && WorldOk(w) && w.pc == AwaitIssued(j) && w.disk.journal == Some(j) && w.disk.token != j.next && !w.gone
    && Issued(j.request, Ok(issuance)) in w.replies
    && w.db.head.Some? && w.db.head.value.version < U64_MAX
    && (Status(w.db, j.request) == Some(Active) || OnTime(w.db, j.request, issuance.fingerprint, now))
  }

  /** The activation of the journal's request, asked for and confirmed. */
  lemma Activates(w: World, j: Journal, issuance: Issuance, now: nat) returns (active: World, version: nat)
    requires HasAnswer(w, j, issuance, now)
    ensures active == Run(w, Taking(j, issuance) + [ServeActivate(Activating(j.request, j.next, issuance.fingerprint), now)])
    ensures active == Taken(w, j, issuance).(db := active.db, replies := active.replies)
    ensures Activated(j.request, Ok(version)) in active.replies
  {
    var taken := Taken(w, j, issuance);
    JournalHolds(w, j, issuance);
    InvHolds(w);
    UniqueIn(w.db);
    StatusAt(w.db, issuance.fingerprint);
    Takes(w, j, issuance);
    version := ServesActivation(taken, j, issuance.fingerprint, now);
    var serve := ServeActivate(Activating(j.request, j.next, issuance.fingerprint), now);
    RunAppend(w, Taking(j, issuance), [serve]);
    RunOne(taken, serve);
    active := Do(taken, serve);
  }

  /** From an answered request eight steps complete the rotation. */
  lemma FromAnswer(w: World, j: Journal, issuance: Issuance, now: nat) returns (steps: seq<Step>)
    requires HasAnswer(w, j, issuance, now)
    ensures Renewed(w, Run(w, steps)) && |steps| == 8
  {
    var first := Taking(j, issuance) + [ServeActivate(Activating(j.request, j.next, issuance.fingerprint), now)];
    var active, version := Activates(w, j, issuance, now);
    Completes(active, j, version);
    steps := first + Completing(j, version);
    RunAppend(w, first, Completing(j, version));
    var end := Run(w, steps);
    JournalHolds(w, j, issuance);
    RunKeepsWorld(w, steps);
    HoldsOn(w, first, j.request, issuance);
    IsRenewed(w, end, j, issuance);
  }

  /** Rows keep their terms, whatever happens. */
  lemma {:induction false} HoldsOn(w: World, steps: seq<Step>, r: RequestId, issuance: Issuance)
    requires WorldOk(w) && Holds(w.db, r, issuance)
    ensures Holds(Run(w, steps).db, r, issuance)
    decreases |steps|
  {
    if steps != [] {
      StepKeepsWorld(w, steps[0]);
      StepHolds(w, steps[0], r, issuance);
      HoldsOn(Do(w, steps[0]), steps[1..], r, issuance);
    }
  }

  lemma StepHolds(w: World, step: Step, r: RequestId, issuance: Issuance)
    requires WorldOk(w) && Holds(w.db, r, issuance)
    ensures Holds(Do(w, step).db, r, issuance)
  {
    InvHolds(w);
    TablesAfter(w, step);
    match OpOf(w, step)
    case Some(op) =>
      StepKeepsInvariant(w.db, op);
      HoldsKept(w.db, Apply(w.db, op), r, issuance);
    case None =>
  }

  /** The Agent rests, its token file is there, and the service is in a state to serve it. */
  ghost predicate AtRest(w: World, now: nat, versions: nat) {
    WorldOk(w) && w.pc.Idle? && !w.gone && InService(w.db, now, versions)
  }

  /** The token is accepted whatever the query answers, here once. */
  ghost predicate Accepted(w: World, now: nat, row: Option<Fingerprint>) {
    AnswersRenewalQuery(w.db, Sha256(w.disk.token), row) && TokenAccepted(w, now, row)
  }

  /** The request that a call sends out has no credential yet. */
  ghost predicate AsksAnew(w: World) {
    w.disk.journal.Some? ==> w.disk.token != w.disk.journal.value.next && Status(w.db, w.disk.journal.value.request) == None
  }

  lemma FreshHasNoRow(w: World, j: Journal)
    requires Fresh(w, j)
    ensures Status(w.db, j.request) == None
  {
    if Status(w.db, j.request).Some? {
      var fp := StatusRow(w.db, j.request);
    }
  }

  /** The first three steps of a call that asks anew. */
  lemma AsksFresh(w: World, now: nat, row: Option<Fingerprint>) returns (asking: seq<Step>, j: Journal)
    requires AtRest(w, now, 1) && Accepted(w, now, row) && AsksAnew(w)
    ensures var asked := Run(w, asking);
            && |asking| == 3 && WorldOk(asked) && Waiting(asked, j) && asked.db == w.db && asked.disk.token == w.disk.token
            && Accepted(asked, now, row) && Status(asked.db, j.request) == None
  {
    var made := FreshJournal(w);
    asking := Asking(made);
    PcHolds(w);
    if w.disk.journal.Some? {
      j := w.disk.journal.value;
      AsksStored(w, made);
    } else {
      j := made;
      FreshHasNoRow(w, made);
      AsksNew(w, made);
    }
    RunKeepsWorld(w, asking);
  }

  /** A call that asks anew with an accepted token completes. */
  lemma FromFresh(w: World, now: nat, row: Option<Fingerprint>) returns (steps: seq<Step>)
    requires AtRest(w, now, 2) && Accepted(w, now, row) && AsksAnew(w)
    ensures Renewed(w, Run(w, steps)) && |steps| == 12
  {
    var asking, j := AsksFresh(w, now, row);
    var asked := Run(w, asking);
    InvHolds(asked);
    var serve, issuance := ServesNew(asked, j, now, row);
    StepKeepsWorld(asked, serve);
    var rest := FromAnswer(Do(asked, serve), j, issuance, now);
    steps := asking + ([serve] + rest);
    RunAppend(w, asking, [serve] + rest);
    RunAppend(asked, [serve], rest);
    RunOne(asked, serve);
  }

  /** A call whose request has a credential that is alive and in time completes. */
  lemma FromStored(w: World, now: nat, fp: Fingerprint) returns (steps: seq<Step>)
    requires AtRest(w, now, 1) && w.disk.journal.Some? && w.disk.token != w.disk.journal.value.next
    requires IsRequestRow(w.db, w.disk.journal.value.request, fp)
    requires w.db.credentials[fp].state.Active? || OnTime(w.db, w.disk.journal.value.request, fp, now)
    ensures Renewed(w, Run(w, steps)) && |steps| == 12
  {
    var j := w.disk.journal.value;
    InvHolds(w);
    UniqueIn(w.db);
    StatusAt(w.db, fp);
    var row := SomeAnswer(w.db, Sha256(w.disk.token));
    AsksStored(w, j);
    var asked := Asked(w, j);
    RunKeepsWorld(w, Asking(j));
    var serve, issuance := ServesStored(asked, j, now, row);
    StepKeepsWorld(asked, serve);
    var rest := FromAnswer(Do(asked, serve), j, issuance, now);
    steps := Asking(j) + ([serve] + rest);
    RunAppend(w, Asking(j), [serve] + rest);
    RunAppend(asked, [serve], rest);
    RunOne(asked, serve);
  }

  /** A call whose request has expired is told so, and leaves a fresh journal in its place,
      which the next call asks anew with. */
  lemma FromExpired(w: World, now: nat, row: Option<Fingerprint>) returns (steps: seq<Step>)
    requires AtRest(w, now, 2) && Accepted(w, now, row)
    requires w.disk.journal.Some? && w.disk.token != w.disk.journal.value.next
    requires Status(w.db, w.disk.journal.value.request) == Some(Expired)
    ensures Renewed(w, Run(w, steps)) && |steps| == 18
  {
    var j := w.disk.journal.value;
    AsksStored(w, j);
    var asked := Asked(w, j);
    RunKeepsWorld(w, Asking(j));
    var serve := ServesExpired(asked, j, now, row);
    var told := Do(asked, serve);
    StepKeepsWorld(asked, serve);
    var said := ReceiveIssued(Issued(j.request, Err(RequestExpired)));
    var again := FreshJournal(told);
    Replaces(told, said, again);
    var next := Replaced(told, again);
    RunKeepsWorld(told, [said, ReplaceJournal(again)]);
    ReplacedAsksAnew(told, again);
    var rest := FromFresh(next, now, row);
    steps := Asking(j) + ([serve] + ([said, ReplaceJournal(again)] + rest));
    RunAppend(w, Asking(j), [serve] + ([said, ReplaceJournal(again)] + rest));
    RunAppend(asked, [serve], [said, ReplaceJournal(again)] + rest);
    RunOne(asked, serve);
    RunAppend(told, [said, ReplaceJournal(again)], rest);
  }

  lemma ReplacedAsksAnew(w: World, again: Journal)
    requires WorldOk(w) && Fresh(w, again)
    ensures AsksAnew(Replaced(w, again))
  {
    PcHolds(w);
    FreshHasNoRow(w, again);
  }

  /** Without a live request in the journal, the token itself is accepted. */
  lemma TokenIsAccepted(w: World, now: nat) returns (row: Option<Fingerprint>)
    requires WorldOk(w) && !Stuck(w, now)
    requires w.disk.journal.Some? && w.disk.token != w.disk.journal.value.next ==>
               var s := Status(w.db, w.disk.journal.value.request); s != Some(Pending) && s != Some(Active)
    ensures Accepted(w, now, row)
  {
    row := SomeAnswer(w.db, Sha256(w.disk.token));
    if w.disk.journal.Some? && w.disk.token == w.disk.journal.value.next {
      StartIsNobodysNext(w);
      RenewalRecovers(w, now, row);
    } else {
      if w.disk.journal.Some? { JournalAnswer(w, now, row); }
      if Booting(w.ledger, w.disk.token) { BootstrapRecovers(w, now, row); } else { RenewalRecovers(w, now, row); }
    }
  }

  /** A journal whose token is on disk already is removed first. */
  lemma FromOld(w: World, now: nat) returns (steps: seq<Step>)
    requires AtRest(w, now, 2) && !Stuck(w, now)
    requires w.disk.journal.Some? && w.disk.token == w.disk.journal.value.next
    ensures Renewed(w, Run(w, steps)) && |steps| == 15
  {
    var j := w.disk.journal.value;
    var row := TokenIsAccepted(w, now);
    FinishesOld(w, j);
    RunKeepsWorld(w, Asking(j));
    var rest := FromFresh(w.(disk := Disk(w.disk.token, None)), now, row);
    steps := Asking(j) + rest;
    RunAppend(w, Asking(j), rest);
  }

  /** An exchange that comes too late for its credential leaves a fresh journal. */
  lemma RunsLate(w: World, now: nat, fp: Fingerprint) returns (steps: seq<Step>, next: World)
    requires AtRest(w, now, 3) && w.disk.journal.Some? && w.disk.token != w.disk.journal.value.next
    requires IsRequestRow(w.db, w.disk.journal.value.request, fp)
    requires w.db.credentials[fp].state.Pending? && w.db.credentials[fp].terms.deadline <= now
    ensures next == Run(w, steps) && |steps| == 10 && AtRest(next, now, 2) && AsksAnew(next) && next.disk.journal.Some?
    ensures next.disk.token == w.disk.token
  {
    var j := w.disk.journal.value;
    var taken, first := AsksAndTakes(w, now, fp);
    var serve := ServeActivate(Activating(j.request, j.next, fp), now);
    InvHolds(taken);
    ServesLate(taken, j, fp, now);
    StepKeepsWorld(taken, serve);
    var told := Do(taken, serve);
    var said := ReceiveActivated(Activated(j.request, Err(RequestExpired)));
    var again := FreshJournal(told);
    Replaces(told, said, again);
    RunKeepsWorld(told, [said, ReplaceJournal(again)]);
    ReplacedAsksAnew(told, again);
    next := Replaced(told, again);
    steps := first + ([serve] + [said, ReplaceJournal(again)]);
    RunAppend(w, first, [serve] + [said, ReplaceJournal(again)]);
    RunAppend(taken, [serve], [said, ReplaceJournal(again)]);
    RunOne(taken, serve);
  }

  /** A stored request is sent, answered with its credential, and that published. */
  lemma AsksAndTakes(w: World, now: nat, fp: Fingerprint) returns (taken: World, steps: seq<Step>)
    requires AtRest(w, now, 1) && w.disk.journal.Some? && w.disk.token != w.disk.journal.value.next
    requires IsRequestRow(w.db, w.disk.journal.value.request, fp) && Live(w.db.credentials[fp].state)
    ensures var j := w.disk.journal.value;
            && taken == Run(w, steps) && |steps| == 7 && WorldOk(taken) && taken.db == w.db && taken.disk == w.disk && !taken.gone
            && taken.pc == AwaitActivated(j) && Activating(j.request, j.next, fp) in taken.sent
            && Names(taken.db, j.request, Sha256(j.next), fp)
  {
    var j := w.disk.journal.value;
    InvHolds(w);
    UniqueIn(w.db);
    StatusAt(w.db, fp);
    var row := SomeAnswer(w.db, Sha256(w.disk.token));
    AsksStored(w, j);
    var asked := Asked(w, j);
    RunKeepsWorld(w, Asking(j));
    var serve, issuance := ServesStored(asked, j, now, row);
    var told := Do(asked, serve);
    StepKeepsWorld(asked, serve);
    JournalHolds(told, j, issuance);
    Takes(told, j, issuance);
    taken := Taken(told, j, issuance);
    RunKeepsWorld(told, Taking(j, issuance));
    steps := Asking(j) + ([serve] + Taking(j, issuance));
    RunAppend(w, Asking(j), [serve] + Taking(j, issuance));
    RunAppend(asked, [serve], Taking(j, issuance));
    RunOne(asked, serve);
  }

  /** With a renewal token that costs one more call and no more. */
  lemma FromLate(w: World, now: nat, fp: Fingerprint) returns (steps: seq<Step>)
    requires AtRest(w, now, 3) && w.disk.journal.Some? && w.disk.token != w.disk.journal.value.next
    requires IsRequestRow(w.db, w.disk.journal.value.request, fp) && !Booting(w.ledger, w.disk.token)
    requires w.db.credentials[fp].state.Pending? && w.db.credentials[fp].terms.deadline <= now
    ensures Renewed(w, Run(w, steps)) && |steps| == 22
  {
    var first, next := RunsLate(w, now, fp);
    RunKeepsWorld(w, first);
    var row := SomeAnswer(next.db, Sha256(next.disk.token));
    JournalAnswer(next, now, row);
    RenewalRecovers(next, now, row);
    var rest := FromFresh(next, now, row);
    steps := first + rest;
    RunAppend(w, first, rest);
  }

  /** The one request that a bootstrap token has made is Pending, and its time is over. */
  ghost predicate OutOfTime(w: World, now: nat) {
    && Booting(w.ledger, w.disk.token) && w.disk.journal.Some?
    && exists fp :: IsRequestRow(w.db, w.disk.journal.value.request, fp)
                    && w.db.credentials[fp].state.Pending? && w.db.credentials[fp].terms.deadline <= now
  }

  lemma FromRest(w: World, now: nat) returns (steps: seq<Step>)
    requires AtRest(w, now, 3) && !Stuck(w, now) && !OutOfTime(w, now)
    ensures Renewed(w, Run(w, steps)) && |steps| <= 22
  {
    PcHolds(w);
    if w.disk.journal.None? {
      var row := TokenIsAccepted(w, now);
      steps := FromFresh(w, now, row);
    } else if w.disk.token == w.disk.journal.value.next {
      steps := FromOld(w, now);
    } else {
      steps := FromJournal(w, now);
    }
  }

  lemma FromJournal(w: World, now: nat) returns (steps: seq<Step>)
    requires AtRest(w, now, 3) && !Stuck(w, now) && !OutOfTime(w, now)
    requires w.disk.journal.Some? && w.disk.token != w.disk.journal.value.next
    ensures Renewed(w, Run(w, steps)) && |steps| <= 22
  {
    PcHolds(w);
    var r := w.disk.journal.value.request;
    match Status(w.db, r)
    case None =>
      var row := TokenIsAccepted(w, now);
      steps := FromFresh(w, now, row);
    case Some(state) =>
      var fp := StatusRow(w.db, r);
      assert IsRequestRow(w.db, r, fp);
      if state.Expired? {
        var row := TokenIsAccepted(w, now);
        steps := FromExpired(w, now, row);
      } else if state.Pending? && w.db.credentials[fp].terms.deadline <= now {
        steps := FromLate(w, now, fp);
      } else {
        steps := FromStored(w, now, fp);
      }
  }

  lemma FromAnywhere(w: World, now: nat) returns (more: seq<Step>)
    requires WorldOk(w) && !w.gone && !Stuck(w, now) && !OutOfTime(w, now) && InService(w.db, now, 3)
    ensures Renewed(w, Run(Do(w, Crash), more)) && |more| <= 22
  {
    Stops(w, now);
    more := FromRest(w.(pc := Idle), now);
  }

  lemma Stops(w: World, now: nat)
    requires WorldOk(w) && !w.gone && !Stuck(w, now) && !OutOfTime(w, now) && InService(w.db, now, 3)
    ensures AtRest(w.(pc := Idle), now, 3) && !Stuck(w.(pc := Idle), now) && !OutOfTime(w.(pc := Idle), now)
    ensures Do(w, Crash) == w.(pc := Idle)
  {
    PcStep(w, Idle);
  }

  /** Progress. In every run from a first start, wherever the Agent stops, if its token file
      is there and it is not stuck, then at most 22 steps of two calls and of the service,
      which answers each of them at time `now`, end with a new token on disk whose
      credential is Active and whose bundle is the last one published. The service must
      have three versions and one certificate left, and a bootstrap token's own request
      must still be in time. */
  lemma RotationProgresses(w: World, steps: seq<Step>, now: nat) returns (more: seq<Step>)
    requires Start(w) && !Run(w, steps).gone && !Stuck(Run(w, steps), now) && !OutOfTime(Run(w, steps), now)
    requires InService(Run(w, steps).db, now, 3)
    ensures Renewed(Run(w, steps), Run(Do(Run(w, steps), Crash), more)) && |more| <= 22
  {
    StartIsOk(w);
    RunKeepsWorld(w, steps);
    more := FromAnywhere(Run(w, steps), now);
  }

  // --------------------------------------------------------- and its one limit

  lemma ConsumedStays(db: Db, op: Op, h: TokenHash)
    requires h in db.tokens && db.tokens[h].consumed
    ensures h in Apply(db, op).tokens && Apply(db, op).tokens[h].consumed
  {
    match op
    case Activation(request, renewal, fp, now) => ActivationKeepsTokens(db, request, renewal, fp, now);
    case _ =>
  }

  lemma ActivationKeepsTokens(db: Db, request: RequestId, renewal: TokenHash, fp: Fingerprint, now: nat)
    ensures Activate(db, request, renewal, fp, now).db.tokens == db.tokens
  {
  }

  lemma ExpiredStays(db: Db, op: Op, r: RequestId)
    requires Inv(db) && Status(db, r) == Some(Expired)
    ensures Status(Apply(db, op), r) == Some(Expired)
  {
    StepKeepsInvariant(db, op);
    UniqueIn(Apply(db, op));
    var fp := StatusRow(db, r);
    assert RowEvolves(db.credentials[fp], Apply(db, op).credentials[fp]);
    StatusAt(Apply(db, op), fp);
  }

  /** The bootstrap token on disk was used up by a request that has expired. */
  ghost predicate UsedUp(w: World, r: RequestId) {
    && WorldOk(w) && Booting(w.ledger, w.disk.token) && Sha256(w.ledger.start) in w.db.tokens
    && w.db.tokens[Sha256(w.ledger.start)].consumed
    && r in w.ledger.attempts && w.ledger.attempts[r].auth == w.ledger.start && Status(w.db, r) == Some(Expired)
  }

  /** No other request of the token can have been activated. */
  lemma NotReplacing(w: World, r: RequestId)
    requires UsedUp(w, r)
    ensures !w.pc.TokenRemoved?
  {
    PcHolds(w);
    if w.pc.TokenRemoved? {
      var l, v := w.ledger, Look(w.ledger, w.db);
      assert Booted(l, v, r) && Booted(l, v, w.pc.journal.request);
    }
  }

  lemma AttemptsGrow(w: World, step: Step, r: RequestId)
    requires r in w.ledger.attempts
    ensures var l := Do(w, step).ledger; r in l.attempts && l.attempts[r] == w.ledger.attempts[r]
  {
  }

  lemma TokenStays(w: World, step: Step)
    requires !w.pc.TokenRemoved?
    ensures Do(w, step).disk.token == w.disk.token
  {
  }

  lemma StepKeepsUsedUp(w: World, step: Step, r: RequestId)
    requires UsedUp(w, r)
    ensures UsedUp(Do(w, step), r)
  {
    StepKeepsWorld(w, step);
    StepKeepsStart(w, step);
    NotReplacing(w, r);
    TokenStays(w, step);
    AttemptsGrow(w, step, r);
    TablesAfter(w, step);
    InvHolds(w);
    match OpOf(w, step)
    case Some(op) =>
      ConsumedStays(w.db, op, Sha256(w.ledger.start));
      ExpiredStays(w.db, op, r);
    case None =>
  }

  lemma {:induction false} RunKeepsUsedUp(w: World, steps: seq<Step>, r: RequestId)
    requires UsedUp(w, r)
    ensures UsedUp(Run(w, steps), r)
    decreases |steps|
  {
    if steps != [] {
      StepKeepsUsedUp(w, steps[0], r);
      RunKeepsUsedUp(Do(w, steps[0]), steps[1..], r);
    }
  }

  /** An Agent whose bootstrap token was used up by a request that expired is stuck for
      good: no run gets it another token. */
  lemma UsedUpIsForever(w: World, steps: seq<Step>, r: RequestId, now: nat)
    requires UsedUp(w, r)
    ensures Stuck(Run(w, steps), now) && Run(w, steps).disk.token == w.disk.token && !Renewed(w, Run(w, steps))
  {
    RunKeepsUsedUp(w, steps, r);
    RunKeepsWorld(w, steps);
    var end := Run(w, steps);
    assert r in end.ledger.attempts && end.ledger.attempts[r].auth == end.ledger.start && Status(end.db, r) == Some(Expired);
  }
}
