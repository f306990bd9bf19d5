/** The promise of the rotation journal, over every run. */
module RotationRecovery {
  import opened Primitives
  import opened Snapshots
  import opened Enrollment
  import opened EnrollmentInvariants
  import opened EnrollmentRuns
  import opened Rotation
  import opened RotationLedger
  import opened RotationViews
  import opened RotationSafety

  /** Nobody has used the first token for a request that is still alive, and no other
      credential carries it. */
  ghost predicate Unused(w: World, start: TokenHash) {
    forall fp {:trigger w.db.credentials[fp]} | fp in w.db.credentials ::
      && (w.db.credentials[fp].terms.renewalHash == start ==> w.ledger.root == Some(fp))
      && (w.db.credentials[fp].terms.authHash == start ==> !Live(w.db.credentials[fp].state))
  }

  /** A first start: a token on disk, no journal, and tables in which the token is the
      renewal token of an Active credential or an unconsumed bootstrap token. */
  ghost predicate Start(w: World) {
    var l := w.ledger; var h := Sha256(w.ledger.start);
    && w.disk == Disk(l.start, None) && w.pc == Idle && w.sent == {} && w.replies == {} && w.bundles == []
    && !w.gone
    && l.attempts == map[] && l.owner == map[h := None]
    && Inv(w.db) && Unused(w, h)
    && match l.root
       case Some(fp) =>
         && h !in w.db.tokens && fp in w.db.credentials
         && w.db.credentials[fp].state.Active? && w.db.credentials[fp].terms.renewalHash == h
         && BoundTo(w.db.credentials[fp], l.me.agent, l.me.tunnel)
       case None =>
         && h in w.db.tokens
         && Identity(w.db.tokens[h].agent, w.db.tokens[h].tunnel) == l.me
         && !w.db.tokens[h].consumed && !w.db.tokens[h].revoked
  }

  lemma StartIsOk(w: World)
    requires Start(w)
    ensures WorldOk(w)
  {
    forall fp | fp in w.db.credentials ensures RowOk(w.ledger, fp, w.db.credentials[fp]) {}
    assert RowsOk(w.ledger, w.db.credentials);
    assert ViewOk(w.ledger, Look(w.ledger, w.db), w.disk);
  }

  /** The Agent can go on from its files: `rotate` finds its token file, and the service
      takes the token or answers the journal with the issuance it already holds for it. */
  ghost predicate Recovers(w: World, now: nat, row: Option<Fingerprint>) {
    !w.gone && (TokenAccepted(w, now, row) || ReplayAccepted(w, now, row))
  }

  /** The service takes the token on disk. */
  predicate TokenAccepted(w: World, now: nat, row: Option<Fingerprint>) {
    AuthenticateToken(w.db, Sha256(w.disk.token), w.ledger.me.agent, w.ledger.me.tunnel, now, row).Ok?
  }

  /** The service answers the journal on disk with the issuance it already holds for it. */
  ghost predicate ReplayAccepted(w: World, now: nat, row: Option<Fingerprint>) {
    w.disk.journal.Some? &&
    var j := w.disk.journal.value;
    var answer := Preflight(w, Enroll(j.request, w.disk.token, j.next, j.csr), now, row);
    answer.Ok? && answer.value.Some? && Holds(w.db, j.request, answer.value.value)
  }

  /** The bootstrap token ran out unused, or the request that used it up has expired. */
  ghost predicate Stuck(w: World, now: nat) {
    var h := Sha256(w.ledger.start);
    && w.ledger.root.None? && w.disk.token == w.ledger.start && h in w.db.tokens
    && if w.db.tokens[h].consumed
       then exists r :: r in w.ledger.attempts && w.ledger.attempts[r].auth == w.ledger.start
                        && Status(w.db, r) == Some(Expired)
       else w.db.tokens[h].expires <= now
  }

  /** A live token is accepted, whatever row the query answers with. */
  lemma LiveRenewalAccepted(l: Ledger, db: Db, t: Token, now: nat, row: Option<Fingerprint>)
    requires LedgerOk(l) && DbOk(l, db) && UniqueRequests(db.credentials)
    requires TokenLive(l, Look(l, db), t) && !Booting(l, t)
    requires AnswersRenewalQuery(db, Sha256(t), row)
    ensures AuthenticateToken(db, Sha256(t), l.me.agent, l.me.tunnel, now, row).Ok?
  {
    var fp: Fingerprint;
    match l.owner[Sha256(t)] {
      case None => fp := l.root.value;
      case Some(r) =>
        fp := StatusRow(db, r);
        assert RowOk(l, fp, db.credentials[fp]);
    }
    assert IsRenewalRow(db, Sha256(t), fp);
    assert RowOk(l, row.value, db.credentials[row.value]);
  }

  lemma BootstrapAnswer(l: Ledger, db: Db, now: nat, row: Option<Fingerprint>)
    requires DbOk(l, db) && l.root.None?
    ensures AuthenticateToken(db, Sha256(l.start), l.me.agent, l.me.tunnel, now, row).Ok? <==>
            !db.tokens[Sha256(l.start)].consumed && now < db.tokens[Sha256(l.start)].expires
  {
  }

  /** The rows of the Agent's requests are as its ledger says. */
  lemma JournalRow(w: World, fp: Fingerprint)
    requires WorldOk(w) && w.disk.journal.Some? && w.disk.token != w.disk.journal.value.next
    requires IsRequestRow(w.db, w.disk.journal.value.request, fp)
    ensures var j, c := w.disk.journal.value, w.db.credentials[fp];
            && c.terms.authHash == Sha256(w.disk.token) && c.terms.renewalHash == Sha256(j.next)
            && BoundTo(c, w.ledger.me.agent, w.ledger.me.tunnel) && c.terms.csr == Sha256(j.csr)
  {
    assert RowOk(w.ledger, fp, w.db.credentials[fp]);
  }

  /** The replay of the journal is accepted exactly while its request is Pending or Active. */
  lemma JournalAnswer(w: World, now: nat, row: Option<Fingerprint>)
    requires WorldOk(w) && w.disk.journal.Some? && w.disk.token != w.disk.journal.value.next
    ensures ReplayAccepted(w, now, row) <==>
            var s := Status(w.db, w.disk.journal.value.request); s == Some(Pending) || s == Some(Active)
  {
    var r := w.disk.journal.value.request;
    UniqueIn(w.db);
    if Status(w.db, r).Some? {
      var fp := StatusRow(w.db, r);
      JournalRow(w, fp);
    } else {
      StatusNone(w.db, r);
    }
  }

  /** A token equal to the journal's next token is live, and so is a token whose
      journal is not Pending or Active, unless the bootstrap token is spent. */
  lemma LiveOrSpent(w: World)
    requires WorldOk(w)
    requires w.disk.journal.Some? && w.disk.token != w.disk.journal.value.next ==>
               var s := Status(w.db, w.disk.journal.value.request); s != Some(Pending) && s != Some(Active)
    ensures TokenOk(w.ledger, Look(w.ledger, w.db), w.disk.token)
  {
  }

  lemma RenewalRecovers(w: World, now: nat, row: Option<Fingerprint>)
    requires WorldOk(w) && AnswersRenewalQuery(w.db, Sha256(w.disk.token), row)
    requires !Booting(w.ledger, w.disk.token)
    ensures TokenAccepted(w, now, row) || ReplayAccepted(w, now, row)
    ensures w.disk.journal.Some? && w.disk.token == w.disk.journal.value.next ==> TokenAccepted(w, now, row)
  {
    UniqueIn(w.db);
    if w.disk.journal.Some? && w.disk.token != w.disk.journal.value.next {
      JournalAnswer(w, now, row);
    }
    if (w.disk.journal.Some? && w.disk.token == w.disk.journal.value.next) || !ReplayAccepted(w, now, row) {
      LiveOrSpent(w);
      LiveRenewalAccepted(w.ledger, w.db, w.disk.token, now, row);
    }
  }

  lemma SpentIsStuck(w: World, now: nat)
    requires WorldOk(w) && Spent(w.ledger, Look(w.ledger, w.db), w.disk.token)
    ensures Stuck(w, now)
  {
    var r :| ExpiredAttempt(w.ledger, Look(w.ledger, w.db), w.disk.token, r);
  }

  /** A bootstrap token's only request decides. */
  lemma StuckJournal(w: World, now: nat)
    requires WorldOk(w) && Stuck(w, now) && w.disk.journal.Some?
    ensures w.disk.token != w.disk.journal.value.next
    ensures var s := Status(w.db, w.disk.journal.value.request); s != Some(Pending) && s != Some(Active)
  {
    var l, v := w.ledger, Look(w.ledger, w.db);
    var q := w.disk.journal.value.request;
    assert Status(w.db, q).Some? ==> Booted(l, v, q);
    if v.consumed {
      var r :| r in l.attempts && l.attempts[r].auth == l.start && Status(w.db, r) == Some(Expired);
      assert Booted(l, v, r);
    }
  }

  lemma BootstrapRecovers(w: World, now: nat, row: Option<Fingerprint>)
    requires WorldOk(w) && Booting(w.ledger, w.disk.token)
    ensures TokenAccepted(w, now, row) || ReplayAccepted(w, now, row) <==> !Stuck(w, now)
  {
    BootstrapAnswer(w.ledger, w.db, now, row);
    if Stuck(w, now) {
      if w.disk.journal.Some? {
        StuckJournal(w, now);
        JournalAnswer(w, now, row);
      }
    } else if !TokenAccepted(w, now, row) {
      if Spent(w.ledger, Look(w.ledger, w.db), w.disk.token) { SpentIsStuck(w, now); }
      NotYetExpired(w);
      JournalAnswer(w, now, row);
    }
  }

  lemma NotYetExpired(w: World)
    requires WorldOk(w) && Booting(w.ledger, w.disk.token)
    requires Consumed(w.ledger, w.db) && !Spent(w.ledger, Look(w.ledger, w.db), w.disk.token)
    ensures w.disk.journal.Some? && w.disk.token != w.disk.journal.value.next
    ensures var s := Status(w.db, w.disk.journal.value.request); s == Some(Pending) || s == Some(Active)
  {
    assert !TokenOk(w.ledger, Look(w.ledger, w.db), w.disk.token);
  }

  /** The token file is missing only inside its replacement, or after a stop there. */
  predicate GoneOk(w: World) {
    && (w.pc.TokenRemoved? ==> w.gone)
    && (w.gone ==> w.pc.TokenRemoved? || w.pc.Idle?)
  }

  lemma {:induction false} RunKeepsGoneOk(w: World, steps: seq<Step>)
    requires GoneOk(w)
    ensures GoneOk(Run(w, steps))
    decreases |steps|
  {
    if steps != [] {
      StepKeepsGoneOk(w, steps[0]);
      RunKeepsGoneOk(Do(w, steps[0]), steps[1..]);
    }
  }

  lemma StepKeepsGoneOk(w: World, step: Step)
    requires GoneOk(w)
    ensures GoneOk(Do(w, step))
  {
  }

  /** Once an Agent has stopped there, its files stay as they are whatever happens. */
  lemma {:induction false} GoneIsForever(w: World, steps: seq<Step>)
    requires w.gone && w.pc.Idle?
    ensures Run(w, steps).gone && Run(w, steps).pc.Idle? && Run(w, steps).disk == w.disk
    decreases |steps|
  {
    if steps != [] { GoneIsForever(Do(w, steps[0]), steps[1..]); }
  }

  /** Crash-safe rotation. In every run from a first start, with any crashes, lost,
      late and repeated messages, expiries and operations of others, the Agent can go on
      from its files, except inside the replacement of the token file and after a stop
      there; a token that the journal already calls its next one is accepted. From a
      bootstrap token this holds until, and only until, that token runs out unused or
      the request made with it expires. */
  lemma RotationIsCrashSafe(w: World, steps: seq<Step>, now: nat, row: Option<Fingerprint>)
    requires Start(w)
    requires AnswersRenewalQuery(Run(w, steps).db, Sha256(Run(w, steps).disk.token), row)
    ensures var end := Run(w, steps);
            && (Recovers(end, now, row) <==> !Stuck(end, now) && !end.gone)
            && (w.ledger.root.Some? ==> !Stuck(end, now))
            && (end.gone ==> end.pc.TokenRemoved? || end.pc.Idle?)
            && (end.disk.journal.Some? && end.disk.token == end.disk.journal.value.next ==> TokenAccepted(end, now, row))
  {
    StartIsOk(w);
    RunKeepsWorld(w, steps);
    RunKeepsGoneOk(w, steps);
    var end := Run(w, steps);
    if Booting(end.ledger, end.disk.token) {
      BootstrapRecovers(end, now, row);
      if end.disk.journal.Some? && end.disk.token == end.disk.journal.value.next { StartIsNobodysNext(end); }
    } else {
      RenewalRecovers(end, now, row);
    }
  }

  lemma StartIsNobodysNext(w: World)
    requires WorldOk(w) && w.disk.journal.Some? && w.disk.token == w.disk.journal.value.next
    ensures w.disk.token != w.ledger.start
  {
  }
}
