/** How a first rotation is lost: a run at whose end neither the token nor the journal on
    disk is accepted any more. */
module RotationStuck {
  import opened Primitives
  import opened Snapshots
  import opened Enrollment
  import opened Rotation
  import opened RotationLedger
  import opened RotationRecovery

  /** A new Agent with a bootstrap token at a service without credentials. */
  function Newcomer(me: Identity, start: Token, expires: nat): World {
    World(
      Ledger(me, start, None, map[], map[Sha256(start) := None]),
      Db(map[Sha256(start) := BootstrapRow(me.agent, me.tunnel, expires, false, false)], map[],
         Some(Snapshot(1, map[]))),
      Disk(start, None), Idle, {}, {}, [], false)
  }

  lemma NewcomerStarts(me: Identity, start: Token, expires: nat)
    ensures Start(Newcomer(me, start, expires))
  {
  }

  function Asking(me: Identity, start: Token, expires: nat, j: Journal): World {
    var w := Newcomer(me, start, expires);
    WithJournal(w, j).(sent := {Enroll(j.request, start, j.next, j.csr)}, pc := AwaitIssued(j))
  }

  lemma Asks(me: Identity, start: Token, expires: nat, j: Journal)
    requires j.next != start
    ensures Do(Do(Do(Newcomer(me, start, expires), ReadToken), LoadJournal(j)), Begin) == Asking(me, start, expires, j)
  {
    var w := Newcomer(me, start, expires);
    assert Fresh(Do(w, ReadToken), j);
  }

  /** The tables once the request is answered, and once its credential has expired. */
  function Row(me: Identity, start: Token, j: Journal, certificate: Bytes, notAfter: nat, deadline: nat): Terms {
    Terms(j.request, me.agent, me.tunnel, Sha256(j.csr), Sha256(start), Sha256(j.next), certificate, notAfter, 2, None,
          deadline)
  }

  function Issued(me: Identity, start: Token, expires: nat, fp: Fingerprint, row: Terms): Db {
    Db(map[Sha256(start) := BootstrapRow(me.agent, me.tunnel, expires, true, false)],
       map[fp := Credential(row, Pending, None)],
       Some(Snapshot(2, map[fp := AgentGrant(me.agent, map[me.tunnel := Enabled])])))
  }

  function Lapsed(me: Identity, start: Token, expires: nat, fp: Fingerprint, row: Terms, late: nat): Db {
    Issued(me, start, expires, fp, row).(
      credentials := map[fp := Credential(row, Expired, Some(late))], head := Some(Snapshot(3, map[])))
  }

  lemma Issues(me: Identity, start: Token, expires: nat, j: Journal, certificate: Bytes, fp: Fingerprint,
               notAfter: nat, deadline: nat)
    requires 0 < expires && 0 < deadline <= notAfter <= I64_MAX
    ensures var w := Asking(me, start, expires, j);
            var m := Enroll(j.request, start, j.next, j.csr);
            var after := Do(w, ServeCommit(m, certificate, fp, notAfter, deadline, 0, None));
            && after.db == Issued(me, start, expires, fp, Row(me, start, j, certificate, notAfter, deadline))
            && after.ledger == w.ledger && after.disk == w.disk && !after.gone && after.pc == w.pc
            && Reply.Issued(j.request, Ok(Issuance(2, certificate, fp, notAfter))) in after.replies
  {
    var w := Asking(me, start, expires, j);
    var grant := AgentGrant(me.agent, map[me.tunnel := Enabled]);
    assert AnswersRenewalQuery(w.db, Sha256(start), None);
    assert RequestRow(w.db, j.request) == None;
    assert Bounded(grant);
    assert map[fp := grant][fp] == grant;
    assert Encodable(map[fp := grant]);
  }

  lemma Lapses(me: Identity, start: Token, expires: nat, fp: Fingerprint, row: Terms, late: nat)
    requires row.deadline <= late <= I64_MAX
    ensures Apply(Issued(me, start, expires, fp, row), Reconciliation(late)) == Lapsed(me, start, expires, fp, row, late)
  {
    var db := Issued(me, start, expires, fp, row);
    var grants := db.head.value.grants;
    assert Bounded(grants[fp]);
    assert Overdue(db, late) == {fp};
    var batch := ReconcileSelection(db, late);
    assert |batch| == |{fp}| && batch <= {fp};
    SameSize(batch, fp);
    assert grants - {fp} == map[] && fp in grants;
    assert ExpiredCredentials(db.credentials, batch, late) == map[fp := Credential(row, Expired, Some(late))];
  }

  lemma SameSize(batch: set<Fingerprint>, fp: Fingerprint)
    requires batch <= {fp} && |batch| == 1
    ensures batch == {fp}
  {
    var x :| x in batch;
  }

  /** The request is made and answered. */
  function Enrolling(start: Token, j: Journal, certificate: Bytes, fp: Fingerprint, notAfter: nat, deadline: nat)
    : seq<Step>
  {
    [ReadToken, LoadJournal(j), Begin,
     ServeCommit(Enroll(j.request, start, j.next, j.csr), certificate, fp, notAfter, deadline, 0, None)]
  }

  /** And its credential is reconciled at the deadline. */
  function Losing(start: Token, j: Journal, certificate: Bytes, fp: Fingerprint, notAfter: nat, deadline: nat): seq<Step> {
    Enrolling(start, j, certificate, fp, notAfter, deadline) + [Foreign(Reconciliation(deadline))]
  }

  lemma FourSteps(w: World, steps: seq<Step>)
    requires |steps| == 4
    ensures Run(w, steps) == Do(Do(Do(Do(w, steps[0]), steps[1]), steps[2]), steps[3])
  {
    assert steps[1..][1..] == steps[2..] && steps[2..][1..] == steps[3..];
    var two := Do(Do(w, steps[0]), steps[1]);
    assert Run(w, steps) == Run(two, steps[2..]);
    assert steps[3..] == [steps[3]];
    RunOne(Do(two, steps[2]), steps[3]);
  }

  lemma Enrolls(me: Identity, start: Token, expires: nat, j: Journal, certificate: Bytes, fp: Fingerprint,
                notAfter: nat, deadline: nat)
    returns (issued: World)
    requires j.next != start && 0 < expires && 0 < deadline <= notAfter <= I64_MAX
    ensures Run(Newcomer(me, start, expires), Enrolling(start, j, certificate, fp, notAfter, deadline)) == issued
    ensures issued.db == Issued(me, start, expires, fp, Row(me, start, j, certificate, notAfter, deadline))
    ensures issued.disk == Disk(start, Some(j)) && !issued.gone && issued.ledger == Asking(me, start, expires, j).ledger
    ensures issued.pc == AwaitIssued(j)
    ensures Reply.Issued(j.request, Ok(Issuance(2, certificate, fp, notAfter))) in issued.replies
  {
    var steps := Enrolling(start, j, certificate, fp, notAfter, deadline);
    Asks(me, start, expires, j);
    issued := Do(Asking(me, start, expires, j), steps[3]);
    FourSteps(Newcomer(me, start, expires), steps);
    Issues(me, start, expires, j, certificate, fp, notAfter, deadline);
  }

  lemma LapseStep(w: World, me: Identity, start: Token, expires: nat, fp: Fingerprint, row: Terms)
    requires w.db == Issued(me, start, expires, fp, row) && row.deadline <= I64_MAX
    ensures Do(w, Foreign(Reconciliation(row.deadline))) == w.(db := Lapsed(me, start, expires, fp, row, row.deadline))
  {
    Lapses(me, start, expires, fp, row, row.deadline);
  }

  lemma Loses(me: Identity, start: Token, expires: nat, j: Journal, certificate: Bytes, fp: Fingerprint,
              notAfter: nat, deadline: nat)
    requires j.next != start && 0 < expires && 0 < deadline <= notAfter <= I64_MAX
    ensures var end := Run(Newcomer(me, start, expires), Losing(start, j, certificate, fp, notAfter, deadline));
            && end.db == Lapsed(me, start, expires, fp, Row(me, start, j, certificate, notAfter, deadline), deadline)
            && end.disk == Disk(start, Some(j)) && !end.gone && end.ledger == Asking(me, start, expires, j).ledger
  {
    var last := Foreign(Reconciliation(deadline));
    var issued := Enrolls(me, start, expires, j, certificate, fp, notAfter, deadline);
    RunAppend(Newcomer(me, start, expires), Enrolling(start, j, certificate, fp, notAfter, deadline), [last]);
    RunOne(issued, last);
    LapseStep(issued, me, start, expires, fp, Row(me, start, j, certificate, notAfter, deadline));
  }

  lemma LapsedIsStuck(end: World, me: Identity, start: Token, expires: nat, j: Journal, fp: Fingerprint, row: Terms,
                      late: nat, now: nat)
    requires end.db == Lapsed(me, start, expires, fp, row, late) && row.request == j.request
    requires end.disk == Disk(start, Some(j)) && end.ledger == Asking(me, start, expires, j).ledger
    ensures Stuck(end, now) && AnswersRenewalQuery(end.db, Sha256(start), None)
  {
    assert IsRequestRow(end.db, j.request, fp);
    StatusAt(end.db, fp);
    assert j.request in end.ledger.attempts && end.ledger.attempts[j.request].auth == start;
  }

  /** The promise of the journal does fail. An Agent that asks with its bootstrap token
      and is issued a credential, which is reconciled at its deadline before it is
      activated, is stuck: at no time is its token accepted or its journal answered. */
  lemma BootstrapCanBeLost(me: Identity, start: Token, expires: nat, j: Journal, certificate: Bytes, fp: Fingerprint,
                           notAfter: nat, deadline: nat, now: nat)
    requires j.next != start && 0 < expires && 0 < deadline <= notAfter <= I64_MAX
    ensures Start(Newcomer(me, start, expires))
    ensures var end := Run(Newcomer(me, start, expires), Losing(start, j, certificate, fp, notAfter, deadline));
            && Stuck(end, now) && end.disk == Disk(start, Some(j))
            && AnswersRenewalQuery(end.db, Sha256(start), None)
            && !end.gone && !Recovers(end, now, None)
  {
    var w := Newcomer(me, start, expires);
    var steps := Losing(start, j, certificate, fp, notAfter, deadline);
    NewcomerStarts(me, start, expires);
    Loses(me, start, expires, j, certificate, fp, notAfter, deadline);
    LapsedIsStuck(Run(w, steps), me, start, expires, j, fp, Row(me, start, j, certificate, notAfter, deadline),
                  deadline, now);
    RotationIsCrashSafe(w, steps, now, None);
  }

  // ------------------------------------------------------- a lost token file

  /** Once the activation is confirmed, a stop inside the replacement of the token file
      leaves the Agent without one for good, whatever it was started with. */
  lemma StopLosesToken(w: World, later: seq<Step>)
    requires w.pc.Confirmed?
    ensures var end := Run(Do(Do(w, RemoveToken), Crash), later);
            end.gone && end.disk == w.disk && end.pc == Idle && forall now, row :: !Recovers(end, now, row)
  {
    GoneIsForever(Do(Do(w, RemoveToken), Crash), later);
  }

  /** The issued credential is received, published and activated. */
  function Taking(j: Journal, certificate: Bytes, fp: Fingerprint, notAfter: nat): seq<Step> {
    [ReceiveIssued(Reply.Issued(j.request, Ok(Issuance(2, certificate, fp, notAfter)))), PublishBundle, SendActivate,
     ServeActivate(Activating(j.request, j.next, fp), 0)]
  }

  lemma Takes(w: World, j: Journal, issuance: Issuance)
    requires w.pc == AwaitIssued(j) && Reply.Issued(j.request, Ok(issuance)) in w.replies
    ensures var sent := Do(Do(Do(w, ReceiveIssued(Reply.Issued(j.request, Ok(issuance)))), PublishBundle), SendActivate);
            && sent.db == w.db && sent.disk == w.disk && sent.pc == AwaitActivated(j)
            && Activating(j.request, j.next, issuance.fingerprint) in sent.sent
  {
  }

  lemma Activates(w: World, me: Identity, start: Token, expires: nat, j: Journal, fp: Fingerprint, row: Terms)
    requires w.db == Issued(me, start, expires, fp, row) && w.pc == AwaitActivated(j)
    requires row.request == j.request && row.renewalHash == Sha256(j.next) && row.previous == None && 0 < row.deadline
    requires Activating(j.request, j.next, fp) in w.sent
    ensures var after := Do(w, ServeActivate(Activating(j.request, j.next, fp), 0));
            after.pc == w.pc && after.disk == w.disk && Activated(j.request, Ok(2)) in after.replies
  {
    assert Bounded(w.db.head.value.grants[fp]);
  }

  lemma Confirms(w: World, j: Journal)
    requires w.pc == AwaitActivated(j) && Activated(j.request, Ok(2)) in w.replies
    ensures var after := Do(w, ReceiveActivated(Activated(j.request, Ok(2)))); after.pc == Confirmed(j) && after.disk == w.disk
  {
  }

  lemma LastThree(w: World, j: Journal)
    ensures Run(w, [ReceiveActivated(Activated(j.request, Ok(2))), RemoveToken, Crash])
            == Do(Do(Do(w, ReceiveActivated(Activated(j.request, Ok(2)))), RemoveToken), Crash)
  {
    var steps := [ReceiveActivated(Activated(j.request, Ok(2))), RemoveToken, Crash];
    assert steps[1..] == [RemoveToken, Crash] && steps[1..][1..] == [Crash];
    RunOne(Do(Do(w, steps[0]), RemoveToken), Crash);
  }

  /** Such a run exists: a new Agent is issued and activated, and stops while its token
      file is being replaced. */
  lemma TokenCanBeLost(me: Identity, start: Token, expires: nat, j: Journal, certificate: Bytes, fp: Fingerprint,
                       notAfter: nat, deadline: nat)
    returns (steps: seq<Step>)
    requires j.next != start && 0 < expires && 0 < deadline <= notAfter <= I64_MAX
    ensures Start(Newcomer(me, start, expires))
    ensures var end := Run(Newcomer(me, start, expires), steps);
            end.disk == Disk(start, Some(j)) && end.gone && forall now, row :: !Recovers(end, now, row)
  {
    var w := Newcomer(me, start, expires);
    var first, second := Enrolling(start, j, certificate, fp, notAfter, deadline), Taking(j, certificate, fp, notAfter);
    var third := [ReceiveActivated(Activated(j.request, Ok(2))), RemoveToken, Crash];
    steps := first + (second + third);
    NewcomerStarts(me, start, expires);
    var issued := Enrolls(me, start, expires, j, certificate, fp, notAfter, deadline);
    var active := TakesAndActivates(issued, me, start, expires, j, fp, Row(me, start, j, certificate, notAfter, deadline));
    RunAppend(w, first, second + third);
    RunAppend(issued, second, third);
    Confirms(active, j);
    LastThree(active, j);
    StopLosesToken(Do(active, third[0]), []);
  }

  lemma TakesAndActivates(w: World, me: Identity, start: Token, expires: nat, j: Journal, fp: Fingerprint, row: Terms)
    returns (active: World)
    requires w.db == Issued(me, start, expires, fp, row) && w.pc == AwaitIssued(j)
    requires row.request == j.request && row.renewalHash == Sha256(j.next) && row.previous == None && 0 < row.deadline
    requires Reply.Issued(j.request, Ok(Issuance(2, row.certificate, fp, row.notAfter))) in w.replies
    ensures Run(w, Taking(j, row.certificate, fp, row.notAfter)) == active
    ensures active.pc == AwaitActivated(j) && active.disk == w.disk && Activated(j.request, Ok(2)) in active.replies
  {
    var steps := Taking(j, row.certificate, fp, row.notAfter);
    var sent := Do(Do(Do(w, steps[0]), steps[1]), steps[2]);
    Takes(w, j, Issuance(2, row.certificate, fp, row.notAfter));
    Activates(sent, me, start, expires, j, fp, row);
    FourSteps(w, steps);
    active := Do(sent, steps[3]);
  }
}
