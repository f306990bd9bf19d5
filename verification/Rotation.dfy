/** Credential rotation as a two-party protocol: the Agent's token file and durable
    journal on one side, the enrollment tables on the other, with crashes, lost
    and repeated messages and foreign operations in between. */
module Rotation {
  import opened Primitives
  import opened Snapshots
  import opened Enrollment
  import opened CredentialBundles

  datatype Identity = Identity(agent: AgentId, tunnel: TunnelId)

  /** The durable record of one rotation attempt. */
  datatype Journal = Journal(request: RequestId, next: Token, key: Bytes, csr: Bytes)

  datatype Disk = Disk(token: Token, journal: Option<Journal>)

  /** Where `rotate` stands, with the values it holds in memory. */
  datatype Pc =
    | Idle
    | HasToken(token: Token)
    | HasJournal(token: Token, journal: Journal)
    | AwaitIssued(journal: Journal)
    | HasIssued(journal: Journal, issuance: Issuance)
    | Published(journal: Journal, issuance: Issuance)
    | AwaitActivated(journal: Journal)
    | Confirmed(journal: Journal)
    | TokenRemoved(journal: Journal)
    | TokenWritten(journal: Journal)
    | Replacing

  datatype Message =
    | Enroll(request: RequestId, token: Token, next: Token, csr: Bytes)
    | Activating(request: RequestId, renewal: Token, fingerprint: Fingerprint)

  datatype Reply =
    | Issued(request: RequestId, issued: Result<Issuance, Error>)
    | Activated(request: RequestId, activated: Result<nat, Error>)

  /** A journal together with the token that was on disk when it was written. */
  datatype Attempt = Attempt(journal: Journal, auth: Token)

  /** What the Agent has ever written: its attempts by request, and for each of its
      tokens the attempt that created it (none for the token it started with). A
      start from a renewal token names that token's credential in `root`. */
  datatype Ledger = Ledger(
    me: Identity, start: Token, root: Option<Fingerprint>,
    attempts: map<RequestId, Attempt>, owner: map<TokenHash, Option<RequestId>>)

  /** A replacement of an existing file removes it before the new one gets its name. The
      token file is `gone` in between; `disk.token` is then what it held last. */
  datatype World = World(
    ledger: Ledger, db: Db, disk: Disk, pc: Pc,
    sent: set<Message>, replies: set<Reply>, bundles: seq<Bundle>, gone: bool)

  datatype Step =
    | ReadToken
    | LoadJournal(made: Journal)
    | Begin
    | ServePreflight(message: Message, now: nat, row: Option<Fingerprint>)
    | ServeCommit(message: Message, certificate: Bytes, fingerprint: Fingerprint,
                  notAfter: nat, deadline: nat, now: nat, row: Option<Fingerprint>)
    | ReceiveIssued(reply: Reply)
    | PublishBundle
    | SendActivate
    | ServeActivate(message: Message, now: nat)
    | ReceiveActivated(reply: Reply)
    | ReplaceJournal(made: Journal)
    | RemoveToken
    | WriteToken
    | RemoveJournal
    | Crash
    | Foreign(op: Op)

  /** A journal made of fresh randomness: its request and its token occur nowhere. */
  ghost predicate Fresh(w: World, j: Journal) {
    && j.request !in w.ledger.attempts
    && Sha256(j.next) !in w.ledger.owner
    && Sha256(j.next) !in w.db.tokens
    && (forall fp | fp in w.db.credentials ::
          && w.db.credentials[fp].terms.request != j.request
          && w.db.credentials[fp].terms.renewalHash != Sha256(j.next)
          && w.db.credentials[fp].terms.authHash != Sha256(j.next))
  }

  /** An operation by somebody who holds none of the Agent's secrets and does not
      revoke its identity. */
  predicate ForeignOp(l: Ledger, op: Op) {
    match op
    case CreateToken(hash, _, _, _) => hash !in l.owner
    case Commit(c, _, _) => c.presented !in l.owner && c.next !in l.owner && c.request !in l.attempts
    case Activation(_, renewal, _, _) => renewal !in l.owner
    case Revocation(agent, tunnel, _) => Identity(agent, tunnel) != l.me
    case Reconciliation(_) => true
  }

  /** The durable replacement of the journal file. */
  function WithJournal(w: World, j: Journal): World {
    w.(disk := Disk(w.disk.token, Some(j)),
       ledger := w.ledger.(
         attempts := w.ledger.attempts[j.request := Attempt(j, w.disk.token)],
         owner := w.ledger.owner[Sha256(j.next) := Some(j.request)]))
  }

  function CandidateFor(me: Identity, m: Message, certificate: Bytes, fingerprint: Fingerprint,
                        notAfter: nat, deadline: nat): Candidate
    requires m.Enroll?
  {
    Candidate(m.request, Sha256(m.token), Sha256(m.next), me.agent, me.tunnel, Sha256(m.csr),
              certificate, fingerprint, notAfter, deadline)
  }

  ghost function Preflight(w: World, m: Message, now: nat, row: Option<Fingerprint>): Result<Option<Issuance>, Error>
    requires m.Enroll?
  {
    PreflightIssuance(w.db, m.request, Sha256(m.token), Sha256(m.next), w.ledger.me.agent, w.ledger.me.tunnel,
                      Sha256(m.csr), now, row)
  }

  // ------------------------------------------------------------ the Agent's steps

  ghost function LoadOrCreate(w: World, made: Journal): World {
    if !w.pc.HasToken? then w
    else if w.disk.journal.Some? then w.(pc := HasJournal(w.pc.token, w.disk.journal.value))
    else if Fresh(w, made) then WithJournal(w, made).(pc := HasJournal(w.pc.token, made))
    else w
  }

  /** A journal whose token is already on disk is finished; otherwise the request goes out. */
  function BeginExchange(w: World): World {
    if !w.pc.HasJournal? then w
    else if w.pc.token == w.pc.journal.next then w.(disk := Disk(w.disk.token, None), pc := Idle)
    else
      var j := w.pc.journal;
      w.(sent := w.sent + {Enroll(j.request, w.pc.token, j.next, j.csr)}, pc := AwaitIssued(j))
  }

  /** A rejection ends the call, but that of an expired request has the journal replaced
      first: the old one is removed. */
  function Reject(w: World, error: Error): World {
    if error.RequestExpired? then w.(disk := Disk(w.disk.token, None), pc := Replacing) else w.(pc := Idle)
  }

  /** And a new one gets its place. */
  ghost function Renew(w: World, made: Journal): World {
    if w.pc.Replacing? && Fresh(w, made) then WithJournal(w, made).(pc := Idle) else w
  }

  function TakeIssued(w: World, reply: Reply): World {
    if !w.pc.AwaitIssued? || reply !in w.replies || !reply.Issued? || reply.request != w.pc.journal.request then w
    else match reply.issued
      case Ok(issuance) => w.(pc := HasIssued(w.pc.journal, issuance))
      case Err(e) => Reject(w, e)
  }

  function Publish(w: World): World {
    if !w.pc.HasIssued? then w
    else
      var bundle := Bundle(w.pc.issuance.generation, w.pc.issuance.certificate, w.pc.journal.key);
      w.(bundles := w.bundles + [bundle], pc := Published(w.pc.journal, w.pc.issuance))
  }

  function AskActivation(w: World): World {
    if !w.pc.Published? then w
    else
      var j := w.pc.journal;
      w.(sent := w.sent + {Activating(j.request, j.next, w.pc.issuance.fingerprint)}, pc := AwaitActivated(j))
  }

  function TakeActivated(w: World, reply: Reply): World {
    if !w.pc.AwaitActivated? || reply !in w.replies || !reply.Activated? || reply.request != w.pc.journal.request then w
    else match reply.activated
      case Ok(_) => w.(pc := Confirmed(w.pc.journal))
      case Err(e) => Reject(w, e)
  }

  function DropToken(w: World): World {
    if !w.pc.Confirmed? then w else w.(gone := true, pc := TokenRemoved(w.pc.journal))
  }

  function MoveToken(w: World): World {
    if !w.pc.TokenRemoved? then w
    else w.(disk := Disk(w.pc.journal.next, w.disk.journal), gone := false, pc := TokenWritten(w.pc.journal))
  }

  function Finish(w: World): World {
    if !w.pc.TokenWritten? then w else w.(disk := Disk(w.disk.token, None), pc := Idle)
  }

  // --------------------------------------------------------- the service's steps

  ghost function AnswerPreflight(w: World, m: Message, now: nat, row: Option<Fingerprint>): World {
    if m !in w.sent || !m.Enroll? || !AnswersRenewalQuery(w.db, Sha256(m.token), row) then w
    else match Preflight(w, m, now, row)
      case Ok(None) => w
      case Ok(Some(issuance)) => w.(replies := w.replies + {Issued(m.request, Ok(issuance))})
      case Err(e) => w.(replies := w.replies + {Issued(m.request, Err(e))})
  }

  ghost function AnswerEnroll(w: World, m: Message, c: Candidate, now: nat, row: Option<Fingerprint>): World {
    var txn := CommitIssuance(w.db, c, now, row);
    w.(db := txn.db, replies := w.replies + {Issued(m.request, txn.reply)})
  }

  ghost function ServeEnroll(w: World, m: Message, certificate: Bytes, fp: Fingerprint, notAfter: nat, deadline: nat,
                             now: nat, row: Option<Fingerprint>): World
  {
    if m !in w.sent || !m.Enroll? || !AnswersRenewalQuery(w.db, Sha256(m.token), row) then w
    else AnswerEnroll(w, m, CandidateFor(w.ledger.me, m, certificate, fp, notAfter, deadline), now, row)
  }

  function AnswerActivation(w: World, m: Message, now: nat): World
    requires m.Activating?
  {
    var txn := Activate(w.db, m.request, Sha256(m.renewal), m.fingerprint, now);
    w.(db := txn.db, replies := w.replies + {Activated(m.request, txn.reply)})
  }

  /** The world after one step; a step that is not enabled changes nothing. A sent
      message may be served never, once or many times, and at any later moment. A
      reply reaches only an exchange for its own request. Every early return of
      `rotate`, and every timeout, is a `Crash`: it keeps the disk and forgets the rest. */
  ghost function Do(w: World, step: Step): World {
    match step
    case ReadToken => if w.pc.Idle? && !w.gone then w.(pc := HasToken(w.disk.token)) else w
    case LoadJournal(made) => LoadOrCreate(w, made)
    case Begin => BeginExchange(w)
    case ServePreflight(m, now, row) => AnswerPreflight(w, m, now, row)
    case ServeCommit(m, certificate, fp, notAfter, deadline, now, row) =>
      ServeEnroll(w, m, certificate, fp, notAfter, deadline, now, row)
    case ReceiveIssued(reply) => TakeIssued(w, reply)
    case PublishBundle => Publish(w)
    case SendActivate => AskActivation(w)
    case ServeActivate(m, now) => if m !in w.sent || !m.Activating? then w else AnswerActivation(w, m, now)
    case ReceiveActivated(reply) => TakeActivated(w, reply)
    case ReplaceJournal(made) => Renew(w, made)
    case RemoveToken => DropToken(w)
    case WriteToken => MoveToken(w)
    case RemoveJournal => Finish(w)
    case Crash => w.(pc := Idle)
    case Foreign(op) => if ForeignOp(w.ledger, op) then w.(db := Apply(w.db, op)) else w
  }

  ghost function Run(w: World, steps: seq<Step>): World
    decreases |steps|
  {
    if steps == [] then w else Run(Do(w, steps[0]), steps[1..])
  }

  lemma {:induction false} RunAppend(w: World, a: seq<Step>, b: seq<Step>)
    ensures Run(w, a + b) == Run(Run(w, a), b)
    decreases |a|
  {
    if a == [] {
      assert a + b == b;
    } else {
      assert (a + b)[1..] == a[1..] + b && (a + b)[0] == a[0];
      RunAppend(Do(w, a[0]), a[1..], b);
    }
  }

  lemma RunOne(w: World, step: Step)
    ensures Run(w, [step]) == Do(w, step)
  {
    assert [step][1..] == [];
  }
}
