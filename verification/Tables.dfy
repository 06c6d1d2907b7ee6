/** The rows of the autonomy database and the events of its log. */
module Tables {
  import opened Wrappers
  import opened Models

  /** Text ids are numbered in the order they sort in; instants are whole microseconds. */
  type Id = nat
  type Time = nat
  type Worker = string
  type Token = string

  datatype State = READY | RUNNING | VERIFYING | WAITING | SUCCEEDED | FAILED | BLOCKED | CANCELLED | EXHAUSTED
  {
    predicate Terminal() { SUCCEEDED? || FAILED? || BLOCKED? || CANCELLED? || EXHAUSTED? }

    predicate Active() { RUNNING? || VERIFYING? }
  }

  /** `_ALLOWED_TRANSITIONS`. */
  function Allowed(s: State): set<State> {
    match s
    case READY => {RUNNING, BLOCKED, CANCELLED, EXHAUSTED}
    case RUNNING => {READY, WAITING, VERIFYING, SUCCEEDED, FAILED, BLOCKED, CANCELLED, EXHAUSTED}
    case VERIFYING => {READY, WAITING, SUCCEEDED, FAILED, BLOCKED, CANCELLED, EXHAUSTED}
    case WAITING => {RUNNING, BLOCKED, CANCELLED, EXHAUSTED}
    case SUCCEEDED => {}
    case FAILED => {READY, CANCELLED}
    case BLOCKED => {READY, CANCELLED}
    case CANCELLED => {}
    case EXHAUSTED => {READY, CANCELLED}
  }

  datatype Continuation = Continuation(
    state: State,
    version: nat,
    step: nat,
    attempts: nat,
    maxAttempts: nat,
    wake: Option<Time>,
    owner: Option<Worker>,
    token: Option<Token>,
    expires: Option<Time>,
    heartbeat: Option<Time>,
    lastError: Option<string>,
    created: Time)

  datatype Status = RESERVED | EXECUTING | EXECUTED | VERIFIED
  {
    predicate Pending() { !VERIFIED? }
  }

  datatype DecisionRow = DecisionRow(
    cid: Id,
    step: nat,
    kind: Kind,
    capability: Option<string>,
    payload: Payload,
    key: string,
    status: Status,
    result: Option<CapabilityResult>,
    recovery: bool,
    evidence: Option<Id>,
    created: Time)

  datatype EvidenceRow = EvidenceRow(cid: Id, did: Id, verification: Verification, created: Time)

  datatype Event =
    | ContinuationCreated(maxAttempts: nat)
    | LeaseAcquired(expires: Time, previous: State)
    | LeaseRenewed(expires: Time)
    | LeaseExpired(owner: Option<Worker>, previous: State, to: State, pending: Option<Status>)
    | ContinuationExhausted(previous: State, to: State, reason: string)
    | DecisionReserved(did: Id, key: string, capability: Option<string>)
    | ExecutionStarted(did: Id)
    | CapabilityExecuted(did: Id, result: CapabilityResult)
    | VerdictRecorded(eid: Id, did: Id, verdict: Verdict, to: State, summary: string)
    | DecisionTaken(did: Id, kind: Kind, to: State, evidence: Option<Id>, wake: Option<Time>, reason: string)
    | ContinuationCancelled(previous: State)

  /** One event of the log, without the sequence number and hashes, which module EventChain adds. */
  datatype Entry = Entry(ts: Time, cid: Id, actor: string, event: Event)

  datatype Db = Db(
    conts: map<Id, Continuation>,
    decs: map<Id, DecisionRow>,
    evid: map<Id, EvidenceRow>,
    log: seq<Entry>)

  const EMPTY := Db(map[], map[], map[], [])

  /** The errors that leave a store call, by the class the runtime sorts them into. */
  datatype Err =
    | NotFound | ConcurrentUpdate | LeaseLost | InvalidTransition | IdempotencyConflict
    | AttemptBudgetExceeded | VerificationRequired | PolicyDenied | UnknownCommit
    | OtherAutonomyError | IntegrityError | BadValue

  datatype Reply = Plain | Reservation(did: Id, created: bool)

  /** What one transaction does: commit a new database with a reply, or roll back with an error. */
  datatype Outcome = Committed(db: Db, reply: Reply) | RolledBack(err: Err)

  function After(db: Db, o: Outcome): Db {
    if o.Committed? then o.db else db
  }

  function Answer(o: Outcome): Result<Reply, Err> {
    match o
    case Committed(_, reply) => Success(reply)
    case RolledBack(err) => Failure(err)
  }

  function Released(r: Continuation): Continuation {
    r.(owner := None, token := None, expires := None, heartbeat := None)
  }

  /** Instants after `now` by a delay; a negative delay counts as none. */
  function Later(now: Time, delay: int): Time {
    if delay > 0 then now + delay else now
  }
}
