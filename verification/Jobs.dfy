/** Jobs and their state machine (core/jobs/state.go), and what each queue operation does to the one
    job it touches.

    Identifiers, tokens and hashes are numbers that are only compared. `Payload` holds exactly the
    fields a transition callback may change (core/jobs/mongo_queue.go:192-205). */
module Jobs {
  import opened Prelude
  import opened ToolActions

  datatype State =
    | Queued | Leased | Preparing | Running | WaitingApproval | RetryWait
    | Cancelling | NeedsReconciliation | Succeeded | CompletedUndelivered | Failed | Cancelled

  datatype Lease = NoLease | Lease(owner: Id, token: Id, expiresAt: int, heartbeat: int)

  datatype Spec = Spec(
    org: Id, workspace: Id, channel: Id, session: Id, generation: int, requester: Id, key: Id,
    reservation: Id, maxAttempts: int, expiresAt: int, complete: bool)

  datatype Payload = Payload(
    result: Id, failureReason: string, availableAt: int, approval: Option<Id>, approvedHash: Option<Hash>,
    progressTs: Option<Id>, model: Id, trace: Id)

  datatype Job = Job(
    spec: Spec, state: State, attempt: int, lease: Lease, payload: Payload,
    steeringEpoch: int, finalDelivery: bool, createdAt: int, updatedAt: int, version: int)

  datatype Error = InvalidSpec | NoRunnableJob | JobNotFound | LeaseLost | InvalidState

  predicate CanTransition(from: State, to: State) {
    match from
    case Queued => to in {Leased, Cancelled}
    case Leased => to in {Preparing, Running, Queued, NeedsReconciliation, Cancelled}
    case Preparing => to in {Running, RetryWait, Failed, Cancelled}
    case Running => to in {Running, WaitingApproval, RetryWait, Succeeded, Failed, Cancelling, NeedsReconciliation}
    case WaitingApproval => to in {Queued, Failed, Cancelled}
    case RetryWait => to in {Queued, Failed, Cancelled}
    case Cancelling => to in {Cancelled, Failed}
    case NeedsReconciliation => to in {RetryWait, Succeeded, Failed}
    case Succeeded => to in {CompletedUndelivered}
    case _ => false
  }

  /** The same read backwards: what may come before each state. Nothing enters the queue from work that was started
      but from an approval or a retry, an approval is asked for only while running, and success comes only from
      running or from being looked into. */
  lemma WhatComesBefore(from: State, to: State)
    ensures CanTransition(from, to) <==>
      match to
      case Queued => from in {Leased, WaitingApproval, RetryWait}
      case Leased => from == Queued
      case Preparing => from == Leased
      case Running => from in {Leased, Preparing, Running}
      case WaitingApproval => from == Running
      case RetryWait => from in {Preparing, Running, NeedsReconciliation}
      case Cancelling => from == Running
      case NeedsReconciliation => from in {Leased, Running}
      case Succeeded => from in {Running, NeedsReconciliation}
      case CompletedUndelivered => from == Succeeded
      case Failed => from in {Preparing, Running, WaitingApproval, RetryWait, Cancelling, NeedsReconciliation}
      case Cancelled => from in {Queued, Leased, Preparing, WaitingApproval, RetryWait, Cancelling}
  {
  }

  /** Exactly the finished states lead nowhere. */
  lemma FinishedLeadsNowhere(from: State)
    ensures Terminal(from) <==> forall to :: !CanTransition(from, to)
  {
    var next := match from
      case Queued => Leased case Leased => Running case Preparing => Running case Running => Succeeded
      case WaitingApproval => Queued case RetryWait => Queued case Cancelling => Cancelled
      case NeedsReconciliation => Failed case _ => CompletedUndelivered;
    assert !Terminal(from) ==> CanTransition(from, next);
  }

  /** States in which a job is the writer of its session generation. */
  predicate Busy(state: State) {
    state in {Leased, Preparing, Running, WaitingApproval, Cancelling}
  }

  /** States a transition enters without a lease. */
  predicate ClearsLease(to: State) {
    to in {Succeeded, Failed, Cancelled, RetryWait, NeedsReconciliation, WaitingApproval}
  }

  predicate SameWriterScope(a: Job, b: Job) {
    a.spec.org == b.spec.org && a.spec.session == b.spec.session && a.spec.generation == b.spec.generation
  }

  predicate ValidSpec(spec: Spec) {
    spec.complete && spec.generation > 0 && spec.maxAttempts > 0
  }

  // ---------------------------------------------------------------- one job, one operation

  function NewJob(spec: Spec, now: int): Job {
    var expires := if spec.expiresAt == 0 then now + 86400 else spec.expiresAt;
    Job(spec.(expiresAt := expires), Queued, 0, NoLease, Payload(0, "", now, None, None, None, 0, 0),
        1, false, now, now, 1)
  }

  predicate Expired(job: Job, now: int) {
    job.lease.NoLease? || job.lease.expiresAt <= now
  }

  predicate Live(job: Job, token: Id, now: int) {
    job.lease.Lease? && job.lease.token == token && job.lease.expiresAt > now
  }

  predicate Recoverable(job: Job, now: int) {
    job.state in {Leased, Preparing, Running} && Expired(job, now)
  }

  function Recovered(job: Job, now: int): Job {
    job.(state := if job.state.Leased? then Queued else NeedsReconciliation, lease := NoLease,
         version := job.version + 1, updatedAt := now)
  }

  predicate Runnable(job: Job, now: int) {
    job.state.Queued? && job.payload.availableAt <= now && job.attempt < job.spec.maxAttempts
      && job.spec.expiresAt > now
  }

  function Claimed(job: Job, worker: Id, token: Id, until: int, now: int): Job {
    job.(state := Leased, attempt := job.attempt + 1, lease := Lease(worker, token, until, now),
         version := job.version + 1, updatedAt := now)
  }

  predicate CanMove(job: Job, token: Id, to: State, now: int) {
    Live(job, token, now) && CanTransition(job.state, to)
  }

  function Moved(job: Job, to: State, mutate: Payload -> Payload, now: int): Job {
    job.(state := to, payload := mutate(job.payload), lease := if ClearsLease(to) then NoLease else job.lease,
         version := job.version + 1, updatedAt := now)
  }

  function WithProgress(job: Job, ts: Id, now: int): Job {
    job.(payload := job.payload.(progressTs := Some(ts)), version := job.version + 1, updatedAt := now)
  }

  function Beating(job: Job, until: int, now: int): Job
    requires job.lease.Lease?
  {
    job.(lease := job.lease.(heartbeat := now, expiresAt := until), version := job.version + 1, updatedAt := now)
  }

  function Suspended(approval: Id): Payload -> Payload {
    (p: Payload) => p.(approval := Some(approval), approvedHash := None)
  }

  predicate CanResume(job: Job, approval: Option<Id>) {
    job.state.WaitingApproval? && job.payload.approval == approval
  }

  function Resumed(job: Job, hash: Hash, now: int): Job {
    job.(state := Queued, payload := job.payload.(approvedHash := Some(hash), availableAt := now),
         attempt := if job.attempt > 0 then job.attempt - 1 else job.attempt,
         steeringEpoch := job.steeringEpoch + 1, version := job.version + 1, updatedAt := now)
  }

  predicate CanCancel(job: Job) {
    job.state in {Queued, RetryWait, WaitingApproval, Leased, Preparing, Running}
  }

  function CancelledJob(job: Job, reason: string, now: int): Job {
    var stopped := job.state in {Queued, RetryWait, WaitingApproval};
    job.(state := if stopped then Cancelled else Cancelling, lease := if stopped then NoLease else job.lease,
         steeringEpoch := if stopped then job.steeringEpoch else job.steeringEpoch + 1,
         payload := job.payload.(failureReason := reason), version := job.version + 1, updatedAt := now)
  }

  predicate CanMarkUndelivered(job: Job) {
    job.state in {Succeeded, CompletedUndelivered}
  }

  function Undelivered(job: Job, reason: string, now: int): Job {
    job.(state := CompletedUndelivered, payload := job.payload.(failureReason := reason),
         version := job.version + 1, updatedAt := now)
  }

  predicate CanRelease(job: Job, now: int) {
    job.state.RetryWait? && job.payload.availableAt <= now
  }

  function ReleasedRetry(job: Job, now: int): Job {
    if job.attempt >= job.spec.maxAttempts
    then job.(state := Failed, payload := job.payload.(failureReason := "attempts_exhausted"),
              version := job.version + 1, updatedAt := now)
    else job.(state := Queued, version := job.version + 1, updatedAt := now)
  }

  function FinalMarked(job: Job, now: int): Job {
    job.(finalDelivery := true, version := job.version + 1, updatedAt := now)
  }

  // ---------------------------------------------------------------- what every job keeps

  /** Leases belong to working states, or to a queued job its holder handed back; whoever holds or held
      one for the current attempt has used an attempt; attempts stay within the limit. */
  predicate JobInv(job: Job) {
    && 0 <= job.attempt <= job.spec.maxAttempts
    && (job.state in {Leased, Preparing, Running, Cancelling} ==> job.lease.Lease?)
    && (job.lease.Lease? ==> job.state in {Queued, Leased, Preparing, Running, Cancelling})
    && (job.lease.Lease? || job.state.WaitingApproval? ==> job.attempt >= 1)
  }

  /** No operation changes any of these. */
  predicate Terminal(state: State) {
    state in {CompletedUndelivered, Failed, Cancelled}
  }
}
