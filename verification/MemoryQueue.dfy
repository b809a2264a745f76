/** The locked in-memory queue (core/jobs/memory_queue.go): its operations as atomic actions, the
    theorems over all runs, and the class whose methods perform exactly those actions. */
module MemoryQueue {
  import opened Prelude
  import opened ToolActions
  import opened Jobs

  /** `issued` records every lease token ever handed out. */
  datatype Queue = Queue(jobs: map<Id, Job>, clock: int, issued: set<Id>)

  datatype Action =
    | Tick(time: int)
    | Enqueue(id: Id, spec: Spec)
    | Recover(id: Id)
    | Claim(id: Id, worker: Id, token: Id, duration: int)
    | Transition(id: Id, token: Id, to: State, mutate: Payload -> Payload)
    | Progress(id: Id, token: Id, ts: Id)
    | Heartbeat(id: Id, token: Id, duration: int)
    | Resume(id: Id, approval: Option<Id>, hash: Hash)
    | Cancel(id: Id, reason: string)
    | MarkUndelivered(id: Id, reason: string)
    | ReleaseRetry(id: Id)
    | MarkFinal(id: Id)

  const EMPTY := Queue(map[], 0, {})

  /** Some other job of the same session generation is its writer. */
  predicate WriterBusy(jobs: map<Id, Job>, id: Id, job: Job) {
    exists other :: other in jobs && other != id && SameWriterScope(jobs[other], job) && Busy(jobs[other].state)
  }

  /** What the action leaves of the job it names, or None when it is refused. */
  function Outcome(q: Queue, a: Action): Option<Job>
    requires !a.Tick? && !a.Enqueue?
  {
    if a.id !in q.jobs then None
    else
      var job, now := q.jobs[a.id], q.clock;
      match a
      case Recover(_) => if job.spec.expiresAt > now && Recoverable(job, now) then Some(Recovered(job, now)) else None
      case Claim(id, worker, token, duration) =>
        if Runnable(job, now) && !WriterBusy(q.jobs, id, job) && token !in q.issued
        then Some(Claimed(job, worker, token, now + duration, now)) else None
      case Transition(_, token, to, mutate) =>
        if CanMove(job, token, to, now) then Some(Moved(job, to, mutate, now)) else None
      case Progress(_, token, ts) =>
        if job.state.Running? && Live(job, token, now) then Some(WithProgress(job, ts, now)) else None
      case Heartbeat(_, token, duration) =>
        if Live(job, token, now) then Some(Beating(job, now + duration, now)) else None
      case Resume(_, approval, hash) => if CanResume(job, approval) then Some(Resumed(job, hash, now)) else None
      case Cancel(_, reason) => if CanCancel(job) then Some(CancelledJob(job, reason, now)) else None
      case MarkUndelivered(_, reason) => if CanMarkUndelivered(job) then Some(Undelivered(job, reason, now)) else None
      case ReleaseRetry(_) => if CanRelease(job, now) then Some(ReleasedRetry(job, now)) else None
      case MarkFinal(_) => if job.state.Succeeded? then Some(FinalMarked(job, now)) else None
  }

  predicate Enabled(q: Queue, a: Action) {
    match a
    case Tick(time) => q.clock <= time
    case Enqueue(id, spec) => id !in q.jobs && ValidSpec(spec)
    case _ => Outcome(q, a).Some?
  }

  function Apply(q: Queue, a: Action): Queue
    requires Enabled(q, a)
  {
    match a
    case Tick(time) => q.(clock := time)
    case Enqueue(id, spec) => q.(jobs := q.jobs[id := NewJob(spec, q.clock)])
    case _ =>
      Queue(q.jobs[a.id := Outcome(q, a).value], q.clock, if a.Claim? then q.issued + {a.token} else q.issued)
  }

  ghost predicate Executable(q: Queue, run: seq<Action>)
    decreases |run|
  {
    run == [] || (Enabled(q, run[0]) && Executable(Apply(q, run[0]), run[1..]))
  }

  ghost function After(q: Queue, run: seq<Action>): Queue
    requires Executable(q, run)
    decreases |run|
  {
    if run == [] then q else After(Apply(q, run[0]), run[1..])
  }

  // ---------------------------------------------------------------- the invariant of every run

  ghost predicate JobOk(q: Queue, id: Id) {
    id in q.jobs ==> JobInv(q.jobs[id]) && (q.jobs[id].lease.Lease? ==> q.jobs[id].lease.token in q.issued)
  }

  ghost predicate Inv(q: Queue) {
    forall id {:trigger JobOk(q, id)} :: JobOk(q, id)
  }

  lemma StepKeepsJob(q: Queue, a: Action, id: Id)
    requires JobOk(q, id) && Enabled(q, a)
    ensures JobOk(Apply(q, a), id)
  {
  }

  lemma StepKeepsInv(q: Queue, a: Action)
    requires Inv(q) && Enabled(q, a)
    ensures Inv(Apply(q, a))
  {
    forall id ensures JobOk(Apply(q, a), id) {
      assert JobOk(q, id);
      StepKeepsJob(q, a, id);
    }
  }

  lemma {:induction false} RunKeepsInv(q: Queue, run: seq<Action>)
    requires Inv(q) && Executable(q, run)
    ensures Inv(After(q, run))
    decreases |run|
  {
    if run != [] {
      StepKeepsInv(q, run[0]);
      RunKeepsInv(Apply(q, run[0]), run[1..]);
    }
  }

  // ---------------------------------------------------------------- attempts

  ghost function Claims(run: seq<Action>, id: Id): nat {
    if run == [] then 0 else (if run[0].Claim? && run[0].id == id then 1 else 0) + Claims(run[1..], id)
  }

  ghost function Resumes(run: seq<Action>, id: Id): nat {
    if run == [] then 0 else (if run[0].Resume? && run[0].id == id then 1 else 0) + Resumes(run[1..], id)
  }

  lemma StepCountsAttempt(q: Queue, a: Action, id: Id)
    requires Inv(q) && Enabled(q, a) && id in q.jobs
    ensures id in Apply(q, a).jobs && Apply(q, a).jobs[id].spec == q.jobs[id].spec
    ensures Apply(q, a).jobs[id].attempt ==
      q.jobs[id].attempt + (if a.Claim? && a.id == id then 1 else 0) - (if a.Resume? && a.id == id then 1 else 0)
  {
    assert JobOk(q, id);
  }

  /** Attempts are claims minus approval resumes, so a job is claimed at most its limit plus its resumes. */
  lemma {:induction false} AttemptAccounting(q: Queue, run: seq<Action>, id: Id)
    requires Inv(q) && Executable(q, run) && id in q.jobs
    ensures var t := After(q, run);
      && id in t.jobs && t.jobs[id].spec == q.jobs[id].spec
      && t.jobs[id].attempt == q.jobs[id].attempt + Claims(run, id) - Resumes(run, id)
      && q.jobs[id].attempt + Claims(run, id) <= q.jobs[id].spec.maxAttempts + Resumes(run, id)
    decreases |run|
  {
    if run == [] {
      assert JobOk(q, id);
    } else {
      StepKeepsInv(q, run[0]);
      StepCountsAttempt(q, run[0], id);
      AttemptAccounting(Apply(q, run[0]), run[1..], id);
    }
  }

  // ---------------------------------------------------------------- fencing

  predicate Uses(a: Action, token: Id) {
    match a
    case Transition(_, used, _, _) => used == token
    case Progress(_, used, _) => used == token
    case Heartbeat(_, used, _) => used == token
    case _ => false
  }

  /** The token was handed out, and no job holds a running lease with it: it has lapsed, been cleared or
      been replaced. */
  ghost predicate Dead(q: Queue, token: Id) {
    token in q.issued && forall id :: id in q.jobs ==> !Live(q.jobs[id], token, q.clock)
  }

  lemma StepKeepsDead(q: Queue, a: Action, token: Id)
    requires Dead(q, token) && Enabled(q, a)
    ensures Dead(Apply(q, a), token) && !Uses(a, token)
  {
    var t := Apply(q, a);
    forall id | id in t.jobs ensures !Live(t.jobs[id], token, t.clock) {
      assert id in q.jobs ==> !Live(q.jobs[id], token, q.clock);
    }
  }

  /** Fencing: once a token is dead, no later operation with it succeeds in any run. */
  lemma {:induction false} DeadTokenStaysDead(q: Queue, run: seq<Action>, token: Id)
    requires Dead(q, token) && Executable(q, run)
    ensures Dead(After(q, run), token) && forall a :: a in run ==> !Uses(a, token)
    decreases |run|
  {
    if run != [] {
      StepKeepsDead(q, run[0], token);
      DeadTokenStaysDead(Apply(q, run[0]), run[1..], token);
      assert run == [run[0]] + run[1..];
    }
  }

  // ---------------------------------------------------------------- one writer per session generation

  ghost predicate OneWriter(jobs: map<Id, Job>) {
    forall i, j :: i in jobs && j in jobs && i != j && SameWriterScope(jobs[i], jobs[j]) ==>
      !(Busy(jobs[i].state) && Busy(jobs[j].state))
  }

  /** A transition leases a queued job although its session generation has another writer. */
  predicate StealsSession(q: Queue, a: Action) {
    && a.Transition? && a.id in q.jobs && q.jobs[a.id].state.Queued? && a.to.Leased?
    && WriterBusy(q.jobs, a.id, q.jobs[a.id])
  }

  /** Exactly that breaks the rule of one writer. A hand-back alone is harmless, and so is leasing the job
      again while nobody else works on the session. */
  lemma StepKeepsOneWriterIff(q: Queue, a: Action)
    requires Inv(q) && Enabled(q, a) && OneWriter(q.jobs)
    ensures OneWriter(Apply(q, a).jobs) <==> !StealsSession(q, a)
  {
    if !a.Tick? && !a.Enqueue? {
      assert JobOk(q, a.id);
      var before, after := q.jobs[a.id], Outcome(q, a).value;
      var jobs := Apply(q, a).jobs;
      assert after.spec == before.spec && jobs[a.id] == after;
      if StealsSession(q, a) {
        var other :| other in q.jobs && other != a.id && SameWriterScope(q.jobs[other], before)
          && Busy(q.jobs[other].state);
        assert jobs[other] == q.jobs[other] && Busy(after.state);
      } else {
        assert Busy(after.state) ==> Busy(before.state) || !WriterBusy(q.jobs, a.id, before);
      }
    }
  }

  ghost predicate NeverSteals(q: Queue, run: seq<Action>)
    requires Executable(q, run)
    decreases |run|
  {
    run != [] ==> !StealsSession(q, run[0]) && NeverSteals(Apply(q, run[0]), run[1..])
  }

  ghost predicate AlwaysOneWriter(q: Queue, run: seq<Action>)
    requires Executable(q, run)
    decreases |run|
  {
    OneWriter(q.jobs) && (run != [] ==> AlwaysOneWriter(Apply(q, run[0]), run[1..]))
  }

  /** Over every run: at no point do two jobs of one session generation have a writer, exactly when no
      transition of the run leases a queued job of a session that has one. */
  lemma {:induction false} OneWriterIff(q: Queue, run: seq<Action>)
    requires Inv(q) && OneWriter(q.jobs) && Executable(q, run)
    ensures AlwaysOneWriter(q, run) <==> NeverSteals(q, run)
    decreases |run|
  {
    if run != [] {
      StepKeepsInv(q, run[0]);
      StepKeepsOneWriterIff(q, run[0]);
      if !StealsSession(q, run[0]) {
        OneWriterIff(Apply(q, run[0]), run[1..]);
      }
    }
  }

  /** A hand-back: a transition that puts a job back in the queue. */
  predicate HandsBack(a: Action) {
    a.Transition? && a.to.Queued?
  }

  ghost predicate NoQueuedLease(jobs: map<Id, Job>) {
    forall id :: id in jobs && jobs[id].state.Queued? ==> jobs[id].lease.NoLease?
  }

  lemma StepKeepsQueuedFree(q: Queue, a: Action)
    requires Inv(q) && Enabled(q, a) && !HandsBack(a) && NoQueuedLease(q.jobs)
    ensures NoQueuedLease(Apply(q, a).jobs) && !StealsSession(q, a)
  {
    if !a.Tick? && !a.Enqueue? {
      assert JobOk(q, a.id);
    }
  }

  /** Nothing can go wrong in a run without a hand-back: nobody then holds a lease on a queued job. */
  lemma {:induction false} OneWriterWithoutHandBack(q: Queue, run: seq<Action>)
    requires Inv(q) && OneWriter(q.jobs) && NoQueuedLease(q.jobs)
    requires Executable(q, run) && forall a :: a in run ==> !HandsBack(a)
    ensures NeverSteals(q, run) && AlwaysOneWriter(q, run)
    decreases |run|
  {
    if run != [] {
      assert run[0] in run && forall a :: a in run[1..] ==> a in run;
      StepKeepsInv(q, run[0]);
      StepKeepsQueuedFree(q, run[0]);
      StepKeepsOneWriterIff(q, run[0]);
      OneWriterWithoutHandBack(Apply(q, run[0]), run[1..]);
    }
  }

  lemma RunThen(q: Queue, run: seq<Action>, a: Action)
    requires Executable(q, run) && Enabled(After(q, run), a)
    ensures Executable(q, run + [a]) && After(q, run + [a]) == Apply(After(q, run), a)
    decreases |run|
  {
    if run == [] {
      assert run + [a] == [a] && [a][1..] == [];
    } else {
      RunThen(Apply(q, run[0]), run[1..], a);
      assert (run + [a])[1..] == run[1..] + [a];
    }
  }

  /** Two jobs of one session, the first claimed and handed back, the second claimed. */
  function SharedSession(key: Id): Spec {
    Spec(1, 1, 1, 1, 1, 1, key, 1, 1, 0, true)
  }

  /** From the empty queue: the worker that handed its job back leases it again under the lease it still
      has, while another worker is busy in the same session. */
  lemma HandBackBreaksOneWriter() returns (run: seq<Action>)
    ensures Executable(EMPTY, run) && !OneWriter(After(EMPTY, run).jobs)
  {
    var keep := (p: Payload) => p;
    assert Executable(EMPTY, []) && After(EMPTY, []) == EMPTY;
    var q := EMPTY;
    run := [];
    var steps := [Enqueue(1, SharedSession(1)), Enqueue(2, SharedSession(2)), Claim(1, 1, 1, 9),
                  Transition(1, 1, Queued, keep), Claim(2, 2, 2, 9), Transition(1, 1, Leased, keep)];
    for i := 0 to 6
      invariant Executable(EMPTY, run) && After(EMPTY, run) == q && q.clock == 0
      invariant q.issued == (if i < 3 then {} else if i < 5 then {1} else {1, 2})
      invariant q.jobs.Keys == (if i == 0 then {} else if i == 1 then {1} else {1, 2})
      invariant i >= 1 ==> q.jobs[1].spec == SharedSession(1).(expiresAt := 86400) && q.jobs[1].payload.availableAt == 0
      invariant i >= 2 ==> q.jobs[2].spec == SharedSession(2).(expiresAt := 86400) && q.jobs[2].payload.availableAt == 0
      invariant 1 <= i <= 2 ==> q.jobs[1].state.Queued? && q.jobs[1].attempt == 0
      invariant i >= 3 ==> q.jobs[1].state == (if i == 4 || i == 5 then Queued else Leased) && Live(q.jobs[1], 1, 0)
      invariant 2 <= i <= 4 ==> q.jobs[2].state.Queued? && q.jobs[2].attempt == 0
      invariant i >= 5 ==> q.jobs[2].state.Leased?
    {
      RunThen(EMPTY, run, steps[i]);
      run := run + [steps[i]];
      q := Apply(q, steps[i]);
    }
  }

  // ---------------------------------------------------------------- what may be leased, and when

  /** Exactly these jobs are leased to whoever asks: queued, due, not expired, with attempts left, and nobody else
      works on the session generation. */
  lemma ClaimLandsIff(q: Queue, id: Id, worker: Id, token: Id, duration: int)
    ensures Enabled(q, Claim(id, worker, token, duration)) <==>
      && token !in q.issued && id in q.jobs && q.jobs[id].state == Queued
      && q.jobs[id].payload.availableAt <= q.clock < q.jobs[id].spec.expiresAt
      && q.jobs[id].attempt < q.jobs[id].spec.maxAttempts
      && forall other :: other in q.jobs && other != id
                         && q.jobs[other].state in {Leased, Preparing, Running, WaitingApproval, Cancelling} ==>
           || q.jobs[other].spec.org != q.jobs[id].spec.org
           || q.jobs[other].spec.session != q.jobs[id].spec.session
           || q.jobs[other].spec.generation != q.jobs[id].spec.generation
  {
  }

  /** The job has been started, or is over. */
  predicate Begun(state: State) {
    state !in {Queued, Leased}
  }

  /** Only an approval or a retry puts started work back in the queue. */
  predicate Requeues(a: Action, id: Id) {
    (a.Resume? || a.ReleaseRetry?) && a.id == id
  }

  lemma StepKeepsBegun(q: Queue, a: Action, id: Id)
    requires Inv(q) && Enabled(q, a) && id in q.jobs && Begun(q.jobs[id].state) && !Requeues(a, id)
    ensures id in Apply(q, a).jobs && Begun(Apply(q, a).jobs[id].state) && !(a.Claim? && a.id == id)
  {
    assert JobOk(q, id);
  }

  /** Work that has started is not handed out a second time, whatever expires or crashes: in every run it is
      claimed again only after a resumption or the release of a retry. */
  lemma {:induction false} StartedWorkIsNotClaimed(q: Queue, run: seq<Action>, id: Id)
    requires Inv(q) && Executable(q, run) && id in q.jobs && Begun(q.jobs[id].state)
    requires forall a :: a in run ==> !Requeues(a, id)
    ensures id in After(q, run).jobs && Begun(After(q, run).jobs[id].state)
    ensures forall a :: a in run && a.Claim? ==> a.id != id
    decreases |run|
  {
    if run != [] {
      assert run[0] in run && forall a :: a in run[1..] ==> a in run;
      StepKeepsInv(q, run[0]);
      StepKeepsBegun(q, run[0], id);
      StartedWorkIsNotClaimed(Apply(q, run[0]), run[1..], id);
      assert run == [run[0]] + run[1..];
    }
  }

  /** An expired job is never started. */
  lemma {:induction false} ExpiredNeverStarts(q: Queue, run: seq<Action>, id: Id)
    requires Inv(q) && Executable(q, run) && id in q.jobs && q.jobs[id].spec.expiresAt <= q.clock
    ensures forall a :: a in run && a.Claim? ==> a.id != id
    decreases |run|
  {
    if run != [] {
      StepKeepsInv(q, run[0]);
      StepCountsAttempt(q, run[0], id);
      ExpiredNeverStarts(Apply(q, run[0]), run[1..], id);
      assert run == [run[0]] + run[1..];
    }
  }

  // ---------------------------------------------------------------- terminal states

  lemma StepKeepsTerminal(q: Queue, a: Action, id: Id)
    requires Inv(q) && Enabled(q, a) && id in q.jobs && Terminal(q.jobs[id].state)
    ensures id in Apply(q, a).jobs && Apply(q, a).jobs[id].state == q.jobs[id].state
  {
    assert JobOk(q, id);
  }

  /** A finished job never starts again. */
  lemma {:induction false} TerminalForever(q: Queue, run: seq<Action>, id: Id)
    requires Inv(q) && Executable(q, run) && id in q.jobs && Terminal(q.jobs[id].state)
    ensures id in After(q, run).jobs && After(q, run).jobs[id].state == q.jobs[id].state
    decreases |run|
  {
    if run != [] {
      StepKeepsInv(q, run[0]);
      StepKeepsTerminal(q, run[0], id);
      TerminalForever(Apply(q, run[0]), run[1..], id);
    }
  }

  // ---------------------------------------------------------------- the queue

  /** The order in which a claim looks at jobs. */
  predicate Before(a: Job, b: Job) {
    a.payload.availableAt < b.payload.availableAt
    || (a.payload.availableAt == b.payload.availableAt && a.createdAt <= b.createdAt)
  }

  lemma FirstExists(jobs: map<Id, Job>, ids: set<Id>)
    requires ids != {} && ids <= jobs.Keys
    ensures exists first :: first in ids && forall other :: other in ids ==> Before(jobs[first], jobs[other])
  {
    var one :| one in ids;
    var rest := ids - {one};
    if rest == {} {
      assert ids == {one};
    } else {
      FirstExists(jobs, rest);
      var first :| first in rest && forall other :: other in rest ==> Before(jobs[first], jobs[other]);
      var best := if Before(jobs[one], jobs[first]) then one else first;
      forall other | other in ids ensures Before(jobs[best], jobs[other]) {
        assert other == one || other in rest;
      }
    }
  }

  /** The job could be leased right now. */
  predicate Claimable(q: Queue, id: Id) {
    id in q.jobs && Runnable(q.jobs[id], q.clock) && !WriterBusy(q.jobs, id, q.jobs[id])
  }

  /** Every stored job once, in the order of the scan. */
  ghost predicate ScanOrder(jobs: map<Id, Job>, ids: seq<Id>) {
    && (forall i :: 0 <= i < |ids| ==> ids[i] in jobs)
    && (forall id {:trigger id in ids} :: id in jobs ==> id in ids)
    && (forall i, j :: 0 <= i < j < |ids| ==> Before(jobs[ids[i]], jobs[ids[j]]))
  }

  /** The scan has passed this job: it could not run to begin with, and no expired lease is left on it. */
  ghost predicate Passed(start: Queue, q: Queue, id: Id) {
    id in q.jobs && !Claimable(start, id) && !CanRecover(q.jobs[id], q.clock)
  }

  ghost predicate PassedUpTo(start: Queue, q: Queue, ids: seq<Id>, k: nat)
    requires k <= |ids|
  {
    forall i {:trigger Passed(start, q, ids[i])} :: 0 <= i < k ==> Passed(start, q, ids[i])
  }

  /** The first claimable job of a scan comes no later in the order than any other. */
  lemma FirstInOrder(q: Queue, t: Queue, ids: seq<Id>, k: nat)
    requires k < |ids| && ScanOrder(q.jobs, ids) && PassedUpTo(q, t, ids, k)
    ensures EarliestDue(q, ids[k])
  {
    forall id | Claimable(q, id) ensures Before(q.jobs[ids[k]], q.jobs[id]) {
      assert id in ids;
      var i :| 0 <= i < |ids| && ids[i] == id;
      assert i < k ==> Passed(q, t, ids[i]);
    }
  }

  lemma AllPassed(q: Queue, t: Queue, ids: seq<Id>)
    requires ScanOrder(q.jobs, ids) && PassedUpTo(q, t, ids, |ids|)
    ensures forall id :: id in q.jobs ==> Passed(q, t, id)
  {
    forall id | id in q.jobs ensures Passed(q, t, id) {
      assert id in ids;
      var i :| 0 <= i < |ids| && ids[i] == id;
      assert Passed(q, t, ids[i]);
    }
  }

  /** One more job considered and not claimed. */
  lemma PassOne(start: Queue, before: Queue, after: Queue, ids: seq<Id>, k: nat)
    requires k < |ids| && ScanOrder(start.jobs, ids) && PassedUpTo(start, before, ids, k)
    requires Swept(start, before) && Swept(before, after)
    requires !Claimable(after, ids[k]) && !CanRecover(after.jobs[ids[k]], after.clock)
    ensures PassedUpTo(start, after, ids, k + 1)
  {
    SweptTrans(start, before, after);
    forall i | 0 <= i < k + 1 ensures Passed(start, after, ids[i]) {
      assert i < k ==> Passed(start, before, ids[i]);
      if Claimable(start, ids[i]) {
        SweptKeepsClaimable(start, after, ids[i]);
      }
    }
  }

  ghost predicate Performs(q: Queue, a: Action, t: Queue) {
    Enabled(q, a) && t == Apply(q, a)
  }

  predicate CanRecover(job: Job, now: int) {
    job.spec.expiresAt > now && Recoverable(job, now)
  }

  /** The same queue, except that some expired leases have been recovered. */
  ghost predicate Swept(q: Queue, t: Queue) {
    && t.clock == q.clock && t.issued == q.issued && t.jobs.Keys == q.jobs.Keys
    && forall id :: id in q.jobs ==>
         t.jobs[id] == q.jobs[id] || (CanRecover(q.jobs[id], q.clock) && t.jobs[id] == Recovered(q.jobs[id], q.clock))
  }

  /** An expired lease that was found: a job nobody had started is back in the queue, started work waits for
      somebody to look into it. */
  predicate SetFree(before: Job, after: Job, now: int) {
    && before.state in {Leased, Preparing, Running} && (before.lease.Lease? ==> before.lease.expiresAt <= now)
    && after.state == (if before.state == Leased then Queued else NeedsReconciliation)
    && after == before.(state := after.state, lease := NoLease, version := before.version + 1, updatedAt := now)
  }

  lemma SweptMeans(q: Queue, t: Queue)
    requires Swept(q, t)
    ensures OnlySetFree(q.jobs, t.jobs, q.clock)
  {
  }

  ghost predicate OnlySetFree(before: map<Id, Job>, after: map<Id, Job>, now: int) {
    after.Keys == before.Keys
    && forall id :: id in before ==> after[id] == before[id] || SetFree(before[id], after[id], now)
  }

  /** A job that was queued, or leased to somebody who never started it, is leased for one attempt more. */
  predicate LeasedAnew(before: Job, after: Job, worker: Id, token: Id, duration: int, now: int) {
    && before.state in {Queued, Leased}
    && (before.state == Leased ==> before.lease.Lease? && before.lease.expiresAt <= now)
    && after ==
       before.(state := Leased, attempt := before.attempt + 1, lease := Lease(worker, token, now + duration, now),
                        version := before.version + (if before.state == Leased then 2 else 1), updatedAt := now)
  }

  lemma ClaimMeans(q: Queue, swept: Queue, id: Id, worker: Id, token: Id, duration: int)
    requires Inv(q) && Swept(q, swept) && Enabled(swept, Claim(id, worker, token, duration))
    ensures LeasedAnew(q.jobs[id], Apply(swept, Claim(id, worker, token, duration)).jobs[id], worker, token,
                       duration, q.clock)
  {
    assert JobOk(q, id);
  }

  /** Of the jobs that could run, none was due before this one, and of those due with it none is older. */
  ghost predicate EarliestDue(q: Queue, mine: Id)
    requires mine in q.jobs
  {
    forall id :: Claimable(q, id) ==>
      && q.jobs[mine].payload.availableAt <= q.jobs[id].payload.availableAt
      && (q.jobs[mine].payload.availableAt == q.jobs[id].payload.availableAt ==>
          q.jobs[mine].createdAt <= q.jobs[id].createdAt)
  }

  /** Recoveries only set writers free. */
  lemma SweptKeepsClaimable(q: Queue, t: Queue, id: Id)
    requires Swept(q, t) && Claimable(q, id)
    ensures Claimable(t, id)
  {
    assert t.jobs[id] == q.jobs[id];
    assert forall other :: other in t.jobs && Busy(t.jobs[other].state) ==> t.jobs[other] == q.jobs[other];
  }

  lemma SweptTrans(q: Queue, t: Queue, u: Queue)
    requires Swept(q, t) && Swept(t, u)
    ensures Swept(q, u)
  {
  }

  /** A sweep is a run of recoveries. */
  lemma {:induction false} SweptIsRun(q: Queue, t: Queue, todo: set<Id>) returns (run: seq<Action>)
    requires Swept(q, t) && todo <= q.jobs.Keys && forall id :: id in q.jobs && id !in todo ==> t.jobs[id] == q.jobs[id]
    ensures Executable(q, run) && After(q, run) == t && forall a :: a in run ==> a.Recover?
    decreases todo
  {
    if todo == {} {
      run := [];
      assert t.jobs == q.jobs;
    } else {
      var id :| id in todo;
      if t.jobs[id] == q.jobs[id] {
        run := SweptIsRun(q, t, todo - {id});
      } else {
        var mid := t.(jobs := t.jobs[id := q.jobs[id]]);
        run := SweptIsRun(q, mid, todo - {id});
        RunThen(q, run, Recover(id));
        assert Apply(mid, Recover(id)).jobs == t.jobs;
        run := run + [Recover(id)];
      }
    }
  }

  /** What a refused operation on an existing job reports when it needs a lease, and when it does not. */
  function Refusal(q: Queue, id: Id, token: Option<Id>): Error {
    if id !in q.jobs then JobNotFound
    else if token.Some? && !Live(q.jobs[id], token.value, q.clock) then LeaseLost
    else InvalidState
  }

  /** How an organization and an idempotency key become one index key. Concatenating them with a slash may
      give two pairs the same one, so this is any function. */
  type Joining = (Id, Id) -> Id

  function IndexKey(join: Joining, spec: Spec): Id {
    join(spec.org, spec.key)
  }

  /** The index finds exactly the stored jobs, by their joined organization and idempotency key. */
  ghost predicate Indexed(join: Joining, jobs: map<Id, Job>, index: map<Id, Id>) {
    && (forall key :: key in index ==> index[key] in jobs && IndexKey(join, jobs[index[key]].spec) == key)
    && (forall id :: id in jobs ==>
        IndexKey(join, jobs[id].spec) in index && index[IndexKey(join, jobs[id].spec)] == id)
  }

  lemma UpdateKeepsIndex(join: Joining, jobs: map<Id, Job>, index: map<Id, Id>, id: Id, job: Job)
    requires Indexed(join, jobs, index) && id in jobs && job.spec == jobs[id].spec
    ensures Indexed(join, jobs[id := job], index)
  {
  }

  class MemoryQueue {
    var jobs: map<Id, Job>
    const join: Joining
    var byIdempotency: map<Id, Id>
    var clock: int
    ghost var issued: set<Id>

    ghost function Snapshot(): Queue
      reads this
    {
      Queue(jobs, clock, issued)
    }

    ghost predicate Valid()
      reads this
    {
      Inv(Snapshot()) && Indexed(join, jobs, byIdempotency)
    }

    constructor (join: Joining)
      ensures Valid() && Snapshot() == EMPTY && byIdempotency == map[] && this.join == join
    {
      this.join := join;
      jobs, byIdempotency, clock, issued := map[], map[], 0, {};
    }

    /** Two jobs never share an index key, so a repeated enqueue answers with the job of the first. The answer
        is the caller's own job or new, exactly when no other pair that joins to the same key has one. `id`
        is the fresh identifier. */
    method Enqueue(spec: Spec, id: Id) returns (r: Result<(Job, bool), Error>)
      requires Valid() && id !in jobs
      modifies this
      ensures Valid()
      ensures r.Err? <==> !ValidSpec(spec)
      ensures r.Err? ==> r.error.InvalidSpec? && Snapshot() == old(Snapshot())
      ensures r.Ok? ==> (r.value.1 <==> forall other :: other in old(jobs) ==>
                         IndexKey(join, old(jobs)[other].spec) != IndexKey(join, spec))
      ensures r.Ok? && r.value.1 ==>
        Snapshot() == Apply(old(Snapshot()), Action.Enqueue(id, spec)) && id in jobs && r.value.0 == jobs[id]
        && r.value.0.state.Queued? && r.value.0.attempt == 0 && r.value.0.lease.NoLease?
        && r.value.0.payload.availableAt == clock && r.value.0.payload.approval.None?
        && r.value.0.payload.approvedHash.None?
        && r.value.0.spec == spec.(expiresAt := if spec.expiresAt == 0 then clock + 86400 else spec.expiresAt)
      ensures r.Ok? && !r.value.1 ==>
        Snapshot() == old(Snapshot()) && r.value.0 in jobs.Values
          && IndexKey(join, r.value.0.spec) == IndexKey(join, spec)
      ensures r.Ok? ==>
        (r.value.0.spec.org == spec.org && r.value.0.spec.key == spec.key <==>
         forall other :: other in old(jobs) && IndexKey(join, old(jobs)[other].spec) == IndexKey(join, spec) ==>
           old(jobs)[other].spec.org == spec.org && old(jobs)[other].spec.key == spec.key)
    {
      if !ValidSpec(spec) {
        return Err(InvalidSpec);
      }
      var key := join(spec.org, spec.key);
      if key in byIdempotency {
        return Ok((jobs[byIdempotency[key]], false));
      }
      StepKeepsInv(Snapshot(), Action.Enqueue(id, spec));
      var job := NewJob(spec, clock);
      jobs := jobs[id := job];
      byIdempotency := byIdempotency[key := id];
      return Ok((job, true));
    }

    method SortedIds() returns (ids: seq<Id>)
      ensures ScanOrder(jobs, ids)
    {
      ids := [];
      var rest := jobs.Keys;
      while rest != {}
        invariant rest <= jobs.Keys
        invariant forall id :: id in jobs <==> id in ids || id in rest
        invariant forall i, j :: 0 <= i < j < |ids| ==> Before(jobs[ids[i]], jobs[ids[j]])
        invariant forall i, id :: 0 <= i < |ids| && id in rest ==> Before(jobs[ids[i]], jobs[id])
        decreases rest
      {
        FirstExists(jobs, rest);
        var first :| first in rest && forall other :: other in rest ==> Before(jobs[first], jobs[other]);
        ids := ids + [first];
        rest := rest - {first};
      }
    }

    /** Writes a changed job back. */
    method Put(id: Id, job: Job, ghost a: Action)
      requires Valid() && !a.Tick? && !a.Enqueue? && !a.Claim? && a.id == id
      requires Outcome(Snapshot(), a) == Some(job) && id in jobs && job.spec == jobs[id].spec
      modifies this`jobs
      ensures Valid() && Performs(old(Snapshot()), a, Snapshot())
      ensures jobs == old(jobs)[id := job]
    {
      StepKeepsInv(Snapshot(), a);
      UpdateKeepsIndex(join, jobs, byIdempotency, id, job);
      jobs := jobs[id := job];
    }

    /** An expired lease found by a scan: back to the queue if work had not started, else reconciled. */
    method RecoverLease(id: Id)
      requires Valid() && Enabled(Snapshot(), Recover(id))
      modifies this`jobs
      ensures Valid() && Snapshot() == Apply(old(Snapshot()), Recover(id))
    {
      var job := jobs[id];
      job := job.(state := if job.state.Leased? then Queued else NeedsReconciliation, lease := NoLease,
                  version := job.version + 1, updatedAt := clock);
      Put(id, job, Recover(id));
    }

    method GrantLease(id: Id, worker: Id, token: Id, duration: int)
      requires Valid() && Enabled(Snapshot(), Action.Claim(id, worker, token, duration))
      modifies this`jobs, this`issued
      ensures Valid() && Snapshot() == Apply(old(Snapshot()), Action.Claim(id, worker, token, duration))
    {
      var job := jobs[id];
      job := job.(state := Leased, attempt := job.attempt + 1, lease := Lease(worker, token, clock + duration, clock),
                  version := job.version + 1, updatedAt := clock);
      StepKeepsInv(Snapshot(), Action.Claim(id, worker, token, duration));
      UpdateKeepsIndex(join, jobs, byIdempotency, id, job);
      jobs := jobs[id := job];
      issued := issued + {token};
    }

    /** One job of the scan: recover its lease if that has expired, then lease it if it can run. `swept`
        is the queue between the two. */
    method Consider(id: Id, worker: Id, token: Id, duration: int) returns (claimed: bool, ghost swept: Queue)
      requires Valid() && id in jobs && token !in issued
      modifies this`jobs, this`issued
      ensures Valid() && Swept(old(Snapshot()), swept)
      ensures forall other :: other in old(jobs) && other != id ==> swept.jobs[other] == old(jobs)[other]
      ensures claimed <==> Claimable(swept, id)
      ensures claimed ==> Performs(swept, Action.Claim(id, worker, token, duration), Snapshot())
      ensures !claimed ==> Snapshot() == swept && !CanRecover(jobs[id], clock)
    {
      if jobs[id].spec.expiresAt <= clock {
        return false, Snapshot();
      }
      if Recoverable(jobs[id], clock) {
        RecoverLease(id);
      }
      swept := Snapshot();
      if !jobs[id].state.Queued? || jobs[id].payload.availableAt > clock
        || jobs[id].attempt >= jobs[id].spec.maxAttempts {
        return false, swept;
      }
      if WriterBusy(jobs, id, jobs[id]) {
        return false, swept;
      }
      GrantLease(id, worker, token, duration);
      return true, swept;
    }

    /** Recovers the expired leases it passes, then leases the first job that could already run when the
        call began, or an earlier one a recovery set free; never one whose work had started. It fails only
        if no job could run, and then no expired lease is left. `swept` is the queue before the lease was
        granted. */
    method Claim(worker: Id, token: Id, duration: int) returns (r: Result<Id, Error>, ghost swept: Queue)
      requires Valid() && token !in issued
      modifies this`jobs, this`issued
      ensures Valid() && Swept(old(Snapshot()), swept)
      ensures r.Err? ==> r.error.NoRunnableJob? && Snapshot() == swept
      ensures r.Err? ==> forall id :: id in jobs ==> Passed(old(Snapshot()), Snapshot(), id)
      ensures r.Ok? ==>
        r.value in old(jobs) && Performs(swept, Action.Claim(r.value, worker, token, duration), Snapshot())
      ensures OnlySetFree(old(jobs), swept.jobs, clock)
      ensures r.Ok? ==>
        && LeasedAnew(old(jobs)[r.value], jobs[r.value], worker, token, duration, clock)
        && EarliestDue(old(Snapshot()), r.value)
    {
      var ids := SortedIds();
      ghost var start := Snapshot();
      for k := 0 to |ids|
        invariant Valid() && Swept(start, Snapshot()) && PassedUpTo(start, Snapshot(), ids, k)
      {
        var id := ids[k];
        ghost var before := Snapshot();
        var claimed, now := Consider(id, worker, token, duration);
        SweptTrans(start, before, now);
        if claimed {
          FirstInOrder(start, before, ids, k);
          SweptMeans(start, now);
          ClaimMeans(start, now, id, worker, token, duration);
          return Ok(id), now;
        }
        PassOne(start, before, now, ids, k);
      }
      AllPassed(start, Snapshot(), ids);
      SweptMeans(start, Snapshot());
      return Err(NoRunnableJob), Snapshot();
    }

    method Transition(id: Id, token: Id, to: State, mutate: Payload -> Payload) returns (r: Result<Job, Error>)
      requires Valid()
      modifies this`jobs
      ensures Valid()
      ensures r.Ok? <==> id in old(jobs) && CanMove(old(jobs)[id], token, to, clock)
      ensures r.Ok? ==>
        r.value == Moved(old(jobs)[id], to, mutate, clock) && jobs == old(jobs)[id := r.value]
      ensures r.Ok? ==>
        && r.value.state == to && r.value.payload == mutate(old(jobs)[id].payload)
        && r.value.attempt == old(jobs)[id].attempt
        && r.value.lease == (if to in {Queued, Leased, Preparing, Running, Cancelling, CompletedUndelivered}
                             then old(jobs)[id].lease else NoLease)
      ensures r.Err? ==> Snapshot() == old(Snapshot()) && r.error == Refusal(Snapshot(), id, Some(token))
    {
      if id !in jobs {
        return Err(JobNotFound);
      }
      var job := jobs[id];
      if job.lease.NoLease? || job.lease.token != token || job.lease.expiresAt <= clock {
        return Err(LeaseLost);
      }
      if !CanTransition(job.state, to) {
        return Err(InvalidState);
      }
      job := job.(state := to, payload := mutate(job.payload));
      if ClearsLease(to) {
        job := job.(lease := NoLease);
      }
      job := job.(updatedAt := clock, version := job.version + 1);
      Put(id, job, Action.Transition(id, token, to, mutate));
      return Ok(job);
    }

    method SetProgressMessage(id: Id, token: Id, ts: Option<Id>) returns (r: Result<Job, Error>)
      requires Valid()
      modifies this`jobs
      ensures Valid()
      ensures r.Ok? <==> ts.Some? && Enabled(old(Snapshot()), Progress(id, token, ts.value))
      ensures r.Ok? ==>
        Performs(old(Snapshot()), Progress(id, token, ts.value), Snapshot())
        && id in jobs && r.value == jobs[id] && r.value.state.Running?
        && r.value.payload == old(jobs)[id].payload.(progressTs := ts) && r.value.lease == old(jobs)[id].lease
      ensures r.Err? ==> Snapshot() == old(Snapshot())
    {
      if ts.None? {
        return Err(InvalidState);
      }
      if id !in jobs {
        return Err(JobNotFound);
      }
      var job := jobs[id];
      if !job.state.Running? || job.lease.NoLease? || job.lease.token != token || job.lease.expiresAt <= clock {
        return Err(LeaseLost);
      }
      job := job.(payload := job.payload.(progressTs := ts), updatedAt := clock, version := job.version + 1);
      Put(id, job, Progress(id, token, ts.value));
      return Ok(job);
    }

    /** A suspended job waits without a lease, under this approval and with no approved action. */
    method SuspendForApproval(id: Id, token: Id, approval: Option<Id>) returns (r: Result<Job, Error>)
      requires Valid()
      modifies this`jobs
      ensures Valid()
      ensures r.Ok? ==>
        id in jobs && r.value == jobs[id] && r.value.state.WaitingApproval? && r.value.lease.NoLease?
        && r.value.payload.approval == approval && approval.Some? && r.value.payload.approvedHash.None?
      ensures r.Ok? <==>
        approval.Some?
        && Enabled(old(Snapshot()), Action.Transition(id, token, WaitingApproval, Suspended(approval.value)))
      ensures r.Err? ==> Snapshot() == old(Snapshot())
    {
      if approval.None? {
        return Err(InvalidState);
      }
      r := Transition(id, token, WaitingApproval, Suspended(approval.value));
    }

    /** A resumed job is runnable again at once, under the approved action and without its used attempt. */
    method ResumeFromApproval(id: Id, approval: Option<Id>, hash: Option<Hash>) returns (r: Result<Job, Error>)
      requires Valid()
      modifies this`jobs
      ensures Valid()
      ensures r.Ok? <==> hash.Some? && Enabled(old(Snapshot()), Resume(id, approval, hash.value))
      ensures r.Ok? ==>
        Performs(old(Snapshot()), Resume(id, approval, hash.value), Snapshot())
        && id in jobs && r.value == jobs[id] && r.value.attempt == old(jobs)[id].attempt - 1
        && r.value.state.Queued? && r.value.steeringEpoch == old(jobs)[id].steeringEpoch + 1
        && r.value.payload == old(jobs)[id].payload.(approvedHash := hash, availableAt := clock)
      ensures r.Err? ==> Snapshot() == old(Snapshot()) && r.error == Refusal(Snapshot(), id, None)
    {
      if id !in jobs {
        return Err(JobNotFound);
      }
      var job := jobs[id];
      if !job.state.WaitingApproval? || job.payload.approval != approval || hash.None? {
        return Err(InvalidState);
      }
      assert JobOk(Snapshot(), id);
      job := job.(state := Queued, payload := job.payload.(approvedHash := hash, availableAt := clock));
      if job.attempt > 0 {
        job := job.(attempt := job.attempt - 1);
      }
      job := job.(steeringEpoch := job.steeringEpoch + 1, updatedAt := clock, version := job.version + 1);
      Put(id, job, Resume(id, approval, hash.value));
      return Ok(job);
    }

    method Beat(id: Id, token: Id, duration: int) returns (r: Result<Job, Error>)
      requires Valid()
      modifies this`jobs
      ensures Valid()
      ensures r.Ok? <==> Enabled(old(Snapshot()), Heartbeat(id, token, duration))
      ensures r.Ok? ==>
        Performs(old(Snapshot()), Heartbeat(id, token, duration), Snapshot()) && id in jobs && r.value == jobs[id]
        && r.value.lease == Lease(old(jobs)[id].lease.owner, token, clock + duration, clock)
        && r.value.state == old(jobs)[id].state && r.value.payload == old(jobs)[id].payload
      ensures r.Err? ==> Snapshot() == old(Snapshot()) && r.error == Refusal(Snapshot(), id, Some(token))
    {
      if id !in jobs {
        return Err(JobNotFound);
      }
      var job := jobs[id];
      if job.lease.NoLease? || job.lease.token != token || job.lease.expiresAt <= clock {
        return Err(LeaseLost);
      }
      job := job.(lease := job.lease.(heartbeat := clock, expiresAt := clock + duration),
                  updatedAt := clock, version := job.version + 1);
      Put(id, job, Heartbeat(id, token, duration));
      return Ok(job);
    }

    method Requeue(id: Id, token: Id, reason: string, delay: int) returns (r: Result<Job, Error>)
      requires Valid()
      modifies this`jobs
      ensures Valid()
      ensures r.Ok? ==>
        id in jobs && r.value == jobs[id] && r.value.state.RetryWait? && r.value.lease.NoLease?
        && r.value.payload == old(jobs)[id].payload.(failureReason := reason, availableAt := clock + delay)
        && r.value.attempt == old(jobs)[id].attempt
      ensures r.Err? ==> Snapshot() == old(Snapshot())
    {
      var at := clock + delay;
      r := Transition(id, token, RetryWait, (p: Payload) => p.(failureReason := reason, availableAt := at));
    }

    /** A due retry goes back to the queue, or fails for good when its attempts are used up. */
    method ReleaseRetryWait(id: Id) returns (r: Result<Job, Error>)
      requires Valid()
      modifies this`jobs
      ensures Valid()
      ensures r.Ok? <==> Enabled(old(Snapshot()), ReleaseRetry(id))
      ensures r.Ok? ==>
        Performs(old(Snapshot()), ReleaseRetry(id), Snapshot()) && id in jobs && r.value == jobs[id]
        && (r.value.state.Failed? <==> r.value.attempt == r.value.spec.maxAttempts)
        && (r.value.state.Queued? <==> r.value.attempt < r.value.spec.maxAttempts)
        && r.value.payload == (if r.value.state.Queued? then old(jobs)[id].payload
                               else old(jobs)[id].payload.(failureReason := "attempts_exhausted"))
      ensures r.Err? ==> Snapshot() == old(Snapshot()) && r.error == Refusal(Snapshot(), id, None)
    {
      if id !in jobs {
        return Err(JobNotFound);
      }
      var job := jobs[id];
      if !job.state.RetryWait? || job.payload.availableAt > clock {
        return Err(InvalidState);
      }
      assert JobOk(Snapshot(), id);
      if job.attempt >= job.spec.maxAttempts {
        job := job.(state := Failed, payload := job.payload.(failureReason := "attempts_exhausted"));
      } else {
        job := job.(state := Queued);
      }
      job := job.(version := job.version + 1, updatedAt := clock);
      Put(id, job, ReleaseRetry(id));
      return Ok(job);
    }

    /** Idle jobs stop at once; a job being worked on is asked to stop and keeps its lease. */
    method CancelJob(id: Id, reason: string) returns (r: Result<Job, Error>)
      requires Valid()
      modifies this`jobs
      ensures Valid()
      ensures r.Ok? <==> Enabled(old(Snapshot()), Cancel(id, reason))
      ensures r.Ok? ==>
        Performs(old(Snapshot()), Cancel(id, reason), Snapshot()) && id in jobs && r.value == jobs[id]
        && (r.value.state.Cancelling? <==> old(jobs)[id].state in {Leased, Preparing, Running})
        && (r.value.state.Cancelled? <==> old(jobs)[id].state in {Queued, RetryWait, WaitingApproval})
        && r.value.lease == (if r.value.state.Cancelling? then old(jobs)[id].lease else NoLease)
        && r.value.payload == old(jobs)[id].payload.(failureReason := reason)
      ensures r.Err? ==> Snapshot() == old(Snapshot()) && r.error == Refusal(Snapshot(), id, None)
    {
      if id !in jobs {
        return Err(JobNotFound);
      }
      var job := jobs[id];
      if job.state in {Queued, RetryWait, WaitingApproval} {
        job := job.(state := Cancelled, lease := NoLease);
      } else if job.state in {Leased, Preparing, Running} {
        job := job.(state := Cancelling, steeringEpoch := job.steeringEpoch + 1);
      } else {
        return Err(InvalidState);
      }
      job := job.(payload := job.payload.(failureReason := reason), updatedAt := clock, version := job.version + 1);
      Put(id, job, Cancel(id, reason));
      return Ok(job);
    }
  }
}
