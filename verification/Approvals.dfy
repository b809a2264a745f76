/** Human decisions over suspended jobs: the approval store (core/approvals/approvals.go) and the job queue
    under any number of users, workers, reconcilers and crashes. A run is any sequence of enabled steps; a
    process that stops between two calls is one that takes no further step. */
module Approvals {
  import opened Prelude
  import opened ToolActions
  import opened Jobs
  import MQ = MemoryQueue

  datatype Approval = Approval(
    org: Id, requester: Id, approver: Option<Id>, hash: Hash, action: ToolAction, expiresAt: int,
    approvedAt: Option<int>, deniedBy: Option<Id>, deniedAt: Option<int>, consumedAt: Option<int>)

  datatype World = World(approvals: map<Id, Approval>, queue: MQ.Queue)

  datatype Step =
    | Work(a: MQ.Action)
    | Request(id: Id, action: ToolAction, requester: Id, ttl: int)
    | Suspend(job: Id, token: Id, id: Id)
    | Approve(id: Id, user: Id)
    | Deny(id: Id, user: Id)
    | Consume(id: Id, action: ToolAction)
    | Resume(job: Id, id: Id)

  const EMPTY := World(map[], MQ.EMPTY)

  predicate Undecided(a: Approval, now: int) {
    a.expiresAt > now && a.approvedAt.None? && a.deniedAt.None? && a.consumedAt.None?
  }

  /** Somebody other than the requester, while the approval is open: required to approve and to deny. */
  predicate MayDecide(a: Approval, user: Id, now: int) {
    user != 0 && user != a.requester && Undecided(a, now)
  }

  function Approved(a: Approval, user: Id, now: int): Approval {
    a.(approver := Some(user), approvedAt := Some(now))
  }

  function Denied(a: Approval, user: Id, now: int): Approval {
    a.(deniedBy := Some(user), deniedAt := Some(now))
  }

  predicate MayConsume(a: Approval, action: ToolAction, now: int) {
    a.approvedAt.Some? && a.deniedAt.None? && a.consumedAt.None? && a.expiresAt > now
    && Some(a.hash) == HashAction(action) && a.org == action.org
  }

  predicate MayRequest(action: ToolAction, requester: Id, ttl: int) {
    requester != 0 && ttl > 0 && HashAction(action).Some?
  }

  function NewApproval(action: ToolAction, requester: Id, ttl: int, now: int): Approval {
    Approval(action.org, requester, None, Sha(action), action, now + ttl, None, None, None, None)
  }

  /** Transition callbacks of workers leave the approval fields alone; only a suspension sets them. */
  ghost predicate KeepsApproval(mutate: Payload -> Payload) {
    forall p: Payload {:trigger mutate(p)} ::
      mutate(p).approval == p.approval && mutate(p).approvedHash == p.approvedHash
  }

  /** Work is any operation of the queue except suspending for and resuming from an approval. */
  ghost predicate Ordinary(a: MQ.Action) {
    !a.Resume? && (a.Transition? ==> !a.to.WaitingApproval? && KeepsApproval(a.mutate))
  }

  function QueueAction(w: World, step: Step): MQ.Action
    requires step.Work? || step.Suspend? || (step.Resume? && step.id in w.approvals)
  {
    match step
    case Work(a) => a
    case Suspend(job, token, id) => MQ.Transition(job, token, WaitingApproval, Suspended(id))
    case Resume(job, id) => MQ.Resume(job, Some(id), w.approvals[id].hash)
  }

  /** A suspension names an approval requested for that very job; a resumption follows a read that found
      the approval approved. */
  ghost predicate Enabled(w: World, step: Step) {
    var now := w.queue.clock;
    match step
    case Work(a) => Ordinary(a) && MQ.Enabled(w.queue, a)
    case Request(id, action, requester, ttl) => id !in w.approvals && MayRequest(action, requester, ttl)
    case Suspend(job, _, id) =>
      id in w.approvals && w.approvals[id].action.job == Some(job) && MQ.Enabled(w.queue, QueueAction(w, step))
    case Approve(id, user) => id in w.approvals && MayDecide(w.approvals[id], user, now)
    case Deny(id, user) => id in w.approvals && MayDecide(w.approvals[id], user, now)
    case Consume(id, action) => id in w.approvals && MayConsume(w.approvals[id], action, now)
    case Resume(_, id) =>
      id in w.approvals && w.approvals[id].approvedAt.Some? && MQ.Enabled(w.queue, QueueAction(w, step))
  }

  ghost function Apply(w: World, step: Step): World
    requires Enabled(w, step)
  {
    var now := w.queue.clock;
    match step
    case Request(id, action, requester, ttl) =>
      w.(approvals := w.approvals[id := NewApproval(action, requester, ttl, now)])
    case Approve(id, user) => w.(approvals := w.approvals[id := Approved(w.approvals[id], user, now)])
    case Deny(id, user) => w.(approvals := w.approvals[id := Denied(w.approvals[id], user, now)])
    case Consume(id, _) => w.(approvals := w.approvals[id := w.approvals[id].(consumedAt := Some(now))])
    case _ => w.(queue := MQ.Apply(w.queue, QueueAction(w, step)))
  }

  ghost predicate Executable(w: World, run: seq<Step>)
    decreases |run|
  {
    run == [] || (Enabled(w, run[0]) && Executable(Apply(w, run[0]), run[1..]))
  }

  ghost function After(w: World, run: seq<Step>): World
    requires Executable(w, run)
    decreases |run|
  {
    if run == [] then w else After(Apply(w, run[0]), run[1..])
  }

  // ---------------------------------------------------------------- the joint invariant

  /** Decided at most one way, by somebody other than the requester, and consumed only once approved. */
  predicate Sound(a: Approval) {
    && a.hash == Sha(a.action) && a.org == a.action.org
    && !(a.approvedAt.Some? && a.deniedAt.Some?)
    && (a.approvedAt.Some? <==> a.approver.Some?) && a.approver != Some(a.requester)
    && (a.deniedAt.Some? <==> a.deniedBy.Some?) && a.deniedBy != Some(a.requester)
    && (a.consumedAt.Some? ==> a.approvedAt.Some?)
    && (a.approvedAt.Some? ==> a.approvedAt.value < a.expiresAt)
    && (a.deniedAt.Some? ==> a.deniedAt.value < a.expiresAt)
    && (a.consumedAt.Some? ==> a.consumedAt.value < a.expiresAt)
  }

  ghost predicate ApprovalOk(w: World, id: Id) {
    id in w.approvals ==> Sound(w.approvals[id])
  }

  /** The approval is for this job and was given. */
  predicate Granted(approvals: map<Id, Approval>, job: Job) {
    job.payload.approval.Some? && job.payload.approval.value in approvals
    && (var a := approvals[job.payload.approval.value];
        a.approvedAt.Some? && job.payload.approvedHash == Some(a.hash))
  }

  predicate CarriesOwn(approvals: map<Id, Approval>, id: Id, job: Job) {
    job.payload.approval.Some? ==>
      job.payload.approval.value in approvals && approvals[job.payload.approval.value].action.job == Some(id)
  }

  /** A job that carries an approval is waiting for it, was cancelled, or holds it with its exact hash. */
  ghost predicate JobOk(w: World, id: Id) {
    id in w.queue.jobs ==>
      var job := w.queue.jobs[id];
      && CarriesOwn(w.approvals, id, job)
      && (job.state.WaitingApproval? ==> job.payload.approval.Some? && job.payload.approvedHash.None?)
      && (job.payload.approvedHash.Some? ==> Granted(w.approvals, job))
      && (job.payload.approval.Some? && job.state !in {WaitingApproval, Cancelled} ==> Granted(w.approvals, job))
  }

  ghost predicate Inv(w: World) {
    && MQ.Inv(w.queue)
    && (forall id {:trigger ApprovalOk(w, id)} :: ApprovalOk(w, id))
    && (forall id {:trigger JobOk(w, id)} :: JobOk(w, id))
  }

  lemma StepKeepsApproval(w: World, step: Step, id: Id)
    requires Inv(w) && Enabled(w, step)
    ensures ApprovalOk(Apply(w, step), id)
  {
    assert ApprovalOk(w, id);
  }

  /** Approvals only gain: nothing decided is ever undone. */
  lemma DecisionsAreFinal(w: World, step: Step, id: Id)
    requires Inv(w) && Enabled(w, step) && id in w.approvals
    ensures id in Apply(w, step).approvals
    ensures var a, b := w.approvals[id], Apply(w, step).approvals[id];
      && b == a.(approver := b.approver, approvedAt := b.approvedAt, deniedBy := b.deniedBy, deniedAt := b.deniedAt,
                 consumedAt := b.consumedAt)
      && (a.approvedAt.Some? ==> b.approvedAt == a.approvedAt && b.approver == a.approver)
      && (a.deniedAt.Some? ==> b.deniedAt == a.deniedAt && b.deniedBy == a.deniedBy)
      && (a.consumedAt.Some? ==> b.consumedAt == a.consumedAt)
  {
    assert ApprovalOk(w, id);
  }

  lemma WorkKeepsJob(w: World, a: MQ.Action, id: Id)
    requires Inv(w) && Enabled(w, Work(a))
    ensures JobOk(Apply(w, Work(a)), id)
  {
    assert JobOk(w, id) && MQ.JobOk(w.queue, id);
    if !a.Tick? && !a.Enqueue? && id == a.id {
      var before, after := w.queue.jobs[id], MQ.Outcome(w.queue, a).value;
      if a.Transition? {
        assert a.mutate(before.payload).approval == before.payload.approval;
      }
      assert after.payload.approval == before.payload.approval
        && after.payload.approvedHash == before.payload.approvedHash;
      assert !after.state.WaitingApproval?;
    }
  }

  lemma HumanStepKeepsJob(w: World, step: Step, id: Id)
    requires Inv(w) && Enabled(w, step) && !step.Work?
    ensures JobOk(Apply(w, step), id)
  {
    assert JobOk(w, id);
    if id in w.queue.jobs && w.queue.jobs[id].payload.approval.Some? {
      DecisionsAreFinal(w, step, w.queue.jobs[id].payload.approval.value);
    }
  }

  lemma StepKeepsInv(w: World, step: Step)
    requires Inv(w) && Enabled(w, step)
    ensures Inv(Apply(w, step))
  {
    if step.Work? || step.Suspend? || step.Resume? {
      MQ.StepKeepsInv(w.queue, QueueAction(w, step));
    }
    forall id ensures ApprovalOk(Apply(w, step), id) {
      StepKeepsApproval(w, step, id);
    }
    forall id ensures JobOk(Apply(w, step), id) {
      if step.Work? {
        WorkKeepsJob(w, step.a, id);
      } else {
        HumanStepKeepsJob(w, step, id);
      }
    }
  }

  lemma {:induction false} RunKeepsInv(w: World, run: seq<Step>)
    requires Inv(w) && Executable(w, run)
    ensures Inv(After(w, run))
    decreases |run|
  {
    if run != [] {
      StepKeepsInv(w, run[0]);
      RunKeepsInv(Apply(w, run[0]), run[1..]);
    }
  }

  // ---------------------------------------------------------------- safety over all runs

  /** Whatever users, workers, reconcilers and crashes do: no approval is both approved and denied, and a
      job that carries an approved hash points at an approval that somebody other than its requester
      approved, for that job, with that exact hash of the exact action. */
  lemma EveryRunIsSafe(run: seq<Step>)
    requires Executable(EMPTY, run)
    ensures var w := After(EMPTY, run);
      && (forall id :: id in w.approvals ==> !(w.approvals[id].approvedAt.Some? && w.approvals[id].deniedAt.Some?))
      && (forall id :: id in w.queue.jobs && w.queue.jobs[id].payload.approvedHash.Some? ==>
            w.queue.jobs[id].payload.approval.Some? && w.queue.jobs[id].payload.approval.value in w.approvals
            && var a := w.approvals[w.queue.jobs[id].payload.approval.value];
               && a.approver.Some? && a.approver.value != a.requester && a.deniedAt.None?
               && a.action.job == Some(id) && w.queue.jobs[id].payload.approvedHash == Some(Sha(a.action)))
  {
    var w := After(EMPTY, run);
    assert Inv(EMPTY) by {
      forall id ensures ApprovalOk(EMPTY, id) && JobOk(EMPTY, id) && MQ.JobOk(EMPTY.queue, id) {
      }
    }
    RunKeepsInv(EMPTY, run);
    forall id | id in w.approvals
      ensures !(w.approvals[id].approvedAt.Some? && w.approvals[id].deniedAt.Some?)
    {
      assert ApprovalOk(w, id);
    }
    forall id | id in w.queue.jobs && w.queue.jobs[id].payload.approvedHash.Some?
      ensures Granted(w.approvals, w.queue.jobs[id]) && ApprovalOk(w, w.queue.jobs[id].payload.approval.value)
              && CarriesOwn(w.approvals, id, w.queue.jobs[id])
    {
      assert JobOk(w, id) && ApprovalOk(w, w.queue.jobs[id].payload.approval.value);
    }
  }

  /** Who decided and used an approval, and when: the step did it, or it stood before. */
  lemma StepHasAuthor(w: World, step: Step, id: Id)
    requires Inv(w) && Enabled(w, step) && id in Apply(w, step).approvals
    ensures var b := Apply(w, step).approvals[id];
      if id !in w.approvals then
        && step.Request? && step.id == id && b.action == step.action && b.requester == step.requester
        && b.expiresAt == w.queue.clock + step.ttl && b.approver.None? && b.deniedBy.None? && b.consumedAt.None?
      else
        var a := w.approvals[id];
        && (b.approver != a.approver ==>
              b.approver.Some? && step == Approve(id, b.approver.value) && b.approvedAt == Some(w.queue.clock))
        && (b.deniedBy != a.deniedBy ==>
              b.deniedBy.Some? && step == Deny(id, b.deniedBy.value) && b.deniedAt == Some(w.queue.clock))
        && (b.consumedAt != a.consumedAt ==>
              step == Consume(id, step.action) && b.consumedAt == Some(w.queue.clock) && step.action == a.action)
  {
    assert ApprovalOk(w, id);
  }

  /** After every run an approval names exactly who gave it: that user approved it in the run. The same for who
      denied it; and it was requested in the run, for that action. */
  lemma {:induction false} DecisionsHaveAuthors(w: World, run: seq<Step>, id: Id)
    requires Inv(w) && Executable(w, run) && id in After(w, run).approvals
    ensures var b := After(w, run).approvals[id];
      && (id !in w.approvals ==>
            exists step :: step in run && step.Request? && step.id == id && step.action == b.action
                           && step.requester == b.requester)
      && (b.approver.Some? && (id in w.approvals ==> w.approvals[id].approver.None?) ==>
            Approve(id, b.approver.value) in run && b.approver.value != b.requester)
      && (b.deniedBy.Some? && (id in w.approvals ==> w.approvals[id].deniedBy.None?) ==>
            Deny(id, b.deniedBy.value) in run && b.deniedBy.value != b.requester)
      && (b.consumedAt.Some? && (id in w.approvals ==> w.approvals[id].consumedAt.None?) ==>
            Consume(id, b.action) in run)
    decreases |run|
  {
    RunKeepsInv(w, run);
    assert ApprovalOk(After(w, run), id);
    if run != [] {
      var step, t := run[0], Apply(w, run[0]);
      StepKeepsInv(w, step);
      DecisionsHaveAuthors(t, run[1..], id);
      assert run == [step] + run[1..] && step in run && forall other :: other in run[1..] ==> other in run;
      if id in t.approvals {
        StepHasAuthor(w, step, id);
        assert ApprovalOk(w, id) && ApprovalOk(t, id);
        ActionStays(t, run[1..], id);
      }
    }
  }

  lemma {:induction false} ActionStays(w: World, run: seq<Step>, id: Id)
    requires Inv(w) && Executable(w, run) && id in w.approvals
    ensures var t := After(w, run);
      && id in t.approvals && t.approvals[id].action == w.approvals[id].action
      && t.approvals[id].requester == w.approvals[id].requester
      && (w.approvals[id].approver.Some? ==> t.approvals[id].approver == w.approvals[id].approver)
      && (w.approvals[id].deniedBy.Some? ==> t.approvals[id].deniedBy == w.approvals[id].deniedBy)
    decreases |run|
  {
    if run != [] {
      StepKeepsInv(w, run[0]);
      DecisionsAreFinal(w, run[0], id);
      StepHasAuthor(w, run[0], id);
      assert ApprovalOk(w, id);
      ActionStays(Apply(w, run[0]), run[1..], id);
    }
  }

  ghost function Suspensions(run: seq<Step>, job: Id, id: Id): nat {
    if run == [] then 0
    else (if run[0].Suspend? && run[0].job == job && run[0].id == id then 1 else 0) + Suspensions(run[1..], job, id)
  }

  ghost function Resumptions(run: seq<Step>, job: Id, id: Id): nat {
    if run == [] then 0
    else (if run[0].Resume? && run[0].job == job && run[0].id == id then 1 else 0) + Resumptions(run[1..], job, id)
  }

  ghost function Waiting(w: World, job: Id, id: Id): nat {
    if job in w.queue.jobs && w.queue.jobs[job].state.WaitingApproval? && w.queue.jobs[job].payload.approval == Some(id)
    then 1 else 0
  }

  lemma StepCountsWaiting(w: World, step: Step, job: Id, id: Id)
    requires Inv(w) && Enabled(w, step)
    ensures Waiting(Apply(w, step), job, id) + (if step.Resume? && step.job == job && step.id == id then 1 else 0)
            <= Waiting(w, job, id) + (if step.Suspend? && step.job == job && step.id == id then 1 else 0)
  {
    assert MQ.JobOk(w.queue, job) && JobOk(w, job);
    if step.Work? {
      WorkKeepsJob(w, step.a, job);
    }
  }

  /** Each suspension is resumed at most once, by whatever mix of clicks and reconcilers. */
  lemma {:induction false} ResumedAtMostOnce(w: World, run: seq<Step>, job: Id, id: Id)
    requires Inv(w) && Executable(w, run)
    ensures Resumptions(run, job, id) + Waiting(After(w, run), job, id) <= Suspensions(run, job, id)
      + Waiting(w, job, id)
    decreases |run|
  {
    if run != [] {
      StepKeepsInv(w, run[0]);
      StepCountsWaiting(w, run[0], job, id);
      ResumedAtMostOnce(Apply(w, run[0]), run[1..], job, id);
    }
  }

  ghost function Consumptions(run: seq<Step>, id: Id): nat {
    if run == [] then 0 else (if run[0].Consume? && run[0].id == id then 1 else 0) + Consumptions(run[1..], id)
  }

  /** An approval authorizes its own action, byte for byte, and only once. */
  lemma {:induction false} ConsumedAtMostOnce(w: World, run: seq<Step>, id: Id)
    requires Inv(w) && Executable(w, run) && id in w.approvals
    ensures Consumptions(run, id) + (if w.approvals[id].consumedAt.Some? then 1 else 0) <= 1
    ensures forall step :: step in run && step.Consume? && step.id == id ==> step.action == w.approvals[id].action
    decreases |run|
  {
    if run != [] {
      StepKeepsInv(w, run[0]);
      DecisionsAreFinal(w, run[0], id);
      assert ApprovalOk(w, id);
      ConsumedAtMostOnce(Apply(w, run[0]), run[1..], id);
      assert run == [run[0]] + run[1..];
    }
  }

  /** Once denied, an approval never resumes a job nor releases an action, and a job that carries it waits
      or is cancelled. */
  lemma {:induction false} DeniedNeverRuns(w: World, run: seq<Step>, id: Id)
    requires Inv(w) && Executable(w, run) && id in w.approvals && w.approvals[id].deniedAt.Some?
    ensures forall step :: step in run && (step.Resume? || step.Consume?) ==> step.id != id
    ensures var t := After(w, run);
      && id in t.approvals && t.approvals[id].deniedAt.Some?
      && forall job :: job in t.queue.jobs && t.queue.jobs[job].payload.approval == Some(id) ==>
           t.queue.jobs[job].state in {WaitingApproval, Cancelled} && t.queue.jobs[job].payload.approvedHash.None?
    decreases |run|
  {
    assert ApprovalOk(w, id);
    if run == [] {
      forall job | job in w.queue.jobs && w.queue.jobs[job].payload.approval == Some(id)
        ensures w.queue.jobs[job].state in {WaitingApproval, Cancelled} && w.queue.jobs[job].payload.approvedHash.None?
      {
        assert JobOk(w, job);
      }
    } else {
      StepKeepsInv(w, run[0]);
      DecisionsAreFinal(w, run[0], id);
      DeniedNeverRuns(Apply(w, run[0]), run[1..], id);
      assert run == [run[0]] + run[1..];
    }
  }
}
