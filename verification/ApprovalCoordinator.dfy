/** Delivering a human decision (core/approvals/coordinator.go): the sequential meaning of one call, what
    re-delivery does after a crash at any point, and the class that makes the calls one by one while
    everybody else keeps working. */
module ApprovalCoordinator {
  import opened Prelude
  import opened ToolActions
  import opened Jobs
  import opened Approvals
  import MQ = MemoryQueue

  datatype Decision = Decision(org: Id, workspace: Id, channel: Id, user: Id, id: Id, approve: bool)

  /** Answers of the services outside the two stores: the approver check, the audit log, the delivery queue. */
  datatype Answers = Answers(authorized: bool, audited: bool, delivered: bool)

  datatype Error =
    | Incomplete | NotFound | DestinationMismatch | Unauthorized | NotIndependent | JobUnavailable | JobMismatch
    | AuditUnavailable | NotApprovable | NotDeniable | NotAuthorizing | NotResumed | NotCancelled | DeliveryUnavailable
    | InvalidScope | NotSuspended | InvalidRequest

  /** Both stores, the decisions recorded in the audit log and announced, and the reservations completed. */
  datatype Site = Site(world: World, audited: set<(Id, bool)>, completed: set<Id>, announced: set<(Id, bool)>)

  function Find(w: World, org: Id, id: Id): Option<Approval> {
    if id in w.approvals && w.approvals[id].org == org then Some(w.approvals[id]) else None
  }

  predicate Matches(job: Job, d: Decision) {
    job.spec.org == d.org && job.spec.workspace == d.workspace && job.spec.channel == d.channel
    && job.payload.approval == Some(d.id)
  }

  /** The first objection before anything is recorded. */
  function Objection(w: World, d: Decision, answers: Answers): Option<Error> {
    if 0 in {d.org, d.workspace, d.channel, d.user, d.id} then Some(Incomplete)
    else if Find(w, d.org, d.id).None? then Some(NotFound)
    else
      var a := w.approvals[d.id];
      if a.action.workspace != d.workspace || a.action.channel != d.channel || a.action.job.None? then
        Some(DestinationMismatch)
      else if !answers.authorized then Some(Unauthorized)
      else if a.requester == d.user then Some(NotIndependent)
      else if a.action.job.value !in w.queue.jobs then Some(JobUnavailable)
      else if !Matches(w.queue.jobs[a.action.job.value], d) then Some(JobMismatch)
      else if !answers.audited then Some(AuditUnavailable)
      else None
  }

  predicate DecidedAsAsked(a: Approval, approve: bool) {
    if approve then a.approvedAt.Some? else a.deniedAt.Some?
  }

  function Decide(w: World, d: Decision): Result<World, Error>
    requires d.id in w.approvals
  {
    var a, now := w.approvals[d.id], w.queue.clock;
    if DecidedAsAsked(a, d.approve) then Ok(w)
    else if !MayDecide(a, d.user, now) then Err(if d.approve then NotApprovable else NotDeniable)
    else Ok(w.(approvals :=
               w.approvals[d.id := if d.approve then Approved(a, d.user, now) else Denied(a, d.user, now)]))
  }

  function WithJob(w: World, id: Id, job: Job): World {
    w.(queue := w.queue.(jobs := w.queue.jobs[id := job]))
  }

  const DENIED := "approval_denied"

  /** Resumes or cancels the job, or finds that it has been done. */
  function Settle(w: World, d: Decision, id: Id): Result<World, Error>
    requires d.id in w.approvals && id in w.queue.jobs
  {
    var job, hash, now := w.queue.jobs[id], w.approvals[d.id].hash, w.queue.clock;
    if d.approve then
      if CanResume(job, Some(d.id)) then Ok(WithJob(w, id, Resumed(job, hash, now)))
      else if job.payload.approval == Some(d.id) && job.payload.approvedHash == Some(hash)
        && !job.state.WaitingApproval? then Ok(w)
      else Err(NotResumed)
    else
      if CanCancel(job) then Ok(WithJob(w, id, CancelledJob(job, DENIED, now)))
      else if job.state in {Cancelled, Cancelling} then Ok(w)
      else Err(NotCancelled)
  }

  /** How far a call got before its process stopped. */
  datatype Progress = Recorded | DecisionMade | JobSettled | AdmissionDone

  /** What an undisturbed call that passed its checks has done when it stops there, or its error. */
  function Partial(s: Site, d: Decision, progress: Progress): (Site, Option<Error>)
    requires d.id in s.world.approvals && s.world.approvals[d.id].action.job.Some?
    requires s.world.approvals[d.id].action.job.value in s.world.queue.jobs
  {
    var id := s.world.approvals[d.id].action.job.value;
    var recorded := s.(audited := s.audited + {(d.id, d.approve)});
    if progress.Recorded? then (recorded, None)
    else
      var decided := Decide(s.world, d);
      if decided.Err? then (recorded, Some(decided.error))
      else if progress.DecisionMade? then (recorded.(world := decided.value), None)
      else
        var settled := Settle(decided.value, d, id);
        if settled.Err? then (recorded.(world := decided.value), Some(settled.error))
        else if progress.JobSettled? || d.approve then (recorded.(world := settled.value), None)
        else (recorded.(world := settled.value,
                        completed := s.completed + {s.world.queue.jobs[id].spec.reservation}), None)
  }

  /** One undisturbed call. */
  function Handle(s: Site, d: Decision, answers: Answers): (Site, Option<Error>) {
    var objection := Objection(s.world, d, answers);
    if objection.Some? then (s, objection)
    else CarryOut(s, d, answers.delivered)
  }

  /** The part of a call after its checks. */
  function CarryOut(s: Site, d: Decision, delivered: bool): (Site, Option<Error>)
    requires d.id in s.world.approvals && s.world.approvals[d.id].action.job.Some?
    requires s.world.approvals[d.id].action.job.value in s.world.queue.jobs
  {
    var id := s.world.approvals[d.id].action.job.value;
    var recorded := s.(audited := s.audited + {(d.id, d.approve)});
    var decided := Decide(s.world, d);
    if decided.Err? then (recorded, Some(decided.error))
    else Conclude(recorded.(world := decided.value), d, id, s.world.queue.jobs[id].spec.reservation, delivered)
  }

  /** The part of a call after its decision. */
  function Conclude(s: Site, d: Decision, id: Id, reservation: Id, delivered: bool): (Site, Option<Error>)
    requires d.id in s.world.approvals && id in s.world.queue.jobs
  {
    var settled := Settle(s.world, d, id);
    if settled.Err? then (s, Some(settled.error))
    else
      var t := s.(world := settled.value, completed := if d.approve then s.completed else s.completed + {reservation});
      if !delivered then (t, Some(DeliveryUnavailable))
      else (t.(announced := t.announced + {(d.id, d.approve)}), None)
  }

  // ---------------------------------------------------------------- what one call means

  /** Nothing is decided and no job moves without the audit record of that very decision. */
  lemma AuditedFirst(s: Site, d: Decision, answers: Answers)
    ensures var t := Handle(s, d, answers).0;
      t.world != s.world || t.completed != s.completed ==> answers.authorized && (d.id, d.approve) in t.audited
    ensures !answers.audited || !answers.authorized ==> Handle(s, d, answers).0 == s
  {
  }

  /** The user may decide this: an authorized approver other than the requester, in the place where the question
      was asked, about a job of that place that carries the question. */
  ghost predicate Rightful(w: World, d: Decision, answers: Answers) {
    && 0 !in {d.org, d.workspace, d.channel, d.user, d.id} && d.id in w.approvals
    && var a := w.approvals[d.id];
       && a.org == d.org && a.action.workspace == d.workspace && a.action.channel == d.channel && a.requester != d.user
       && answers.authorized && answers.audited
       && a.action.job.Some? && a.action.job.value in w.queue.jobs
       && var job := w.queue.jobs[a.action.job.value];
          && job.spec.org == d.org && job.spec.workspace == d.workspace && job.spec.channel == d.channel
          && job.payload.approval == Some(d.id)
  }

  /** Nobody else's click does anything at all. */
  lemma OnlyRightfulDecisions(s: Site, d: Decision, answers: Answers)
    ensures !Rightful(s.world, d, answers) ==> Handle(s, d, answers).0 == s && Handle(s, d, answers).1.Some?
  {
  }

  /** A rightful click on an open question whose job waits for it is carried out: it is recorded, the approval names
      the user, the job goes on under the hash of the approved action or is cancelled, a denied job's
      reservation is completed, the outcome is announced, and nothing else changes. */
  lemma RightfulDecisionIsCarriedOut(s: Site, d: Decision, answers: Answers)
    requires Inv(s.world) && Rightful(s.world, d, answers) && answers.delivered
    requires var a := s.world.approvals[d.id];
      && a.approvedAt.None? && a.deniedAt.None? && s.world.queue.clock < a.expiresAt
      && s.world.queue.jobs[a.action.job.value].state == WaitingApproval
    ensures var (t, error) := Handle(s, d, answers);
      var a, now := s.world.approvals[d.id], s.world.queue.clock;
      var id := a.action.job.value;
      var job := s.world.queue.jobs[id];
      && error.None? && t.audited == s.audited + {(d.id, d.approve)} && t.announced == s.announced + {(d.id, d.approve)}
      && t.completed == (if d.approve then s.completed else s.completed + {job.spec.reservation})
      && t.world.approvals == s.world.approvals[d.id :=
           if d.approve then a.(approver := Some(d.user), approvedAt := Some(now))
           else a.(deniedBy := Some(d.user), deniedAt := Some(now))]
      && t.world.queue.jobs.Keys == s.world.queue.jobs.Keys
      && (forall other :: other in s.world.queue.jobs && other != id ==>
          t.world.queue.jobs[other] == s.world.queue.jobs[other])
      && t.world.queue.jobs[id].state == (if d.approve then Queued else Cancelled)
      && t.world.queue.jobs[id].spec == job.spec && t.world.queue.jobs[id].lease == NoLease
      && (if d.approve
          then t.world.queue.jobs[id].payload == job.payload.(approvedHash := Some(Sha(a.action)), availableAt := now)
          else t.world.queue.jobs[id].payload == job.payload.(failureReason := "approval_denied"))
  {
    assert ApprovalOk(s.world, d.id) && JobOk(s.world, s.world.approvals[d.id].action.job.value);
    assert MQ.JobOk(s.world.queue, s.world.approvals[d.id].action.job.value);
  }

  /** The click that comes second and says the opposite changes neither store. */
  lemma OpposingClickFails(s: Site, d: Decision, answers: Answers)
    requires Inv(s.world) && d.id in s.world.approvals && DecidedAsAsked(s.world.approvals[d.id], !d.approve)
    ensures Handle(s, d, answers).0.world == s.world && Handle(s, d, answers).1.Some?
  {
    assert ApprovalOk(s.world, d.id);
  }

  /** A repeated click on a decision already made, from any reachable state in which the job still carries
      the approval: it fails only if the job was cancelled in between, otherwise it leaves the approval as
      it is and the job resumed (or cancelled), doing that now only if nobody has. */
  lemma RepeatedClick(s: Site, d: Decision, answers: Answers)
    requires Inv(s.world) && Objection(s.world, d, answers).None? && answers.delivered
    requires DecidedAsAsked(s.world.approvals[d.id], d.approve)
    ensures var a := s.world.approvals[d.id];
      var job, now := s.world.queue.jobs[a.action.job.value], s.world.queue.clock;
      var (t, error) := Handle(s, d, answers);
      && (error.None? <==> !(d.approve && job.state.Cancelled? && job.payload.approvedHash.None?))
      && t.world == (if !job.state.WaitingApproval? then s.world
                     else WithJob(s.world, a.action.job.value,
                            if d.approve then Resumed(job, a.hash, now) else CancelledJob(job, DENIED, now)))
  {
    var a := s.world.approvals[d.id];
    assert ApprovalOk(s.world, d.id) && JobOk(s.world, a.action.job.value);
    if !s.world.queue.jobs[a.action.job.value].state.WaitingApproval? {
      assert WithJob(s.world, a.action.job.value, s.world.queue.jobs[a.action.job.value]).queue.jobs ==
        s.world.queue.jobs;
    }
  }

  // ---------------------------------------------------------------- re-delivery after a crash

  /** Approvals and jobs without the clock readings of the moment they changed. */
  function Untimed(a: Approval): Approval {
    a.(approvedAt := if a.approvedAt.Some? then Some(0) else None,
       deniedAt := if a.deniedAt.Some? then Some(0) else None)
  }

  function UntimedJob(job: Job): Job {
    job.(updatedAt := 0, payload := job.payload.(availableAt := 0))
  }

  ghost predicate SameButTimes(v: World, w: World) {
    && v.approvals.Keys == w.approvals.Keys && v.queue.jobs.Keys == w.queue.jobs.Keys
    && (forall id :: id in v.approvals ==> Untimed(v.approvals[id]) == Untimed(w.approvals[id]))
    && (forall id :: id in v.queue.jobs ==> UntimedJob(v.queue.jobs[id]) == UntimedJob(w.queue.jobs[id]))
  }

  function Later(s: Site, time: int): Site {
    s.(world := s.world.(queue := s.world.queue.(clock := time)))
  }

  function LaterWorld(w: World, time: int): World {
    w.(queue := w.queue.(clock := time))
  }

  /** Deciding again changes nothing; deciding later, still in time, changes only the clock reading. */
  lemma DecideAgain(w: World, d: Decision, time: int)
    requires d.id in w.approvals && Decide(w, d).Ok? && w.queue.clock <= time
    ensures var v := Decide(w, d).value;
      Decide(LaterWorld(v, time), d) == Ok(LaterWorld(v, time)) && v.queue == w.queue
    ensures time < w.approvals[d.id].expiresAt || DecidedAsAsked(w.approvals[d.id], d.approve) ==>
      var v := Decide(LaterWorld(w, time), d);
      v.Ok? && v.value.queue == LaterWorld(w, time).queue && SameButTimes(v.value, Decide(w, d).value)
  {
  }

  /** Settling again changes nothing; settling later changes only clock readings. */
  lemma SettleAgain(v: World, w: World, d: Decision, id: Id, time: int)
    requires d.id in w.approvals && id in w.queue.jobs && Settle(w, d, id).Ok?
    requires v.queue == LaterWorld(w, time).queue && SameButTimes(v, w)
    ensures Settle(LaterWorld(Settle(w, d, id).value, time), d, id) == Ok(LaterWorld(Settle(w, d, id).value, time))
    ensures Settle(v, d, id).Ok? && SameButTimes(Settle(v, d, id).value, Settle(w, d, id).value)
  {
    assert Untimed(v.approvals[d.id]) == Untimed(w.approvals[d.id]);
  }

  lemma PassesChecksAgain(w: World, d: Decision, answers: Answers, time: int)
    requires Objection(w, d, answers).None?
    ensures Objection(LaterWorld(w, time), d, answers).None?
    ensures Decide(w, d).Ok? ==>
      var v := Decide(w, d).value;
      var id := w.approvals[d.id].action.job.value;
      && Objection(LaterWorld(v, time), d, answers).None? && v.approvals[d.id].action == w.approvals[d.id].action
      && (Settle(v, d, id).Ok? ==>
            var u := Settle(v, d, id).value;
            Objection(LaterWorld(u, time), d, answers).None? && u.approvals == v.approvals
            && u.queue.jobs[id].spec == w.queue.jobs[id].spec)
  {
  }

  ghost predicate EndsAlike(s: Site, interrupted: Site, d: Decision, answers: Answers) {
    var once := Handle(s, d, answers).0;
    var (again, error) := Handle(interrupted, d, answers);
    error.None? && SameButTimes(again.world, once.world)
    && again.audited == once.audited && again.completed == once.completed && again.announced == once.announced
  }

  /** Both stores after a call that succeeds. */
  function Outcome(w: World, d: Decision): World
    requires d.id in w.approvals && w.approvals[d.id].action.job.Some?
      && w.approvals[d.id].action.job.value in w.queue.jobs
    requires Decide(w, d).Ok? && Settle(Decide(w, d).value, d, w.approvals[d.id].action.job.value).Ok?
  {
    Settle(Decide(w, d).value, d, w.approvals[d.id].action.job.value).value
  }

  ghost predicate Succeeds(w: World, d: Decision, answers: Answers) {
    Objection(w, d, answers).None? && Decide(w, d).Ok?
    && Settle(Decide(w, d).value, d, w.approvals[d.id].action.job.value).Ok?
  }

  lemma FromTheStart(w: World, d: Decision, answers: Answers, time: int)
    requires Succeeds(w, d, answers) && w.queue.clock <= time
    requires DecidedAsAsked(w.approvals[d.id], d.approve) || time < w.approvals[d.id].expiresAt
    ensures var x := LaterWorld(w, time); Succeeds(x, d, answers) && SameButTimes(Outcome(x, d), Outcome(w, d))
  {
    PassesChecksAgain(w, d, answers, time);
    DecideAgain(w, d, time);
    SettleAgain(Decide(LaterWorld(w, time), d).value, Decide(w, d).value, d, w.approvals[d.id].action.job.value, time);
  }

  lemma FromTheDecision(w: World, d: Decision, answers: Answers, time: int)
    requires Succeeds(w, d, answers) && w.queue.clock <= time
    ensures var x := LaterWorld(Decide(w, d).value, time);
      Succeeds(x, d, answers) && SameButTimes(Outcome(x, d), Outcome(w, d))
  {
    var v := Decide(w, d).value;
    PassesChecksAgain(w, d, answers, time);
    DecideAgain(w, d, time);
    SettleAgain(LaterWorld(v, time), v, d, w.approvals[d.id].action.job.value, time);
  }

  lemma FromTheOutcome(w: World, d: Decision, answers: Answers, time: int)
    requires Succeeds(w, d, answers) && w.queue.clock <= time
    ensures var x := LaterWorld(Outcome(w, d), time);
      Succeeds(x, d, answers) && SameButTimes(Outcome(x, d), Outcome(w, d))
  {
    var id := w.approvals[d.id].action.job.value;
    var v := Decide(w, d).value;
    PassesChecksAgain(w, d, answers, time);
    DecideAgain(w, d, time);
    DecideAgain(Settle(v, d, id).value, d, time);
    SettleAgain(LaterWorld(v, time), v, d, id, time);
  }

  function Finished(s: Site, d: Decision, world: World, reservation: Id): Site {
    Site(world, s.audited + {(d.id, d.approve)}, if d.approve then s.completed else s.completed + {reservation},
         s.announced + {(d.id, d.approve)})
  }

  lemma SuccessMeans(s: Site, d: Decision, answers: Answers)
    ensures Handle(s, d, answers).1.None? <==> Succeeds(s.world, d, answers) && answers.delivered
    ensures Succeeds(s.world, d, answers) && answers.delivered ==>
      var id := s.world.approvals[d.id].action.job.value;
      Handle(s, d, answers).0 == Finished(s, d, Outcome(s.world, d), s.world.queue.jobs[id].spec.reservation)
  {
  }

  lemma WhereItStopped(s: Site, d: Decision, answers: Answers, progress: Progress)
    requires Succeeds(s.world, d, answers)
    ensures var t := Partial(s, d, progress).0;
      var id := s.world.approvals[d.id].action.job.value;
      && t.world == (match progress case Recorded => s.world case DecisionMade => Decide(s.world, d).value
                     case _ => Outcome(s.world, d))
      && t.world.approvals[d.id].action == s.world.approvals[d.id].action
      && t.world.queue.jobs[id].spec == s.world.queue.jobs[id].spec
      && s.audited <= t.audited <= s.audited + {(d.id, d.approve)} && t.announced == s.announced
      && s.completed <= t.completed
      && t.completed <= (if d.approve then s.completed else s.completed + {s.world.queue.jobs[id].spec.reservation})
  {
  }

  /** A call that stops anywhere and is delivered again later ends in the states one undisturbed call
      would have reached, except when it had not decided yet and the approval expired meanwhile. */
  lemma RedeliveryEqualsOneCall(s: Site, d: Decision, answers: Answers, progress: Progress, time: int)
    requires Handle(s, d, answers).1.None? && s.world.queue.clock <= time
    ensures EndsAlike(s, Later(Partial(s, d, progress).0, time), d, answers) <==>
      (progress.Recorded? && !DecidedAsAsked(s.world.approvals[d.id], d.approve) ==>
       time < s.world.approvals[d.id].expiresAt)
  {
    SuccessMeans(s, d, answers);
    WhereItStopped(s, d, answers, progress);
    var interrupted := Later(Partial(s, d, progress).0, time);
    match progress {
      case Recorded =>
        if DecidedAsAsked(s.world.approvals[d.id], d.approve) || time < s.world.approvals[d.id].expiresAt {
          FromTheStart(s.world, d, answers, time);
        } else {
          assert Decide(LaterWorld(s.world, time), d).Err?;
        }
      case DecisionMade => FromTheDecision(s.world, d, answers, time);
      case _ => FromTheOutcome(s.world, d, answers, time);
    }
    SuccessMeans(interrupted, d, answers);
  }

  lemma DecisionKeepsInv(w: World, d: Decision)
    requires Inv(w) && d.id in w.approvals && Decide(w, d).Ok?
    ensures Inv(Decide(w, d).value) && DecidedAsAsked(Decide(w, d).value.approvals[d.id], d.approve)
    ensures Decide(w, d).value.queue == w.queue && Decide(w, d).value.approvals[d.id].action == w.approvals[d.id].action
  {
    if !DecidedAsAsked(w.approvals[d.id], d.approve) {
      StepKeepsInv(w, if d.approve then Step.Approve(d.id, d.user) else Deny(d.id, d.user));
    }
  }

  lemma SettlingKeepsInv(w: World, d: Decision, id: Id)
    requires Inv(w) && d.id in w.approvals && id in w.queue.jobs && Settle(w, d, id).Ok?
    requires DecidedAsAsked(w.approvals[d.id], d.approve)
    ensures Inv(Settle(w, d, id).value) && Settle(w, d, id).value.approvals == w.approvals
  {
    var job := w.queue.jobs[id];
    if d.approve && CanResume(job, Some(d.id)) {
      var step := Step.Resume(id, d.id);
      assert Enabled(w, step);
      StepKeepsInv(w, step);
      assert Apply(w, step) == Settle(w, d, id).value;
    } else if !d.approve && CanCancel(job) {
      var step := Work(MQ.Cancel(id, DENIED));
      assert Enabled(w, step);
      StepKeepsInv(w, step);
      assert Apply(w, step) == Settle(w, d, id).value;
    }
  }

  /** A call that stops once it has decided, and is delivered again after any run of anybody else that leaves
      the job with the approval: its decision still stands, and the repeat succeeds and settles as a repeated
      click does. */
  lemma RedeliveryAfterOthers(s: Site, d: Decision, answers: Answers, progress: Progress, w: World)
    requires Inv(s.world) && Handle(s, d, answers).1.None? && !progress.Recorded?
    requires Reaches(Partial(s, d, progress).0.world, w) && Objection(w, d, answers).None?
    ensures var a := w.approvals[d.id];
      var job, now := w.queue.jobs[a.action.job.value], w.queue.clock;
      var (t, error) := Handle(Partial(s, d, progress).0.(world := w), d, answers);
      && DecidedAsAsked(a, d.approve) && a.action == s.world.approvals[d.id].action
      && (error.None? <==> !(d.approve && job.state.Cancelled? && job.payload.approvedHash.None?))
      && t.world == (if !job.state.WaitingApproval? then w
                     else WithJob(w, a.action.job.value,
                            if d.approve then Resumed(job, a.hash, now) else CancelledJob(job, DENIED, now)))
  {
    SuccessMeans(s, d, answers);
    WhereItStopped(s, d, answers, progress);
    var v := Decide(s.world, d).value;
    DecisionKeepsInv(s.world, d);
    SettlingKeepsInv(v, d, s.world.approvals[d.id].action.job.value);
    ReachesKeeps(Partial(s, d, progress).0.world, w);
    assert SameOrigin(v.approvals[d.id], w.approvals[d.id]);
    RepeatedClick(Partial(s, d, progress).0.(world := w), d, answers);
  }

  // ---------------------------------------------------------------- an approval that expires in between

  lemma {:induction false} RunConcat(v: World, first: seq<Step>, second: seq<Step>)
    requires Approvals.Executable(v, first) && Approvals.Executable(After(v, first), second)
    ensures Approvals.Executable(v, first + second) && After(v, first + second) == After(After(v, first), second)
    decreases |first|
  {
    if first == [] {
      assert first + second == second;
    } else {
      RunConcat(Apply(v, first[0]), first[1..], second);
      assert (first + second)[1..] == first[1..] + second;
    }
  }

  lemma RunThen(v: World, run: seq<Step>, step: Step)
    requires Approvals.Executable(v, run) && Enabled(After(v, run), step)
    ensures Approvals.Executable(v, run + [step]) && After(v, run + [step]) == Apply(After(v, run), step)
  {
    var w := Apply(After(v, run), step);
    assert [step][1..] == [] && Approvals.Executable(w, []) && After(w, []) == w;
    assert Approvals.Executable(After(v, run), [step]);
    RunConcat(v, run, [step]);
  }

  function Publish(): ToolAction {
    ToolAction(1, Some(1), 1, 1, 1, 1, 1, 1, [], 1, 1)
  }

  /** A job of channel 1 is enqueued, claimed and running. */
  lemma RunningJob() returns (run: seq<Step>, w: World)
    ensures Approvals.Executable(Approvals.EMPTY, run) && After(Approvals.EMPTY, run) == w
    ensures w.queue.clock == 0 && w.approvals == map[] && 1 in w.queue.jobs
    ensures var job := w.queue.jobs[1];
      job.state.Running? && Live(job, 1, 0) && job.spec.org == 1 && job.spec.workspace == 1 && job.spec.channel == 1
  {
    var spec := Spec(1, 1, 1, 1, 1, 1, 1, 1, 1, 0, true);
    var steps :=
      [Work(MQ.Enqueue(1, spec)), Work(MQ.Claim(1, 1, 1, 9)), Work(MQ.Transition(1, 1, Running, (p: Payload) => p))];
    run, w := [], Approvals.EMPTY;
    assert Approvals.Executable(w, []) && After(w, []) == w;
    for i := 0 to 3
      invariant Approvals.Executable(Approvals.EMPTY, run) && After(Approvals.EMPTY, run) == w
      invariant w.queue.clock == 0 && w.approvals == map[] && (i <= 1 ==> w.queue.issued == {})
      invariant i == 0 ==> w.queue.jobs == map[]
      invariant i >= 1 ==> w.queue.jobs.Keys == {1} && w.queue.jobs[1].spec == spec.(expiresAt := 86400)
      invariant i == 1 ==> w.queue.jobs[1] == NewJob(spec, 0)
      invariant i >= 2 ==> Live(w.queue.jobs[1], 1, 0) && w.queue.jobs[1].state == if i == 2 then Leased else Running
    {
      RunThen(Approvals.EMPTY, run, steps[i]);
      run := run + [steps[i]];
      w := Apply(w, steps[i]);
    }
  }

  /** It is suspended for an approval that user 1 asked for and that expires at 5. */
  lemma SuspendedJob() returns (run: seq<Step>, w: World)
    ensures Approvals.Executable(Approvals.EMPTY, run) && After(Approvals.EMPTY, run) == w && w.queue.clock == 0
    ensures 1 in w.approvals && w.approvals[1] == NewApproval(Publish(), 1, 5, 0) && 1 in w.queue.jobs
    ensures var job := w.queue.jobs[1];
      && job.state.WaitingApproval? && job.payload.approval == Some(1)
      && job.spec.org == 1 && job.spec.workspace == 1 && job.spec.channel == 1
  {
    run, w := RunningJob();
    RunThen(Approvals.EMPTY, run, Request(1, Publish(), 1, 5));
    run, w := run + [Request(1, Publish(), 1, 5)], Apply(w, Request(1, Publish(), 1, 5));
    RunThen(Approvals.EMPTY, run, Suspend(1, 1, 1));
    run, w := run + [Suspend(1, 1, 1)], Apply(w, Suspend(1, 1, 1));
  }

  /** From the empty stores: user 2 approves, the call stops after its audit record, and delivered again at 6 it
      fails, where the first delivery would have resumed the job. */
  lemma ExpiredMeanwhile() returns (run: seq<Step>, s: Site, d: Decision, answers: Answers)
    ensures Approvals.Executable(Approvals.EMPTY, run) && After(Approvals.EMPTY, run) == s.world
    ensures Handle(s, d, answers).1.None? && !EndsAlike(s, Later(Partial(s, d, Recorded).0, 6), d, answers)
  {
    var w;
    run, w := SuspendedJob();
    s, d, answers := Site(w, {}, {}, {}), Decision(1, 1, 1, 2, 1, true), Answers(true, true, true);
    RedeliveryEqualsOneCall(s, d, answers, Recorded, 6);
  }

  // ---------------------------------------------------------------- the calls, with everybody else working

  ghost predicate Reaches(v: World, w: World) {
    exists run :: Approvals.Executable(v, run) && After(v, run) == w
  }

  /** The same request, with every decision of `a` still standing in `b`. */
  predicate SameOrigin(a: Approval, b: Approval) {
    && b.org == a.org && b.requester == a.requester && b.hash == a.hash && b.action == a.action
    && (a.approvedAt.Some? ==> b.approvedAt.Some?) && (a.deniedAt.Some? ==> b.deniedAt.Some?)
  }

  lemma {:induction false} FinalOverRun(v: World, run: seq<Step>, id: Id)
    requires Inv(v) && Approvals.Executable(v, run) && id in v.approvals
    ensures id in After(v, run).approvals && SameOrigin(v.approvals[id], After(v, run).approvals[id])
    decreases |run|
  {
    if run != [] {
      StepKeepsInv(v, run[0]);
      DecisionsAreFinal(v, run[0], id);
      FinalOverRun(Apply(v, run[0]), run[1..], id);
    }
  }

  lemma {:induction false} JobsStay(v: World, run: seq<Step>, id: Id)
    requires Inv(v) && Approvals.Executable(v, run) && id in v.queue.jobs
    ensures id in After(v, run).queue.jobs && After(v, run).queue.jobs[id].spec == v.queue.jobs[id].spec
    decreases |run|
  {
    if run != [] {
      StepKeepsInv(v, run[0]);
      JobsStay(Apply(v, run[0]), run[1..], id);
    }
  }

  /** What other processes can do to what a call has read. */
  ghost predicate Keeps(v: World, w: World) {
    && (forall id :: id in v.approvals ==> id in w.approvals && SameOrigin(v.approvals[id], w.approvals[id]))
    && (forall id :: id in v.queue.jobs ==> id in w.queue.jobs && w.queue.jobs[id].spec == v.queue.jobs[id].spec)
  }

  lemma ReachesKeeps(v: World, w: World)
    requires Inv(v) && Reaches(v, w)
    ensures Inv(w) && Keeps(v, w)
  {
    var run :| Approvals.Executable(v, run) && After(v, run) == w;
    RunKeepsInv(v, run);
    forall id | id in v.approvals
      ensures id in w.approvals && SameOrigin(v.approvals[id], w.approvals[id])
    {
      FinalOverRun(v, run, id);
    }
    forall id | id in v.queue.jobs
      ensures id in w.queue.jobs && w.queue.jobs[id].spec == v.queue.jobs[id].spec
    {
      JobsStay(v, run, id);
    }
  }

  /** The second world is one that a run leads to from the first. */
  ghost predicate LeadsTo(v: World, w: World) {
    Inv(w) && Reaches(v, w)
  }

  lemma LeadsNowhere(w: World)
    requires Inv(w)
    ensures LeadsTo(w, w)
  {
    assert Approvals.Executable(w, []) && After(w, []) == w;
  }

  lemma LeadsByStep(w: World, step: Step)
    requires Inv(w) && Enabled(w, step)
    ensures LeadsTo(w, Apply(w, step)) && Keeps(w, Apply(w, step))
  {
    var x := Apply(w, step);
    assert [step][1..] == [] && Approvals.Executable(x, []) && After(x, []) == x;
    assert Approvals.Executable(w, [step]) && After(w, [step]) == x;
    ReachesKeeps(w, x);
  }

  lemma LeadsOn(v: World, w: World, x: World)
    requires Inv(v) && LeadsTo(v, w) && LeadsTo(w, x)
    ensures LeadsTo(v, x)
  {
    var first :| Approvals.Executable(v, first) && After(v, first) == w;
    var second :| Approvals.Executable(w, second) && After(w, second) == x;
    RunConcat(v, first, second);
  }

  /** The error says something true of that world: the call could not go on there. */
  ghost predicate Explains(w: World, d: Decision, answers: Answers, e: Error) {
    var known := d.id in w.approvals;
    var job := if known && w.approvals[d.id].action.job.Some? then w.approvals[d.id].action.job.value else 0;
    match e
    case Incomplete => 0 in {d.org, d.workspace, d.channel, d.user, d.id}
    case NotFound => Find(w, d.org, d.id).None?
    case DestinationMismatch =>
      known && (w.approvals[d.id].action.workspace != d.workspace || w.approvals[d.id].action.channel != d.channel
                || w.approvals[d.id].action.job.None?)
    case Unauthorized => !answers.authorized
    case NotIndependent => known && w.approvals[d.id].requester == d.user
    case JobUnavailable => known && w.approvals[d.id].action.job.Some? && job !in w.queue.jobs
    case JobMismatch => known && job in w.queue.jobs && !Matches(w.queue.jobs[job], d)
    case AuditUnavailable => !answers.audited
    case NotApprovable => d.approve && known && !Undecided(w.approvals[d.id], w.queue.clock)
    case NotDeniable => !d.approve && known && !Undecided(w.approvals[d.id], w.queue.clock)
    case NotResumed => d.approve && known && job in w.queue.jobs && !Settled(w, d)
    case NotCancelled => !d.approve && known && job in w.queue.jobs && !Settled(w, d)
    case DeliveryUnavailable => !answers.delivered && Settled(w, d)
    case _ => false
  }

  /** The job of the approval is as the decision wants it: resumed with the approved action, or stopped. */
  ghost predicate Settled(w: World, d: Decision) {
    && d.id in w.approvals && w.approvals[d.id].action.job.Some?
    && SettledJob(w.queue.jobs, w.approvals[d.id].action.job.value, d, w.approvals[d.id].hash)
  }

  ghost predicate SettledJob(jobs: map<Id, Job>, id: Id, d: Decision, hash: Hash) {
    && id in jobs
    && if d.approve then
         && !jobs[id].state.WaitingApproval? && jobs[id].payload.approval == Some(d.id)
         && jobs[id].payload.approvedHash == Some(hash)
       else jobs[id].state in {Cancelled, Cancelling}
  }

  lemma KeepsOn(v: World, w: World, x: World)
    requires Keeps(v, w) && Keeps(w, x)
    ensures Keeps(v, x)
  {
  }

  /** The call got from the first world to the last, and at a moment on the way its decision was carried out; or, if it
      failed, that moment explains why. */
  ghost predicate Stopped(v: World, at: World, w: World, d: Decision, answers: Answers, r: Option<Error>) {
    LeadsTo(v, at) && LeadsTo(at, w) && if r.Some? then Explains(at, d, answers, r.value) else Settled(at, d)
  }

  lemma StoppedHere(v: World, w: World, d: Decision, answers: Answers, r: Option<Error>)
    requires LeadsTo(v, w) && if r.Some? then Explains(w, d, answers, r.value) else Settled(w, d)
    ensures Stopped(v, w, w, d, answers, r)
  {
    LeadsNowhere(w);
  }

  lemma StoppedLater(u: World, v: World, at: World, w: World, d: Decision, answers: Answers, r: Option<Error>)
    requires Inv(u) && LeadsTo(u, v) && Stopped(v, at, w, d, answers, r)
    ensures Stopped(u, at, w, d, answers, r) && LeadsTo(u, w)
  {
    LeadsOn(u, v, at);
    LeadsOn(v, at, w);
    LeadsOn(u, v, w);
  }

  lemma UndecidableExplains(w: World, d: Decision, answers: Answers)
    requires d.id in w.approvals && !Undecided(w.approvals[d.id], w.queue.clock)
    ensures Explains(w, d, answers, if d.approve then NotApprovable else NotDeniable)
  {
  }

  lemma UnsettledExplains(w: World, d: Decision, answers: Answers, id: Id)
    requires d.id in w.approvals && w.approvals[d.id].action.job == Some(id) && id in w.queue.jobs
    requires !SettledJob(w.queue.jobs, id, d, w.approvals[d.id].hash)
    ensures Explains(w, d, answers, if d.approve then NotResumed else NotCancelled)
  {
  }

  class Coordinator {
    var approvals: map<Id, Approval>
    var jobs: map<Id, Job>
    var clock: int
    ghost var issued: set<Id>
    var audited: set<(Id, bool)>
    var completed: set<Id>
    var announced: set<(Id, bool)>

    ghost function Current(): World
      reads this
    {
      World(approvals, MQ.Queue(jobs, clock, issued))
    }

    ghost function State(): Site
      reads this
    {
      Site(Current(), audited, completed, announced)
    }

    /** Whatever users, workers and reconcilers do between two calls: any run, or nothing when quiet. */
    method Others(ghost quiet: bool)
      requires Inv(Current())
      modifies this
      ensures Keeps(old(Current()), Current())
      ensures LeadsTo(old(Current()), Current())
      ensures old(audited) <= audited && old(completed) <= completed && old(announced) <= announced
      ensures quiet ==> State() == old(State())
    {
      LeadsNowhere(Current());
    }

    // -------------------------------------------------------------- the approval store

    method RequestApproval(id: Id, action: ToolAction, requester: Id, ttl: int) returns (r: Result<Approval, Error>)
      requires Inv(Current()) && id !in approvals
      modifies this`approvals
      ensures r.Ok? <==> MayRequest(action, requester, ttl)
      ensures Current() == if r.Ok? then Apply(old(Current()), Request(id, action, requester, ttl)) else old(Current())
      ensures Inv(Current()) && (r.Ok? ==> approvals[id] == r.value) && (r.Err? ==> r.error == InvalidRequest)
      ensures r.Ok? ==>
        r.value == Approval(action.org, requester, None, Sha(action), action, clock + ttl, None, None, None, None)
    {
      if requester == 0 || action.org == 0 || ttl <= 0 || HashAction(action).None? {
        return Err(InvalidRequest);
      }
      StepKeepsInv(Current(), Request(id, action, requester, ttl));
      approvals := approvals[id := NewApproval(action, requester, ttl, clock)];
      return Ok(approvals[id]);
    }

    /** Organization 0 means any. */
    method ApproveIn(org: Id, id: Id, user: Id) returns (r: Result<Approval, Error>)
      requires Inv(Current())
      modifies this`approvals
      ensures r.Ok? <==>
        && id in old(approvals) && (org == 0 || old(approvals)[id].org == org)
        && MayDecide(old(approvals)[id], user, clock)
      ensures Current() == if r.Ok? then Apply(old(Current()), Step.Approve(id, user)) else old(Current())
      ensures Keeps(old(Current()), Current())
      ensures LeadsTo(old(Current()), Current()) && (r.Ok? ==> approvals[id] == r.value)
      ensures r.Ok? ==>
        && user != 0 && user != old(approvals)[id].requester && clock < old(approvals)[id].expiresAt
        && old(approvals)[id].approvedAt.None? && old(approvals)[id].deniedAt.None?
        && r.value == old(approvals)[id].(approver := Some(user), approvedAt := Some(clock))
      ensures r.Err? ==>
        r.error == if id !in old(approvals) || (org != 0 && old(approvals)[id].org != org) then NotFound
        else if user == 0 || user == old(approvals)[id].requester then NotIndependent else NotApprovable
    {
      LeadsNowhere(Current());
      if id !in approvals || (org != 0 && approvals[id].org != org) {
        return Err(NotFound);
      }
      if user == 0 || user == approvals[id].requester {
        return Err(NotIndependent);
      }
      if !Undecided(approvals[id], clock) {
        return Err(NotApprovable);
      }
      LeadsByStep(Current(), Step.Approve(id, user));
      approvals := approvals[id := Approved(approvals[id], user, clock)];
      return Ok(approvals[id]);
    }

    method DenyIn(org: Id, id: Id, user: Id) returns (r: Result<Approval, Error>)
      requires Inv(Current())
      modifies this`approvals
      ensures r.Ok? <==>
        id in old(approvals) && old(approvals)[id].org == org && MayDecide(old(approvals)[id], user, clock)
      ensures Current() == if r.Ok? then Apply(old(Current()), Deny(id, user)) else old(Current())
      ensures Keeps(old(Current()), Current())
      ensures LeadsTo(old(Current()), Current()) && (r.Ok? ==> approvals[id] == r.value)
        && (r.Err? ==> r.error == NotDeniable)
      ensures r.Ok? ==>
        && user != 0 && user != old(approvals)[id].requester && clock < old(approvals)[id].expiresAt
        && old(approvals)[id].approvedAt.None? && old(approvals)[id].deniedAt.None?
        && r.value == old(approvals)[id].(deniedBy := Some(user), deniedAt := Some(clock))
    {
      LeadsNowhere(Current());
      if id !in approvals || approvals[id].org != org || !MayDecide(approvals[id], user, clock) {
        return Err(NotDeniable);
      }
      LeadsByStep(Current(), Deny(id, user));
      approvals := approvals[id := Denied(approvals[id], user, clock)];
      return Ok(approvals[id]);
    }

    method ConsumeApproval(id: Id, action: ToolAction) returns (r: Result<Approval, Error>)
      requires Inv(Current())
      modifies this`approvals
      ensures r.Ok? <==> id in old(approvals) && MayConsume(old(approvals)[id], action, clock)
      ensures r.Ok? <==>
        && id in old(approvals) && old(approvals)[id].action == action && HashAction(action).Some?
        && old(approvals)[id].approvedAt.Some? && old(approvals)[id].consumedAt.None?
        && clock < old(approvals)[id].expiresAt
      ensures r.Ok? ==> r.value == old(approvals)[id].(consumedAt := Some(clock))
      ensures Current() == if r.Ok? then Apply(old(Current()), Consume(id, action)) else old(Current())
      ensures Inv(Current()) && (r.Ok? ==> approvals[id] == r.value && r.value.action == action)
      ensures r.Err? ==> r.error == NotAuthorizing
    {
      assert id in approvals ==> ApprovalOk(Current(), id);
      if HashAction(action).None? || id !in approvals || !MayConsume(approvals[id], action, clock) {
        return Err(NotAuthorizing);
      }
      assert ApprovalOk(Current(), id);
      StepKeepsInv(Current(), Consume(id, action));
      approvals := approvals[id := approvals[id].(consumedAt := Some(clock))];
      return Ok(approvals[id]);
    }

    // -------------------------------------------------------------- the job queue

    /** Both refuse as the queue does; an approval that was read as given licenses the resumption. */
    method ResumeJob(job: Id, id: Id, hash: Hash) returns (done: bool)
      requires Inv(Current()) && id in approvals && approvals[id].approvedAt.Some? && approvals[id].hash == hash
      modifies this`jobs
      ensures done <==> job in old(jobs) && CanResume(old(jobs)[job], Some(id))
      ensures done ==>
        Enabled(old(Current()), Step.Resume(job, id)) && Current() == Apply(old(Current()), Step.Resume(job, id))
      ensures !done ==> Current() == old(Current())
      ensures Keeps(old(Current()), Current())
      ensures LeadsTo(old(Current()), Current())
        && (done ==> jobs == old(jobs)[job := Resumed(old(jobs)[job], hash, clock)])
    {
      LeadsNowhere(Current());
      done := job in jobs && CanResume(jobs[job], Some(id));
      if done {
        assert Enabled(Current(), Step.Resume(job, id));
        LeadsByStep(Current(), Step.Resume(job, id));
        jobs := jobs[job := Resumed(jobs[job], hash, clock)];
      }
    }

    method CancelJob(job: Id, reason: string) returns (done: bool)
      requires Inv(Current())
      modifies this`jobs
      ensures done <==> job in old(jobs) && CanCancel(old(jobs)[job])
      ensures done ==> Enabled(old(Current()), Work(MQ.Cancel(job, reason)))
                       && Current() == Apply(old(Current()), Work(MQ.Cancel(job, reason)))
      ensures !done ==> Current() == old(Current())
      ensures Keeps(old(Current()), Current())
      ensures LeadsTo(old(Current()), Current())
      ensures done ==> jobs == old(jobs)[job := CancelledJob(old(jobs)[job], reason, clock)]
    {
      LeadsNowhere(Current());
      done := job in jobs && CanCancel(jobs[job]);
      if done {
        assert Enabled(Current(), Work(MQ.Cancel(job, reason)));
        LeadsByStep(Current(), Work(MQ.Cancel(job, reason)));
        jobs := jobs[job := CancelledJob(jobs[job], reason, clock)];
      }
    }

    // -------------------------------------------------------------- the coordinator

    /** The lease is given up before the question is published. */
    method SuspendAndNotify(job: Id, token: Id, id: Id, action: ToolAction, delivered: bool)
      returns (r: Result<(), Error>)
      requires Inv(Current()) && (id in approvals ==> approvals[id].action == action) && (id != 0 ==> id in approvals)
      modifies this`jobs
      ensures Inv(Current())
      ensures var suspends := job != 0 && token != 0 && id != 0 && action.job == Some(job)
                              && job in old(jobs) && CanMove(old(jobs)[job], token, WaitingApproval, clock);
        && (r.Ok? <==> suspends && delivered)
        && (suspends ==>
              && Enabled(old(Current()), Suspend(job, token, id))
              && Current() == Apply(old(Current()), Suspend(job, token, id)))
        && (!suspends ==> State() == old(State()))
    {
      if job == 0 || token == 0 || id == 0 || action.job != Some(job) {
        return Err(InvalidScope);
      }
      if job !in jobs || !CanMove(jobs[job], token, WaitingApproval, clock) {
        return Err(NotSuspended);
      }
      assert Enabled(Current(), Suspend(job, token, id));
      StepKeepsInv(Current(), Suspend(job, token, id));
      jobs := jobs[job := Moved(jobs[job], WaitingApproval, Suspended(id), clock)];
      return if delivered then Ok(()) else Err(DeliveryUnavailable);
    }

    /** The decision stands, on an approval that is not this user's own request; it was recorded and announced, and a
        denied job has given its reservation back. */
    ghost predicate Concluded(d: Decision)
      reads this
    {
      && d.id in approvals && approvals[d.id].org == d.org && approvals[d.id].requester != d.user
      && DecidedAsAsked(approvals[d.id], d.approve)
      && (d.id, d.approve) in audited && (d.id, d.approve) in announced
      && approvals[d.id].action.job.Some? && approvals[d.id].action.job.value in jobs
      && (!d.approve ==> jobs[approvals[d.id].action.job.value].spec.reservation in completed)
    }

    /** Undisturbed, a call does what `Handle` says. Disturbed at will, it keeps the joint invariant, and
        when it reports success its decision stands and was recorded first; when it fails there was a moment
        `at` that explains the error. */
    method HandleSlackDecision(d: Decision, answers: Answers, ghost quiet: bool)
      returns (r: Option<Error>, ghost at: World)
      requires Inv(Current())
      modifies this
      ensures LeadsTo(old(Current()), Current())
      ensures Stopped(old(Current()), at, Current(), d, answers, r)
      ensures quiet ==> (State(), r) == Handle(old(State()), d, answers)
      ensures r.None? ==> Concluded(d)
    {
      var authorized;
      authorized, at := Authorize(d, answers, quiet);
      if authorized.Err? {
        StoppedHere(old(Current()), at, d, answers, Some(authorized.error));
        return Some(authorized.error), at;
      }
      ghost var w := Current();
      Others(quiet);
      LeadsOn(old(Current()), w, Current());
      w := Current();
      r, at := Deliver(d, authorized.value.0, authorized.value.1, answers, quiet);
      StoppedLater(old(Current()), w, at, Current(), d, answers, r);
    }

    /** Decides, settles the job, completes the reservation of a denied one and announces the outcome. */
    method Deliver(d: Decision, approval: Approval, jobBefore: Job, answers: Answers, ghost quiet: bool)
      returns (r: Option<Error>, ghost at: World)
      requires Inv(Current()) && d.user != 0 && d.org != 0 && (d.id, d.approve) in audited
      requires d.id in approvals && SameOrigin(approval, approvals[d.id])
      requires approval.org == d.org && approval.requester != d.user && approval.action.job.Some?
      requires approval.action.job.value in jobs && jobs[approval.action.job.value].spec == jobBefore.spec
      modifies this
      ensures LeadsTo(old(Current()), Current())
      ensures quiet && approval == old(approvals)[d.id] ==>
        (State(), r) == CarryOut(old(State()), d, answers.delivered)
      ensures Stopped(old(Current()), at, Current(), d, answers, r)
      ensures r.None? ==> Concluded(d)
    {
      var jobId := approval.action.job.value;
      assert audited + {(d.id, d.approve)} == audited;
      var decided := DecideFirst(d, approval, quiet);
      if decided.Err? {
        UndecidableExplains(Current(), d, answers);
        at := Current();
        StoppedHere(at, at, d, answers, Some(decided.error));
        return Some(decided.error), at;
      }
      ghost var w := Current();
      r, at := Finish(d, approval.action.job.value, decided.value.hash, jobBefore.spec.reservation, answers, quiet);
      StoppedLater(old(Current()), w, at, Current(), d, answers, r);
    }

    /** The decision, and if it stands, whatever the others do next. */
    method DecideFirst(d: Decision, approval: Approval, ghost quiet: bool) returns (r: Result<Approval, Error>)
      requires Inv(Current()) && d.id in approvals && d.user != 0 && d.org != 0 && SameOrigin(approval, approvals[d.id])
      requires approval.org == d.org && approval.requester != d.user
      modifies this
      ensures Keeps(old(Current()), Current()) && LeadsTo(old(Current()), Current()) && old(audited) <= audited
      ensures r.Ok? ==> DecidedAsAsked(approvals[d.id], d.approve) && r.value.hash == approvals[d.id].hash
      ensures r.Err? ==>
        && r.error == (if d.approve then NotApprovable else NotDeniable) && Current() == old(Current())
        && !Undecided(approvals[d.id], clock)
      ensures quiet && approval == old(approvals)[d.id] ==>
        match Decide(old(Current()), d)
        case Ok(w) => r.Ok? && State() == old(State()).(world := w)
        case Err(e) => r == Err(e) && State() == old(State())
    {
      r := MakeDecision(d, approval);
      if r.Err? {
        return;
      }
      ghost var w := Current();
      Others(quiet);
      LeadsOn(old(Current()), w, Current());
      KeepsOn(old(Current()), w, Current());
    }

    /** Settles the job, completes the reservation of a denied one and announces the outcome. */
    method Finish(d: Decision, id: Id, hash: Hash, reservation: Id, answers: Answers, ghost quiet: bool)
      returns (r: Option<Error>, ghost at: World)
      requires Inv(Current()) && id in jobs && d.id in approvals
      requires approvals[d.id].hash == hash && DecidedAsAsked(approvals[d.id], d.approve)
      requires approvals[d.id].action.job == Some(id)
      modifies this
      ensures Stopped(old(Current()), at, Current(), d, answers, r)
      ensures LeadsTo(old(Current()), Current()) && old(audited) <= audited
      ensures d.id in approvals && SameOrigin(old(approvals)[d.id], approvals[d.id])
      ensures id in jobs && jobs[id].spec == old(jobs)[id].spec
      ensures quiet ==> (State(), r) == Conclude(old(State()), d, id, reservation, answers.delivered)
      ensures r.None? ==> (d.id, d.approve) in announced && (!d.approve ==> reservation in completed)
    {
      var settled := SettleDecision(d, id, hash, quiet);
      at := Current();
      if settled.Some? {
        UnsettledExplains(at, d, answers, id);
        StoppedHere(old(Current()), at, d, answers, settled);
        return settled, at;
      }
      if !d.approve {
        completed := completed + {reservation};
      }
      r := if answers.delivered then None else Some(DeliveryUnavailable);
      StoppedHere(old(Current()), at, d, answers, r);
      Others(quiet);
      LeadsOn(old(Current()), at, Current());
      if !answers.delivered {
        return;
      }
      announced := announced + {(d.id, d.approve)};
    }

    /** Every check, and then the audit record, before anything is decided. */
    method Authorize(d: Decision, answers: Answers, ghost quiet: bool)
      returns (r: Result<(Approval, Job), Error>, ghost at: World)
      requires Inv(Current())
      modifies this
      ensures LeadsTo(old(Current()), Current())
      ensures LeadsTo(old(Current()), at) && at == Current() && (r.Err? ==> Explains(at, d, answers, r.error))
      ensures r.Ok? ==>
        && d.user != 0 && d.org != 0 && (d.id, d.approve) in audited
        && d.id in approvals && SameOrigin(r.value.0, approvals[d.id])
        && r.value.0.org == d.org && r.value.0.requester != d.user && r.value.0.action.job.Some?
        && r.value.0.action.job.value in jobs && jobs[r.value.0.action.job.value].spec == r.value.1.spec
      ensures quiet ==>
        match Objection(old(Current()), d, answers)
        case Some(e) => r == Err(e) && State() == old(State())
        case None =>
          State() == old(State()).(audited := old(audited) + {(d.id, d.approve)})
          && r == Ok((approvals[d.id], jobs[approvals[d.id].action.job.value]))
    {
      LeadsNowhere(Current());
      at := Current();
      if 0 in {d.org, d.workspace, d.channel, d.user, d.id} {
        return Err(Incomplete), at;
      }
      if d.id !in approvals || approvals[d.id].org != d.org {
        return Err(NotFound), at;
      }
      var approval := approvals[d.id];
      if approval.action.workspace != d.workspace || approval.action.channel != d.channel || approval.action.job.None? {
        return Err(DestinationMismatch), at;
      }
      if !answers.authorized {
        return Err(Unauthorized), at;
      }
      if approval.requester == d.user {
        return Err(NotIndependent), at;
      }
      Others(quiet);
      at := Current();
      var jobId := approval.action.job.value;
      if jobId !in jobs {
        return Err(JobUnavailable), at;
      }
      var jobBefore := jobs[jobId];
      if !Matches(jobBefore, d) {
        return Err(JobMismatch), at;
      }
      if !answers.audited {
        return Err(AuditUnavailable), at;
      }
      audited := audited + {(d.id, d.approve)};
      return Ok((approval, jobBefore)), at;
    }

    /** Decides unless the approval, as first read, was already decided that way. */
    method MakeDecision(d: Decision, approval: Approval) returns (r: Result<Approval, Error>)
      requires Inv(Current()) && d.id in approvals && d.user != 0 && d.org != 0
      requires approvals[d.id].hash == approval.hash && approvals[d.id].org == d.org
        && approvals[d.id].requester != d.user
      requires DecidedAsAsked(approval, d.approve) ==> DecidedAsAsked(approvals[d.id], d.approve)
      modifies this`approvals
      ensures Keeps(old(Current()), Current())
      ensures LeadsTo(old(Current()), Current())
      ensures r.Ok? ==> DecidedAsAsked(approvals[d.id], d.approve) && r.value.hash == approvals[d.id].hash
      ensures r.Err? ==>
        && r.error == (if d.approve then NotApprovable else NotDeniable) && Current() == old(Current())
        && !Undecided(old(approvals)[d.id], clock)
      ensures DecidedAsAsked(old(approvals)[d.id], d.approve) ==> DecidedAsAsked(approval, d.approve) || r.Err?
      ensures approval == old(approvals)[d.id] ==>
        match Decide(old(Current()), d)
        case Ok(w) => r.Ok? && Current() == w
        case Err(e) => r == Err(e) && Current() == old(Current())
    {
      LeadsNowhere(Current());
      if DecidedAsAsked(approval, d.approve) {
        return Ok(approval);
      }
      if d.approve {
        r := ApproveIn(d.org, d.id, d.user);
      } else {
        r := DenyIn(d.org, d.id, d.user);
      }
    }

    /** Resumes or cancels, and on refusal looks again whether it has been done. */
    method SettleDecision(d: Decision, id: Id, hash: Hash, ghost quiet: bool) returns (r: Option<Error>)
      requires Inv(Current()) && id in jobs && d.id in approvals
      requires approvals[d.id].hash == hash && DecidedAsAsked(approvals[d.id], d.approve)
      modifies this
      ensures Keeps(old(Current()), Current())
      ensures LeadsTo(old(Current()), Current())
      ensures r.None? <==> SettledJob(jobs, id, d, hash)
      ensures r.Some? ==> id in jobs && r.value == if d.approve then NotResumed else NotCancelled
      ensures old(audited) <= audited && old(completed) <= completed && old(announced) <= announced
      ensures quiet ==> audited == old(audited) && completed == old(completed) && announced == old(announced)
      ensures quiet ==>
        match Settle(old(Current()), d, id)
        case Ok(w) => r.None? && Current() == w
        case Err(e) => r == Some(e) && Current() == old(Current())
    {
      if d.approve {
        var done := ResumeJob(id, d.id, hash);
        if !done {
          ghost var w := Current();
          Others(quiet);
          LeadsOn(old(Current()), w, Current());
          var job := jobs[id];
          if job.payload.approval != Some(d.id) || job.payload.approvedHash != Some(hash)
            || job.state.WaitingApproval? {
            return Some(NotResumed);
          }
        }
      } else {
        var done := CancelJob(id, DENIED);
        if !done {
          ghost var w := Current();
          Others(quiet);
          LeadsOn(old(Current()), w, Current());
          if jobs[id].state !in {Cancelled, Cancelling} {
            return Some(NotCancelled);
          }
        }
      }
      return None;
    }
  }
}
