/** The shared queue (core/jobs/mongo_queue.go). Each action is one Mongo call on one job document; a run
    is any sequence of enabled actions of any number of workers. `at` is the clock reading a call
    carries, taken at or before the moment it lands. `seen` records every document some worker has
    read and may still act on. */
module MongoQueue {
  import opened Prelude
  import opened ToolActions
  import opened Jobs

  datatype Doc = Doc(job: Job, writerActive: bool)

  datatype Store = Store(docs: map<Id, Doc>, clock: int, issued: set<Id>, seen: set<(Id, Doc)>)

  datatype Action =
    | Tick(time: int)
    | Read(id: Id)
    | Insert(id: Id, spec: Spec, at: int)
    | Recover(id: Id, at: int)
    | Claim(id: Id, snap: Doc, worker: Id, token: Id, duration: int, at: int)
    | Transition(id: Id, snap: Doc, token: Id, to: State, mutate: Payload -> Payload, checkedAt: int, at: int)
    | Progress(id: Id, token: Id, ts: Id, at: int)
    | Heartbeat(id: Id, token: Id, duration: int, at: int)
    | Resume(id: Id, approval: Id, hash: Hash, at: int)
    | Cancel(id: Id, reason: string, at: int)
    | MarkUndelivered(id: Id, reason: string, at: int)
    | ReleaseRetry(id: Id, snap: Doc, checkedAt: int, at: int)
    | MarkFinal(id: Id, at: int)

  const EMPTY := Store(map[], 0, {}, {})

  /** The partial unique index: one active writer per organization, session and generation. */
  predicate IndexAllows(docs: map<Id, Doc>, id: Id, doc: Doc) {
    doc.writerActive ==>
      forall other :: other in docs && other != id && docs[other].writerActive ==>
        !SameWriterScope(docs[other].job, doc.job)
  }

  predicate KeyTaken(docs: map<Id, Doc>, spec: Spec) {
    exists id :: id in docs && docs[id].job.spec.org == spec.org && docs[id].job.spec.key == spec.key
  }

  /** Fields the transition callback could not have touched come from the stored document, the payload
      comes from the callback's copy. */
  function TransitionUpdate(current: Doc, snap: Doc, to: State, mutate: Payload -> Payload, at: int): Doc {
    Doc(current.job.(state := to, payload := mutate(snap.job.payload), updatedAt := at,
                     lease := if ClearsLease(to) then NoLease else current.job.lease,
                     version := current.job.version + 1),
        if ClearsLease(to) then to.WaitingApproval? else current.writerActive)
  }

  function ResumeUpdate(doc: Doc, hash: Hash, at: int): Doc {
    Doc(doc.job.(state := Queued, payload := doc.job.payload.(approvedHash := Some(hash), availableAt := at),
                 lease := NoLease, updatedAt := at, attempt := doc.job.attempt - 1,
                 steeringEpoch := doc.job.steeringEpoch + 1, version := doc.job.version + 1), false)
  }

  function CancelUpdate(doc: Doc, reason: string, at: int): Doc {
    var stopped := doc.job.state in {Queued, RetryWait, WaitingApproval};
    Doc(CancelledJob(doc.job, reason, at).(steeringEpoch := doc.job.steeringEpoch + 1),
        if stopped then false else doc.writerActive)
  }

  /** The document after the update, or None when the filter matches nothing. */
  function Update(s: Store, a: Action): Option<Doc>
    requires !a.Tick? && !a.Read? && !a.Insert?
  {
    if a.id !in s.docs then None
    else
      var doc := s.docs[a.id];
      var job := doc.job;
      match a
      case Recover(_, at) => if Recoverable(job, at) then Some(Doc(Recovered(job, at), false)) else None
      case Claim(id, snap, worker, token, duration, at) =>
        if (id, snap) in s.seen && Runnable(snap.job, at) && token !in s.issued
           && job.state.Queued? && job.version == snap.job.version
        then Some(Doc(Claimed(job, worker, token, at + duration, at), true)) else None
      case Transition(id, snap, token, to, mutate, checkedAt, at) =>
        if (id, snap) in s.seen && CanMove(snap.job, token, to, checkedAt)
           && job.state == snap.job.state && job.version == snap.job.version && Live(job, token, at)
        then Some(TransitionUpdate(doc, snap, to, mutate, at)) else None
      case Progress(_, token, ts, at) =>
        if job.state.Running? && Live(job, token, at) then Some(doc.(job := WithProgress(job, ts, at))) else None
      case Heartbeat(_, token, duration, at) =>
        if Live(job, token, at) then Some(doc.(job := Beating(job, at + duration, at))) else None
      case Resume(_, approval, hash, at) =>
        if CanResume(job, Some(approval)) then Some(ResumeUpdate(doc, hash, at)) else None
      case Cancel(_, reason, at) => if CanCancel(job) then Some(CancelUpdate(doc, reason, at)) else None
      case MarkUndelivered(_, reason, at) =>
        if CanMarkUndelivered(job) then Some(doc.(job := Undelivered(job, reason, at))) else None
      case ReleaseRetry(id, snap, checkedAt, at) =>
        if (id, snap) in s.seen && CanRelease(snap.job, checkedAt) && job.state.RetryWait?
          && job.version == snap.job.version
        then Some(doc.(job := ReleasedRetry(snap.job, at))) else None
      case MarkFinal(_, at) => if job.state.Succeeded? then Some(doc.(job := FinalMarked(job, at))) else None
  }

  predicate Enabled(s: Store, a: Action) {
    match a
    case Tick(time) => s.clock <= time
    case Read(id) => id in s.docs
    case Insert(id, spec, at) => at <= s.clock && ValidSpec(spec) && id !in s.docs && !KeyTaken(s.docs, spec)
    case _ => a.at <= s.clock && Update(s, a).Some? && IndexAllows(s.docs, a.id, Update(s, a).value)
  }

  function Apply(s: Store, a: Action): Store
    requires Enabled(s, a)
  {
    match a
    case Tick(time) => s.(clock := time)
    case Read(id) => s.(seen := s.seen + {(id, s.docs[id])})
    case Insert(id, spec, at) => s.(docs := s.docs[id := Doc(NewJob(spec, at), false)])
    case _ =>
      Store(s.docs[a.id := Update(s, a).value], s.clock, if a.Claim? then s.issued + {a.token} else s.issued, s.seen)
  }

  ghost predicate Executable(s: Store, run: seq<Action>)
    decreases |run|
  {
    run == [] || (Enabled(s, run[0]) && Executable(Apply(s, run[0]), run[1..]))
  }

  ghost function After(s: Store, run: seq<Action>): Store
    requires Executable(s, run)
    decreases |run|
  {
    if run == [] then s else After(Apply(s, run[0]), run[1..])
  }

  // ---------------------------------------------------------------- the invariant

  ghost predicate DocOk(s: Store, id: Id) {
    id in s.docs ==>
      && JobInv(s.docs[id].job)
      && (Busy(s.docs[id].job.state) ==> s.docs[id].writerActive)
      && (s.docs[id].job.lease.Lease? ==> s.docs[id].writerActive && s.docs[id].job.lease.token in s.issued)
      && (s.docs[id].writerActive ==> Busy(s.docs[id].job.state) || s.docs[id].job.lease.Lease?)
  }

  /** A document once read is either still the stored one, or the stored one has a higher version. */
  ghost predicate SeenOk(s: Store, id: Id, snap: Doc) {
    (id, snap) in s.seen ==>
      id in s.docs && snap.job.version <= s.docs[id].job.version
      && (snap.job.version == s.docs[id].job.version ==> snap == s.docs[id])
  }

  ghost predicate UniqueActive(docs: map<Id, Doc>) {
    forall i, j :: i in docs && j in docs && i != j && docs[i].writerActive && docs[j].writerActive ==>
      !SameWriterScope(docs[i].job, docs[j].job)
  }

  ghost predicate Inv(s: Store) {
    && (forall id {:trigger DocOk(s, id)} :: DocOk(s, id))
    && (forall id, snap {:trigger SeenOk(s, id, snap)} :: SeenOk(s, id, snap))
    && UniqueActive(s.docs)
  }

  /** A compare-and-set that matches acts on the document it read. */
  lemma MatchedIsCurrent(s: Store, id: Id, snap: Doc)
    requires Inv(s) && (id, snap) in s.seen && id in s.docs && s.docs[id].job.version == snap.job.version
    ensures snap == s.docs[id]
  {
    assert SeenOk(s, id, snap);
  }

  lemma UpdateKeepsJob(s: Store, a: Action)
    requires Inv(s) && Enabled(s, a) && !a.Tick? && !a.Read? && !a.Insert?
    ensures JobInv(Update(s, a).value.job)
  {
    assert DocOk(s, a.id);
    if a.Claim? || a.ReleaseRetry? || a.Transition? {
      MatchedIsCurrent(s, a.id, a.snap);
    }
  }

  lemma UpdateKeepsWriter(s: Store, a: Action)
    requires Inv(s) && Enabled(s, a) && !a.Tick? && !a.Read? && !a.Insert?
    ensures var doc := Update(s, a).value;
      && (Busy(doc.job.state) ==> doc.writerActive)
      && (doc.job.lease.Lease? ==> doc.writerActive && doc.job.lease.token in Apply(s, a).issued)
      && (doc.writerActive ==> Busy(doc.job.state) || doc.job.lease.Lease?)
  {
    assert DocOk(s, a.id);
    if a.Claim? || a.ReleaseRetry? || a.Transition? {
      MatchedIsCurrent(s, a.id, a.snap);
    }
  }

  lemma StepKeepsDoc(s: Store, a: Action, id: Id)
    requires Inv(s) && Enabled(s, a)
    ensures DocOk(Apply(s, a), id)
  {
    assert DocOk(s, id);
    if !a.Tick? && !a.Read? && !a.Insert? && id == a.id {
      UpdateKeepsJob(s, a);
      UpdateKeepsWriter(s, a);
    }
  }

  /** Every update raises the version of its document by exactly one. */
  lemma UpdateRaisesVersion(s: Store, a: Action)
    requires Inv(s) && Enabled(s, a) && !a.Tick? && !a.Read? && !a.Insert?
    ensures Update(s, a).value.job.version == s.docs[a.id].job.version + 1
    ensures Update(s, a).value.job.spec == s.docs[a.id].job.spec
  {
    if a.ReleaseRetry? {
      MatchedIsCurrent(s, a.id, a.snap);
    }
  }

  lemma StepKeepsSeen(s: Store, a: Action, id: Id, snap: Doc)
    requires Inv(s) && Enabled(s, a)
    ensures SeenOk(Apply(s, a), id, snap)
  {
    assert SeenOk(s, id, snap);
    if !a.Tick? && !a.Read? && !a.Insert? {
      UpdateRaisesVersion(s, a);
    }
  }

  lemma StepKeepsUnique(s: Store, a: Action)
    requires Inv(s) && Enabled(s, a)
    ensures UniqueActive(Apply(s, a).docs)
  {
    if !a.Tick? && !a.Read? && !a.Insert? {
      UpdateRaisesVersion(s, a);
      assert IndexAllows(s.docs, a.id, Update(s, a).value);
    }
  }

  lemma StepKeepsInv(s: Store, a: Action)
    requires Inv(s) && Enabled(s, a)
    ensures Inv(Apply(s, a))
  {
    forall id ensures DocOk(Apply(s, a), id) {
      StepKeepsDoc(s, a, id);
    }
    forall id, snap ensures SeenOk(Apply(s, a), id, snap) {
      StepKeepsSeen(s, a, id, snap);
    }
    StepKeepsUnique(s, a);
  }

  lemma {:induction false} RunKeepsInv(s: Store, run: seq<Action>)
    requires Inv(s) && Executable(s, run)
    ensures Inv(After(s, run))
    decreases |run|
  {
    if run != [] {
      StepKeepsInv(s, run[0]);
      RunKeepsInv(Apply(s, run[0]), run[1..]);
    }
  }

  // ---------------------------------------------------------------- one writer per session generation

  ghost predicate OneWriter(docs: map<Id, Doc>) {
    forall i, j :: i in docs && j in docs && i != j && SameWriterScope(docs[i].job, docs[j].job) ==>
      !(Busy(docs[i].job.state) && Busy(docs[j].job.state))
  }

  /** In every reachable state of every run at most one job per session generation is busy, hand-backs
      included: the handed-back job keeps its index entry. */
  lemma OneWriterAlways(run: seq<Action>)
    requires Executable(EMPTY, run)
    ensures OneWriter(After(EMPTY, run).docs)
  {
    var s := After(EMPTY, run);
    assert Inv(EMPTY) by {
      forall id ensures DocOk(EMPTY, id) {
      }
      forall id, snap ensures SeenOk(EMPTY, id, snap) {
      }
    }
    RunKeepsInv(EMPTY, run);
    forall i, j | i in s.docs && j in s.docs && i != j && SameWriterScope(s.docs[i].job, s.docs[j].job)
      ensures !(Busy(s.docs[i].job.state) && Busy(s.docs[j].job.state))
    {
      assert DocOk(s, i) && DocOk(s, j);
    }
  }

  /** The index only ever refuses claims: every other update that matches its filter is let through. */
  lemma OnlyClaimsConflict(s: Store, a: Action)
    requires Inv(s) && !a.Tick? && !a.Read? && !a.Insert? && !a.Claim? && Update(s, a).Some?
    ensures IndexAllows(s.docs, a.id, Update(s, a).value)
  {
    assert DocOk(s, a.id);
    if a.ReleaseRetry? || a.Transition? {
      MatchedIsCurrent(s, a.id, a.snap);
    }
  }

  /** A session is never blocked for nothing: its writer is at work, suspended, or holds a lease. */
  lemma BlockedOnlyByWork(s: Store, id: Id)
    requires Inv(s) && WriterTaken(s.docs, id)
    ensures exists other :: other in s.docs && other != id && s.docs[other].job.spec.org == s.docs[id].job.spec.org
              && s.docs[other].job.spec.session == s.docs[id].job.spec.session
              && s.docs[other].job.spec.generation == s.docs[id].job.spec.generation
              && (s.docs[other].job.state in {Leased, Preparing, Running, WaitingApproval, Cancelling}
                  || s.docs[other].job.lease.Lease?)
  {
    var other :| other in s.docs && other != id && s.docs[other].writerActive
                 && SameWriterScope(s.docs[other].job, s.docs[id].job);
    assert DocOk(s, other);
  }

  // ---------------------------------------------------------------- started and expired work

  /** The job has been started, or is over. */
  predicate Begun(state: State) {
    state !in {Queued, Leased}
  }

  /** Only an approval or a retry puts started work back in the queue. */
  predicate Requeues(a: Action, id: Id) {
    (a.Resume? || a.ReleaseRetry?) && a.id == id
  }

  lemma StepKeepsBegun(s: Store, a: Action, id: Id)
    requires Inv(s) && Enabled(s, a) && id in s.docs && Begun(s.docs[id].job.state) && !Requeues(a, id)
    ensures id in Apply(s, a).docs && Begun(Apply(s, a).docs[id].job.state) && !(a.Claim? && a.id == id)
  {
    assert DocOk(s, id);
    if a.ReleaseRetry? {
      MatchedIsCurrent(s, a.id, a.snap);
    }
  }

  /** Work that has started is not handed out a second time, whatever expires or crashes and however old the
      readings are: in every run it is claimed again only after a resumption or the release of a retry. */
  lemma {:induction false} StartedWorkIsNotClaimed(s: Store, run: seq<Action>, id: Id)
    requires Inv(s) && Executable(s, run) && id in s.docs && Begun(s.docs[id].job.state)
    requires forall a :: a in run ==> !Requeues(a, id)
    ensures id in After(s, run).docs && Begun(After(s, run).docs[id].job.state)
    ensures forall a :: a in run && a.Claim? ==> a.id != id
    decreases |run|
  {
    if run != [] {
      assert run[0] in run && forall a :: a in run[1..] ==> a in run;
      StepKeepsInv(s, run[0]);
      StepKeepsBegun(s, run[0], id);
      StartedWorkIsNotClaimed(Apply(s, run[0]), run[1..], id);
      assert run == [run[0]] + run[1..];
    }
  }

  /** A recovery puts back in the queue what nobody had started, and leaves started work for somebody to look
      into; it frees the session either way. */
  lemma RecoveryMeans(s: Store, id: Id, at: int)
    requires Enabled(s, Recover(id, at))
    ensures var before, after := s.docs[id].job, Apply(s, Recover(id, at)).docs[id];
      && before.state in {Leased, Preparing, Running} && (before.lease.Lease? ==> before.lease.expiresAt <= at)
      && after.job.state == (if before.state == Leased then Queued else NeedsReconciliation)
      && after.job ==
         before.(state := after.job.state, lease := NoLease, version := before.version + 1, updatedAt := at)
      && !after.writerActive
  {
  }

  /** A claim starts nothing that was expired, not yet due or out of attempts at its own reading. */
  lemma ClaimMeans(s: Store, a: Action)
    requires Inv(s) && Enabled(s, a) && a.Claim?
    ensures var before, after := s.docs[a.id].job, Apply(s, a).docs[a.id].job;
      && before.state == Queued && before.payload.availableAt <= a.at < before.spec.expiresAt
      && before.attempt < before.spec.maxAttempts
      && after == before.(state := Leased, attempt := before.attempt + 1,
           lease := Lease(a.worker, a.token, a.at + a.duration, a.at), version := before.version + 1, updatedAt := a.at)
  {
    MatchedIsCurrent(s, a.id, a.snap);
  }

  /** What the calls leave that carry no copy of the job: the lease runs from the call's reading, a message and a
      reason are recorded, a delivery is marked, and a cancelled job stops at once unless it is being worked on. */
  lemma OneCallUpdates(s: Store, a: Action)
    requires Enabled(s, a) && (a.Heartbeat? || a.Progress? || a.MarkUndelivered? || a.MarkFinal? || a.Cancel?)
    ensures var was, now := s.docs[a.id].job, Apply(s, a).docs[a.id].job;
      && now.version == was.version + 1 && now.updatedAt == a.at && now.spec == was.spec && now.attempt == was.attempt
      && match a
         case Heartbeat(_, token, duration, at) =>
           now.lease == Lease(was.lease.owner, token, at + duration, at) && now.payload == was.payload
             && now.state == was.state
         case Progress(_, _, ts, _) =>
           now.lease == was.lease && now.payload == was.payload.(progressTs := Some(ts))
             && now.state == was.state == Running
         case MarkUndelivered(_, reason, _) =>
           now.state == CompletedUndelivered && now.payload == was.payload.(failureReason := reason)
           && was.state in {Succeeded, CompletedUndelivered}
         case MarkFinal(_, _) => now.finalDelivery && now.state == was.state == Succeeded && now.payload == was.payload
         case Cancel(_, reason, _) =>
           && now.payload == was.payload.(failureReason := reason) && now.steeringEpoch == was.steeringEpoch + 1
           && (if was.state in {Queued, RetryWait, WaitingApproval} then now.state == Cancelled && now.lease == NoLease
               else was.state in {Leased, Preparing, Running} && now.state == Cancelling && now.lease == was.lease)
  {
  }

  // ---------------------------------------------------------------- refinement of the locked queue

  /** A transition that succeeds has exactly the effect of one locked transition at the moment it lands,
      whatever happened between its read and its compare-and-set: no update is lost. */
  lemma TransitionRefinesLocked(s: Store, a: Action)
    requires Inv(s) && Enabled(s, a) && a.Transition?
    ensures CanMove(s.docs[a.id].job, a.token, a.to, a.at)
    ensures Apply(s, a).docs[a.id].job == Moved(s.docs[a.id].job, a.to, a.mutate, a.at)
    ensures forall other :: other in s.docs && other != a.id ==> Apply(s, a).docs[other] == s.docs[other]
  {
    MatchedIsCurrent(s, a.id, a.snap);
  }

  /** The unconditional decrement agrees with the guarded one of the locked queue. */
  lemma ResumeRefinesLocked(s: Store, a: Action)
    requires Inv(s) && Enabled(s, a) && a.Resume?
    ensures Apply(s, a).docs[a.id].job == Resumed(s.docs[a.id].job, a.hash, a.at)
  {
    assert DocOk(s, a.id);
  }

  lemma ReleaseRefinesLocked(s: Store, a: Action)
    requires Inv(s) && Enabled(s, a) && a.ReleaseRetry?
    ensures Apply(s, a).docs[a.id].job == ReleasedRetry(s.docs[a.id].job, a.at)
  {
    MatchedIsCurrent(s, a.id, a.snap);
  }

  /** Cancellation agrees with the locked queue except on the steering epoch, which it always raises. */
  lemma CancelRefinesLocked(s: Store, a: Action)
    requires Enabled(s, a) && a.Cancel?
    ensures var job := s.docs[a.id].job;
      Apply(s, a).docs[a.id].job == CancelledJob(job, a.reason, a.at)
      <==> job.state in {Leased, Preparing, Running}
  {
  }

  // ---------------------------------------------------------------- attempts

  ghost function Claims(run: seq<Action>, id: Id): nat {
    if run == [] then 0 else (if run[0].Claim? && run[0].id == id then 1 else 0) + Claims(run[1..], id)
  }

  ghost function Resumes(run: seq<Action>, id: Id): nat {
    if run == [] then 0 else (if run[0].Resume? && run[0].id == id then 1 else 0) + Resumes(run[1..], id)
  }

  lemma StepCountsAttempt(s: Store, a: Action, id: Id)
    requires Inv(s) && Enabled(s, a) && id in s.docs
    ensures id in Apply(s, a).docs && Apply(s, a).docs[id].job.spec == s.docs[id].job.spec
    ensures Apply(s, a).docs[id].job.attempt ==
      s.docs[id].job.attempt + (if a.Claim? && a.id == id then 1 else 0) - (if a.Resume? && a.id == id then 1 else 0)
  {
    assert DocOk(s, id);
    if a.ReleaseRetry? {
      MatchedIsCurrent(s, a.id, a.snap);
    }
  }

  lemma {:induction false} AttemptAccounting(s: Store, run: seq<Action>, id: Id)
    requires Inv(s) && Executable(s, run) && id in s.docs
    ensures var t := After(s, run);
      && id in t.docs && t.docs[id].job.spec == s.docs[id].job.spec
      && t.docs[id].job.attempt == s.docs[id].job.attempt + Claims(run, id) - Resumes(run, id)
      && 0 <= t.docs[id].job.attempt <= t.docs[id].job.spec.maxAttempts
    decreases |run|
  {
    if run == [] {
      assert DocOk(s, id);
    } else {
      StepKeepsInv(s, run[0]);
      StepCountsAttempt(s, run[0], id);
      AttemptAccounting(Apply(s, run[0]), run[1..], id);
    }
  }

  // ---------------------------------------------------------------- fencing

  predicate Uses(a: Action, token: Id) {
    match a
    case Transition(_, _, used, _, _, _, _) => used == token
    case Progress(_, used, _, _) => used == token
    case Heartbeat(_, used, _, _) => used == token
    case _ => false
  }

  /** The token was handed out and its lease cleared or replaced. */
  ghost predicate Gone(s: Store, token: Id) {
    token in s.issued
    && forall id :: id in s.docs && s.docs[id].job.lease.Lease? ==> s.docs[id].job.lease.token != token
  }

  lemma StepKeepsGone(s: Store, a: Action, token: Id)
    requires Inv(s) && Gone(s, token) && Enabled(s, a)
    ensures Gone(Apply(s, a), token) && !Uses(a, token)
  {
    if a.ReleaseRetry? {
      MatchedIsCurrent(s, a.id, a.snap);
    }
  }

  /** A cleared or replaced token is useless for ever, whatever clock readings calls carry. */
  lemma {:induction false} GoneTokenStaysGone(s: Store, run: seq<Action>, token: Id)
    requires Inv(s) && Gone(s, token) && Executable(s, run)
    ensures Gone(After(s, run), token) && forall a :: a in run ==> !Uses(a, token)
    decreases |run|
  {
    if run != [] {
      StepKeepsInv(s, run[0]);
      StepKeepsGone(s, run[0], token);
      GoneTokenStaysGone(Apply(s, run[0]), run[1..], token);
      assert run == [run[0]] + run[1..];
    }
  }

  /** The token was handed out, and no lease under it runs at that reading. */
  ghost predicate DeadAt(s: Store, token: Id, reading: int) {
    token in s.issued && forall id :: id in s.docs ==> !Live(s.docs[id].job, token, reading)
  }

  lemma StepKeepsDead(s: Store, a: Action, token: Id, reading: int)
    requires Inv(s) && DeadAt(s, token, reading) && Enabled(s, a) && (Uses(a, token) ==> a.at >= reading)
    ensures DeadAt(Apply(s, a), token, reading) && !Uses(a, token)
  {
    if a.ReleaseRetry? {
      MatchedIsCurrent(s, a.id, a.snap);
    }
    var t := Apply(s, a);
    forall id | id in t.docs ensures !Live(t.docs[id].job, token, reading) {
      assert id in s.docs ==> !Live(s.docs[id].job, token, reading);
    }
  }

  /** Fencing over every run: a token whose lease has lapsed is useless for ever, whatever everybody else
      does, as long as its own holder sends nothing with a clock reading from before the lapse. */
  lemma {:induction false} LapsedTokenStaysDead(s: Store, run: seq<Action>, token: Id, reading: int)
    requires Inv(s) && DeadAt(s, token, reading) && Executable(s, run)
    requires forall a :: a in run && Uses(a, token) ==> a.at >= reading
    ensures DeadAt(After(s, run), token, reading) && forall a :: a in run ==> !Uses(a, token)
    decreases |run|
  {
    if run != [] {
      assert run[0] in run && forall a :: a in run[1..] ==> a in run;
      StepKeepsInv(s, run[0]);
      StepKeepsDead(s, run[0], token, reading);
      LapsedTokenStaysDead(Apply(s, run[0]), run[1..], token, reading);
      assert run == [run[0]] + run[1..];
    }
  }

  /** What a holder's call asks of the stored job besides its lease. */
  predicate OtherwiseMatches(s: Store, a: Action)
    requires a.Transition? || a.Progress? || a.Heartbeat?
  {
    && a.id in s.docs
    && var job := s.docs[a.id].job;
       match a
       case Transition(id, snap, token, to, _, checkedAt, _) =>
         && (id, snap) in s.seen && CanMove(snap.job, token, to, checkedAt)
         && job.state == snap.job.state && job.version == snap.job.version
       case Progress(_, _, _, _) => job.state.Running?
       case Heartbeat(_, _, _, _) => true
  }

  /** That restraint is needed. Of the calls under a lapsed lease, whatever their kind, exactly those get
      through that carry a reading from before the lapse. */
  lemma LapsedCallLandsIff(s: Store, a: Action, token: Id)
    requires Inv(s) && Uses(a, token) && a.at <= s.clock && DeadAt(s, token, s.clock)
    ensures Enabled(s, a) <==>
      && OtherwiseMatches(s, a) && s.docs[a.id].job.lease.Lease? && s.docs[a.id].job.lease.token == token
      && a.at < s.docs[a.id].job.lease.expiresAt <= s.clock
  {
    if Update(s, a).Some? {
      OnlyClaimsConflict(s, a);
    }
  }

  /** Such a heartbeat revives the lease, for everybody to see. */
  lemma StaleHeartbeatRevives(s: Store, id: Id, token: Id, duration: int, at: int)
    requires Inv(s) && DeadAt(s, token, s.clock) && id in s.docs && at <= s.clock && at + duration > s.clock
    ensures var beat := Heartbeat(id, token, duration, at);
      (Enabled(s, beat) && Live(Apply(s, beat).docs[id].job, token, s.clock))
      <==> (s.docs[id].job.lease.Lease? && s.docs[id].job.lease.token == token && at < s.docs[id].job.lease.expiresAt)
  {
    LapsedCallLandsIff(s, Heartbeat(id, token, duration, at), token);
  }

  /** A job is enqueued and read. */
  lemma QueuedJob() returns (run: seq<Action>, doc: Doc)
    ensures Executable(EMPTY, run) && After(EMPTY, run) == EMPTY.(docs := map[1 := doc], seen := {(1, doc)})
    ensures Runnable(doc.job, 0)
  {
    var spec := Spec(1, 1, 1, 1, 1, 1, 1, 1, 1, 0, true);
    doc := Doc(NewJob(spec, 0), false);
    assert Executable(EMPTY, []) && After(EMPTY, []) == EMPTY;
    run := [Insert(1, spec, 0)];
    RunThen(EMPTY, [], Insert(1, spec, 0));
    assert [] + run == run;
    RunThen(EMPTY, run, Read(1));
    run := run + [Read(1)];
  }

  /** From the empty store: a job is claimed for 10, its lease lapses, and at 20 a heartbeat read at 5 makes
      it live again. */
  lemma LapsedLeaseRevived() returns (run: seq<Action>, s: Store, beat: Action)
    ensures Executable(EMPTY, run) && After(EMPTY, run) == s && DeadAt(s, 1, s.clock)
    ensures beat.Heartbeat? && beat.id in s.docs && Enabled(s, beat)
      && Live(Apply(s, beat).docs[beat.id].job, 1, s.clock)
  {
    var doc: Doc;
    run, doc := QueuedJob();
    RunThen(EMPTY, run, Claim(1, doc, 1, 1, 10, 0));
    run := run + [Claim(1, doc, 1, 1, 10, 0)];
    RunThen(EMPTY, run, Tick(20));
    run := run + [Tick(20)];
    s := Store(map[1 := Doc(Claimed(doc.job, 1, 1, 10, 0), true)], 20, {1}, {(1, doc)});
    beat := Heartbeat(1, 1, 100, 5);
  }

  // ---------------------------------------------------------------- calls made of several steps

  ghost predicate Reaches(s: Store, t: Store) {
    exists run :: Executable(s, run) && After(s, run) == t
  }

  lemma {:induction false} RunConcat(s: Store, first: seq<Action>, second: seq<Action>)
    requires Executable(s, first) && Executable(After(s, first), second)
    ensures Executable(s, first + second) && After(s, first + second) == After(After(s, first), second)
    decreases |first|
  {
    if first == [] {
      assert first + second == second;
    } else {
      RunConcat(Apply(s, first[0]), first[1..], second);
      assert (first + second)[1..] == first[1..] + second;
    }
  }

  lemma RunThen(s: Store, run: seq<Action>, a: Action)
    requires Executable(s, run) && Enabled(After(s, run), a)
    ensures Executable(s, run + [a]) && After(s, run + [a]) == Apply(After(s, run), a)
  {
    assert [a][1..] == [] && Executable(Apply(After(s, run), a), []);
    assert Executable(After(s, run), [a]);
    RunConcat(s, run, [a]);
  }

  /** The second store is one that a run leads to from the first. */
  ghost predicate LeadsTo(s: Store, t: Store) {
    Inv(t) && s.clock <= t.clock && s.seen <= t.seen && Reaches(s, t)
  }

  lemma LeadsNowhere(s: Store)
    requires Inv(s)
    ensures LeadsTo(s, s)
  {
    assert Executable(s, []) && After(s, []) == s;
  }

  lemma LeadsByStep(s: Store, a: Action)
    requires Inv(s) && Enabled(s, a)
    ensures LeadsTo(s, Apply(s, a))
  {
    StepKeepsInv(s, a);
    assert Executable(s, []) && After(s, []) == s;
    RunThen(s, [], a);
  }

  lemma LeadsOn(s: Store, t: Store, u: Store)
    requires LeadsTo(s, t) && LeadsTo(t, u)
    ensures LeadsTo(s, u)
  {
    var first :| Executable(s, first) && After(s, first) == t;
    var second :| Executable(t, second) && After(t, second) == u;
    RunConcat(s, first, second);
  }

  /** Found before: earliest available first, then oldest. */
  predicate Before(a: Job, b: Job) {
    a.payload.availableAt < b.payload.availableAt
    || (a.payload.availableAt == b.payload.availableAt && a.createdAt <= b.createdAt)
  }

  /** Another document is the active writer of this job's session generation. */
  predicate WriterTaken(docs: map<Id, Doc>, id: Id) {
    && id in docs
    && exists other ::
         other in docs && other != id && docs[other].writerActive && SameWriterScope(docs[other].job, docs[id].job)
  }

  /** The stored job could run at that reading; it is now leased under a token that nobody had, and nothing
      else has changed. */
  predicate ClaimedFrom(before: Store, after: Store, id: Id, job: Job, worker: Id, duration: int, now: int) {
    && id in before.docs && Runnable(before.docs[id].job, now)
    && job.lease.Lease? && job.lease.token !in before.issued
    && job == Claimed(before.docs[id].job, worker, job.lease.token, now + duration, now)
    && !WriterTaken(before.docs, id)
    && after == Store(before.docs[id := Doc(job, true)], before.clock, before.issued + {job.lease.token}, before.seen)
  }

  /** Due no later, and of two jobs due together the older one. */
  predicate NoLater(a: Job, b: Job) {
    a.payload.availableAt <= b.payload.availableAt
    && (a.payload.availableAt == b.payload.availableAt ==> a.createdAt <= b.createdAt)
  }

  /** At most 64 runnable jobs in order, and none left out comes strictly before one that is in. */
  ghost predicate ListsFirst(docs: map<Id, Doc>, now: int, list: seq<(Id, Doc)>) {
    && |list| <= 64
    && (forall c :: c in list ==> c.0 in docs && docs[c.0] == c.1 && Runnable(c.1.job, now))
    && (forall c, id :: c in list && id in docs && Runnable(docs[id].job, now) && (id, docs[id]) !in list ==>
          |list| == 64 && NoLater(c.1.job, docs[id].job))
    && (forall i, j :: 0 <= i < j < |list| ==> NoLater(list[i].1.job, list[j].1.job))
    && (list == [] ==> forall id :: id in docs ==> !Runnable(docs[id].job, now))
  }

  /** These are the first runnable jobs in order, and their names. */
  ghost predicate FirstSoFar(docs: map<Id, Doc>, now: int, found: seq<(Id, Doc)>, names: set<Id>) {
    && (forall c :: c in found ==> c.0 in docs && docs[c.0] == c.1 && Runnable(c.1.job, now))
    && (forall id :: id in names <==> id in docs && (id, docs[id]) in found)
    && (forall i, j :: 0 <= i < j < |found| ==> NoLater(found[i].1.job, found[j].1.job))
    && (forall c, id :: c in found && id in docs && Runnable(docs[id].job, now) && id !in names ==>
          NoLater(c.1.job, docs[id].job))
  }

  lemma FindOneMore(docs: map<Id, Doc>, now: int, found: seq<(Id, Doc)>, names: set<Id>, next: Id)
    requires FirstSoFar(docs, now, found, names) && next in docs && next !in names && Runnable(docs[next].job, now)
    requires forall id :: id in docs && id !in names && Runnable(docs[id].job, now) ==>
      Before(docs[next].job, docs[id].job)
    ensures FirstSoFar(docs, now, found + [(next, docs[next])], names + {next})
  {
    var longer := found + [(next, docs[next])];
    forall i, j | 0 <= i < j < |longer| ensures NoLater(longer[i].1.job, longer[j].1.job) {
      assert longer[i] in found;
    }
  }

  /** The listed job could not be had in the later store: it was another by then, or its session taken. */
  ghost predicate Missed(query: Store, s: Store, c: (Id, Doc)) {
    LeadsTo(query, s) && ((c.0 in s.docs ==> s.docs[c.0] != c.1) || WriterTaken(s.docs, c.0))
  }

  /** The first of the listed jobs whose session generation has no other active writer. */
  predicate FirstFree(docs: map<Id, Doc>, listed: seq<(Id, Doc)>, k: int, id: Id) {
    && 0 <= k < |listed| && listed[k].0 == id && !WriterTaken(docs, id)
    && forall i :: 0 <= i < k ==> WriterTaken(docs, listed[i].0)
  }

  class MongoQueue {
    var docs: map<Id, Doc>
    var clock: int
    var issued: set<Id>
    ghost var seen: set<(Id, Doc)>

    ghost function Snapshot(): Store
      reads this
    {
      Store(docs, clock, issued, seen)
    }

    /** Whatever other workers do between two calls of this one: any run at all, or nothing when quiet. */
    method Others(ghost quiet: bool)
      requires Inv(Snapshot())
      modifies this
      ensures quiet ==> Snapshot() == old(Snapshot())
      ensures LeadsTo(old(Snapshot()), Snapshot())
    {
      LeadsNowhere(Snapshot());
    }

    method Get(id: Id) returns (found: Option<Doc>)
      requires Inv(Snapshot())
      modifies this`seen
      ensures found == if id in docs then Some(docs[id]) else None
      ensures Snapshot() == if id in docs then Apply(old(Snapshot()), Read(id)) else old(Snapshot())
      ensures LeadsTo(old(Snapshot()), Snapshot()) && (found.Some? ==> (id, found.value) in seen)
    {
      if id !in docs {
        LeadsNowhere(Snapshot());
        return None;
      }
      LeadsByStep(Snapshot(), Read(id));
      seen := seen + {(id, docs[id])};
      return Some(docs[id]);
    }

    /** One find-and-update call: it lands when its filter matches and the unique index allows it. */
    method FindOneAndUpdate(a: Action, id: Id, update: Option<Doc>) returns (landed: bool)
      requires Inv(Snapshot()) && !a.Tick? && !a.Read? && !a.Insert? && a.id == id && a.at <= clock
      requires update == Update(Snapshot(), a)
      modifies this`docs, this`issued
      ensures landed <==> Enabled(old(Snapshot()), a)
      ensures Snapshot() == if landed then Apply(old(Snapshot()), a) else old(Snapshot())
      ensures LeadsTo(old(Snapshot()), Snapshot())
    {
      LeadsNowhere(Snapshot());
      if update.None? {
        return false;
      }
      if update.value.writerActive {
        var rest := docs.Keys - {id};
        while rest != {}
          invariant rest <= docs.Keys - {id}
          invariant forall other :: other in docs && other != id && other !in rest && docs[other].writerActive ==>
            !SameWriterScope(docs[other].job, update.value.job)
        {
          var other :| other in rest;
          if docs[other].writerActive && SameWriterScope(docs[other].job, update.value.job) {
            return false;
          }
          rest := rest - {other};
        }
      }
      LeadsByStep(Snapshot(), a);
      docs := docs[id := update.value];
      issued := if a.Claim? then issued + {a.token} else issued;
      return true;
    }

    /** `before` is the store this call's compare-and-set acted on, if it got so far. If it landed, the call had
        exactly the effect of the locked queue's transition at that moment; if not, the job had changed since it
        was read. Before that it fails exactly as the locked queue would. */
    method Transition(id: Id, token: Id, to: State, mutate: Payload -> Payload, ghost quiet: bool)
      returns (r: Result<Job, Error>, ghost before: Option<Store>)
      requires Inv(Snapshot())
      modifies this
      ensures LeadsTo(old(Snapshot()), Snapshot()) && (r.Ok? ==> before.Some?)
      ensures r.Err? && before.None? ==>
        r.error == if id !in old(docs) then JobNotFound
                   else if !Live(old(docs)[id].job, token, old(clock)) then LeaseLost else InvalidState
      ensures before.Some? <==> id in old(docs) && CanMove(old(docs)[id].job, token, to, old(clock))
      ensures r.Err? && before.Some? ==>
        && r.error == LeaseLost && LeadsTo(old(Snapshot()), before.value) && Snapshot() == before.value
        && (id in docs ==> docs[id] != old(docs)[id])
      ensures quiet ==> (r.Ok? <==> id in old(docs) && CanMove(old(docs)[id].job, token, to, old(clock)))
      ensures r.Ok? ==>
        && LeadsTo(old(Snapshot()), before.value) && id in before.value.docs
        && var job := before.value.docs[id].job;
           && CanMove(job, token, to, old(clock)) && r.value == Moved(job, to, mutate, old(clock))
           && id in docs && docs[id].job == r.value
           && Snapshot() == before.value.(docs := before.value.docs[id := docs[id]])
    {
      var found := Get(id);
      if found.None? {
        return Err(JobNotFound), None;
      }
      var current := found.value;
      var checkedAt := clock;
      if !Live(current.job, token, checkedAt) {
        return Err(LeaseLost), None;
      }
      if !CanTransition(current.job.state, to) {
        return Err(InvalidState), None;
      }
      var now := clock;
      ghost var s := Snapshot();
      Others(quiet);
      LeadsOn(old(Snapshot()), s, Snapshot());
      s := Snapshot();
      var moved := CompareAndSet(id, current, token, to, mutate, checkedAt, now);
      LeadsOn(old(Snapshot()), s, Snapshot());
      if moved.None? {
        return Err(LeaseLost), Some(s);
      }
      return Ok(moved.value), Some(s);
    }

    /** The update of a transition: filtered by state, version and a live lease. */
    method CompareAndSet(id: Id, current: Doc, token: Id, to: State, mutate: Payload -> Payload,
                         checkedAt: int, now: int)
      returns (moved: Option<Job>)
      requires Inv(Snapshot()) && (id, current) in seen && CanMove(current.job, token, to, checkedAt) && now <= clock
      modifies this`docs, this`issued
      ensures LeadsTo(old(Snapshot()), Snapshot()) && (moved.None? ==> Snapshot() == old(Snapshot()))
      ensures id in old(docs) && old(docs)[id] == current && Live(current.job, token, now) ==> moved.Some?
      ensures moved.Some? ==>
        && id in old(docs)
        && var job := old(docs)[id].job;
           && CanMove(job, token, to, now) && moved.value == Moved(job, to, mutate, now)
           && id in docs && docs[id].job == moved.value
           && Snapshot() == old(Snapshot()).(docs := old(docs)[id := docs[id]])
    {
      var update := None;
      if id in docs && docs[id].job.state == current.job.state && docs[id].job.version == current.job.version
         && Live(docs[id].job, token, now) {
        update := Some(TransitionUpdate(docs[id], current, to, mutate, now));
      }
      var a := Action.Transition(id, current, token, to, mutate, checkedAt, now);
      ghost var s := Snapshot();
      if update.Some? {
        OnlyClaimsConflict(s, a);
      }
      var landed := FindOneAndUpdate(a, id, update);
      if !landed {
        return None;
      }
      TransitionRefinesLocked(s, a);
      return Some(docs[id].job);
    }

    method ReleaseRetryWait(id: Id, ghost quiet: bool) returns (r: Result<Job, Error>, ghost before: Option<Store>)
      requires Inv(Snapshot())
      modifies this
      ensures LeadsTo(old(Snapshot()), Snapshot()) && (r.Ok? ==> before.Some?)
      ensures r.Err? ==> r.error == if id !in old(docs) then JobNotFound else InvalidState
      ensures before.Some? <==> id in old(docs) && CanRelease(old(docs)[id].job, old(clock))
      ensures r.Err? && before.Some? ==>
        LeadsTo(old(Snapshot()), before.value) && Snapshot() == before.value
          && (id in docs ==> docs[id] != old(docs)[id])
      ensures quiet ==> (r.Ok? <==> id in old(docs) && CanRelease(old(docs)[id].job, old(clock)))
      ensures r.Ok? ==>
        && LeadsTo(old(Snapshot()), before.value) && id in before.value.docs
        && var job := before.value.docs[id].job;
           && CanRelease(job, old(clock)) && r.value == ReleasedRetry(job, old(clock))
           && id in docs && docs[id].job == r.value
           && Snapshot() == before.value.(docs := before.value.docs[id := docs[id]])
    {
      var found := Get(id);
      if found.None? {
        return Err(JobNotFound), None;
      }
      var current := found.value;
      var now := clock;
      if !CanRelease(current.job, now) {
        return Err(InvalidState), None;
      }
      ghost var s := Snapshot();
      Others(quiet);
      LeadsOn(old(Snapshot()), s, Snapshot());
      var update := None;
      if id in docs && docs[id].job.state.RetryWait? && docs[id].job.version == current.job.version {
        update := Some(docs[id].(job := ReleasedRetry(current.job, now)));
      }
      var a := ReleaseRetry(id, current, now, now);
      s := Snapshot();
      if update.Some? {
        OnlyClaimsConflict(s, a);
      }
      var landed := FindOneAndUpdate(a, id, update);
      LeadsOn(old(Snapshot()), s, Snapshot());
      if !landed {
        return Err(InvalidState), Some(s);
      }
      MatchedIsCurrent(s, id, current);
      ReleaseRefinesLocked(s, a);
      return Ok(docs[id].job), Some(s);
    }

    /** The next runnable job in scan order, outside `taken`. */
    method NextRunnable(now: int, taken: set<Id>) returns (next: Option<Id>)
      ensures next.Some? ==>
        next.value in docs && next.value !in taken && Runnable(docs[next.value].job, now)
        && forall id :: id in docs && id !in taken && Runnable(docs[id].job, now) ==>
             Before(docs[next.value].job, docs[id].job)
      ensures next.None? ==> forall id :: id in docs && Runnable(docs[id].job, now) ==> id in taken
    {
      next := None;
      var rest := docs.Keys - taken;
      while rest != {}
        invariant rest <= docs.Keys - taken
        invariant next.Some? ==>
          next.value in docs && next.value !in taken && Runnable(docs[next.value].job, now)
        invariant forall id :: id in docs && id !in taken && id !in rest && Runnable(docs[id].job, now) ==>
          next.Some? && Before(docs[next.value].job, docs[id].job)
      {
        var id :| id in rest;
        if Runnable(docs[id].job, now) && (next.None? || !Before(docs[next.value].job, docs[id].job)) {
          next := Some(id);
        }
        rest := rest - {id};
      }
    }

    /** One query: at most 64 runnable jobs, and none left out comes strictly before one that is in. */
    method FindRunnable(now: int) returns (found: seq<(Id, Doc)>)
      requires Inv(Snapshot())
      modifies this`seen
      ensures LeadsTo(old(Snapshot()), Snapshot()) && ListsFirst(docs, now, found)
      ensures forall c :: c in found ==> c in seen
    {
      LeadsNowhere(Snapshot());
      found := [];
      var names: set<Id> := {};
      var done := false;
      while |found| < 64 && !done
        invariant LeadsTo(old(Snapshot()), Snapshot()) && |found| <= 64
        invariant FirstSoFar(docs, now, found, names) && forall c :: c in found ==> c in seen
        invariant done ==> forall id :: id in docs && Runnable(docs[id].job, now) ==> id in names
        decreases 64 - |found|, !done
      {
        var next := NextRunnable(now, names);
        if next.None? {
          done := true;
        } else {
          ghost var s := Snapshot();
          var doc := Get(next.value);
          FindOneMore(docs, now, found, names, next.value);
          LeadsOn(old(Snapshot()), s, Snapshot());
          found := found + [(next.value, doc.value)];
          names := names + {next.value};
        }
      }
    }

    /** The source of fresh lease tokens. */
    method FreshToken() returns (token: Id)
      ensures token !in issued
    {
      var rest := issued;
      token := 0;
      while rest != {}
        invariant rest <= issued && forall id :: id in issued && id !in rest ==> id < token
      {
        var id :| id in rest;
        rest := rest - {id};
        token := if token <= id then id + 1 else token;
      }
    }

    /** `query` is the store that was listed, `before` the one in which a claim landed, if one did: its job had
        been listed, was runnable at the call's clock reading, and is untouched since. Undisturbed, the call
        takes the first listed job whose session has no other active writer, and fails only if all have. However
        much it is disturbed, it fails only after trying them all, `tried` being the stores of its attempts: each
        job had changed since it was listed, or its session had another writer. */
    method Claim(worker: Id, duration: int, ghost quiet: bool)
      returns (r: Result<(Id, Job), Error>, ghost query: Store, ghost listed: seq<(Id, Doc)>,
               ghost before: Option<Store>, ghost tried: seq<Store>)
      requires Inv(Snapshot())
      modifies this
      ensures LeadsTo(old(Snapshot()), Snapshot()) && LeadsTo(old(Snapshot()), query)
      ensures ListsFirst(query.docs, old(clock), listed) && (quiet ==> query.docs == old(docs))
      ensures r.Ok? <==> before.Some?
      ensures r.Err? ==> r.error == NoRunnableJob && |tried| == |listed|
      ensures |tried| <= |listed| && forall i :: 0 <= i < |tried| ==> Missed(query, tried[i], listed[i])
      ensures r.Ok? ==> |tried| < |listed| && listed[|tried|].0 == r.value.0
      ensures r.Ok? ==>
        && LeadsTo(query, before.value)
        && ClaimedFrom(before.value, Snapshot(), r.value.0, r.value.1, worker, duration, old(clock))
        && (r.value.0, before.value.docs[r.value.0]) in listed
      ensures quiet && r.Ok? ==>
        before.value.docs == old(docs) && exists k :: FirstFree(old(docs), listed, k, r.value.0)
      ensures quiet && r.Err? ==> docs == old(docs) && forall c :: c in listed ==> WriterTaken(docs, c.0)
    {
      var now := clock;
      Others(quiet);
      ghost var s := Snapshot();
      var candidates := FindRunnable(now);
      LeadsOn(old(Snapshot()), s, Snapshot());
      query, listed := Snapshot(), candidates;
      r, before, tried := ClaimListed(candidates, worker, duration, now, quiet);
      LeadsOn(old(Snapshot()), query, Snapshot());
      assert quiet && r.Ok? ==> FirstFree(old(docs), listed, |tried|, r.value.0);
    }

    /** The candidates one after the other. */
    method ClaimListed(candidates: seq<(Id, Doc)>, worker: Id, duration: int, now: int, ghost quiet: bool)
      returns (r: Result<(Id, Job), Error>, ghost before: Option<Store>, ghost tried: seq<Store>)
      requires Inv(Snapshot()) && now <= clock
      requires forall c :: c in candidates ==> c in seen && Runnable(c.1.job, now)
      modifies this
      ensures LeadsTo(old(Snapshot()), Snapshot()) && (r.Ok? <==> before.Some?)
      ensures |tried| <= |candidates|
        && forall i :: 0 <= i < |tried| ==> Missed(old(Snapshot()), tried[i], candidates[i])
      ensures quiet ==> forall i :: 0 <= i < |tried| ==> tried[i].docs == old(docs)
      ensures r.Err? ==> r.error == NoRunnableJob && |tried| == |candidates| && (quiet ==> docs == old(docs))
      ensures r.Ok? ==>
        && |tried| < |candidates| && candidates[|tried|].0 == r.value.0
        && LeadsTo(old(Snapshot()), before.value) && (quiet ==> before.value.docs == old(docs))
        && ClaimedFrom(before.value, Snapshot(), r.value.0, r.value.1, worker, duration, now)
        && before.value.docs[r.value.0] == candidates[|tried|].1
    {
      before, tried := None, [];
      LeadsNowhere(Snapshot());
      for i := 0 to |candidates|
        invariant LeadsTo(old(Snapshot()), Snapshot())
        invariant |tried| == i && forall k :: 0 <= k < i ==> Missed(old(Snapshot()), tried[k], candidates[k])
        invariant quiet ==> docs == old(docs) && forall k :: 0 <= k < i ==> tried[k].docs == old(docs)
      {
        var (id, snap) := candidates[i];
        assert candidates[i] in candidates;
        ghost var t := Snapshot();
        var claimed, s := TryNext(id, snap, worker, duration, now, quiet);
        LeadsOn(old(Snapshot()), t, Snapshot());
        LeadsOn(old(Snapshot()), t, s);
        if claimed.Some? {
          r, before := Ok((id, claimed.value)), Some(s);
          return;
        }
        tried := tried + [s];
      }
      r := Err(NoRunnableJob);
    }

    /** One candidate, after anything the others do: `s` is the store of its compare-and-set. */
    method TryNext(id: Id, snap: Doc, worker: Id, duration: int, now: int, ghost quiet: bool)
      returns (claimed: Option<Job>, ghost s: Store)
      requires Inv(Snapshot()) && (id, snap) in seen && Runnable(snap.job, now) && now <= clock
      modifies this
      ensures LeadsTo(old(Snapshot()), s) && LeadsTo(old(Snapshot()), Snapshot()) && (quiet ==> s == old(Snapshot()))
      ensures claimed.None? ==> Snapshot() == s && ((id in s.docs ==> s.docs[id] != snap) || WriterTaken(s.docs, id))
      ensures claimed.Some? ==>
        ClaimedFrom(s, Snapshot(), id, claimed.value, worker, duration, now) && s.docs[id] == snap
    {
      Others(quiet);
      s := Snapshot();
      claimed := TryClaim(id, snap, worker, duration, now);
      LeadsOn(old(Snapshot()), s, Snapshot());
    }

    /** One candidate's compare-and-set. */
    method TryClaim(id: Id, snap: Doc, worker: Id, duration: int, now: int) returns (claimed: Option<Job>)
      requires Inv(Snapshot()) && (id, snap) in seen && Runnable(snap.job, now) && now <= clock
      modifies this`docs, this`issued
      ensures LeadsTo(old(Snapshot()), Snapshot()) && (claimed.None? ==> Snapshot() == old(Snapshot()))
      ensures claimed.None? && id in docs && docs[id] == snap ==> WriterTaken(docs, id)
      ensures claimed.Some? ==>
        && ClaimedFrom(old(Snapshot()), Snapshot(), id, claimed.value, worker, duration, now) && old(docs)[id] == snap
    {
      var token := FreshToken();
      var update := None;
      if id in docs && docs[id].job.state.Queued? && docs[id].job.version == snap.job.version {
        update := Some(Doc(Claimed(docs[id].job, worker, token, now + duration, now), true));
      }
      var a := Action.Claim(id, snap, worker, token, duration, now);
      ghost var s := Snapshot();
      var landed := FindOneAndUpdate(a, id, update);
      if !landed {
        return None;
      }
      MatchedIsCurrent(s, id, snap);
      return Some(docs[id].job);
    }
  }
}
