/** What admission promises over whole runs (core/admission/mongo.go): one decrement per reservation, the limits of
    a policy, recovery after crashes, and what a late update does. */
module AdmissionSafety {
  import opened Admission
  import opened AdmissionInvariant

  /** Exactly one decrement per released reservation and none for one that is still open. */
  ghost predicate OnceEach(s: Store) {
    forall id :: id in s.reservations ==>
      && Count(s.decrements, id) <= 1
      && (s.reservations[id].release.Released? ==> Count(s.decrements, id) == 1)
      && (!s.reservations[id].completed ==> Count(s.decrements, id) == 0)
  }

  lemma OpenWithinActive(s: Store, channel: Id)
    requires Inv(s) && OnceEach(s)
    ensures |Uncompleted(s.reservations, channel)| <= if channel in s.docs then s.docs[channel].active else 0
  {
    var open, holding := Uncompleted(s.reservations, channel), Holding(s.reservations, s.decrements, channel);
    assert CountedAt(s, channel) && open <= holding;
    SubsetSize(open, holding);
    if channel !in s.docs {
      forall id | id in s.reservations ensures s.reservations[id].channel != channel { assert ReservationOk(s, id); }
      assert open == {};
    }
  }

  lemma HarmlessIsOnce(s: Store)
    requires Inv(s)
    ensures OnceEach(s)
  {
    forall id | id in s.reservations
      ensures Count(s.decrements, id) <= 1
      ensures s.reservations[id].release.Released? ==> Count(s.decrements, id) == 1
      ensures !s.reservations[id].completed ==> Count(s.decrements, id) == 0
    {
      assert ReservationOk(s, id);
    }
  }

  lemma {:induction false} CountsOnlyGrow(s: Store, run: seq<Action>, id: Id)
    requires Executable(s, run)
    ensures Count(s.decrements, id) <= Count(After(s, run).decrements, id)
    ensures id in s.reservations ==> id in After(s, run).reservations
    decreases |run|
  {
    if run != [] {
      CountsOnlyGrow(Apply(s, run[0]), run[1..], id);
    }
  }

  /** In a store no harmful update has touched, one more update keeps every reservation at one decrement
      exactly when it is harmless. */
  lemma LandDecrementsOnceIff(s: Store, token: Id)
    requires Inv(s) && CanLand(s, token)
    ensures Count(LandedUpdate(s, token).decrements, s.claims[token].id) <= 1 <==> HarmlessLand(s, token)
  {
    assert ClaimOk(s, token) && ReservationOk(s, s.claims[token].id);
  }

  lemma {:induction false} OnceIsHarmless(s: Store, run: seq<Action>)
    requires Inv(s) && s.harmless && Executable(s, run) && OnceEach(After(s, run))
    ensures After(s, run).harmless
    decreases |run|
  {
    if run != [] {
      var a, t := run[0], Apply(s, run[0]);
      if a.Land? {
        LandDecrementsOnceIff(s, a.token);
        CountsOnlyGrow(t, run[1..], s.claims[a.token].id);
      }
      StepKeepsInv(s, a);
      OnceIsHarmless(t, run[1..]);
    }
  }

  /** The central theorem, over every run: each reservation gives its slot back once, when it is released
      and not before, exactly when every update of the run met a marker or a release not yet finished. A
      channel then never has more open reservations than counted slots. */
  lemma ReleasesOnceIff(run: seq<Action>)
    requires Executable(EMPTY, run)
    ensures OnceEach(After(EMPTY, run)) <==> After(EMPTY, run).harmless
    ensures After(EMPTY, run).harmless ==> forall channel :: channel in After(EMPTY, run).docs ==>
      |Uncompleted(After(EMPTY, run).reservations, channel)| <= After(EMPTY, run).docs[channel].active
  {
    var s := After(EMPTY, run);
    EmptyInv();
    if OnceEach(s) {
      OnceIsHarmless(EMPTY, run);
    }
    if s.harmless {
      RunKeepsInv(EMPTY, run);
      HarmlessIsOnce(s);
      forall channel | channel in s.docs ensures |Uncompleted(s.reservations, channel)| <= s.docs[channel].active {
        OpenWithinActive(s, channel);
      }
    }
  }

  /** Every update of the run lands before the lease of its own claim is over. */
  ghost predicate InTime(s: Store, run: seq<Action>)
    requires Executable(s, run)
    decreases |run|
  {
    run != [] ==>
      && (run[0].Land? ==> s.clock < s.claims[run[0].token].until)
      && InTime(Apply(s, run[0]), run[1..])
  }

  /** A controller that is never stalled past its lease between its claim and its update does no harm. */
  lemma {:induction false} InTimeIsHarmless(s: Store, run: seq<Action>)
    requires Inv(s) && s.harmless && Executable(s, run) && InTime(s, run)
    ensures After(s, run).harmless
    decreases |run|
  {
    if run != [] {
      if run[0].Land? {
        assert ClaimOk(s, run[0].token);
      }
      StepKeepsInv(s, run[0]);
      InTimeIsHarmless(Apply(s, run[0]), run[1..]);
    }
  }

  lemma TimelyRunReleasesOnce(run: seq<Action>)
    requires Executable(EMPTY, run) && InTime(EMPTY, run)
    ensures OnceEach(After(EMPTY, run))
  {
    EmptyInv();
    InTimeIsHarmless(EMPTY, run);
    ReleasesOnceIff(run);
  }

  // ---------------------------------------------------------------- limits under a fixed policy

  /** Every admission of the run to this channel goes by limits at most these. */
  ghost predicate Within(run: seq<Action>, p: Policy) {
    forall a :: a in run && a.TakeSlot? && a.policy.channel == p.channel ==>
      a.policy.maxConcurrent <= p.maxConcurrent && a.policy.maxPerHour <= p.maxPerHour
        && a.policy.cooldown >= p.cooldown
  }

  predicate TakesSlot(a: Action, channel: Id) {
    a.TakeSlot? && a.policy.channel == channel
  }

  /** Only admissions touch the budget of a channel or raise its count. */
  lemma StepDoc(s: Store, a: Action, channel: Id)
    requires Enabled(s, a)
    ensures TakesSlot(a, channel) ==>
      Apply(s, a).docs == s.docs[channel := SlotTaken(s.docs, a.policy, a.at)] && Admits(s.docs, a.policy, a.at)
    ensures !TakesSlot(a, channel) ==> (channel in s.docs <==> channel in Apply(s, a).docs)
    ensures !TakesSlot(a, channel) && channel in s.docs ==>
      var doc, next := s.docs[channel], Apply(s, a).docs[channel];
      next.hour == doc.hour && next.responses == doc.responses && next.last == doc.last
      && (next.active <= doc.active || next.active <= 0)
  {
  }

  /** The concurrency limit holds whether or not updates land in time: releases only lower the count. */
  lemma {:induction false} ConcurrencyLimit(s: Store, run: seq<Action>, p: Policy)
    requires Executable(s, run) && Within(run, p) && p.maxConcurrent > 0
    requires p.channel in s.docs ==> s.docs[p.channel].active <= p.maxConcurrent
    ensures p.channel in After(s, run).docs ==> After(s, run).docs[p.channel].active <= p.maxConcurrent
    decreases |run|
  {
    if run != [] {
      assert run[0] in run;
      StepDoc(s, run[0], p.channel);
      ConcurrencyLimit(Apply(s, run[0]), run[1..], p);
    }
  }

  /** Together: a run of harmless updates never has more open reservations than the policy allows. */
  lemma OpenWithinLimit(run: seq<Action>, p: Policy)
    requires Executable(EMPTY, run) && After(EMPTY, run).harmless && Within(run, p) && p.maxConcurrent > 0
    ensures |Uncompleted(After(EMPTY, run).reservations, p.channel)| <= p.maxConcurrent
  {
    var s := After(EMPTY, run);
    ReleasesOnceIff(run);
    ConcurrencyLimit(EMPTY, run, p);
    EmptyInv();
    RunKeepsInv(EMPTY, run);
    OpenWithinActive(s, p.channel);
  }

  /** When the run admitted to a channel. */
  ghost function Admissions(run: seq<Action>, channel: Id): seq<int>
    decreases |run|
  {
    if run == [] then []
    else if TakesSlot(run[0], channel) then [run[0].at] + Admissions(run[1..], channel)
    else Admissions(run[1..], channel)
  }

  ghost function InHour(times: seq<int>, hour: int): nat {
    if times == [] then 0 else (if HourOf(times[0]) == hour then 1 else 0) + InHour(times[1..], hour)
  }

  ghost predicate Spaced(times: seq<int>, gap: int) {
    |times| <= 1 || (times[0] + gap <= times[1] && Spaced(times[1..], gap))
  }

  /** Cooldown: consecutive admissions are at least the cooldown apart, whatever clock readings the
      controllers used. */
  lemma {:induction false} CooldownHolds(s: Store, run: seq<Action>, p: Policy)
    requires Executable(s, run) && Within(run, p)
    ensures var times := Admissions(run, p.channel);
      && (p.channel in s.docs && times != [] ==> s.docs[p.channel].last + p.cooldown <= times[0])
      && Spaced(times, p.cooldown)
    decreases |run|
  {
    if run != [] {
      var a := run[0];
      assert a in run;
      StepDoc(s, a, p.channel);
      CooldownHolds(Apply(s, a), run[1..], p);
      if TakesSlot(a, p.channel) {
        var rest := Admissions(run[1..], p.channel);
        assert ([a.at] + rest)[1..] == rest;
      }
    }
  }

  lemma {:induction false} NoneBefore(times: seq<int>, gap: int, from: int, hour: int)
    requires gap >= 0 && Spaced(times, gap) && (times != [] ==> from <= times[0])
    requires hour < HourOf(from)
    ensures InHour(times, hour) == 0
  {
    if times != [] {
      NoneBefore(times[1..], gap, times[0], hour);
    }
  }

  lemma BudgetStep(docs: map<Id, Doc>, p: Policy, at: int, rest: seq<int>, gap: int, most: int, hour: int)
    requires ValidPolicy(p) && Admits(docs, p, at) && p.maxPerHour <= most
    requires p.channel in docs ==>
      docs[p.channel].hour == HourOf(docs[p.channel].last) && docs[p.channel].responses <= most
    requires gap >= 0 && Spaced(rest, gap) && (rest != [] ==> at <= rest[0])
    requires InHour(rest, hour) <= most - (if HourOf(at) == hour then SlotTaken(docs, p, at).responses else 0)
    ensures InHour([at] + rest, hour)
      <= most - (if p.channel in docs && docs[p.channel].hour == hour then docs[p.channel].responses else 0)
  {
    assert ([at] + rest)[1..] == rest;
    if hour < HourOf(at) {
      NoneBefore(rest, gap, at, hour);
    }
  }

  /** Budget: no clock hour sees more admissions than the policy allows, hour boundaries and stale clock
      readings included. */
  lemma {:induction false} BudgetHolds(s: Store, run: seq<Action>, p: Policy, hour: int)
    requires Executable(s, run) && Within(run, p) && p.cooldown >= 0 && p.maxPerHour > 0
    requires p.channel in s.docs ==>
      s.docs[p.channel].hour == HourOf(s.docs[p.channel].last) && s.docs[p.channel].responses <= p.maxPerHour
    ensures InHour(Admissions(run, p.channel), hour)
      <= p.maxPerHour
         - (if p.channel in s.docs && s.docs[p.channel].hour == hour then s.docs[p.channel].responses else 0)
    decreases |run|
  {
    if run != [] {
      var a := run[0];
      assert a in run;
      StepDoc(s, a, p.channel);
      BudgetHolds(Apply(s, a), run[1..], p, hour);
      if TakesSlot(a, p.channel) {
        CooldownHolds(Apply(s, a), run[1..], p);
        BudgetStep(s.docs, a.policy, a.at, Admissions(run[1..], p.channel), p.cooldown, p.maxPerHour, hour);
      }
    }
  }

  // ---------------------------------------------------------------- what the counters count

  /** None of the times is later than the last, and their hours neither. */
  ghost predicate UpTo(times: seq<int>, last: int) {
    forall at :: at in times ==> at <= last
  }

  lemma {:induction false} InHourAppend(a: seq<int>, b: seq<int>, hour: int)
    ensures InHour(a + b, hour) == InHour(a, hour) + InHour(b, hour)
  {
    if a == [] {
      assert a + b == b;
    } else {
      InHourAppend(a[1..], b, hour);
      assert (a + b)[1..] == a[1..] + b;
    }
  }

  lemma {:induction false} NoneInLaterHour(times: seq<int>, last: int, hour: int)
    requires UpTo(times, last) && HourOf(last) < hour
    ensures InHour(times, hour) == 0
  {
    if times != [] {
      assert times[0] in times && forall at :: at in times[1..] ==> at in times;
      NoneInLaterHour(times[1..], last, hour);
    }
  }

  /** The document of a channel, if it has one, knows its last admission and how many fell into that hour. */
  ghost predicate CountsPast(docs: map<Id, Doc>, channel: Id, past: seq<int>) {
    if channel !in docs then past == []
    else
      var doc := docs[channel];
      && past != [] && doc.last == past[|past| - 1] && UpTo(past, doc.last)
      && doc.hour == HourOf(doc.last) && doc.responses == InHour(past, doc.hour)
  }

  lemma SlotKeepsCount(docs: map<Id, Doc>, p: Policy, at: int, past: seq<int>)
    requires CountsPast(docs, p.channel, past) && ValidPolicy(p) && Admits(docs, p, at)
    ensures CountsPast(docs[p.channel := SlotTaken(docs, p, at)], p.channel, past + [at])
  {
    var hour := HourOf(at);
    InHourAppend(past, [at], hour);
    assert InHour([at], hour) == 1;
    if p.channel in docs && docs[p.channel].hour != hour {
      NoneInLaterHour(past, docs[p.channel].last, hour);
    }
  }

  lemma {:induction false} RunCountsAdmissions(s: Store, run: seq<Action>, channel: Id, past: seq<int>)
    requires Executable(s, run) && CountsPast(s.docs, channel, past)
    ensures CountsPast(After(s, run).docs, channel, past + Admissions(run, channel))
    decreases |run|
  {
    if run == [] {
      assert past + [] == past;
    } else {
      var a, t := run[0], Apply(s, run[0]);
      StepDoc(s, a, channel);
      if TakesSlot(a, channel) {
        SlotKeepsCount(s.docs, a.policy, a.at, past);
        RunCountsAdmissions(t, run[1..], channel, past + [a.at]);
        assert past + [a.at] + Admissions(run[1..], channel) == past + Admissions(run, channel);
      } else {
        RunCountsAdmissions(t, run[1..], channel, past);
      }
    }
  }

  /** After every run the counters of a channel are exact: its last admission, and the admissions of the run
      that fell into that clock hour. */
  lemma CountersAreExact(run: seq<Action>, channel: Id)
    requires Executable(EMPTY, run)
    ensures CountsPast(After(EMPTY, run).docs, channel, Admissions(run, channel))
  {
    RunCountsAdmissions(EMPTY, run, channel, []);
    assert [] + Admissions(run, channel) == Admissions(run, channel);
  }

  /** So nobody is refused for a budget or a cooldown that is not used up: after every run, a channel that has
      concurrency left admits a request unless the hour really holds that many admissions already, or the
      last of them is really that recent. */
  lemma RefusalsAreReal(run: seq<Action>, p: Policy, at: int)
    requires Executable(EMPTY, run) && ValidPolicy(p)
    requires p.channel in After(EMPTY, run).docs && After(EMPTY, run).docs[p.channel].active < p.maxConcurrent
    ensures var times := Admissions(run, p.channel);
      times != []
      && (Admits(After(EMPTY, run).docs, p, at) <==>
          times[|times| - 1] + p.cooldown <= at && InHour(times, HourOf(at)) < p.maxPerHour)
  {
    var times, doc := Admissions(run, p.channel), After(EMPTY, run).docs[p.channel];
    CountersAreExact(run, p.channel);
    if doc.last <= at && doc.hour != HourOf(at) {
      NoneInLaterHour(times, doc.last, HourOf(at));
    }
  }

  // ---------------------------------------------------------------- recovery

  /** The release is finished and everything other controllers hold is as it was. */
  ghost predicate Finished(s: Store, t: Store, id: Id) {
    && id in s.reservations && id in t.reservations && t.reservations[id].release.Released?
    && Count(t.decrements, id) == 1 && !Marked(t.docs, t.reservations[id], id)
    && t.reservations[id].channel == s.reservations[id].channel && s.reservations[id].channel in t.docs
    && t.harmless == s.harmless && t.clock == s.clock
    && forall other :: other in s.claims ==> other in t.claims && t.claims[other] == s.claims[other]
  }

  /** The update that follows a claim at once is harmless and leaves the marker and one decrement. */
  lemma ClaimThenLand(s: Store, id: Id, token: Id)
    requires Inv(s) && CanClaim(s, id, token, s.clock)
    ensures var s1 := ClaimedRelease(s, id, token, s.clock);
      Inv(s1) && CanLand(s1, token)
    ensures var s2 := LandedUpdate(ClaimedRelease(s, id, token, s.clock), token);
      && Inv(s2) && CanFinalize(s2, token) && s2.claims[token].id == id && Count(s2.decrements, id) == 1
      && s2.reservations[id].channel == s.reservations[id].channel && s2.harmless == s.harmless && s2.clock == s.clock
      && forall other :: other in s.claims ==> other in s2.claims && s2.claims[other] == s.claims[other]
  {
    var s1 := ClaimedRelease(s, id, token, s.clock);
    ClaimReleaseKeepsInv(s, id, token, s.clock);
    assert ReservationOk(s1, id);
    LandKeepsInv(s1, token);
    assert ReservationOk(LandedUpdate(s1, token), id);
  }

  /** Whatever crashed where, a reconciler that finds the lease over finishes the release on its own:
      claim, update, finalize and pull go through one after the other. */
  lemma ReconcilerFinishes(s: Store, id: Id, token: Id) returns (run: seq<Action>)
    requires Inv(s) && CanClaim(s, id, token, s.clock)
    ensures Executable(s, run) && |run| == 4 && Inv(After(s, run)) && Finished(s, After(s, run), id)
  {
    ClaimThenLand(s, id, token);
    run := [];
    RunThen(s, run, ClaimRelease(id, token, s.clock));
    run := run + [ClaimRelease(id, token, s.clock)];
    RunThen(s, run, Land(token));
    run := run + [Land(token)];
    var s2 := After(s, run);
    FinalizeKeepsInv(s2, token);
    RunThen(s, run, Finalize(token));
    run := run + [Finalize(token)];
    var s3 := After(s, run);
    assert ReservationOk(s3, id);
    PullKeepsInv(s3, s3.reservations[id].channel, {id});
    RunThen(s, run, PullMarker(token));
    run := run + [PullMarker(token)];
  }

  /** Harm can always come. From any store in which a claimant has stalled past its lease, one
      reconciler and then the stalled update give the slot back twice, and the count no longer covers
      the slots still held (unless it was 0 and the clamp hides it). */
  lemma LateUpdateDecrementsTwice(s: Store, stalled: Id, token: Id) returns (run: seq<Action>)
    requires Inv(s) && CanLand(s, stalled) && CanClaim(s, s.claims[stalled].id, token, s.clock)
    ensures Executable(s, run) && Count(After(s, run).decrements, s.claims[stalled].id) == 2 && !After(s, run).harmless
    ensures var t, home := After(s, run), s.reservations[s.claims[stalled].id].channel;
      home in t.docs
      && t.docs[home].active == Clamped(|Holding(t.reservations, t.decrements, home)| + |InFlight(t.tickets, home)| - 1)
  {
    var id := s.claims[stalled].id;
    var home := s.reservations[id].channel;
    run := ReconcilerFinishes(s, id, token);
    var t := After(s, run);
    assert CountedAt(t, home) && ClaimOk(s, stalled) && ReservationOk(s, id);
    RunThen(s, run, Land(stalled));
    run := run + [Land(stalled)];
    var u := LandedUpdate(t, stalled);
    assert Holding(u.reservations, u.decrements, home) == Holding(t.reservations, t.decrements, home);
  }

  // ---------------------------------------------------------------- such a run, from the start

  const ONE_AT_A_TIME := Policy(1, true, true, false, 1, 9, 0)

  ghost predicate UnderPolicy(run: seq<Action>, s: Store) {
    && Executable(EMPTY, run) && After(EMPTY, run) == s
    && forall a :: a in run && a.TakeSlot? ==> a.policy == ONE_AT_A_TIME
  }

  lemma OneMore(run: seq<Action>, s: Store, a: Action) returns (longer: seq<Action>)
    requires UnderPolicy(run, s) && Enabled(s, a) && (a.TakeSlot? ==> a.policy == ONE_AT_A_TIME)
    ensures UnderPolicy(longer, Apply(s, a))
  {
    RunThen(EMPTY, run, a);
    longer := run + [a];
  }

  /** One admission under this ticket and identifier. */
  lemma AdmitOne(run: seq<Action>, s: Store, ticket: Id, id: Id) returns (longer: seq<Action>)
    requires UnderPolicy(run, s) && CanTakeSlot(s, ONE_AT_A_TIME, s.clock, ticket) && id !in s.reservations
    ensures UnderPolicy(longer, Reserved(TookSlot(s, ONE_AT_A_TIME, s.clock, ticket), ticket, id))
  {
    var took := OneMore(run, s, TakeSlot(ONE_AT_A_TIME, s.clock, ticket));
    longer := OneMore(took, TookSlot(s, ONE_AT_A_TIME, s.clock, ticket), Reserve(ticket, id));
  }

  /** A reservation is admitted and completed, a claimant takes the lease and stalls until it is over. */
  lemma StalledClaimant() returns (run: seq<Action>, s: Store)
    ensures UnderPolicy(run, s) && s.decrements == map[] && s.tickets == map[] && s.clock == RELEASE_LEASE
    ensures s.docs == map[1 := Doc(0, 1, 1, 0, {})] && s.claims == map[1 := Claim(1, RELEASE_LEASE, Claimed)]
    ensures s.reservations == map[1 := Reservation(1, true, RESERVATION_TTL, Releasing(1, RELEASE_LEASE))]
  {
    assert Executable(EMPTY, []) && After(EMPTY, []) == EMPTY;
    run := AdmitOne([], EMPTY, 1, 1);
    s := Reserved(TookSlot(EMPTY, ONE_AT_A_TIME, 0, 1), 1, 1);
    run := OneMore(run, s, MarkComplete(1));
    s := Apply(s, MarkComplete(1));
    run := OneMore(run, s, ClaimRelease(1, 1, 0));
    s := Apply(s, ClaimRelease(1, 1, 0));
    run := OneMore(run, s, Tick(RELEASE_LEASE));
    s := Apply(s, Tick(RELEASE_LEASE));
  }

  /** Then a second claimant releases it. */
  lemma StalledThenReleased() returns (run: seq<Action>, s: Store)
    ensures UnderPolicy(run, s) && CanLand(s, 1) && s.claims[1] == Claim(1, RELEASE_LEASE, Claimed)
      && !Marked(s.docs, s.reservations[1], 1)
    ensures s.docs == map[1 := Doc(0, 1, 0, 0, {})] && s.clock == RELEASE_LEASE && s.tickets == map[]
    ensures s.reservations == map[1 := Reservation(1, true, RESERVATION_TTL, Released)]
    ensures Count(s.decrements, 1) == 1
  {
    run, s := StalledClaimant();
    run := OneMore(run, s, ClaimRelease(1, 2, RELEASE_LEASE));
    s := Apply(s, ClaimRelease(1, 2, RELEASE_LEASE));
    run := OneMore(run, s, Land(2));
    s := Apply(s, Land(2));
    run := OneMore(run, s, Finalize(2));
    s := Apply(s, Finalize(2));
    run := OneMore(run, s, PullMarker(2));
    s := Apply(s, PullMarker(2));
    assert s.docs[1].markers == {};
  }

  /** From the empty store, under a policy of one job at a time: while a second reservation is open the
      stalled update lands, its slot is given away, and two reservations are open at once. */
  lemma LateUpdateBreaksLimit() returns (run: seq<Action>)
    ensures Executable(EMPTY, run) && Within(run, ONE_AT_A_TIME) && ONE_AT_A_TIME.maxConcurrent == 1
    ensures !After(EMPTY, run).harmless && Count(After(EMPTY, run).decrements, 1) == 2
    ensures Uncompleted(After(EMPTY, run).reservations, 1) == {2, 3}
  {
    var s: Store;
    run, s := StalledThenReleased();
    run := AdmitOne(run, s, 2, 2);
    s := Reserved(TookSlot(s, ONE_AT_A_TIME, s.clock, 2), 2, 2);
    run := OneMore(run, s, Land(1));
    s := Apply(s, Land(1));
    run := AdmitOne(run, s, 3, 3);
    s := Reserved(TookSlot(s, ONE_AT_A_TIME, s.clock, 3), 3, 3);
    var open := Reservation(1, false, RELEASE_LEASE + RESERVATION_TTL, Unset);
    assert s.reservations == map[1 := Reservation(1, true, RESERVATION_TTL, Released), 2 := open, 3 := open];
    assert forall id :: id in Uncompleted(s.reservations, 1) <==> id in {2, 3};
  }
}
