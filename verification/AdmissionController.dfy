/** One admission controller (core/admission/mongo.go): its calls, and between any two of them whatever
    other controllers do. */
module AdmissionController {
  import opened Prelude
  import opened Admission
  import opened AdmissionInvariant

  datatype Denial = InvalidPolicy | KillSwitched | Concurrency | Budget | Cooldown | NotReconciled | NotStored

  /** The action belongs to another controller than the one holding these release tokens and tickets. */
  predicate Foreign(a: Action, mine: set<Id>) {
    match a
    case Land(other) => other !in mine
    case Finalize(other) => other !in mine
    case PullMarker(other) => other !in mine
    case Reserve(other, _) => other !in mine
    case ReturnSlot(other) => other !in mine
    case _ => true
  }

  ghost predicate Evolves(s: Store, t: Store, mine: set<Id>) {
    exists run :: Executable(s, run) && (forall a :: a in run ==> Foreign(a, mine)) && t == After(s, run)
  }

  /** What every later store keeps: documents and reservations stay, and so do the claims and
      tickets nobody else holds. */
  ghost predicate Keeps(s: Store, t: Store, mine: set<Id>) {
    && s.docs.Keys <= t.docs.Keys && s.clock <= t.clock && (t.harmless ==> s.harmless)
    && s.reservations.Keys <= t.reservations.Keys && s.listed <= t.listed && s.releasedSeen <= t.releasedSeen
    && (forall id :: id in s.reservations ==> t.reservations[id].channel == s.reservations[id].channel)
    && (forall token :: token in mine && token in s.claims ==> token in t.claims && t.claims[token] == s.claims[token])
    && (forall ticket :: ticket in mine && ticket in s.tickets ==>
        ticket in t.tickets && t.tickets[ticket] == s.tickets[ticket])
  }

  lemma {:induction false} RunKeeps(s: Store, run: seq<Action>, mine: set<Id>)
    requires Executable(s, run) && forall a :: a in run ==> Foreign(a, mine)
    ensures Keeps(s, After(s, run), mine)
    decreases |run|
  {
    if run != [] {
      assert run[0] in run && forall a :: a in run[1..] ==> a in run;
      StepKeeps(s, run[0], mine);
      RunKeeps(Apply(s, run[0]), run[1..], mine);
    }
  }

  lemma StepKeeps(s: Store, a: Action, mine: set<Id>)
    requires Enabled(s, a) && Foreign(a, mine)
    ensures Keeps(s, Apply(s, a), mine)
  {
  }

  /** How far the release of a reservation has come. */
  function Progress(release: Release): nat {
    match release
    case Unset => 0
    case Pending => 1
    case Releasing(_, _) => 2
    case Released => 3
  }

  /** A reservation keeps its channel and its expiry, once completed it stays so, and its release never goes back. */
  predicate Onward(a: Reservation, b: Reservation) {
    && b.channel == a.channel && b.expiresAt == a.expiresAt && (a.completed ==> b.completed)
    && (a.completed ==> Progress(a.release) <= Progress(b.release))
  }

  ghost predicate AllOnward(before: map<Id, Reservation>, after: map<Id, Reservation>) {
    forall id {:trigger id in before} :: id in before ==> id in after && Onward(before[id], after[id])
  }

  lemma StepIsOnward(s: Store, a: Action)
    requires Enabled(s, a)
    ensures AllOnward(s.reservations, Apply(s, a).reservations)
  {
  }

  lemma {:induction false} RunIsOnward(s: Store, run: seq<Action>)
    requires Executable(s, run)
    ensures AllOnward(s.reservations, After(s, run).reservations)
    decreases |run|
  {
    if run != [] {
      var mid, last := Apply(s, run[0]).reservations, After(s, run).reservations;
      StepIsOnward(s, run[0]);
      RunIsOnward(Apply(s, run[0]), run[1..]);
      forall id | id in s.reservations ensures id in last && Onward(s.reservations[id], last[id]) {
        assert id in mid && Onward(s.reservations[id], mid[id]) && Onward(mid[id], last[id]);
      }
    }
  }

  lemma LeadsOnward(s: Store, t: Store)
    requires LeadsTo(s, t)
    ensures AllOnward(s.reservations, t.reservations)
  {
    var run :| Executable(s, run) && t == After(s, run);
    RunIsOnward(s, run);
  }

  /** The second store is one that a run leads to from the first. */
  ghost predicate LeadsTo(s: Store, t: Store) {
    && s.clock <= t.clock && (t.harmless ==> s.harmless && Inv(t))
    && exists run :: Executable(s, run) && t == After(s, run)
  }

  lemma LeadsNowhere(s: Store)
    requires s.harmless ==> Inv(s)
    ensures LeadsTo(s, s)
  {
    assert Executable(s, []) && After(s, []) == s;
  }

  /** Every call of this controller is a step any controller may take. */
  lemma LeadsByStep(s: Store, a: Action)
    requires Enabled(s, a) && (Apply(s, a).harmless ==> Inv(Apply(s, a)))
    ensures LeadsTo(s, Apply(s, a))
  {
    var t := Apply(s, a);
    assert [a][1..] == [] && Executable(t, []) && After(t, []) == t;
    assert Executable(s, [a]) && After(s, [a]) == t;
  }

  lemma LeadsOn(s: Store, t: Store, u: Store)
    requires LeadsTo(s, t) && LeadsTo(t, u)
    ensures LeadsTo(s, u)
  {
    var first :| Executable(s, first) && t == After(s, first);
    var second :| Executable(t, second) && u == After(t, second);
    RunConcat(s, first, second);
  }

  /** Looking up what is released is one step for each reservation that was found so. */
  lemma {:induction false} LeadsBySeeing(s: Store, ids: set<Id>)
    requires s.harmless ==> Inv(s)
    requires forall id :: id in ids ==>
      id in s.listed && (id in s.reservations ==> s.reservations[id].release.Released?)
    ensures LeadsTo(s, s.(releasedSeen := s.releasedSeen + ids))
    decreases |ids|
  {
    if ids == {} {
      assert s.releasedSeen + ids == s.releasedSeen;
      LeadsNowhere(s);
    } else {
      var id :| id in ids;
      var t := Apply(s, SeeReleased(id));
      if s.harmless {
        StepKeepsInv(s, SeeReleased(id));
      }
      LeadsByStep(s, SeeReleased(id));
      LeadsBySeeing(t, ids - {id});
      assert t.releasedSeen + (ids - {id}) == s.releasedSeen + ids;
      LeadsOn(s, t, s.(releasedSeen := s.releasedSeen + ids));
    }
  }

  // ---------------------------------------------------------------- what reconciling does, undisturbed

  /** Every open reservation of the channel that has expired is complete, its release pending. */
  function Expired(reservations: map<Id, Reservation>, channel: Id, now: int): map<Id, Reservation> {
    map id | id in reservations ::
      var r := reservations[id];
      if r.channel == channel && !r.completed && r.expiresAt <= now then r.(completed := true, release := Pending)
      else r
  }

  /** The channel's reservations whose release may be claimed at that reading. */
  function Due(reservations: map<Id, Reservation>, channel: Id, now: int): set<Id> {
    set id | id in reservations && reservations[id].channel == channel && Claimable(reservations[id], now)
  }

  /** These reservations are released. */
  function AllReleased(reservations: map<Id, Reservation>, ids: set<Id>): map<Id, Reservation> {
    map id | id in reservations ::
      if id in ids then reservations[id].(completed := true, release := Released) else reservations[id]
  }

  /** Their slots are given back, those that carry a marker having given theirs back before. */
  function SlotsFreed(docs: map<Id, Doc>, channel: Id, ids: set<Id>): map<Id, Doc> {
    if channel !in docs then docs
    else
      var doc := docs[channel];
      docs[channel := doc.(active := doc.active - |ids - doc.markers|, markers := doc.markers - ids)]
  }

  /** Only the markers of reservations still to be released are left. */
  function Cleaned(docs: map<Id, Doc>, reservations: map<Id, Reservation>, channel: Id): map<Id, Doc> {
    if channel !in docs then docs
    else
      docs[channel := docs[channel].(markers := set id | id in docs[channel].markers && id in reservations
                                                         && !reservations[id].release.Released?)]
  }

  function ReconciledReservations(reservations: map<Id, Reservation>, channel: Id, now: int): map<Id, Reservation> {
    var expired := Expired(reservations, channel, now);
    AllReleased(expired, Due(expired, channel, now))
  }

  function ReconciledDocs(docs: map<Id, Doc>, reservations: map<Id, Reservation>, channel: Id, now: int): map<Id, Doc> {
    var freed := SlotsFreed(docs, channel, Due(Expired(reservations, channel, now), channel, now));
    Cleaned(freed, ReconciledReservations(reservations, channel, now), channel)
  }

  /** What reconciling does to each reservation: one of the channel that has expired unfinished, or whose release is
      pending or stalled, is released; one that is open in time, released already, or being released under
      a running lease stays as it is, and so does every other channel's. */
  lemma ReconciledMeans(reservations: map<Id, Reservation>, channel: Id, now: int)
    ensures var after := ReconciledReservations(reservations, channel, now);
      after.Keys == reservations.Keys
      && forall id :: id in reservations ==>
           var r := reservations[id];
           var due := if r.completed then r.release == Pending || (r.release.Releasing? && r.release.until <= now)
                      else r.expiresAt <= now;
           after[id] == if r.channel == channel && due then r.(completed := true, release := Released) else r
  {
  }

  lemma ReleaseOneMore(docs: map<Id, Doc>, reservations: map<Id, Reservation>, channel: Id, now: int,
                       done: set<Id>, id: Id)
    requires done <= Due(reservations, channel, now) && id in Due(reservations, channel, now) - done
    ensures AllReleased(AllReleased(reservations, done), {id}) == AllReleased(reservations, done + {id})
    ensures SlotsFreed(SlotsFreed(docs, channel, done), channel, {id}) == SlotsFreed(docs, channel, done + {id})
    ensures Due(AllReleased(reservations, done + {id}), channel, now) == Due(reservations, channel, now) - (done + {id})
  {
    if channel in docs {
      var markers := docs[channel].markers;
      if id in markers {
        assert done + {id} - markers == done - markers;
        assert {id} - (markers - done) == {};
      } else {
        assert done + {id} - markers == done - markers + {id};
        assert {id} - (markers - done) == {id};
      }
      assert markers - done - {id} == markers - (done + {id});
    }
  }

  /** These due reservations have been released, and nothing else has changed. */
  ghost predicate FreedSoFar(s: Store, t: Store, channel: Id, now: int, done: set<Id>) {
    && done <= Due(s.reservations, channel, now) && t.clock == s.clock && t.harmless == s.harmless
    && Due(t.reservations, channel, now) == Due(s.reservations, channel, now) - done
    && t.reservations == AllReleased(s.reservations, done) && t.docs == SlotsFreed(s.docs, channel, done)
  }

  lemma FreeOneMore(s: Store, t: Store, u: Store, channel: Id, now: int, done: set<Id>, id: Id)
    requires FreedSoFar(s, t, channel, now, done)
    requires id in Due(t.reservations, channel, now) && ReleasedAlone(t, u, id)
    ensures FreedSoFar(s, u, channel, now, done + {id})
  {
    ReleaseOneMore(s.docs, s.reservations, channel, now, done, id);
  }

  lemma FreedEnough(s: Store, t: Store, channel: Id, now: int, done: set<Id>)
    requires FreedSoFar(s, t, channel, now, done)
    ensures |done| <= |Due(s.reservations, channel, now)|
    ensures Due(t.reservations, channel, now) == {} ==> done == Due(s.reservations, channel, now)
  {
    var due := Due(s.reservations, channel, now);
    SubsetSize(done, due);
    if Due(t.reservations, channel, now) == {} {
      forall id | id in due ensures id in done {
        assert id in done || id in due - done;
      }
    }
  }

  /** Nothing is due before anything was released. */
  lemma ReleaseNone(docs: map<Id, Doc>, reservations: map<Id, Reservation>, channel: Id)
    ensures AllReleased(reservations, {}) == reservations && SlotsFreed(docs, channel, {}) == docs
  {
    if channel in docs {
      var markers := docs[channel].markers;
      assert {} - markers == {} && markers - {} == markers;
    }
  }

  /** The rest of a release under a lease that still holds, call after call. */
  ghost predicate ReleasedAlone(s: Store, t: Store, id: Id) {
    && id in s.reservations && t.clock == s.clock && t.harmless == s.harmless
    && t.reservations == AllReleased(s.reservations, {id})
    && t.docs == SlotsFreed(s.docs, s.reservations[id].channel, {id})
  }

  lemma FinishAlone(s: Store, token: Id)
    requires Inv(s) && CanLand(s, token)
    requires HoldsLease(s.reservations[s.claims[token].id], token)
    ensures var u := LandedUpdate(s, token);
      && CanFinalize(u, token) && CanPull(FinalizedRelease(u, token), token)
      && (s.harmless ==> u.harmless)
      && var t :=
         WithoutMarkers(FinalizedRelease(u, token), s.reservations[s.claims[token].id].channel, {s.claims[token].id});
         t.harmless == u.harmless && (s.harmless ==> ReleasedAlone(s, t, s.claims[token].id))
  {
    var id := s.claims[token].id;
    var home := s.reservations[id].channel;
    LandKeepsInv(s, token);
    var markers := s.docs[home].markers;
    if id in markers {
      assert {id} - markers == {};
    } else {
      assert {id} - markers == {id} && markers + {id} - {id} == markers - {id};
    }
    var u := LandedUpdate(s, token);
    var t := WithoutMarkers(FinalizedRelease(u, token), home, {id});
    assert t.docs[home] == SlotsFreed(s.docs, home, {id})[home];
    assert t.docs == SlotsFreed(s.docs, home, {id});
    assert t.reservations == AllReleased(s.reservations, {id});
  }

  /** A claim in itself changes nothing of what the release leaves behind. */
  lemma ClaimAlone(s: Store, t: Store, id: Id, token: Id, now: int)
    requires CanClaim(s, id, token, now) && ReleasedAlone(ClaimedRelease(s, id, token, now), t, id)
    ensures ReleasedAlone(s, t, id)
  {
  }

  /** Taking the slot and then writing the reservation, or giving the slot back. */
  lemma AdmitAlone(s: Store, p: Policy, now: int, ticket: Id, id: Id, stored: bool)
    requires Inv(s) && CanTakeSlot(s, p, now, ticket)
    ensures var u := TookSlot(s, p, now, ticket);
      var reserved := stored && id !in s.reservations;
      var t := if reserved then Reserved(u, ticket, id) else ReturnedSlot(u, ticket);
      AdmittedAlone(s.docs, s.reservations, t.docs, t.reservations, if reserved then Ok(id) else Err(NotStored), p,
                    now, id, stored)
  {
    assert CountedAt(s, p.channel);
  }

  /** Every reservation but those still to be looked at is marked if it has expired. */
  predicate MarkedBut(before: map<Id, Reservation>, after: map<Id, Reservation>, rest: set<Id>, channel: Id, now: int) {
    && after.Keys == before.Keys && rest <= before.Keys
    && forall id :: id in before ==> after[id] == if id in rest then before[id] else Expired(before, channel, now)[id]
  }

  lemma MarkOne(before: map<Id, Reservation>, after: map<Id, Reservation>, rest: set<Id>, channel: Id, now: int, id: Id)
    requires MarkedBut(before, after, rest, channel, now) && id in rest
    ensures MarkedBut(before, after[id := Expired(before, channel, now)[id]], rest - {id}, channel, now)
  {
  }

  /** Every reservation of the channel that has expired is completed, but perhaps for those still to be looked at. */
  ghost predicate ExpiredAreDone(before: map<Id, Reservation>, after: map<Id, Reservation>, channel: Id, now: int,
                                 rest: set<Id>) {
    forall id {:trigger id in before} ::
      id in before && id !in rest && before[id].channel == channel && before[id].expiresAt <= now ==>
        id in after && after[id].completed
  }

  /** Markers were listed, their reservations looked up, and those found released or gone are no longer there. */
  ghost predicate Cleanup(s: Store, t: Store, channel: Id, listing: Store, looked: Store) {
    && LeadsTo(s, listing) && LeadsTo(listing, looked) && LeadsTo(looked, t)
    && (channel in t.docs ==> t.docs[channel].markers !! Removable(listing, looked, channel))
  }

  /** On the way from the first store the channel's expired reservations were completed, then there was a moment with
      no release left to claim, and then the markers were cleaned up. */
  ghost predicate Reconciled(s: Store, t: Store, channel: Id, now: int) {
    exists drained, listing, looked ::
      Drained(s, drained, channel, now) && Cleanup(drained, t, channel, listing, looked)
  }

  ghost predicate Drained(s: Store, t: Store, channel: Id, now: int) {
    LeadsTo(s, t) && ExpiredAreDone(s.reservations, t.reservations, channel, now, {})
    && Due(t.reservations, channel, now) == {}
  }

  ghost predicate ReconciledBy(s: Store, t: Store, channel: Id, now: int) {
    exists u :: Reconciled(s, u, channel, now) && LeadsTo(u, t)
  }

  lemma DoneLater(before: map<Id, Reservation>, s: Store, t: Store, channel: Id, now: int)
    requires ExpiredAreDone(before, s.reservations, channel, now, {}) && LeadsTo(s, t)
    ensures ExpiredAreDone(before, t.reservations, channel, now, {})
  {
    LeadsOnward(s, t);
    forall id | id in before && before[id].channel == channel && before[id].expiresAt <= now
      ensures id in t.reservations && t.reservations[id].completed
    {
      assert id in s.reservations && Onward(s.reservations[id], t.reservations[id]);
    }
  }

  lemma MarkedIsDone(s: Store, t: Store, u: Store, channel: Id, now: int, rest: set<Id>, id: Id)
    requires LeadsTo(s, t) && LeadsTo(t, u) && ExpiredAreDone(s.reservations, t.reservations, channel, now, rest)
    requires id in t.reservations && t.reservations[id].channel == channel && t.reservations[id].expiresAt <= now ==>
               id in u.reservations && u.reservations[id].completed
    ensures ExpiredAreDone(s.reservations, u.reservations, channel, now, rest - {id}) && LeadsTo(s, u)
  {
    LeadsOn(s, t, u);
    var before, mid, after := s.reservations, t.reservations, u.reservations;
    LeadsOnward(s, t);
    LeadsOnward(t, u);
    forall other | other in before && other !in rest - {id} && before[other].channel == channel
      && before[other].expiresAt <= now
      ensures other in after && after[other].completed
    {
      assert other in mid && Onward(before[other], mid[other]);
      assert other in after && Onward(mid[other], after[other]);
    }
  }

  /** One reservation looked at, and marked if it has expired. */
  ghost predicate MarksOne(s: Store, t: Store, id: Id, channel: Id, now: int, quiet: bool) {
    && LeadsTo(s, t)
    && (id in s.reservations && s.reservations[id].channel == channel && s.reservations[id].expiresAt <= now ==>
          id in t.reservations && t.reservations[id].completed)
    && (quiet ==>
          t == s.(reservations := if id in s.reservations
                                  then s.reservations[id := Expired(s.reservations, channel, now)[id]]
                                  else s.reservations))
  }

  ghost predicate MarkingSoFar(s: Store, t: Store, rest: set<Id>, channel: Id, now: int, quiet: bool) {
    && LeadsTo(s, t) && ExpiredAreDone(s.reservations, t.reservations, channel, now, rest)
    && (quiet ==>
          t == s.(reservations := t.reservations) && MarkedBut(s.reservations, t.reservations, rest, channel, now))
  }

  lemma MarkOneMore(s: Store, t: Store, u: Store, rest: set<Id>, channel: Id, now: int, quiet: bool, id: Id)
    requires MarkingSoFar(s, t, rest, channel, now, quiet) && MarksOne(t, u, id, channel, now, quiet) && id in rest
    ensures MarkingSoFar(s, u, rest - {id}, channel, now, quiet)
  {
    MarkedIsDone(s, t, u, channel, now, rest, id);
    if quiet {
      MarkOne(s.reservations, t.reservations, rest, channel, now, id);
    }
  }

  lemma MarkedAll(before: map<Id, Reservation>, after: map<Id, Reservation>, channel: Id, now: int)
    requires MarkedBut(before, after, {}, channel, now)
    ensures after == Expired(before, channel, now)
  {
  }

  function ReleasedOf(reservations: map<Id, Reservation>, ids: set<Id>): set<Id> {
    set id | id in ids && (id in reservations ==> reservations[id].release.Released?)
  }

  /** The markers listed in the first store whose reservations were released, or gone, in the second. */
  function Removable(listing: Store, looked: Store, channel: Id): set<Id> {
    if channel in listing.docs then ReleasedOf(looked.reservations, listing.docs[channel].markers) else {}
  }

  /** Dropping the markers of everything released leaves those of what is still to be released. */
  lemma CleanedBy(docs: map<Id, Doc>, reservations: map<Id, Reservation>, channel: Id, removed: set<Id>)
    requires channel in docs
    requires removed == set id | id in docs[channel].markers
      && (id in reservations ==> reservations[id].release.Released?)
    ensures docs[channel := docs[channel].(markers := docs[channel].markers - removed)] ==
      Cleaned(docs, reservations, channel)
    ensures removed == {} ==> docs == Cleaned(docs, reservations, channel)
  {
    assert Cleaned(docs, reservations, channel)[channel].markers == docs[channel].markers - removed;
    if removed == {} {
      assert docs[channel].markers - removed == docs[channel].markers;
    }
  }

  /** The reservation is released and its marker gone. */
  predicate ReleaseDone(s: Store, id: Id) {
    id in s.reservations && s.reservations[id].release.Released? && !Marked(s.docs, s.reservations[id], id)
  }

  predicate HoldsLease(r: Reservation, token: Id) {
    r.release.Releasing? && r.release.token == token
  }

  /** Somebody holds the release lease at that reading. */
  predicate LeasedAt(r: Reservation, now: int) {
    r.release.Releasing? && r.release.until > now
  }

  // ---------------------------------------------------------------- limits

  /** The limit has no room at that reading. */
  predicate Exhausted(doc: Doc, p: Policy, now: int, limit: Denial) {
    match limit
    case Concurrency => doc.active >= p.maxConcurrent
    case Budget => doc.hour == HourOf(now) && doc.responses >= p.maxPerHour
    case Cooldown => doc.last > now - p.cooldown
    case _ => false
  }

  /** The order in which a refusal looks for its reason. */
  function Rank(limit: Denial): nat {
    match limit
    case Concurrency => 0
    case Budget => 1
    case _ => 2
  }

  /** The reason names an exhausted limit, and no limit before it is exhausted. */
  ghost predicate FirstExhausted(doc: Doc, p: Policy, now: int, reason: Denial) {
    Exhausted(doc, p, now, reason) && forall other :: Rank(other) < Rank(reason) ==> !Exhausted(doc, p, now, other)
  }

  /** The document, read after the refusal, has that limit exhausted and none before it; or, others having made room
      since, it has no limit exhausted that it could name. */
  ghost predicate NamesLimit(doc: Doc, p: Policy, now: int, reason: Denial) {
    || FirstExhausted(doc, p, now, reason)
    || (reason == Concurrency && !Exhausted(doc, p, now, Budget)
        && (Exhausted(doc, p, now, Cooldown) ==> doc.last == 0))
  }

  /** What taking a slot in the first store and writing the reservation led to, whatever others did in
      between. */
  ghost predicate Admitted(s: Store, t: Store, r: Result<Id, Denial>, p: Policy, now: int, id: Id, stored: bool) {
    if r.Err? && (r.error.Concurrency? || r.error.Budget? || r.error.Cooldown?) then
      && !Admits(s.docs, p, now) && LeadsTo(s, t)
      && p.channel in t.docs && NamesLimit(t.docs[p.channel], p, now, r.error)
    else
      exists ticket, u ::
        && CanTakeSlot(s, p, now, ticket) && Evolves(TookSlot(s, p, now, ticket), u, {ticket})
        && ticket in u.tickets && u.tickets[ticket] == Ticket(p.channel, now)
        && (if stored && id !in u.reservations then r == Ok(id) && t == Reserved(u, ticket, id)
            else r == Err(NotStored) && t == ReturnedSlot(u, ticket))
  }

  /** The same undisturbed, from documents and reservations that are reconciled. */
  ghost predicate AdmittedAlone(docs: map<Id, Doc>, reservations: map<Id, Reservation>, docs': map<Id, Doc>,
                                reservations': map<Id, Reservation>, r: Result<Id, Denial>, p: Policy, now: int, id: Id,
                                stored: bool) {
    if !Admits(docs, p, now) then
      && docs' == docs && reservations' == reservations && r.Err?
      && (docs[p.channel].last != 0 ==> FirstExhausted(docs[p.channel], p, now, r.error))
    else
      var taken := SlotTaken(docs, p, now);
      if stored && id !in reservations then
        && r == Ok(id) && docs' == docs[p.channel := taken]
        && reservations' == reservations[id := Reservation(p.channel, false, now + 24 * 60 * 60, Unset)]
      else
        && r == Err(NotStored) && docs' == docs[p.channel := taken.(active := taken.active - 1)]
        && reservations' == reservations
  }

  class Controller {
    var docs: map<Id, Doc>
    var reservations: map<Id, Reservation>
    var clock: int
    var claims: map<Id, Claim>
    var tickets: map<Id, Ticket>
    ghost var listed: set<Id>
    ghost var releasedSeen: set<Id>
    ghost var decrements: map<Id, nat>
    ghost var harmless: bool
    /** How many queries of this controller have found a release due. */
    ghost var dueSeen: nat

    ghost function Snapshot(): Store
      reads this
    {
      Store(docs, reservations, clock, claims, tickets, listed, releasedSeen, decrements, harmless)
    }

    ghost predicate Valid()
      reads this
    {
      harmless ==> Inv(Snapshot())
    }

    /** Any run of the other controllers, the clock included, or nothing when quiet. */
    method Others(ghost mine: set<Id>, ghost quiet: bool)
      requires Valid()
      modifies this
      ensures dueSeen == old(dueSeen)
      ensures quiet ==> Snapshot() == old(Snapshot())
      ensures LeadsTo(old(Snapshot()), Snapshot()) && Evolves(old(Snapshot()), Snapshot(), mine)
      ensures Keeps(old(Snapshot()), Snapshot(), mine)
    {
      var run: seq<Action> := [];
      assert Executable(Snapshot(), run) && After(Snapshot(), run) == Snapshot();
    }

    /** The claim of the release lease, with the clock reading the caller was given. */
    method ClaimLease(id: Id, token: Id, now: int) returns (claimed: bool)
      requires Valid() && now <= clock && token !in claims
      modifies this`reservations, this`claims
      ensures claimed <==> CanClaim(old(Snapshot()), id, token, now)
      ensures Snapshot() == if claimed then ClaimedRelease(old(Snapshot()), id, token, now) else old(Snapshot())
      ensures claimed ==> reservations[id] == old(reservations)[id].(release := Releasing(token, now + 30))
      ensures LeadsTo(old(Snapshot()), Snapshot())
    {
      claimed := id in reservations && Claimable(reservations[id], now);
      if claimed {
        if harmless {
          ClaimReleaseKeepsInv(Snapshot(), id, token, now);
        }
        LeadsByStep(Snapshot(), ClaimRelease(id, token, now));
        reservations :=
          reservations[id := reservations[id].(completed := true, release := Releasing(token, now + RELEASE_LEASE))];
        claims := claims[token := Claim(id, now + RELEASE_LEASE, Claimed)];
      } else {
        LeadsNowhere(Snapshot());
      }
    }

    /** The guarded decrement: matched when the document lacks the marker. */
    method UpdateState(id: Id, token: Id) returns (matched: bool)
      requires Valid() && CanLand(Snapshot(), token) && claims[token].id == id
      modifies this`docs, this`claims, this`decrements, this`harmless
      ensures matched <==> !Marked(old(docs), reservations[id], id)
      ensures Snapshot() == LandedUpdate(old(Snapshot()), token)
      ensures LeadsTo(old(Snapshot()), Snapshot())
      ensures harmless && matched ==> old(docs)[reservations[id].channel].active > 0
    {
      if harmless && HarmlessLand(Snapshot(), token) {
        LandKeepsInv(Snapshot(), token);
      }
      LeadsByStep(Snapshot(), Land(token));
      var channel := reservations[id].channel;
      var doc := docs[channel];
      matched := id !in doc.markers;
      harmless := harmless && HarmlessLand(Snapshot(), token);
      claims := claims[token := claims[token].(stage := Landed)];
      if matched {
        var active := if doc.active - 1 > 0 then doc.active - 1 else 0;
        docs := docs[channel := doc.(active := active, markers := doc.markers + {id})];
        decrements := decrements[id := Count(decrements, id) + 1];
      }
    }

    method FinalizeRelease(id: Id, token: Id) returns (matched: bool)
      requires Valid() && token in claims && claims[token].stage.Landed? && claims[token].id == id && id in reservations
      modifies this`reservations, this`claims
      ensures matched <==> CanFinalize(old(Snapshot()), token)
      ensures Snapshot() == if matched then FinalizedRelease(old(Snapshot()), token) else old(Snapshot())
      ensures LeadsTo(old(Snapshot()), Snapshot())
    {
      matched := reservations[id].release.Releasing? && reservations[id].release.token == token;
      if matched {
        if harmless {
          FinalizeKeepsInv(Snapshot(), token);
        }
        LeadsByStep(Snapshot(), Finalize(token));
        reservations := reservations[id := reservations[id].(completed := true, release := Released)];
        claims := claims[token := claims[token].(stage := Finalized)];
      } else {
        LeadsNowhere(Snapshot());
      }
    }

    method PullOwnMarker(id: Id, ghost token: Id)
      requires Valid() && CanPull(Snapshot(), token) && claims[token].id == id
      modifies this`docs
      ensures Snapshot() == WithoutMarkers(old(Snapshot()), reservations[id].channel, {id})
      ensures LeadsTo(old(Snapshot()), Snapshot())
    {
      if harmless {
        assert ClaimOk(Snapshot(), token);
        PullKeepsInv(Snapshot(), reservations[id].channel, {id});
      }
      LeadsByStep(Snapshot(), PullMarker(token));
      var channel := reservations[id].channel;
      docs := docs[channel := docs[channel].(markers := docs[channel].markers - {id})];
    }

    /** The last call of a release, whatever others do before it. */
    method PullLater(id: Id, ghost token: Id, ghost quiet: bool)
      requires Valid() && CanPull(Snapshot(), token) && claims[token].id == id
      requires reservations[id].completed && reservations[id].release.Released?
      modifies this
      ensures dueSeen == old(dueSeen)
      ensures LeadsTo(old(Snapshot()), Snapshot())
      ensures claims.Keys >= {token} && claims[token] == old(claims)[token]
      ensures ReleaseDone(Snapshot(), id)
      ensures quiet ==> Snapshot() == WithoutMarkers(old(Snapshot()), old(reservations)[id].channel, {id})
    {
      ghost var t := Snapshot();
      Others({token}, quiet);
      LeadsOnward(t, Snapshot());
      assert Onward(t.reservations[id], reservations[id]);
      ghost var u := Snapshot();
      PullOwnMarker(id, token);
      LeadsOn(t, u, Snapshot());
    }

    /** A release that reports success has given the slot back, and it did so exactly once, in any run
        of harmless updates. A call that lost the claim changed nothing itself. Undisturbed, a claim frees the
        slot and leaves everything else alone. */
    method ReleaseReservation(id: Id, token: Id, now: int, ghost quiet: bool) returns (claimed: bool, failed: bool)
      requires Valid() && now <= clock && token !in claims
      modifies this
      ensures dueSeen == old(dueSeen)
      ensures LeadsTo(old(Snapshot()), Snapshot())
      ensures claimed && harmless ==> ReleaseDone(Snapshot(), id) || now + RELEASE_LEASE <= clock
      ensures !claimed ==> !failed && Snapshot() == old(Snapshot())
      ensures claimed <==> CanClaim(old(Snapshot()), id, token, now)
      ensures claimed && !failed && harmless ==> id in reservations && Count(decrements, id) == 1
      ensures failed && harmless ==> now + RELEASE_LEASE <= clock
      ensures quiet ==> clock == old(clock)
      ensures quiet && claimed && old(harmless) ==>
        !failed && ReleasedAlone(old(Snapshot()), Snapshot(), id)
    {
      claimed := ClaimLease(id, token, now);
      if !claimed {
        return false, false;
      }
      ghost var t := Snapshot();
      Others({token}, quiet);
      LeadsOn(old(Snapshot()), t, Snapshot());
      t := Snapshot();
      failed := ReleaseClaimed(id, token, quiet);
      LeadsOn(old(Snapshot()), t, Snapshot());
      if quiet && old(harmless) {
        ClaimAlone(old(Snapshot()), Snapshot(), id, token, now);
      }
    }

    /** The state update under a claim, and what follows it. */
    method ReleaseClaimed(id: Id, token: Id, ghost quiet: bool) returns (failed: bool)
      requires Valid() && token in claims && claims[token].stage.Claimed? && claims[token].id == id
        && id in reservations
      modifies this
      ensures dueSeen == old(dueSeen)
      ensures LeadsTo(old(Snapshot()), Snapshot())
      ensures !failed && harmless ==> id in reservations && Count(decrements, id) == 1
      ensures failed && harmless ==> old(claims)[token].until <= clock
      ensures harmless ==> ReleaseDone(Snapshot(), id) || old(claims)[token].until <= clock
      ensures quiet ==> clock == old(clock)
      ensures quiet && old(harmless) && HoldsLease(old(reservations)[id], token) ==>
        !failed && ReleasedAlone(old(Snapshot()), Snapshot(), id)
    {
      if harmless {
        assert ReservationOk(Snapshot(), id);
      }
      if reservations[id].channel !in docs {
        LeadsNowhere(Snapshot());
        return true;
      }
      if harmless && HoldsLease(reservations[id], token) {
        FinishAlone(Snapshot(), token);
      }
      var landed := LandUpdate(id, token, quiet);
      if !landed {
        return true;
      }
      ghost var t := Snapshot();
      Others({token}, quiet);
      LeadsOn(old(Snapshot()), t, Snapshot());
      t := Snapshot();
      FinishRelease(id, token, quiet);
      LeadsOn(old(Snapshot()), t, Snapshot());
      return false;
    }

    /** The state update, and the look for the marker when it did not match. A missing marker means that the
        call has stalled and another controller has finished the release. */
    method LandUpdate(id: Id, token: Id, ghost quiet: bool) returns (landed: bool)
      requires Valid() && CanLand(Snapshot(), token) && claims[token].id == id
      modifies this
      ensures dueSeen == old(dueSeen)
      ensures LeadsTo(old(Snapshot()), Snapshot())
      ensures token in claims && claims[token] == old(claims)[token].(stage := Landed)
      ensures id in reservations && reservations[id].channel == old(reservations)[id].channel
        && reservations[id].channel in docs
      ensures !landed && harmless ==> old(claims)[token].until <= clock
      ensures quiet ==> landed && Snapshot() == LandedUpdate(old(Snapshot()), token)
    {
      var matched := UpdateState(id, token);
      ghost var t := Snapshot();
      Others({token}, quiet);
      LeadsOn(old(Snapshot()), t, Snapshot());
      landed := matched || id in docs[reservations[id].channel].markers;
      if harmless && clock < claims[token].until {
        LandedIsMarked(Snapshot(), token);
      }
    }

    /** The rest of a release once its update has landed. */
    method FinishRelease(id: Id, token: Id, ghost quiet: bool)
      requires Valid() && token in claims && claims[token].stage.Landed? && claims[token].id == id && id in reservations
      requires reservations[id].channel in docs
      modifies this
      ensures dueSeen == old(dueSeen)
      ensures LeadsTo(old(Snapshot()), Snapshot())
      ensures harmless ==> id in reservations && Count(decrements, id) == 1
      ensures harmless ==> ReleaseDone(Snapshot(), id) || old(claims)[token].until <= clock
      ensures quiet ==> harmless == old(harmless) && clock == old(clock)
      ensures quiet && CanFinalize(old(Snapshot()), token) ==>
        Snapshot() == WithoutMarkers(FinalizedRelease(old(Snapshot()), token), old(reservations)[id].channel, {id})
    {
      if harmless && clock < claims[token].until {
        LandedIsMarked(Snapshot(), token);
      }
      var finalized := FinalizeRelease(id, token);
      if finalized {
        ghost var t := Snapshot();
        PullLater(id, token, quiet);
        LeadsOn(old(Snapshot()), t, Snapshot());
      }
      if harmless {
        LandedMeansDecremented(Snapshot(), token);
      }
    }

    /** Completing twice, or completing what a reconciler already expired, starts no second release. */
    method Complete(id: Id, token: Id, now: int, ghost quiet: bool)
      requires Valid() && now <= clock && token !in claims
      modifies this
      ensures dueSeen == old(dueSeen)
      ensures LeadsTo(old(Snapshot()), Snapshot())
      ensures id in old(reservations) ==> id in reservations && reservations[id].completed
      ensures id in old(reservations) && harmless ==>
        reservations[id].release.Released? || LeasedAt(reservations[id], now) || now + RELEASE_LEASE <= clock
      ensures id !in old(reservations) ==> Snapshot() == old(Snapshot())
      ensures id in old(reservations) && old(reservations[id]).completed && old(reservations[id]).release.Released? ==>
        Snapshot() == old(Snapshot())
      ensures quiet && old(harmless) && id in old(reservations)
              && !old(reservations)[id].release.Released? && !LeasedAt(old(reservations)[id], now) ==>
        ReleasedAlone(old(Snapshot()), Snapshot(), id)
    {
      if harmless {
        assert ReservationOk(Snapshot(), id);
      }
      SetComplete(id);
      ghost var t := Snapshot();
      var claimed, failed := ReleaseReservation(id, token, now, quiet);
      LeadsOnward(t, Snapshot());
      LeadsOn(old(Snapshot()), t, Snapshot());
    }

    /** The update that completes an open reservation, its release pending. */
    method SetComplete(id: Id)
      requires Valid()
      modifies this`reservations
      ensures LeadsTo(old(Snapshot()), Snapshot())
      ensures reservations == if id in old(reservations) && !old(reservations)[id].completed
                              then WithRelease(old(reservations), id, Pending) else old(reservations)
    {
      if id in reservations && !reservations[id].completed {
        if harmless {
          MarkCompleteKeepsInv(Snapshot(), id);
        }
        LeadsByStep(Snapshot(), MarkComplete(id));
        reservations := reservations[id := reservations[id].(completed := true, release := Pending)];
      } else {
        LeadsNowhere(Snapshot());
      }
    }

    // -------------------------------------------------------------- reconciling before an admission

    /** Marks the expired reservations of the channel complete, one document at a time. */
    method MarkExpired(channel: Id, now: int, ghost quiet: bool)
      requires Valid()
      modifies this
      ensures dueSeen == old(dueSeen)
      ensures LeadsTo(old(Snapshot()), Snapshot())
      ensures ExpiredAreDone(old(reservations), reservations, channel, now, {})
      ensures quiet ==> Snapshot() == old(Snapshot()).(reservations := Expired(old(reservations), channel, now))
    {
      LeadsNowhere(Snapshot());
      var rest := reservations.Keys;
      while rest != {}
        invariant MarkingSoFar(old(Snapshot()), Snapshot(), rest, channel, now, quiet) && dueSeen == old(dueSeen)
      {
        var id :| id in rest;
        ghost var t := Snapshot();
        MarkIfExpired(id, channel, now, quiet);
        MarkOneMore(old(Snapshot()), t, Snapshot(), rest, channel, now, quiet, id);
        rest := rest - {id};
      }
      if quiet {
        MarkedAll(old(reservations), reservations, channel, now);
      }
    }

    method MarkIfExpired(id: Id, channel: Id, now: int, ghost quiet: bool)
      requires Valid()
      modifies this
      ensures dueSeen == old(dueSeen)
      ensures LeadsTo(old(Snapshot()), Snapshot())
      ensures MarksOne(old(Snapshot()), Snapshot(), id, channel, now, quiet)
    {
      if id in reservations && reservations[id].channel == channel && reservations[id].expiresAt <= now {
        SetComplete(id);
      } else {
        LeadsNowhere(Snapshot());
      }
      ghost var t := Snapshot();
      Others({}, quiet);
      LeadsOnward(t, Snapshot());
      LeadsOn(old(Snapshot()), t, Snapshot());
    }

    /** The query for a release that is due. */
    method QueryDue(channel: Id, now: int) returns (found: Option<Id>)
      modifies this`dueSeen
      ensures found.Some? ==> found.value in Due(reservations, channel, now)
      ensures found.None? ==> Due(reservations, channel, now) == {}
      ensures dueSeen == old(dueSeen) + (if found.Some? then 1 else 0)
    {
      found := FindClaimable(channel, now);
      dueSeen := dueSeen + (if found.Some? then 1 else 0);
    }

    method FindClaimable(channel: Id, now: int) returns (found: Option<Id>)
      ensures found.Some? ==> found.value in Due(reservations, channel, now)
      ensures found.None? ==> Due(reservations, channel, now) == {}
    {
      var rest := reservations.Keys;
      while rest != {}
        invariant rest <= reservations.Keys
        invariant forall id :: id in reservations && id !in rest && reservations[id].channel == channel ==>
          !Claimable(reservations[id], now)
      {
        var id :| id in rest;
        if reservations[id].channel == channel && Claimable(reservations[id], now) {
          return Some(id);
        }
        rest := rest - {id};
      }
      return None;
    }

    /** Releases what is pending or stalled. The caller's context lasts for `rounds` queries; the next one
        fails. Without a failure nothing was left to claim at some moment. It fails only if every query of its
        context found a release due, or if it stalled between a claim and the end of its lease. Undisturbed,
        under a context that lasts, every due slot is freed. */
    method ReconcilePending(channel: Id, now: int, rounds: nat, ghost quiet: bool) returns (failed: bool)
      requires Valid() && now <= clock
      modifies this
      ensures LeadsTo(old(Snapshot()), Snapshot())
      ensures !failed ==> Due(reservations, channel, now) == {}
      ensures old(dueSeen) <= dueSeen <= old(dueSeen) + rounds
      ensures failed && harmless ==> dueSeen == old(dueSeen) + rounds || now + RELEASE_LEASE <= clock
      ensures quiet && old(harmless) && |Due(old(reservations), channel, now)| < rounds ==>
        !failed && FreedSoFar(old(Snapshot()), Snapshot(), channel, now, Due(old(reservations), channel, now))
    {
      ghost var alone := quiet && harmless;
      ghost var done: set<Id> := {};
      LeadsNowhere(Snapshot());
      ReleaseNone(docs, reservations, channel);
      for round := 0 to rounds
        invariant LeadsTo(old(Snapshot()), Snapshot()) && dueSeen == old(dueSeen) + round
        invariant alone ==> |done| == round && FreedSoFar(old(Snapshot()), Snapshot(), channel, now, done)
      {
        ghost var t, id := Snapshot(), 0;
        var drained: bool;
        drained, failed, id := ReleaseNext(channel, now, quiet);
        LeadsOn(old(Snapshot()), t, Snapshot());
        if drained && alone {
          FreedEnough(old(Snapshot()), t, channel, now, done);
        }
        if drained || failed {
          return;
        }
        if alone {
          FreeOneMore(old(Snapshot()), t, Snapshot(), channel, now, done, id);
          done := done + {id};
        }
      }
      if alone {
        FreedEnough(old(Snapshot()), Snapshot(), channel, now, done);
      }
      return true;
    }

    /** One query and the release of what it found, unless another controller claims that first. */
    method ReleaseNext(channel: Id, now: int, ghost quiet: bool) returns (drained: bool, failed: bool, ghost id: Id)
      requires Valid() && now <= clock
      modifies this
      ensures LeadsTo(old(Snapshot()), Snapshot())
      ensures drained ==> !failed && Due(reservations, channel, now) == {}
      ensures dueSeen == old(dueSeen) + (if drained then 0 else 1)
      ensures failed && harmless ==> now + RELEASE_LEASE <= clock
      ensures quiet ==> (drained <==> Due(old(reservations), channel, now) == {})
      ensures quiet && drained ==> Snapshot() == old(Snapshot())
      ensures quiet && !drained && old(harmless) ==>
        !failed && id in Due(old(reservations), channel, now) && ReleasedAlone(old(Snapshot()), Snapshot(), id)
    {
      id := 0;
      Others({}, quiet);
      var found := QueryDue(channel, now);
      if found.None? {
        return true, false, id;
      }
      ghost var t := Snapshot();
      Others({}, quiet);
      LeadsOn(old(Snapshot()), t, Snapshot());
      t := Snapshot();
      var token := FreshToken();
      var claimed;
      claimed, failed := ReleaseReservation(found.value, token, now, quiet);
      LeadsOn(old(Snapshot()), t, Snapshot());
      return false, failed, found.value;
    }

    /** The source of fresh identifiers. */
    method FreshToken() returns (token: Id)
      ensures token !in claims && token !in tickets
    {
      var used := claims.Keys + tickets.Keys;
      var rest := used;
      token := 0;
      while rest != {}
        invariant rest <= used && forall id :: id in used && id !in rest ==> id < token
      {
        var id :| id in rest;
        rest := rest - {id};
        token := if token <= id then id + 1 else token;
      }
    }

    method ListMarkersOf(channel: Id) returns (markers: set<Id>)
      requires Valid()
      modifies this`listed
      ensures LeadsTo(old(Snapshot()), Snapshot())
      ensures markers == (if channel in docs then docs[channel].markers else {})
      ensures Snapshot() == if channel in docs then Apply(old(Snapshot()), ListMarkers(channel)) else old(Snapshot())
    {
      if channel !in docs {
        LeadsNowhere(Snapshot());
        return {};
      }
      if harmless {
        StepKeepsInv(Snapshot(), ListMarkers(channel));
      }
      LeadsByStep(Snapshot(), ListMarkers(channel));
      markers := docs[channel].markers;
      listed := listed + markers;
    }

    /** Those of the listed reservations that are released, or gone, at one moment. */
    method SeeReleasedOf(markers: set<Id>) returns (removable: set<Id>)
      requires Valid() && markers <= listed
      modifies this`releasedSeen
      ensures LeadsTo(old(Snapshot()), Snapshot())
      ensures Snapshot() == old(Snapshot()).(releasedSeen := old(releasedSeen) + removable)
      ensures removable == ReleasedOf(reservations, markers)
    {
      removable := set id | id in markers && (id in reservations ==> reservations[id].release.Released?);
      LeadsBySeeing(Snapshot(), removable);
      releasedSeen := releasedSeen + removable;
    }

    method PullMarkersOf(channel: Id, ids: set<Id>)
      requires Valid() && channel in docs && ids <= releasedSeen
      modifies this`docs
      ensures LeadsTo(old(Snapshot()), Snapshot()) && Snapshot() == WithoutMarkers(old(Snapshot()), channel, ids)
      ensures harmless ==> forall id :: id in ids ==> id in reservations && reservations[id].release.Released?
    {
      if harmless {
        PullKeepsInv(Snapshot(), channel, ids);
      }
      LeadsByStep(Snapshot(), PullMarkers(channel, ids));
      docs := docs[channel := docs[channel].(markers := docs[channel].markers - ids)];
    }

    /** Removes the markers that were listed in one store and whose reservations were seen released, or gone, in a later
        one, and no others. */
    method CleanupMarkers(channel: Id, ghost quiet: bool)
      returns (removed: set<Id>, ghost listing: Store, ghost looked: Store)
      requires Valid()
      modifies this
      ensures dueSeen == old(dueSeen)
      ensures LeadsTo(old(Snapshot()), listing) && LeadsTo(listing, looked) && LeadsTo(looked, Snapshot())
      ensures LeadsTo(old(Snapshot()), Snapshot()) && removed == Removable(listing, looked, channel)
      ensures channel in docs ==> docs[channel].markers !! removed
      ensures harmless ==> forall id :: id in removed ==> id in reservations && reservations[id].release.Released?
      ensures quiet ==> clock == old(clock) && harmless == old(harmless) && reservations == old(reservations)
      ensures quiet ==> docs == Cleaned(old(docs), reservations, channel)
    {
      var markers := ListMarkersOf(channel);
      listing := Snapshot();
      if markers == {} {
        if channel in docs {
          CleanedBy(docs, reservations, channel, {});
        }
        looked := listing;
        LeadsNowhere(listing);
        removed := {};
        return;
      }
      Others({}, quiet);
      ghost var t := Snapshot();
      removed, looked := RemoveReleased(channel, markers, quiet);
      LeadsOn(listing, t, Snapshot());
      LeadsOn(listing, t, looked);
      LeadsOn(old(Snapshot()), listing, Snapshot());
    }

    /** Looks up the listed reservations and pulls the markers of the released ones. */
    method RemoveReleased(channel: Id, markers: set<Id>, ghost quiet: bool)
      returns (removed: set<Id>, ghost looked: Store)
      requires Valid() && channel in docs && markers <= listed
      modifies this
      ensures dueSeen == old(dueSeen)
      ensures LeadsTo(old(Snapshot()), Snapshot()) && LeadsTo(old(Snapshot()), looked) && LeadsTo(looked, Snapshot())
      ensures removed == ReleasedOf(looked.reservations, markers)
      ensures channel in docs ==> removed == {} || docs[channel].markers !! removed
      ensures harmless ==> forall id :: id in removed ==> id in reservations && reservations[id].release.Released?
      ensures quiet ==> clock == old(clock) && harmless == old(harmless) && reservations == old(reservations)
      ensures quiet && markers == old(docs)[channel].markers ==> docs == Cleaned(old(docs), reservations, channel)
    {
      removed := SeeReleasedOf(markers);
      looked := Snapshot();
      LeadsNowhere(looked);
      if markers == docs[channel].markers {
        CleanedBy(docs, reservations, channel, removed);
      }
      if removed == {} {
        return;
      }
      Others({}, quiet);
      ghost var t := Snapshot();
      PullMarkersOf(channel, removed);
      LeadsOn(looked, t, Snapshot());
      LeadsOn(old(Snapshot()), looked, Snapshot());
    }

    /** Everything before an admission is asked for: undisturbed, the expired and due
        reservations of the channel are released, their slots freed and their markers gone. */
    method ReconcileExpired(channel: Id, now: int, rounds: nat, ghost quiet: bool) returns (failed: bool)
      requires Valid() && now <= clock
      modifies this
      ensures LeadsTo(old(Snapshot()), Snapshot())
      ensures ExpiredAreDone(old(reservations), reservations, channel, now, {})
      ensures old(dueSeen) <= dueSeen <= old(dueSeen) + rounds
      ensures failed && harmless ==> dueSeen == old(dueSeen) + rounds || now + RELEASE_LEASE <= clock
      ensures !failed ==> Reconciled(old(Snapshot()), Snapshot(), channel, now)
      ensures quiet && old(harmless)
              && |Due(Expired(old(reservations), channel, now), channel, now)| < rounds ==>
        && !failed && harmless && clock == old(clock)
        && reservations == ReconciledReservations(old(reservations), channel, now)
        && docs == ReconciledDocs(old(docs), old(reservations), channel, now)
    {
      MarkExpired(channel, now, quiet);
      ghost var marked := Snapshot();
      failed := ReconcilePending(channel, now, rounds, quiet);
      LeadsOn(old(Snapshot()), marked, Snapshot());
      LeadsOnward(marked, Snapshot());
      if !failed {
        ghost var t := Snapshot();
        DoneLater(old(reservations), marked, t, channel, now);
        var removed, listing, looked := CleanupMarkers(channel, quiet);
        assert Cleanup(t, Snapshot(), channel, listing, looked);
        LeadsOn(old(Snapshot()), t, Snapshot());
        LeadsOnward(t, Snapshot());
      }
    }

    // -------------------------------------------------------------- admission

    /** The reason given for a refusal, read after it. If nothing has changed since, it is the first limit
        that has no room, in the order concurrency, budget, cooldown; a channel that was never admitted
        has no cooldown to name. */
    method DenialReason(p: Policy, now: int) returns (reason: Denial)
      requires p.channel in docs
      ensures !Admits(docs, p, now) && docs[p.channel].last != 0 ==> FirstExhausted(docs[p.channel], p, now, reason)
      ensures reason in {Concurrency, Budget, Cooldown} && NamesLimit(docs[p.channel], p, now, reason)
    {
      var doc := docs[p.channel];
      if doc.active >= p.maxConcurrent {
        return Concurrency;
      }
      if doc.hour == HourOf(now) && doc.responses >= p.maxPerHour {
        return Budget;
      }
      return if doc.last != 0 && now - doc.last < p.cooldown then Cooldown else Concurrency;
    }

    /** One find-and-update with upsert: it matches where the limits have room, or creates the document. */
    method TakeSlot(p: Policy, now: int) returns (ticket: Option<Id>)
      requires Valid() && ValidPolicy(p) && p.enrolled && !p.killSwitch && now <= clock
      modifies this`docs, this`tickets
      ensures ticket.Some? <==> Admits(old(docs), p, now)
      ensures ticket.Some? ==> CanTakeSlot(old(Snapshot()), p, now, ticket.value)
      ensures Snapshot() == if ticket.Some? then TookSlot(old(Snapshot()), p, now, ticket.value) else old(Snapshot())
      ensures LeadsTo(old(Snapshot()), Snapshot())
    {
      if !Admits(docs, p, now) {
        LeadsNowhere(Snapshot());
        return None;
      }
      var own := FreshToken();
      if harmless {
        TakeSlotKeepsInv(Snapshot(), p, now, own);
      }
      LeadsByStep(Snapshot(), Action.TakeSlot(p, now, own));
      docs := docs[p.channel := SlotTaken(docs, p, now)];
      tickets := tickets[own := Ticket(p.channel, now)];
      return Some(own);
    }

    /** Writes the reservation, or gives the slot back when it cannot be written. */
    method Reserve(ticket: Id, id: Id, stored: bool) returns (reserved: bool)
      requires Valid() && ticket in tickets
      modifies this`docs, this`reservations, this`tickets
      ensures reserved <==> stored && id !in old(reservations)
      ensures Snapshot() == if reserved then Reserved(old(Snapshot()), ticket, id)
        else ReturnedSlot(old(Snapshot()), ticket)
      ensures LeadsTo(old(Snapshot()), Snapshot())
    {
      reserved := stored && id !in reservations;
      var channel := tickets[ticket].channel;
      if reserved {
        if harmless {
          ReserveKeepsInv(Snapshot(), ticket, id);
        }
        LeadsByStep(Snapshot(), Action.Reserve(ticket, id));
        reservations := reservations[id := Reservation(channel, false, tickets[ticket].at + RESERVATION_TTL, Unset)];
      } else {
        if harmless {
          ReturnSlotKeepsInv(Snapshot(), ticket);
        }
        LeadsByStep(Snapshot(), ReturnSlot(ticket));
        if channel in docs && docs[channel].active > 0 {
          docs := docs[channel := docs[channel].(active := docs[channel].active - 1)];
        }
      }
      tickets := tickets - {ticket};
    }

    /** `before` is the store in which a slot was asked for; without one, the policy forbids the admission or
        reconciling failed: every query of the context found a release due, or the call stalled past the lease
        of a claim. What the admission did from there on is one slot taken within the limits and one
        reservation written, or the slot given back, or nothing. Undisturbed, the answer is decided
        by the reconciled documents alone. */
    method Admit(p: Policy, now: int, id: Id, stored: bool, rounds: nat, ghost quiet: bool)
      returns (r: Result<Id, Denial>, ghost before: Option<Store>)
      requires Valid() && now <= clock
      modifies this
      ensures LeadsTo(old(Snapshot()), Snapshot())
      ensures r == Err(InvalidPolicy) <==> !p.scoped || p.cooldown < 0 || p.maxPerHour <= 0 || p.maxConcurrent <= 0
      ensures !ValidPolicy(p) ==> r == Err(InvalidPolicy) && Snapshot() == old(Snapshot())
      ensures ValidPolicy(p) && (p.killSwitch || !p.enrolled) ==>
        r == Err(KillSwitched) && Snapshot() == old(Snapshot())
      ensures ValidPolicy(p) && !p.killSwitch && p.enrolled ==>
        if before.None? then
          && r == Err(NotReconciled)
          && (harmless ==> dueSeen == old(dueSeen) + rounds || now + RELEASE_LEASE <= clock)
        else
          && LeadsTo(old(Snapshot()), before.value) && Admitted(before.value, Snapshot(), r, p, now, id, stored)
          && ExpiredAreDone(old(reservations), before.value.reservations, p.channel, now, {})
          && ReconciledBy(old(Snapshot()), before.value, p.channel, now)
      ensures ValidPolicy(p) && !p.killSwitch && p.enrolled && quiet && old(harmless)
              && |Due(Expired(old(reservations), p.channel, now), p.channel, now)| < rounds ==>
        AdmittedAlone(ReconciledDocs(old(docs), old(reservations), p.channel, now),
                      ReconciledReservations(old(reservations), p.channel, now), docs, reservations, r, p,
                      now, id, stored)
    {
      LeadsNowhere(Snapshot());
      if !ValidPolicy(p) {
        return Err(InvalidPolicy), None;
      }
      if p.killSwitch || !p.enrolled {
        return Err(KillSwitched), None;
      }
      var failed := ReconcileExpired(p.channel, now, rounds, quiet);
      if failed {
        return Err(NotReconciled), None;
      }
      ghost var t := Snapshot();
      Others({}, quiet);
      LeadsOn(old(Snapshot()), t, Snapshot());
      LeadsOnward(t, Snapshot());
      before := Some(Snapshot());
      r := AdmitInto(p, now, id, stored, quiet);
      LeadsOn(old(Snapshot()), before.value, Snapshot());
    }

    /** The admission proper, from the store in which the slot is asked for. */
    method AdmitInto(p: Policy, now: int, id: Id, stored: bool, ghost quiet: bool) returns (r: Result<Id, Denial>)
      requires Valid() && ValidPolicy(p) && p.enrolled && !p.killSwitch && now <= clock
      modifies this
      ensures dueSeen == old(dueSeen)
      ensures LeadsTo(old(Snapshot()), Snapshot())
      ensures Admitted(old(Snapshot()), Snapshot(), r, p, now, id, stored)
      ensures quiet && old(harmless) ==>
        AdmittedAlone(old(docs), old(reservations), docs, reservations, r, p, now, id, stored)
    {
      var ticket := TakeSlot(p, now);
      ghost var t := Snapshot();
      if ticket.None? {
        Others({}, quiet);
        LeadsOn(old(Snapshot()), t, Snapshot());
        var reason := DenialReason(p, now);
        return Err(reason);
      }
      if old(harmless) {
        AdmitAlone(old(Snapshot()), p, now, ticket.value, id, stored);
      }
      Others({ticket.value}, quiet);
      LeadsOn(old(Snapshot()), t, Snapshot());
      t := Snapshot();
      var reserved := Reserve(ticket.value, id, stored);
      LeadsOn(old(Snapshot()), t, Snapshot());
      return if reserved then Ok(id) else Err(NotStored);
    }
  }

  /** A controller that is not finished finds its marker as long as its lease runs. */
  lemma LandedIsMarked(s: Store, token: Id)
    requires Inv(s) && token in s.claims && s.claims[token].stage.Landed? && s.clock < s.claims[token].until
    ensures var id := s.claims[token].id; id in s.reservations && Marked(s.docs, s.reservations[id], id)
    ensures CanFinalize(s, token)
  {
    assert ClaimOk(s, token) && ReservationOk(s, s.claims[token].id);
  }

  /** Once a claim's update has landed, its reservation has given the slot back, whoever finishes the
      release. */
  lemma LandedMeansDecremented(s: Store, token: Id)
    requires Inv(s) && token in s.claims && !s.claims[token].stage.Claimed?
    ensures s.claims[token].id in s.reservations && Count(s.decrements, s.claims[token].id) == 1
  {
    assert ClaimOk(s, token);
  }
}
