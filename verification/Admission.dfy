/** Channel admission and crash-tolerant slot release (core/admission/mongo.go).

    Controllers share one state document per channel and one document per reservation. Every action
    below is one Mongo call, and a run is any sequence of enabled actions: any number of admissions,
    completions, reconcilers and cleaners, each of which may stop for good after any call. The fields
    after `reservations` are auxiliary: what controllers hold in local variables between two calls, the
    clock, and the history the theorems speak about. */
module Admission {
  import opened Prelude

  const RELEASE_LEASE := 30
  const RESERVATION_TTL := 86400
  const HOUR := 3600

  /** Channels, reservations, lease tokens and tickets are only ever compared with each other. */
  type Id = nat

  datatype Policy = Policy(channel: Id, scoped: bool, enrolled: bool, killSwitch: bool,
                           maxConcurrent: int, maxPerHour: int, cooldown: int)

  datatype Doc = Doc(hour: int, responses: int, active: int, last: int, markers: set<Id>)

  datatype Release = Unset | Pending | Releasing(token: Id, until: int) | Released

  datatype Reservation = Reservation(channel: Id, completed: bool, expiresAt: int, release: Release)

  datatype Stage = Claimed | Landed | Finalized

  /** A release lease some controller took, and how far that controller has come. */
  datatype Claim = Claim(id: Id, until: int, stage: Stage)

  /** An admission that has taken a slot and not yet written its reservation. */
  datatype Ticket = Ticket(channel: Id, at: int)

  datatype Store = Store(
    docs: map<Id, Doc>,
    reservations: map<Id, Reservation>,
    clock: int,
    claims: map<Id, Claim>,
    tickets: map<Id, Ticket>,
    listed: set<Id>,
    releasedSeen: set<Id>,
    decrements: map<Id, nat>,
    harmless: bool)

  const EMPTY := Store(map[], map[], 0, map[], map[], {}, {}, map[], true)

  datatype Action =
    | Tick(to: int)
    | TakeSlot(policy: Policy, at: int, ticket: Id)
    | Reserve(ticket: Id, id: Id)
    | ReturnSlot(ticket: Id)
    | MarkComplete(id: Id)
    | ClaimRelease(id: Id, token: Id, at: int)
    | Land(token: Id)
    | Finalize(token: Id)
    | PullMarker(token: Id)
    | ListMarkers(channel: Id)
    | SeeReleased(id: Id)
    | PullMarkers(channel: Id, ids: set<Id>)

  predicate ValidPolicy(p: Policy) {
    p.scoped && p.cooldown >= 0 && p.maxPerHour > 0 && p.maxConcurrent > 0
  }

  function HourOf(at: int): int {
    at - at % HOUR
  }

  /** The admission filter; a channel without a document is admitted by the upsert. */
  predicate Admits(docs: map<Id, Doc>, p: Policy, at: int) {
    p.channel in docs ==>
      var doc := docs[p.channel];
      && doc.active < p.maxConcurrent
      && (doc.hour != HourOf(at) || doc.responses < p.maxPerHour)
      && doc.last <= at - p.cooldown
  }

  function SlotTaken(docs: map<Id, Doc>, p: Policy, at: int): Doc {
    if p.channel in docs then
      var doc := docs[p.channel];
      Doc(HourOf(at), if doc.hour == HourOf(at) then doc.responses + 1 else 1, doc.active + 1, at, doc.markers)
    else Doc(HourOf(at), 1, 1, at, {})
  }

  predicate Claimable(r: Reservation, at: int) {
    r.completed && (r.release.Pending? || (r.release.Releasing? && r.release.until <= at))
  }

  function Clamped(n: int): int {
    if n < 0 then 0 else n
  }

  function Count(decrements: map<Id, nat>, id: Id): nat {
    if id in decrements then decrements[id] else 0
  }

  // ---------------------------------------------------------------- the calls, one function each

  predicate CanTakeSlot(s: Store, p: Policy, at: int, ticket: Id) {
    ValidPolicy(p) && p.enrolled && !p.killSwitch && at <= s.clock && ticket !in s.tickets && Admits(s.docs, p, at)
  }

  function TookSlot(s: Store, p: Policy, at: int, ticket: Id): Store {
    s.(docs := s.docs[p.channel := SlotTaken(s.docs, p, at)], tickets := s.tickets[ticket := Ticket(p.channel, at)])
  }

  function Reserved(s: Store, ticket: Id, id: Id): Store
    requires ticket in s.tickets
  {
    var t := s.tickets[ticket];
    s.(reservations := s.reservations[id := Reservation(t.channel, false, t.at + RESERVATION_TTL, Unset)],
       tickets := s.tickets - {ticket})
  }

  /** The compensation of a reservation that could not be written. */
  function ReturnedSlot(s: Store, ticket: Id): Store
    requires ticket in s.tickets
  {
    var channel := s.tickets[ticket].channel;
    var docs :=
      if channel in s.docs && s.docs[channel].active > 0
      then s.docs[channel := s.docs[channel].(active := s.docs[channel].active - 1)] else s.docs;
    s.(docs := docs, tickets := s.tickets - {ticket})
  }

  /** Changes what a reservation document says about its release. */
  function WithRelease(reservations: map<Id, Reservation>, id: Id, release: Release): map<Id, Reservation>
    requires id in reservations
  {
    reservations[id := reservations[id].(completed := true, release := release)]
  }

  predicate CanClaim(s: Store, id: Id, token: Id, at: int) {
    at <= s.clock && token !in s.claims && id in s.reservations && Claimable(s.reservations[id], at)
  }

  function ClaimedRelease(s: Store, id: Id, token: Id, at: int): Store
    requires id in s.reservations
  {
    s.(reservations := WithRelease(s.reservations, id, Releasing(token, at + RELEASE_LEASE)),
       claims := s.claims[token := Claim(id, at + RELEASE_LEASE, Claimed)])
  }

  predicate CanLand(s: Store, token: Id) {
    && token in s.claims && s.claims[token].stage.Claimed? && s.claims[token].id in s.reservations
    && s.reservations[s.claims[token].id].channel in s.docs
  }

  predicate HarmlessLand(s: Store, token: Id)
    requires CanLand(s, token)
  {
    var id := s.claims[token].id;
    Marked(s.docs, s.reservations[id], id) || !s.reservations[id].release.Released?
  }

  /** The state update of a release: guarded by the marker only, not by the lease. It is harmless when it
      meets a marker or a reservation whose release is not finished. */
  function LandedUpdate(s: Store, token: Id): Store
    requires CanLand(s, token)
  {
    var claim := s.claims[token];
    var channel := s.reservations[claim.id].channel;
    var doc := s.docs[channel];
    var claims, harmless := s.claims[token := claim.(stage := Landed)], s.harmless && HarmlessLand(s, token);
    if claim.id in doc.markers then s.(claims := claims, harmless := harmless)
    else s.(docs := s.docs[channel := doc.(active := Clamped(doc.active - 1), markers := doc.markers + {claim.id})],
            claims := claims, harmless := harmless,
            decrements := s.decrements[claim.id := Count(s.decrements, claim.id) + 1])
  }

  predicate CanFinalize(s: Store, token: Id) {
    && token in s.claims && s.claims[token].stage.Landed? && s.claims[token].id in s.reservations
    && s.reservations[s.claims[token].id].release.Releasing?
    && s.reservations[s.claims[token].id].release.token == token
  }

  function FinalizedRelease(s: Store, token: Id): Store
    requires CanFinalize(s, token)
  {
    var id := s.claims[token].id;
    s.(reservations := WithRelease(s.reservations, id, Released),
       claims := s.claims[token := s.claims[token].(stage := Finalized)])
  }

  predicate CanPull(s: Store, token: Id) {
    && token in s.claims && s.claims[token].stage.Finalized? && s.claims[token].id in s.reservations
    && s.reservations[s.claims[token].id].channel in s.docs
  }

  function WithoutMarkers(s: Store, channel: Id, ids: set<Id>): Store
    requires channel in s.docs
  {
    s.(docs := s.docs[channel := s.docs[channel].(markers := s.docs[channel].markers - ids)])
  }

  predicate Enabled(s: Store, a: Action) {
    match a
    case Tick(to) => s.clock <= to
    case TakeSlot(p, at, ticket) => CanTakeSlot(s, p, at, ticket)
    case Reserve(ticket, id) => ticket in s.tickets && id !in s.reservations
    case ReturnSlot(ticket) => ticket in s.tickets
    case MarkComplete(id) => id in s.reservations && !s.reservations[id].completed
    case ClaimRelease(id, token, at) => CanClaim(s, id, token, at)
    case Land(token) => CanLand(s, token)
    case Finalize(token) => CanFinalize(s, token)
    case PullMarker(token) => CanPull(s, token)
    case ListMarkers(channel) => channel in s.docs
    case SeeReleased(id) => id in s.listed && (id in s.reservations ==> s.reservations[id].release.Released?)
    case PullMarkers(channel, ids) => channel in s.docs && ids <= s.releasedSeen
  }

  function Apply(s: Store, a: Action): Store
    requires Enabled(s, a)
  {
    match a
    case Tick(to) => s.(clock := to)
    case TakeSlot(p, at, ticket) => TookSlot(s, p, at, ticket)
    case Reserve(ticket, id) => Reserved(s, ticket, id)
    case ReturnSlot(ticket) => ReturnedSlot(s, ticket)
    case MarkComplete(id) => s.(reservations := WithRelease(s.reservations, id, Pending))
    case ClaimRelease(id, token, at) => ClaimedRelease(s, id, token, at)
    case Land(token) => LandedUpdate(s, token)
    case Finalize(token) => FinalizedRelease(s, token)
    case PullMarker(token) => WithoutMarkers(s, s.reservations[s.claims[token].id].channel, {s.claims[token].id})
    case ListMarkers(channel) => s.(listed := s.listed + s.docs[channel].markers)
    case SeeReleased(id) => s.(releasedSeen := s.releasedSeen + {id})
    case PullMarkers(channel, ids) => WithoutMarkers(s, channel, ids)
  }

  ghost predicate Executable(s: Store, run: seq<Action>)
    decreases |run|
  {
    run == [] || (Enabled(s, run[0]) && Executable(Apply(s, run[0]), run[1..]))
  }

  ghost function After(s: Store, run: seq<Action>): Store
    requires Executable(s, run)
    decreases |run|
  {
    if run == [] then s else After(Apply(s, run[0]), run[1..])
  }

  lemma {:induction false} RunConcat(s: Store, first: seq<Action>, second: seq<Action>)
    requires Executable(s, first) && Executable(After(s, first), second)
    ensures Executable(s, first + second) && After(s, first + second) == After(After(s, first), second)
    decreases |first|
  {
    if first == [] {
      assert first + second == second;
    } else {
      RunConcat(Apply(s, first[0]), first[1..], second);
      assert (first + second)[1..] == first[1..] + second;
    }
  }

  lemma RunThen(s: Store, run: seq<Action>, a: Action)
    requires Executable(s, run) && Enabled(After(s, run), a)
    ensures Executable(s, run + [a]) && After(s, run + [a]) == Apply(After(s, run), a)
  {
    assert [a][1..] == [] && Executable(Apply(After(s, run), a), []);
    assert Executable(After(s, run), [a]);
    RunConcat(s, run, [a]);
  }

  // ---------------------------------------------------------------- the invariant

  /** Reservations of a channel whose slot has not been given back. */
  function Holding(reservations: map<Id, Reservation>, decrements: map<Id, nat>, channel: Id): set<Id> {
    set id | id in reservations && reservations[id].channel == channel && Count(decrements, id) == 0
  }

  function InFlight(tickets: map<Id, Ticket>, channel: Id): set<Id> {
    set ticket | ticket in tickets && tickets[ticket].channel == channel
  }

  function Uncompleted(reservations: map<Id, Reservation>, channel: Id): set<Id> {
    set id | id in reservations && reservations[id].channel == channel && !reservations[id].completed
  }

  lemma SubsetSize(a: set<Id>, b: set<Id>)
    requires a <= b
    ensures |a| <= |b|
  {
    assert b == a + (b - a);
  }

  predicate Marked(docs: map<Id, Doc>, r: Reservation, id: Id) {
    r.channel in docs && id in docs[r.channel].markers
  }

  /** How often a reservation has given its slot back, by release state. */
  ghost predicate ReservationInv(docs: map<Id, Doc>, r: Reservation, claims: map<Id, Claim>, count: nat, id: Id) {
    && r.channel in docs
    && (r.completed <==> !r.release.Unset?)
    && match r.release
       case Unset => count == 0 && !Marked(docs, r, id)
       case Pending => count == 0 && !Marked(docs, r, id)
       case Releasing(token, until) =>
         && count == (if Marked(docs, r, id) then 1 else 0)
         && token in claims && claims[token].id == id && claims[token].until == until
         && !claims[token].stage.Finalized? && (claims[token].stage.Landed? ==> count == 1)
       case Released => count == 1
  }

  /** A claim that is not finished holds the current lease for as long as that lease runs; once its update
      has landed, its reservation has given the slot back. A claimed release never becomes pending again. */
  ghost predicate ClaimInv(reservations: map<Id, Reservation>, clock: int, count: nat, token: Id, claim: Claim) {
    && claim.id in reservations
    && (reservations[claim.id].release.Releasing? || reservations[claim.id].release.Released?)
    && (!claim.stage.Claimed? ==> count == 1)
    && (!claim.stage.Finalized? && clock < claim.until ==>
          reservations[claim.id].release == Releasing(token, claim.until))
    && (claim.stage.Finalized? ==> reservations[claim.id].release.Released?)
  }

  ghost predicate ReservationOk(s: Store, id: Id) {
    id in s.reservations ==> ReservationInv(s.docs, s.reservations[id], s.claims, Count(s.decrements, id), id)
  }

  ghost predicate ClaimOk(s: Store, token: Id) {
    token in s.claims ==>
      ClaimInv(s.reservations, s.clock, Count(s.decrements, s.claims[token].id), token, s.claims[token])
  }

  ghost predicate Releases(s: Store) {
    && (forall id {:trigger ReservationOk(s, id)} :: ReservationOk(s, id))
    && (forall token {:trigger ClaimOk(s, token)} :: ClaimOk(s, token))
  }

  /** `active` counts the slots not given back and the admissions in flight. */
  ghost predicate CountedAt(s: Store, channel: Id) {
    channel in s.docs ==>
      s.docs[channel].active == |Holding(s.reservations, s.decrements, channel)| + |InFlight(s.tickets, channel)|
  }

  ghost predicate Counted(s: Store) {
    forall channel {:trigger CountedAt(s, channel)} :: CountedAt(s, channel)
  }

  /** Markers, in-flight admissions and everything cleaners remember name existing documents. */
  ghost predicate MarkerOk(s: Store, channel: Id, id: Id) {
    channel in s.docs && id in s.docs[channel].markers ==> id in s.reservations && s.reservations[id].channel == channel
  }

  ghost predicate WellFormed(s: Store) {
    && (forall channel, id {:trigger MarkerOk(s, channel, id)} :: MarkerOk(s, channel, id))
    && (forall ticket :: ticket in s.tickets ==> s.tickets[ticket].channel in s.docs)
    && s.listed <= s.reservations.Keys && s.decrements.Keys <= s.reservations.Keys
    && (forall id :: id in s.releasedSeen ==> id in s.reservations && s.reservations[id].release.Released?)
  }

  /** What every run of harmless updates keeps. */
  ghost predicate Inv(s: Store) {
    Releases(s) && Counted(s) && WellFormed(s)
  }
}
