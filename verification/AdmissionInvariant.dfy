/** Every call of a run of harmless updates keeps the release states, the count of held slots and the
    bookkeeping of markers. */
module AdmissionInvariant {
  import opened Admission

  // ---------------------------------------------------------------- each call keeps the release states

  /** Calls that leave every reservation's home, markers and count as they are. */
  lemma TookSlotReleases(s: Store, p: Policy, at: int, ticket: Id)
    requires Releases(s)
    ensures Releases(TookSlot(s, p, at, ticket))
  {
    var t := TookSlot(s, p, at, ticket);
    forall id ensures ReservationOk(t, id) { assert ReservationOk(s, id); }
    forall token ensures ClaimOk(t, token) { assert ClaimOk(s, token); }
  }

  lemma ReservedReleases(s: Store, ticket: Id, id: Id)
    requires Releases(s) && WellFormed(s) && ticket in s.tickets && id !in s.reservations
    ensures Releases(Reserved(s, ticket, id))
  {
    var t := Reserved(s, ticket, id);
    forall other ensures ReservationOk(t, other) {
      assert ReservationOk(s, other) && MarkerOk(s, s.tickets[ticket].channel, id);
    }
    forall token ensures ClaimOk(t, token) { assert ClaimOk(s, token); }
  }

  lemma ReturnedSlotReleases(s: Store, ticket: Id)
    requires Releases(s) && ticket in s.tickets
    ensures Releases(ReturnedSlot(s, ticket))
  {
    var t := ReturnedSlot(s, ticket);
    forall id ensures ReservationOk(t, id) { assert ReservationOk(s, id); }
    forall token ensures ClaimOk(t, token) { assert ClaimOk(s, token); }
  }

  lemma MarkedCompleteReleases(s: Store, id: Id)
    requires Releases(s) && id in s.reservations && !s.reservations[id].completed
    ensures Releases(s.(reservations := WithRelease(s.reservations, id, Pending)))
  {
    var t := s.(reservations := WithRelease(s.reservations, id, Pending));
    assert ReservationOk(s, id);
    forall other ensures ReservationOk(t, other) { assert ReservationOk(s, other); }
    forall token ensures ClaimOk(t, token) { assert ClaimOk(s, token); }
  }

  /** A lease is only taken over once it has ended, so the claim it replaces can no longer be live. */
  lemma ClaimedReleaseReleases(s: Store, id: Id, token: Id, at: int)
    requires Releases(s) && CanClaim(s, id, token, at)
    ensures Releases(ClaimedRelease(s, id, token, at))
  {
    var t := ClaimedRelease(s, id, token, at);
    assert ReservationOk(s, id);
    forall other ensures ReservationOk(t, other) { assert ReservationOk(s, other); }
    forall other ensures ClaimOk(t, other) { assert ClaimOk(s, other); }
  }

  lemma FinalizedReleases(s: Store, token: Id)
    requires Releases(s) && CanFinalize(s, token)
    ensures Releases(FinalizedRelease(s, token))
  {
    var t := FinalizedRelease(s, token);
    assert ReservationOk(s, s.claims[token].id);
    forall id ensures ReservationOk(t, id) { assert ReservationOk(s, id); }
    forall other ensures ClaimOk(t, other) { assert ClaimOk(s, other); }
  }

  /** A harmless update finds its reservation still releasing, or its marker. */
  lemma LandedReleases(s: Store, token: Id)
    requires Releases(s) && WellFormed(s) && CanLand(s, token) && HarmlessLand(s, token)
    ensures Releases(LandedUpdate(s, token))
  {
    var t, mine := LandedUpdate(s, token), s.claims[token].id;
    assert ClaimOk(s, token) && ReservationOk(s, mine);
    forall id ensures ReservationOk(t, id) { assert ReservationOk(s, id); }
    forall other ensures ClaimOk(t, other) { assert ClaimOk(s, other); }
  }

  /** Markers are only pulled for reservations that are released. */
  lemma PulledReleases(s: Store, channel: Id, ids: set<Id>)
    requires Releases(s) && channel in s.docs
    requires forall id :: id in ids ==> id in s.reservations && s.reservations[id].release.Released?
    ensures Releases(WithoutMarkers(s, channel, ids))
  {
    var t := WithoutMarkers(s, channel, ids);
    forall id ensures ReservationOk(t, id) { assert ReservationOk(s, id); }
    forall token ensures ClaimOk(t, token) { assert ClaimOk(s, token); }
  }

  /** Reservations keep their channel and stay released, documents are never dropped, and a marker is
      new only for a reservation of that channel. */
  lemma StaysWellFormed(s: Store, t: Store)
    requires WellFormed(s)
    requires s.docs.Keys <= t.docs.Keys
    requires s.reservations.Keys <= t.reservations.Keys
    requires forall id :: id in s.reservations ==> t.reservations[id].channel == s.reservations[id].channel
    requires forall id :: id in s.reservations && s.reservations[id].release.Released? ==>
      t.reservations[id].release.Released?
    requires forall channel, id :: channel in t.docs && id in t.docs[channel].markers ==>
               (channel in s.docs && id in s.docs[channel].markers)
               || (id in t.reservations && t.reservations[id].channel == channel)
    requires forall ticket :: ticket in t.tickets ==> ticket in s.tickets && t.tickets[ticket] == s.tickets[ticket]
    requires t.listed == s.listed && t.releasedSeen == s.releasedSeen && t.decrements.Keys <= t.reservations.Keys
    ensures WellFormed(t)
  {
    forall channel, id ensures MarkerOk(t, channel, id) { assert MarkerOk(s, channel, id); }
  }

  // ---------------------------------------------------------------- each call keeps the count

  lemma InFlightAdd(tickets: map<Id, Ticket>, k: Id, t: Ticket, channel: Id)
    requires k !in tickets
    ensures |InFlight(tickets[k := t], channel)| == |InFlight(tickets, channel)|
      + (if t.channel == channel then 1 else 0)
  {
    if t.channel == channel {
      assert InFlight(tickets[k := t], channel) == InFlight(tickets, channel) + {k};
    } else {
      assert InFlight(tickets[k := t], channel) == InFlight(tickets, channel);
    }
  }

  lemma InFlightDrop(tickets: map<Id, Ticket>, k: Id, channel: Id)
    requires k in tickets
    ensures |InFlight(tickets - {k}, channel)| ==
      |InFlight(tickets, channel)| - (if tickets[k].channel == channel then 1 else 0)
  {
    var rest := tickets - {k};
    InFlightAdd(rest, k, tickets[k], channel);
    assert rest[k := tickets[k]] == tickets;
  }

  lemma HoldingAdd(reservations: map<Id, Reservation>, decrements: map<Id, nat>, id: Id, r: Reservation, channel: Id)
    requires id !in reservations && Count(decrements, id) == 0
    ensures |Holding(reservations[id := r], decrements, channel)|
         == |Holding(reservations, decrements, channel)| + (if r.channel == channel then 1 else 0)
  {
    if r.channel == channel {
      assert Holding(reservations[id := r], decrements, channel) == Holding(reservations, decrements, channel) + {id};
    } else {
      assert Holding(reservations[id := r], decrements, channel) == Holding(reservations, decrements, channel);
    }
  }

  lemma HoldingDecrement(reservations: map<Id, Reservation>, decrements: map<Id, nat>, id: Id, channel: Id)
    requires id in reservations && Count(decrements, id) == 0
    ensures |Holding(reservations, decrements[id := 1], channel)|
         == |Holding(reservations, decrements, channel)| - (if reservations[id].channel == channel then 1 else 0)
  {
    var before, after := Holding(reservations, decrements, channel),
      Holding(reservations, decrements[id := 1], channel);
    if reservations[id].channel == channel {
      assert id in before && before == after + {id};
    } else {
      assert before == after;
    }
  }

  lemma TookSlotCounts(s: Store, p: Policy, at: int, ticket: Id)
    requires Counted(s) && Releases(s) && WellFormed(s) && ticket !in s.tickets
    ensures Counted(TookSlot(s, p, at, ticket))
  {
    var t := TookSlot(s, p, at, ticket);
    forall channel ensures CountedAt(t, channel) {
      InFlightAdd(s.tickets, ticket, Ticket(p.channel, at), channel);
      if channel in s.docs {
        assert CountedAt(s, channel);
      } else {
        forall id | id in s.reservations ensures s.reservations[id].channel != channel { assert ReservationOk(s, id); }
        assert InFlight(s.tickets, channel) == {} && Holding(s.reservations, s.decrements, channel) == {};
      }
    }
  }

  lemma ReservedCounts(s: Store, ticket: Id, id: Id)
    requires Counted(s) && ticket in s.tickets && id !in s.reservations && Count(s.decrements, id) == 0
    ensures Counted(Reserved(s, ticket, id))
  {
    var t := Reserved(s, ticket, id);
    forall channel ensures CountedAt(t, channel) {
      assert CountedAt(s, channel);
      InFlightDrop(s.tickets, ticket, channel);
      HoldingAdd(s.reservations, s.decrements, id, t.reservations[id], channel);
    }
  }

  lemma ReturnedSlotCounts(s: Store, ticket: Id)
    requires Counted(s) && ticket in s.tickets
    ensures Counted(ReturnedSlot(s, ticket))
  {
    var t := ReturnedSlot(s, ticket);
    forall channel ensures CountedAt(t, channel) {
      assert CountedAt(s, channel);
      InFlightDrop(s.tickets, ticket, channel);
    }
  }

  /** An update that finds no marker gives back a slot that is still held: the clamp at 0 never bites. */
  lemma LandedCounts(s: Store, token: Id)
    requires Counted(s) && CanLand(s, token)
    requires var id := s.claims[token].id;
      !Marked(s.docs, s.reservations[id], id) ==> Count(s.decrements, id) == 0
    ensures Counted(LandedUpdate(s, token))
    ensures var id := s.claims[token].id;
      !Marked(s.docs, s.reservations[id], id) ==> s.docs[s.reservations[id].channel].active > 0
  {
    var t, id := LandedUpdate(s, token), s.claims[token].id;
    var home := s.reservations[id].channel;
    assert CountedAt(s, home);
    if Marked(s.docs, s.reservations[id], id) {
      forall channel ensures CountedAt(t, channel) {
        assert CountedAt(s, channel);
      }
    } else {
      assert id in Holding(s.reservations, s.decrements, home);
      forall channel ensures CountedAt(t, channel) {
        assert CountedAt(s, channel);
        HoldingDecrement(s.reservations, s.decrements, id, channel);
      }
    }
  }

  lemma SameCounts(s: Store, t: Store)
    requires Counted(s) && t.docs.Keys == s.docs.Keys && t.reservations.Keys == s.reservations.Keys
    requires t.decrements == s.decrements && t.tickets == s.tickets
    requires forall channel :: channel in s.docs ==> t.docs[channel].active == s.docs[channel].active
    requires forall id :: id in s.reservations ==> t.reservations[id].channel == s.reservations[id].channel
    ensures Counted(t)
  {
    forall channel ensures CountedAt(t, channel) {
      assert CountedAt(s, channel);
      assert Holding(t.reservations, t.decrements, channel) == Holding(s.reservations, s.decrements, channel);
    }
  }

  // ---------------------------------------------------------------- each call keeps the invariant

  lemma TakeSlotKeepsInv(s: Store, p: Policy, at: int, ticket: Id)
    requires Inv(s) && CanTakeSlot(s, p, at, ticket)
    ensures Inv(TookSlot(s, p, at, ticket))
  {
    var t := TookSlot(s, p, at, ticket);
    TookSlotReleases(s, p, at, ticket);
    TookSlotCounts(s, p, at, ticket);
    forall channel, id ensures MarkerOk(t, channel, id) { assert MarkerOk(s, channel, id); }
  }

  lemma ReserveKeepsInv(s: Store, ticket: Id, id: Id)
    requires Inv(s) && ticket in s.tickets && id !in s.reservations
    ensures Inv(Reserved(s, ticket, id))
  {
    ReservedReleases(s, ticket, id);
    ReservedCounts(s, ticket, id);
    StaysWellFormed(s, Reserved(s, ticket, id));
  }

  lemma ReturnSlotKeepsInv(s: Store, ticket: Id)
    requires Inv(s) && ticket in s.tickets
    ensures Inv(ReturnedSlot(s, ticket))
  {
    ReturnedSlotReleases(s, ticket);
    ReturnedSlotCounts(s, ticket);
    StaysWellFormed(s, ReturnedSlot(s, ticket));
  }

  lemma MarkCompleteKeepsInv(s: Store, id: Id)
    requires Inv(s) && id in s.reservations && !s.reservations[id].completed
    ensures Inv(s.(reservations := WithRelease(s.reservations, id, Pending)))
  {
    var t := s.(reservations := WithRelease(s.reservations, id, Pending));
    assert ReservationOk(s, id);
    MarkedCompleteReleases(s, id);
    SameCounts(s, t);
    StaysWellFormed(s, t);
  }

  lemma ClaimReleaseKeepsInv(s: Store, id: Id, token: Id, at: int)
    requires Inv(s) && CanClaim(s, id, token, at)
    ensures Inv(ClaimedRelease(s, id, token, at))
  {
    ClaimedReleaseReleases(s, id, token, at);
    SameCounts(s, ClaimedRelease(s, id, token, at));
    StaysWellFormed(s, ClaimedRelease(s, id, token, at));
  }

  lemma FinalizeKeepsInv(s: Store, token: Id)
    requires Inv(s) && CanFinalize(s, token)
    ensures Inv(FinalizedRelease(s, token))
  {
    FinalizedReleases(s, token);
    SameCounts(s, FinalizedRelease(s, token));
    StaysWellFormed(s, FinalizedRelease(s, token));
  }

  /** A harmless update gives the slot back at most once, and there is a slot to give back. */
  lemma LandKeepsInv(s: Store, token: Id)
    requires Inv(s) && CanLand(s, token) && HarmlessLand(s, token)
    ensures Inv(LandedUpdate(s, token))
    ensures var id := s.claims[token].id;
      !Marked(s.docs, s.reservations[id], id) ==>
        s.docs[s.reservations[id].channel].active > 0 && Count(s.decrements, id) == 0
  {
    assert ClaimOk(s, token) && ReservationOk(s, s.claims[token].id);
    LandedReleases(s, token);
    LandedCounts(s, token);
    StaysWellFormed(s, LandedUpdate(s, token));
  }

  lemma PullKeepsInv(s: Store, channel: Id, ids: set<Id>)
    requires Inv(s) && channel in s.docs
    requires forall id :: id in ids ==> id in s.reservations && s.reservations[id].release.Released?
    ensures Inv(WithoutMarkers(s, channel, ids))
  {
    PulledReleases(s, channel, ids);
    SameCounts(s, WithoutMarkers(s, channel, ids));
    StaysWellFormed(s, WithoutMarkers(s, channel, ids));
  }

  /** The clock and what cleaners remember. */
  lemma QuietKeepsInv(s: Store, t: Store)
    requires Inv(s) && t == s.(clock := t.clock, listed := t.listed, releasedSeen := t.releasedSeen)
    requires s.clock <= t.clock && t.listed <= s.reservations.Keys
    requires forall id :: id in t.releasedSeen ==> id in s.reservations && s.reservations[id].release.Released?
    ensures Inv(t)
  {
    forall id ensures ReservationOk(t, id) { assert ReservationOk(s, id); }
    forall token ensures ClaimOk(t, token) { assert ClaimOk(s, token); }
    forall channel, id ensures MarkerOk(t, channel, id) { assert MarkerOk(s, channel, id); }
    SameCounts(s, t);
  }

  lemma StepKeepsInv(s: Store, a: Action)
    requires Inv(s) && Enabled(s, a) && Apply(s, a).harmless
    ensures Inv(Apply(s, a))
  {
    match a
    case TakeSlot(p, at, ticket) => TakeSlotKeepsInv(s, p, at, ticket);
    case Reserve(ticket, id) => ReserveKeepsInv(s, ticket, id);
    case ReturnSlot(ticket) => ReturnSlotKeepsInv(s, ticket);
    case MarkComplete(id) => MarkCompleteKeepsInv(s, id);
    case ClaimRelease(id, token, at) => ClaimReleaseKeepsInv(s, id, token, at);
    case Finalize(token) => FinalizeKeepsInv(s, token);
    case Land(token) => LandKeepsInv(s, token);
    case PullMarker(token) =>
      assert ClaimOk(s, token);
      PullKeepsInv(s, s.reservations[s.claims[token].id].channel, {s.claims[token].id});
    case PullMarkers(channel, ids) => PullKeepsInv(s, channel, ids);
    case Tick(_) => QuietKeepsInv(s, Apply(s, a));
    case ListMarkers(channel) =>
      forall id | id in s.docs[channel].markers ensures id in s.reservations { assert MarkerOk(s, channel, id); }
      QuietKeepsInv(s, Apply(s, a));
    case SeeReleased(_) => QuietKeepsInv(s, Apply(s, a));
  }

  // ---------------------------------------------------------------- runs

  lemma {:induction false} HarmStays(s: Store, run: seq<Action>)
    requires Executable(s, run)
    ensures After(s, run).harmless ==> s.harmless
    decreases |run|
  {
    if run != [] {
      HarmStays(Apply(s, run[0]), run[1..]);
    }
  }

  lemma {:induction false} RunKeepsInv(s: Store, run: seq<Action>)
    requires Inv(s) && Executable(s, run) && After(s, run).harmless
    ensures Inv(After(s, run))
    decreases |run|
  {
    if run != [] {
      HarmStays(Apply(s, run[0]), run[1..]);
      StepKeepsInv(s, run[0]);
      RunKeepsInv(Apply(s, run[0]), run[1..]);
    }
  }

  lemma EmptyInv()
    ensures Inv(EMPTY)
  {
    forall id ensures ReservationOk(EMPTY, id) && ClaimOk(EMPTY, id) && CountedAt(EMPTY, id) {
    }
    forall channel, id ensures MarkerOk(EMPTY, channel, id) {
    }
  }
}
