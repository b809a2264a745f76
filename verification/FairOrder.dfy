/** Fair ordering of context candidates (core/contextpacks/builder.go:163-203): each channel sorted by its own
    precedence, the channels dealt out in rounds. Identifiers are numbers in the order of the strings they
    stand for; 0 is the empty string. */
module FairOrder {
  type Id = nat

  datatype Partition = System | Thread | Channel | RecentOrg | Evidence | Situation | OtherPartition

  datatype Candidate = Candidate(
    id: Id, version: int, org: Id, channel: Id, author: Id, partition: Partition, text: string, priority: int,
    observedAt: int, required: bool, sourceExpiresAt: int)

  /** The name of the group of candidates without a channel, wherever it comes in the order of names. */
  const GLOBAL: Id

  function Group(c: Candidate): Id {
    if c.channel == 0 then GLOBAL else c.channel
  }

  /** Required first, then higher priority, then newer, then smaller identifier. */
  predicate Before(a: Candidate, b: Candidate) {
    if a.required != b.required then a.required
    else if a.priority != b.priority then a.priority > b.priority
    else if a.observedAt != b.observedAt then a.observedAt > b.observedAt
    else a.id < b.id
  }

  predicate Tied(a: Candidate, b: Candidate) {
    a.required == b.required && a.priority == b.priority && a.observedAt == b.observedAt && a.id == b.id
  }

  predicate Ordered(s: seq<Candidate>) {
    forall i, j :: 0 <= i < j < |s| ==> !Before(s[j], s[i])
  }

  /** The candidates of one channel, in order. */
  function Members(s: seq<Candidate>, name: Id): seq<Candidate> {
    if s == [] then []
    else if Group(s[|s| - 1]) == name then Members(s[..|s| - 1], name) + [s[|s| - 1]]
    else Members(s[..|s| - 1], name)
  }

  lemma MembersPush(s: seq<Candidate>, c: Candidate, name: Id)
    ensures Members(s + [c], name) == if Group(c) == name then Members(s, name) + [c] else Members(s, name)
  {
    assert (s + [c])[..|s|] == s;
  }

  lemma {:induction false} MembersAre(s: seq<Candidate>, name: Id)
    ensures |Members(s, name)| <= |s|
    ensures forall c :: c in Members(s, name) <==> c in s && Group(c) == name
  {
    if s != [] {
      MembersAre(s[..|s| - 1], name);
      assert s == s[..|s| - 1] + [s[|s| - 1]];
    }
  }

  lemma {:induction false} MembersCount(s: seq<Candidate>, name: Id, x: Candidate)
    requires Group(x) == name
    ensures multiset(Members(s, name))[x] == multiset(s)[x]
  {
    if s != [] {
      MembersCount(s[..|s| - 1], name, x);
      assert s == s[..|s| - 1] + [s[|s| - 1]];
    }
  }

  // ---------------------------------------------------------------- the stable sort

  function Insert(s: seq<Candidate>, c: Candidate): seq<Candidate> {
    if s == [] || !Before(c, s[|s| - 1]) then s + [c] else Insert(s[..|s| - 1], c) + [s[|s| - 1]]
  }

  function Sort(s: seq<Candidate>): seq<Candidate> {
    if s == [] then [] else Insert(Sort(s[..|s| - 1]), s[|s| - 1])
  }

  lemma {:induction false} InsertPermutes(s: seq<Candidate>, c: Candidate)
    ensures multiset(Insert(s, c)) == multiset(s) + multiset{c}
    ensures forall x :: x in Insert(s, c) ==> x in s || x == c
  {
    if s != [] && Before(c, s[|s| - 1]) {
      InsertPermutes(s[..|s| - 1], c);
      assert s == s[..|s| - 1] + [s[|s| - 1]];
    }
  }

  lemma OrderedAppend(s: seq<Candidate>, last: Candidate)
    requires Ordered(s) && forall x :: x in s ==> !Before(last, x)
    ensures Ordered(s + [last])
  {
  }

  lemma {:induction false} InsertOrders(s: seq<Candidate>, c: Candidate)
    requires Ordered(s)
    ensures Ordered(Insert(s, c))
  {
    if s != [] {
      var front, last := s[..|s| - 1], s[|s| - 1];
      assert forall x :: x in front ==> !Before(last, x);
      if Before(c, last) {
        InsertOrders(front, c);
        InsertPermutes(front, c);
        OrderedAppend(Insert(front, c), last);
      } else {
        assert s == front + [last];
        OrderedAppend(s, c);
      }
    }
  }

  lemma {:induction false} SortSorts(s: seq<Candidate>)
    ensures Ordered(Sort(s)) && multiset(Sort(s)) == multiset(s)
  {
    if s != [] {
      SortSorts(s[..|s| - 1]);
      InsertOrders(Sort(s[..|s| - 1]), s[|s| - 1]);
      InsertPermutes(Sort(s[..|s| - 1]), s[|s| - 1]);
      assert s == s[..|s| - 1] + [s[|s| - 1]];
    }
  }

  /** The candidates tied with one another, in order. */
  function TiedWith(s: seq<Candidate>, key: Candidate): seq<Candidate> {
    if s == [] then []
    else if Tied(key, s[|s| - 1]) then TiedWith(s[..|s| - 1], key) + [s[|s| - 1]]
    else TiedWith(s[..|s| - 1], key)
  }

  lemma {:induction false} InsertIsStable(s: seq<Candidate>, c: Candidate, key: Candidate)
    ensures TiedWith(Insert(s, c), key) == if Tied(key, c) then TiedWith(s, key) + [c] else TiedWith(s, key)
  {
    if s != [] && Before(c, s[|s| - 1]) {
      InsertIsStable(s[..|s| - 1], c, key);
      assert !(Tied(key, c) && Tied(key, s[|s| - 1]));
    }
  }

  /** Tied candidates keep the order they came in. */
  lemma {:induction false} SortIsStable(s: seq<Candidate>, key: Candidate)
    ensures TiedWith(Sort(s), key) == TiedWith(s, key)
  {
    if s != [] {
      SortIsStable(s[..|s| - 1], key);
      InsertIsStable(Sort(s[..|s| - 1]), s[|s| - 1], key);
    }
  }

  // ---------------------------------------------------------------- groups in rounds

  predicate Ascending(names: seq<Id>) {
    forall i, j :: 0 <= i < j < |names| ==> names[i] < names[j]
  }

  function InsertName(names: seq<Id>, name: Id): seq<Id> {
    if names == [] || names[|names| - 1] < name then names + [name]
    else if names[|names| - 1] == name then names
    else InsertName(names[..|names| - 1], name) + [names[|names| - 1]]
  }

  /** The groups present, in ascending order. */
  function Names(s: seq<Candidate>): seq<Id> {
    if s == [] then [] else InsertName(Names(s[..|s| - 1]), Group(s[|s| - 1]))
  }

  lemma AscendingPush(names: seq<Id>, last: Id)
    requires Ascending(names) && forall n :: n in names ==> n < last
    ensures Ascending(names + [last])
  {
    assert forall i :: 0 <= i < |names| ==> names[i] in names;
  }

  lemma {:induction false} InsertNameKeeps(names: seq<Id>, name: Id)
    requires Ascending(names)
    ensures Ascending(InsertName(names, name)) && forall n :: n in InsertName(names, name) <==> n in names || n == name
  {
    if names != [] {
      var front, last := names[..|names| - 1], names[|names| - 1];
      assert names == front + [last] && last in names;
      assert forall n :: n in front ==> n < last;
      if last < name {
        AscendingPush(names, name);
      } else if last > name {
        InsertNameKeeps(front, name);
        AscendingPush(InsertName(front, name), last);
      }
    }
  }

  lemma {:induction false} NamesAreGroups(s: seq<Candidate>)
    ensures Ascending(Names(s)) && forall n :: n in Names(s) <==> exists c :: c in s && Group(c) == n
  {
    if s != [] {
      var front, last := s[..|s| - 1], s[|s| - 1];
      NamesAreGroups(front);
      InsertNameKeeps(Names(front), Group(last));
      assert s == front + [last];
    }
  }

  /** A channel's candidates in its own order. */
  function Deck(s: seq<Candidate>, name: Id): seq<Candidate> {
    Sort(Members(s, name))
  }

  /** One round over the first m decks, put on top of what was dealt: a candidate from every deck that
      still has one. */
  function Deal(dealt: seq<Candidate>, decks: seq<seq<Candidate>>, round: nat, m: nat): seq<Candidate>
    requires m <= |decks|
  {
    if m == 0 then dealt
    else if round < |decks[m - 1]| then Deal(dealt, decks, round, m - 1) + [decks[m - 1][round]]
    else Deal(dealt, decks, round, m - 1)
  }

  function Rounds(decks: seq<seq<Candidate>>, rounds: nat): seq<Candidate> {
    if rounds == 0 then [] else Deal(Rounds(decks, rounds - 1), decks, rounds - 1, |decks|)
  }

  function DecksOf(s: seq<Candidate>): seq<seq<Candidate>> {
    seq(|Names(s)|, k requires 0 <= k < |Names(s)| => Deck(s, Names(s)[k]))
  }

  function Fair(s: seq<Candidate>): seq<Candidate> {
    Rounds(DecksOf(s), |s|)
  }

  // ---------------------------------------------------------------- what the order keeps

  /** What a channel's order means: nothing optional before something required, and among equals first the higher
      priority, then the newer, then the smaller identifier. */
  predicate InOrder(a: Candidate, b: Candidate) {
    && (b.required ==> a.required)
    && (a.required == b.required ==> a.priority >= b.priority)
    && (a.required == b.required && a.priority == b.priority ==> a.observedAt >= b.observedAt)
    && (a.required == b.required && a.priority == b.priority && a.observedAt == b.observedAt ==> a.id <= b.id)
  }

  lemma DeckIsInOrder(s: seq<Candidate>, name: Id)
    ensures forall i, j :: 0 <= i < j < |Deck(s, name)| ==> InOrder(Deck(s, name)[i], Deck(s, name)[j])
  {
    DeckIsSorted(s, name);
  }

  lemma DeckIsSorted(s: seq<Candidate>, name: Id)
    ensures |Deck(s, name)| <= |s| && Ordered(Deck(s, name)) && multiset(Deck(s, name)) == multiset(Members(s, name))
    ensures forall c :: c in Deck(s, name) <==> c in s && Group(c) == name
  {
    SortSorts(Members(s, name));
    MembersAre(s, name);
    assert |Deck(s, name)| == |multiset(Deck(s, name))| == |Members(s, name)|;
    forall c
      ensures c in Deck(s, name) <==> c in s && Group(c) == name
    {
      assert c in multiset(Deck(s, name)) <==> c in multiset(Members(s, name));
    }
  }

  ghost predicate OwnDeck(decks: seq<seq<Candidate>>, names: seq<Id>, k: nat)
    requires |decks| == |names|
  {
    k < |decks| ==> forall c :: c in decks[k] ==> Group(c) == names[k]
  }

  /** Every deck holds candidates of its own channel only, and no two channels are the same. */
  ghost predicate Grouped(decks: seq<seq<Candidate>>, names: seq<Id>) {
    |decks| == |names| && Ascending(names)
      && forall k: nat {:trigger OwnDeck(decks, names, k)} :: OwnDeck(decks, names, k)
  }

  lemma DecksAreGrouped(s: seq<Candidate>)
    ensures Grouped(DecksOf(s), Names(s))
  {
    NamesAreGroups(s);
    forall k: nat ensures OwnDeck(DecksOf(s), Names(s), k) {
      if k < |Names(s)| {
        DeckIsSorted(s, Names(s)[k]);
      }
    }
  }

  lemma NamesDiffer(names: seq<Id>, i: nat, j: nat)
    requires Ascending(names) && i < |names| && j < |names|
    ensures names[i] == names[j] <==> i == j
  {
  }

  /** What a deck adds to a round belongs to its channel. */
  lemma ShareOfDeck(dealt: seq<Candidate>, decks: seq<seq<Candidate>>, names: seq<Id>, round: nat, m: nat, name: Id)
    requires Grouped(decks, names) && 0 < m <= |decks|
    ensures Members(Deal(dealt, decks, round, m), name)
      == if round < |decks[m - 1]| && name == names[m - 1]
         then Members(Deal(dealt, decks, round, m - 1), name) + [decks[m - 1][round]]
         else Members(Deal(dealt, decks, round, m - 1), name)
  {
    if round < |decks[m - 1]| {
      assert OwnDeck(decks, names, m - 1) && decks[m - 1][round] in decks[m - 1];
      MembersPush(Deal(dealt, decks, round, m - 1), decks[m - 1][round], name);
    }
  }

  /** A channel's share grows by at most its next candidate in a round. */
  lemma {:induction false} ShareOfDeal(
    dealt: seq<Candidate>, decks: seq<seq<Candidate>>, names: seq<Id>, round: nat, m: nat, k: nat)
    requires Grouped(decks, names) && m <= |decks| && k < |names|
    ensures Members(Deal(dealt, decks, round, m), names[k])
      == if k < m && round < |decks[k]| then Members(dealt, names[k]) + [decks[k][round]] else Members(dealt, names[k])
  {
    if m > 0 {
      ShareOfDeal(dealt, decks, names, round, m - 1, k);
      ShareOfDeck(dealt, decks, names, round, m, names[k]);
      NamesDiffer(names, k, m - 1);
    }
  }

  function Top(deck: seq<Candidate>, rounds: nat): seq<Candidate> {
    if rounds < |deck| then deck[..rounds] else deck
  }

  lemma TopGrows(deck: seq<Candidate>, rounds: nat)
    requires rounds > 0
    ensures Top(deck, rounds) == if rounds - 1 < |deck| then Top(deck, rounds - 1) + [deck[rounds - 1]]
      else Top(deck, rounds - 1)
  {
  }

  /** After any number of rounds each channel's share is the top of its deck. */
  lemma {:induction false} ShareOfRounds(decks: seq<seq<Candidate>>, names: seq<Id>, rounds: nat, k: nat)
    requires Grouped(decks, names) && k < |names|
    ensures Members(Rounds(decks, rounds), names[k]) == Top(decks[k], rounds)
  {
    if rounds > 0 {
      ShareOfRounds(decks, names, rounds - 1, k);
      ShareOfDeal(Rounds(decks, rounds - 1), decks, names, rounds - 1, |decks|, k);
      TopGrows(decks[k], rounds);
    }
  }

  lemma {:induction false} DealOnlyDecks(
    dealt: seq<Candidate>, decks: seq<seq<Candidate>>, names: seq<Id>, round: nat, m: nat, name: Id)
    requires Grouped(decks, names) && m <= |decks| && name !in names
    ensures Members(Deal(dealt, decks, round, m), name) == Members(dealt, name)
  {
    if m > 0 {
      DealOnlyDecks(dealt, decks, names, round, m - 1, name);
      ShareOfDeck(dealt, decks, names, round, m, name);
    }
  }

  lemma {:induction false} RoundsOnlyDecks(decks: seq<seq<Candidate>>, names: seq<Id>, rounds: nat, name: Id)
    requires Grouped(decks, names) && name !in names
    ensures Members(Rounds(decks, rounds), name) == []
  {
    if rounds > 0 {
      RoundsOnlyDecks(decks, names, rounds - 1, name);
      DealOnlyDecks(Rounds(decks, rounds - 1), decks, names, rounds - 1, |decks|, name);
    }
  }

  /** Exactly the channels with candidates have a name. */
  lemma NamedOrEmpty(s: seq<Candidate>, name: Id)
    ensures name in Names(s) <==> Deck(s, name) != []
  {
    NamesAreGroups(s);
    DeckIsSorted(s, name);
    if Deck(s, name) != [] {
      var c := Deck(s, name)[0];
      assert c in s && Group(c) == name;
    }
  }

  /** Each channel keeps exactly its own candidates, in its own order: required, then priority, then
      newest, then identifier. */
  lemma FairKeepsDecks(s: seq<Candidate>, name: Id)
    ensures Members(Fair(s), name) == Deck(s, name) && Ordered(Deck(s, name))
    ensures multiset(Deck(s, name)) == multiset(Members(s, name))
  {
    NamesAreGroups(s);
    DecksAreGrouped(s);
    DeckIsSorted(s, name);
    if name in Names(s) {
      var k :| 0 <= k < |Names(s)| && Names(s)[k] == name;
      ShareOfRounds(DecksOf(s), Names(s), |s|, k);
    } else {
      RoundsOnlyDecks(DecksOf(s), Names(s), |s|, name);
      NamedOrEmpty(s, name);
    }
  }

  /** Nothing is lost, added or repeated. */
  lemma FairPermutes(s: seq<Candidate>)
    ensures multiset(Fair(s)) == multiset(s)
  {
    forall x
      ensures multiset(Fair(s))[x] == multiset(s)[x]
    {
      FairKeepsDecks(s, Group(x));
      MembersCount(Fair(s), Group(x), x);
      MembersCount(s, Group(x), x);
    }
  }

  // ---------------------------------------------------------------- fairness of every prefix

  function Share(prefix: seq<Candidate>, name: Id): nat {
    |Members(prefix, name)|
  }

  /** Of two channels that both have candidates to come, the first is at most one ahead. */
  ghost predicate FairBetween(decks: seq<seq<Candidate>>, names: seq<Id>, prefix: seq<Candidate>, i: nat, j: nat)
    requires |decks| == |names|
  {
    i < |names| && j < |names| && Share(prefix, names[i]) < |decks[i]| && Share(prefix, names[j]) < |decks[j]| ==>
      Share(prefix, names[i]) <= Share(prefix, names[j]) + 1
  }

  lemma PartialRoundIsFair(decks: seq<seq<Candidate>>, names: seq<Id>, round: nat, m: nat, i: nat, j: nat)
    requires Grouped(decks, names) && m <= |decks|
    ensures FairBetween(decks, names, Deal(Rounds(decks, round), decks, round, m), i, j)
  {
    forall k: nat | k < |names|
      ensures Share(Deal(Rounds(decks, round), decks, round, m), names[k])
        == if |decks[k]| <= round then |decks[k]| else if k < m then round + 1 else round
    {
      ShareOfRounds(decks, names, round, k);
      ShareOfDeal(Rounds(decks, round), decks, names, round, m, k);
    }
  }

  lemma {:induction false} DealPrefixIsFair(
    decks: seq<seq<Candidate>>, names: seq<Id>, round: nat, m: nat, n: nat, i: nat, j: nat)
    requires Grouped(decks, names) && m <= |decks|
    requires |Rounds(decks, round)| <= n <= |Deal(Rounds(decks, round), decks, round, m)|
    ensures FairBetween(decks, names, Deal(Rounds(decks, round), decks, round, m)[..n], i, j)
  {
    var whole := Deal(Rounds(decks, round), decks, round, m);
    if n == |whole| {
      PartialRoundIsFair(decks, names, round, m, i, j);
      assert whole[..n] == whole;
    } else {
      DealPrefixIsFair(decks, names, round, m - 1, n, i, j);
      assert whole[..n] == Deal(Rounds(decks, round), decks, round, m - 1)[..n];
    }
  }

  lemma {:induction false} DealExtends(dealt: seq<Candidate>, decks: seq<seq<Candidate>>, round: nat, m: nat)
    requires m <= |decks|
    ensures |dealt| <= |Deal(dealt, decks, round, m)| && Deal(dealt, decks, round, m)[..|dealt|] == dealt
  {
    if m > 0 {
      DealExtends(dealt, decks, round, m - 1);
    }
  }

  lemma {:induction false} RoundsPrefixIsFair(decks: seq<seq<Candidate>>, names: seq<Id>, rounds: nat, n: nat,
                                              i: nat, j: nat)
    requires Grouped(decks, names) && n <= |Rounds(decks, rounds)|
    ensures FairBetween(decks, names, Rounds(decks, rounds)[..n], i, j)
  {
    if rounds == 0 {
      PartialRoundIsFair(decks, names, 0, 0, i, j);
      assert Rounds(decks, 0)[..n] == Deal(Rounds(decks, 0), decks, 0, 0);
    } else {
      var before := Rounds(decks, rounds - 1);
      DealExtends(before, decks, rounds - 1, |decks|);
      if n <= |before| {
        RoundsPrefixIsFair(decks, names, rounds - 1, n, i, j);
        assert Rounds(decks, rounds)[..n] == Rounds(decks, rounds)[..|before|][..n];
      } else {
        DealPrefixIsFair(decks, names, rounds - 1, |decks|, n, i, j);
      }
    }
  }

  /** Wherever a budget cuts the order off, two channels that still have candidates to come differ by at
      most one. */
  lemma EveryPrefixIsFair(s: seq<Candidate>, n: nat, a: Id, b: Id)
    requires n <= |Fair(s)|
    requires Share(Fair(s)[..n], a) < |Deck(s, a)| && Share(Fair(s)[..n], b) < |Deck(s, b)|
    ensures Share(Fair(s)[..n], a) <= Share(Fair(s)[..n], b) + 1
  {
    DecksAreGrouped(s);
    NamedOrEmpty(s, a);
    NamedOrEmpty(s, b);
    var i: nat :| i < |Names(s)| && Names(s)[i] == a;
    var j: nat :| j < |Names(s)| && Names(s)[j] == b;
    RoundsPrefixIsFair(DecksOf(s), Names(s), |s|, n, i, j);
  }

  // ---------------------------------------------------------------- the loop

  lemma {:induction false} EmptyDeal(dealt: seq<Candidate>, decks: seq<seq<Candidate>>, round: nat, m: nat)
    requires m <= |decks| && forall k :: 0 <= k < m ==> |decks[k]| <= round
    ensures Deal(dealt, decks, round, m) == dealt
  {
    if m > 0 {
      EmptyDeal(dealt, decks, round, m - 1);
    }
  }

  /** Rounds after the longest deck add nothing. */
  lemma {:induction false} NothingLeftToDeal(decks: seq<seq<Candidate>>, round: nat, later: nat)
    requires round <= later && forall k :: 0 <= k < |decks| ==> |decks[k]| <= round
    ensures Rounds(decks, later) == Rounds(decks, round)
    decreases later
  {
    if later > round {
      NothingLeftToDeal(decks, round, later - 1);
      EmptyDeal(Rounds(decks, later - 1), decks, later - 1, |decks|);
    }
  }

  /** Groups the candidates by channel and sorts each group. */
  method SortDecks(s: seq<Candidate>) returns (decks: seq<seq<Candidate>>)
    ensures decks == DecksOf(s)
  {
    var groups: map<Id, seq<Candidate>> := map[];
    var names: seq<Id> := [];
    for i := 0 to |s|
      invariant names == Names(s[..i])
      invariant forall n :: Members(s[..i], n) == if n in groups then groups[n] else []
      invariant forall n :: n in names ==> n in groups
    {
      var name := Group(s[i]);
      assert s[..i + 1][..i] == s[..i];
      NamesAreGroups(s[..i]);
      InsertNameKeeps(names, name);
      groups := groups[name := (if name in groups then groups[name] else []) + [s[i]]];
      names := InsertName(names, name);
    }
    assert s[..|s|] == s;
    decks := seq(|names|, k requires 0 <= k < |names| && names[k] in groups => Sort(groups[names[k]]));
  }

  /** Deals rounds until one adds nothing, which the longest deck bounds. */
  method FairOrder(s: seq<Candidate>) returns (result: seq<Candidate>)
    ensures result == Fair(s)
  {
    var decks := SortDecks(s);
    forall k | 0 <= k < |decks| ensures |decks[k]| <= |s| {
      DeckIsSorted(s, Names(s)[k]);
    }
    result := [];
    var round := 0;
    while true
      invariant round <= |s| && result == Rounds(decks, round)
      decreases |s| - round
    {
      var added;
      result, added := DealRound(decks, result, round);
      if !added {
        NothingLeftToDeal(decks, round, |s|);
        return result;
      }
      round := round + 1;
    }
  }

  method DealRound(decks: seq<seq<Candidate>>, dealt: seq<Candidate>, round: nat)
    returns (result: seq<Candidate>, added: bool)
    ensures result == Deal(dealt, decks, round, |decks|)
    ensures added <==> exists k :: 0 <= k < |decks| && round < |decks[k]|
    ensures !added ==> result == dealt
  {
    result, added := dealt, false;
    for k := 0 to |decks|
      invariant result == Deal(dealt, decks, round, k)
      invariant added <==> exists i :: 0 <= i < k && round < |decks[i]|
      invariant !added ==> result == dealt
    {
      if round < |decks[k]| {
        result := result + [decks[k][round]];
        added := true;
      }
    }
  }
}
