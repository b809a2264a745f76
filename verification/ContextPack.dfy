/** Packing sources for the classifier under a token budget (core/contextpacks/builder.go:57-158). The
    tokenizer is a parameter. A source's key is its identifier and version: in the source's textual key
    the version is what follows the last slash. */
module ContextPack {
  import opened Prelude
  import opened Text
  import opened FairOrder

  datatype Budget = Budget(
    maxTokens: int, system: int, thread: int, channel: int, recentOrg: int, evidence: int,
    situation: int, headroom: int)

  datatype Request = Request(org: Id, target: Id, candidates: seq<Candidate>, createdAt: int, expiresAt: int)

  datatype Source = Source(id: Id, version: int, channel: Id, author: Id, partition: Partition, tokens: int,
                           text: string, observedAt: int)

  datatype Pack = Pack(sources: seq<Source>, tokens: map<Partition, int>, total: int, seen: set<(Id, int)>)

  datatype Built = Built(pack: Pack, createdAt: int, expiresAt: int)

  datatype Error = InvalidBudget | InvalidRequest | RequiredTooLarge(id: Id)

  const ORDER: seq<Partition> := [System, Thread, Channel, RecentOrg, Evidence, Situation]

  const EMPTY := Pack([], map[], 0, {})

  function PartitionTotal(b: Budget): int {
    b.system + b.thread + b.channel + b.recentOrg + b.evidence + b.situation + b.headroom
  }

  /** What the constructor demands of a budget. */
  predicate ValidBudget(b: Budget) {
    b.maxTokens > 0 && PartitionTotal(b) == b.maxTokens
  }

  function Ceiling(b: Budget, p: Partition): int {
    match p
    case System => b.system
    case Thread => b.thread
    case Channel => b.channel
    case RecentOrg => b.recentOrg
    case Evidence => b.evidence
    case Situation => b.situation
    case OtherPartition => 0
  }

  function At(tokens: map<Partition, int>, p: Partition): int {
    if p in tokens then tokens[p] else 0
  }

  function KeyOf(c: Candidate): (Id, int) {
    (c.id, c.version)
  }

  function SourceOf(c: Candidate, count: string -> int): Source {
    Source(c.id, c.version, c.channel, c.author, c.partition, count(c.text), c.text, c.observedAt)
  }

  /** Of this organization, named, not blank and not expired. */
  predicate Eligible(r: Request, created: int, c: Candidate) {
    c.org == r.org && c.id != 0 && Trim(c.text) != "" && (c.sourceExpiresAt == 0 || c.sourceExpiresAt > created)
  }

  function InPartition(r: Request, created: int, candidates: seq<Candidate>, p: Partition): seq<Candidate> {
    if candidates == [] then []
    else
      var front, last := candidates[..|candidates| - 1], candidates[|candidates| - 1];
      if Eligible(r, created, last) && last.partition == p then InPartition(r, created, front, p) + [last]
      else InPartition(r, created, front, p)
  }

  lemma {:induction false} InPartitionHas(r: Request, created: int, candidates: seq<Candidate>, p: Partition)
    ensures forall c :: c in InPartition(r, created, candidates, p) <==>
      c in candidates && Eligible(r, created, c) && c.partition == p
  {
    if candidates != [] {
      var front, last := candidates[..|candidates| - 1], candidates[|candidates| - 1];
      InPartitionHas(r, created, front, p);
      assert candidates == front + [last];
    }
  }

  // ---------------------------------------------------------------- the greedy choice

  predicate Overflows(b: Budget, count: string -> int, pack: Pack, c: Candidate) {
    At(pack.tokens, c.partition) + count(c.text) > Ceiling(b, c.partition)
    || pack.total + count(c.text) > b.maxTokens - b.headroom
  }

  function Add(count: string -> int, pack: Pack, c: Candidate): Pack {
    Pack(pack.sources + [SourceOf(c, count)],
         pack.tokens[c.partition := At(pack.tokens, c.partition) + count(c.text)],
         pack.total + count(c.text), pack.seen + {KeyOf(c)})
  }

  function Consider(b: Budget, count: string -> int, pack: Pack, c: Candidate): Result<Pack, Error> {
    if KeyOf(c) in pack.seen || count(c.text) <= 0 then Ok(pack)
    else if Overflows(b, count, pack, c) then (if c.required then Err(RequiredTooLarge(c.id)) else Ok(pack))
    else Ok(Add(count, pack, c))
  }

  function Fill(b: Budget, count: string -> int, pack: Pack, list: seq<Candidate>): Result<Pack, Error> {
    if list == [] then Ok(pack)
    else
      var before := Fill(b, count, pack, list[..|list| - 1]);
      if before.Err? then before else Consider(b, count, before.value, list[|list| - 1])
  }

  function FillPartitions(b: Budget, count: string -> int, r: Request, created: int,
                          order: seq<Partition>): Result<Pack, Error> {
    if order == [] then Ok(EMPTY)
    else
      var before := FillPartitions(b, count, r, created, order[..|order| - 1]);
      if before.Err? then before
      else Fill(b, count, before.value, Fair(InPartition(r, created, r.candidates, order[|order| - 1])))
  }

  // ---------------------------------------------------------------- what every pack keeps

  function SumIn(sources: seq<Source>, p: Partition): int {
    if sources == [] then 0
    else SumIn(sources[..|sources| - 1], p)
         + (if sources[|sources| - 1].partition == p then sources[|sources| - 1].tokens else 0)
  }

  function Sum(sources: seq<Source>): int {
    if sources == [] then 0 else Sum(sources[..|sources| - 1]) + sources[|sources| - 1].tokens
  }

  predicate TotalsAt(b: Budget, pack: Pack, p: Partition) {
    At(pack.tokens, p) == SumIn(pack.sources, p) && At(pack.tokens, p) >= 0
    && (At(pack.tokens, p) == 0 || At(pack.tokens, p) <= Ceiling(b, p))
  }

  predicate DistinctKeys(sources: seq<Source>) {
    forall i, j :: 0 <= i < j < |sources| ==> (sources[i].id, sources[i].version) != (sources[j].id, sources[j].version)
  }

  ghost predicate PackOk(b: Budget, pack: Pack) {
    && (forall p {:trigger TotalsAt(b, pack, p)} :: TotalsAt(b, pack, p))
    && pack.total == Sum(pack.sources) && (pack.total == 0 || pack.total <= b.maxTokens - b.headroom)
    && TotalIsSum(pack) && SeenAreKeys(pack)
  }

  predicate TotalIsSum(pack: Pack) {
    pack.total == At(pack.tokens, System) + At(pack.tokens, Thread) + At(pack.tokens, Channel)
                  + At(pack.tokens, RecentOrg) + At(pack.tokens, Evidence) + At(pack.tokens, Situation)
  }

  /** Taken already, or without tokens, or optional and too large for what is left. */
  predicate Settled(b: Budget, count: string -> int, pack: Pack, c: Candidate) {
    count(c.text) <= 0 || KeyOf(c) in pack.seen || (!c.required && Overflows(b, count, pack, c))
  }

  lemma AddKeepsTotals(b: Budget, count: string -> int, pack: Pack, c: Candidate, p: Partition)
    requires PackOk(b, pack) && count(c.text) > 0 && !Overflows(b, count, pack, c)
    ensures TotalsAt(b, Add(count, pack, c), p)
  {
    assert TotalsAt(b, pack, p) && TotalsAt(b, pack, c.partition);
    assert Add(count, pack, c).sources[..|pack.sources|] == pack.sources;
  }

  lemma AddKeepsSum(count: string -> int, pack: Pack, c: Candidate)
    requires TotalIsSum(pack) && !c.partition.OtherPartition?
    ensures TotalIsSum(Add(count, pack, c))
  {
  }

  lemma AddKeepsPack(b: Budget, count: string -> int, pack: Pack, c: Candidate)
    requires PackOk(b, pack) && count(c.text) > 0 && !Overflows(b, count, pack, c) && KeyOf(c) !in pack.seen
    requires !c.partition.OtherPartition?
    ensures PackOk(b, Add(count, pack, c))
  {
    var more := Add(count, pack, c);
    forall p ensures TotalsAt(b, more, p) {
      AddKeepsTotals(b, count, pack, c, p);
    }
    assert more.sources[..|pack.sources|] == pack.sources;
    AddKeepsSum(count, pack, c);
    AddKeepsKeys(count, pack, c);
  }

  ghost predicate SeenAreKeys(pack: Pack) {
    DistinctKeys(pack.sources)
      && forall key :: key in pack.seen <==> exists s :: s in pack.sources && (s.id, s.version) == key
  }

  lemma AddKeepsKeys(count: string -> int, pack: Pack, c: Candidate)
    requires SeenAreKeys(pack) && KeyOf(c) !in pack.seen
    ensures SeenAreKeys(Add(count, pack, c))
  {
    var more := Add(count, pack, c);
    forall key
      ensures key in more.seen <==> exists s :: s in more.sources && (s.id, s.version) == key
    {
      assert SourceOf(c, count) in more.sources;
      if key in pack.seen {
        var s :| s in pack.sources && (s.id, s.version) == key;
        assert s in more.sources;
      }
    }
    forall i, j | 0 <= i < j < |more.sources|
      ensures (more.sources[i].id, more.sources[i].version) != (more.sources[j].id, more.sources[j].version)
    {
      assert more.sources[i] in pack.sources;
    }
  }

  /** Nothing taken is given back, so what did not fit never will. */
  predicate Grows(small: Pack, large: Pack) {
    small.seen <= large.seen && small.total <= large.total
    && forall p: Partition :: At(small.tokens, p) <= At(large.tokens, p)
  }

  lemma ConsiderSettles(b: Budget, count: string -> int, pack: Pack, c: Candidate)
    requires PackOk(b, pack) && !c.partition.OtherPartition? && Consider(b, count, pack, c).Ok?
    ensures var next := Consider(b, count, pack, c).value;
      PackOk(b, next) && Grows(pack, next) && Settled(b, count, next, c)
  {
    if KeyOf(c) !in pack.seen && count(c.text) > 0 && !Overflows(b, count, pack, c) {
      AddKeepsPack(b, count, pack, c);
    }
  }

  lemma {:induction false} FillSettles(b: Budget, count: string -> int, pack: Pack, list: seq<Candidate>)
    requires PackOk(b, pack) && Fill(b, count, pack, list).Ok?
    requires forall c :: c in list ==> !c.partition.OtherPartition?
    ensures var next := Fill(b, count, pack, list).value;
      PackOk(b, next) && Grows(pack, next) && forall c :: c in list ==> Settled(b, count, next, c)
  {
    if list != [] {
      var front, last := list[..|list| - 1], list[|list| - 1];
      FillSettles(b, count, pack, front);
      ConsiderSettles(b, count, Fill(b, count, pack, front).value, last);
      assert list == front + [last];
    }
  }

  lemma SettledStays(b: Budget, count: string -> int, small: Pack, large: Pack, c: Candidate)
    requires Settled(b, count, small, c) && Grows(small, large)
    ensures Settled(b, count, large, c)
  {
  }

  ghost predicate AllSettled(b: Budget, count: string -> int, r: Request, created: int,
                             order: seq<Partition>, pack: Pack) {
    forall c :: c in r.candidates && Eligible(r, created, c) && c.partition in order ==> Settled(b, count, pack, c)
  }

  lemma PartitionSettles(
    b: Budget, count: string -> int, r: Request, created: int, p: Partition, before: Pack, next: Pack)
    requires PackOk(b, before) && !p.OtherPartition?
    requires Fill(b, count, before, Fair(InPartition(r, created, r.candidates, p))) == Ok(next)
    ensures PackOk(b, next) && Grows(before, next)
    ensures forall c :: c in r.candidates && Eligible(r, created, c) && c.partition == p ==> Settled(b, count, next, c)
  {
    FairHas(InPartition(r, created, r.candidates, p));
    InPartitionHas(r, created, r.candidates, p);
    FillSettles(b, count, before, Fair(InPartition(r, created, r.candidates, p)));
  }

  lemma {:induction false} PartitionsSettle(b: Budget, count: string -> int, r: Request, created: int,
                                            order: seq<Partition>)
    requires OtherPartition !in order && FillPartitions(b, count, r, created, order).Ok?
    ensures PackOk(b, FillPartitions(b, count, r, created, order).value)
    ensures AllSettled(b, count, r, created, order, FillPartitions(b, count, r, created, order).value)
  {
    if order == [] {
      assert forall p :: TotalsAt(b, EMPTY, p);
    } else {
      var front, p := order[..|order| - 1], order[|order| - 1];
      assert order == front + [p];
      PartitionsSettle(b, count, r, created, front);
      var before, next := FillPartitions(b, count, r, created, front).value,
        FillPartitions(b, count, r, created, order).value;
      PartitionSettles(b, count, r, created, p, before, next);
      forall c | c in r.candidates && Eligible(r, created, c) && c.partition in order
        ensures Settled(b, count, next, c)
      {
        if c.partition in front {
          assert Settled(b, count, before, c);
          SettledStays(b, count, before, next, c);
        }
      }
    }
  }

  lemma FairHas(s: seq<Candidate>)
    ensures forall c :: c in Fair(s) <==> c in s
  {
    FairPermutes(s);
    assert forall c :: c in Fair(s) <==> c in multiset(Fair(s));
  }

  // ---------------------------------------------------------------- what a pack promises

  predicate NonNegative(b: Budget) {
    forall p: Partition :: Ceiling(b, p) >= 0
  }

  /** Under ceilings that are not negative the total cap never decides: it follows from the partitions. */
  lemma TotalCapFollows(b: Budget, count: string -> int, pack: Pack, c: Candidate)
    requires ValidBudget(b) && NonNegative(b) && PackOk(b, pack)
    ensures Overflows(b, count, pack, c) && !c.partition.OtherPartition? <==>
      !c.partition.OtherPartition? && At(pack.tokens, c.partition) + count(c.text) > Ceiling(b, c.partition)
  {
    assert TotalsAt(b, pack, System) && TotalsAt(b, pack, Thread) && TotalsAt(b, pack, Channel);
    assert TotalsAt(b, pack, RecentOrg) && TotalsAt(b, pack, Evidence) && TotalsAt(b, pack, Situation);
    assert NonNegative(b) ==> forall p: Partition :: Ceiling(b, p) >= 0;
  }

  /** The totals are those of the sources and within the budget, and no key repeats. */
  ghost predicate Budgeted(b: Budget, pack: Pack) {
    && DistinctKeys(pack.sources) && pack.total == Sum(pack.sources)
    && (forall p: Partition :: At(pack.tokens, p) == SumIn(pack.sources, p))
    && (NonNegative(b) ==>
          pack.total <= b.maxTokens - b.headroom && forall p: Partition :: At(pack.tokens, p) <= Ceiling(b, p))
    && (NonNegative(b) ==>
          && SumIn(pack.sources, System) <= b.system && SumIn(pack.sources, Thread) <= b.thread
          && SumIn(pack.sources, Channel) <= b.channel && SumIn(pack.sources, RecentOrg) <= b.recentOrg
          && SumIn(pack.sources, Evidence) <= b.evidence && SumIn(pack.sources, Situation) <= b.situation)
  }

  /** The candidate is in, or it is optional and would not fit. */
  ghost predicate InOrTooLarge(b: Budget, count: string -> int, pack: Pack, c: Candidate) {
    || (exists s :: s in pack.sources && (s.id, s.version) == KeyOf(c))
    || (!c.required
        && if NonNegative(b) then At(pack.tokens, c.partition) + count(c.text) > Ceiling(b, c.partition)
           else Overflows(b, count, pack, c))
  }

  lemma PackIsBudgeted(b: Budget, pack: Pack)
    requires ValidBudget(b) && PackOk(b, pack)
    ensures Budgeted(b, pack)
  {
    forall p: Partition
      ensures At(pack.tokens, p) == SumIn(pack.sources, p) && (NonNegative(b) ==> At(pack.tokens, p) <= Ceiling(b, p))
    {
      assert TotalsAt(b, pack, p) && (NonNegative(b) ==> Ceiling(b, p) >= 0);
    }
    if NonNegative(b) {
      assert Ceiling(b, System) >= 0 && Ceiling(b, Thread) >= 0 && Ceiling(b, Channel) >= 0;
      assert Ceiling(b, RecentOrg) >= 0 && Ceiling(b, Evidence) >= 0 && Ceiling(b, Situation) >= 0;
    }
  }

  /** What every pack promises: it is within the budget, every eligible required source with tokens is in, and
      no eligible source that is out would fit. */
  lemma PackPromises(b: Budget, count: string -> int, r: Request, created: int, order: seq<Partition>)
    requires ValidBudget(b) && order == ORDER && FillPartitions(b, count, r, created, order).Ok?
    ensures var pack := FillPartitions(b, count, r, created, order).value;
      && Budgeted(b, pack)
      && forall c :: c in r.candidates && Eligible(r, created, c) && c.partition in order && count(c.text) > 0 ==>
           InOrTooLarge(b, count, pack, c)
  {
    var pack := FillPartitions(b, count, r, created, order).value;
    PartitionsSettle(b, count, r, created, order);
    PackIsBudgeted(b, pack);
    forall c | c in r.candidates && Eligible(r, created, c) && c.partition in order && count(c.text) > 0
      ensures InOrTooLarge(b, count, pack, c)
    {
      assert Settled(b, count, pack, c);
      if NonNegative(b) {
        TotalCapFollows(b, count, pack, c);
      }
    }
  }

  /** Every source of a pack shows one of the eligible candidates. */
  lemma {:induction false} FillFrom(b: Budget, count: string -> int, pack: Pack, list: seq<Candidate>)
    requires Fill(b, count, pack, list).Ok?
    ensures forall s :: s in Fill(b, count, pack, list).value.sources ==>
      s in pack.sources || exists c :: c in list && s == SourceOf(c, count) && s.tokens > 0
  {
    if list != [] {
      var front, last := list[..|list| - 1], list[|list| - 1];
      FillFrom(b, count, pack, front);
      assert list == front + [last];
      assert forall c :: c in front ==> c in list;
    }
  }

  /** Of the request's organization, named, with something to say, and not expired when the pack is created. */
  predicate MaySupply(r: Request, created: int, c: Candidate) {
    c.org == r.org && c.id != 0 && |Trim(c.text)| > 0 && (created < c.sourceExpiresAt || c.sourceExpiresAt == 0)
  }

  /** The source says what the candidate says, in its name and partition. */
  predicate Shows(s: Source, c: Candidate) {
    && s.id == c.id && s.version == c.version && s.channel == c.channel && s.author == c.author
    && s.partition == c.partition && s.text == c.text && s.observedAt == c.observedAt
  }

  /** Which partition comes when. */
  function Place(p: Partition): nat {
    match p
    case System => 0
    case Thread => 1
    case Channel => 2
    case RecentOrg => 3
    case Evidence => 4
    case Situation => 5
    case OtherPartition => 6
  }

  ghost predicate InPlaces(sources: seq<Source>) {
    forall i, j :: 0 <= i < j < |sources| ==> Place(sources[i].partition) <= Place(sources[j].partition)
  }

  lemma {:induction false} FillStaysInPlace(b: Budget, count: string -> int, pack: Pack,
                                            list: seq<Candidate>, p: Partition)
    requires Fill(b, count, pack, list).Ok? && (forall c :: c in list ==> c.partition == p)
    requires InPlaces(pack.sources) && forall s :: s in pack.sources ==> Place(s.partition) <= Place(p)
    ensures var next := Fill(b, count, pack, list).value;
      InPlaces(next.sources) && forall s :: s in next.sources ==> Place(s.partition) <= Place(p)
  {
    if list != [] {
      var front, last := list[..|list| - 1], list[|list| - 1];
      assert list == front + [last];
      FillStaysInPlace(b, count, pack, front, p);
      var before, next := Fill(b, count, pack, front).value, Fill(b, count, pack, list).value;
      if next != before {
        assert next.sources == before.sources + [SourceOf(last, count)];
        assert forall i :: 0 <= i < |before.sources| ==>
          next.sources[i] == before.sources[i] && before.sources[i] in before.sources;
      }
    }
  }

  predicate Climbs(order: seq<Partition>) {
    forall i, j :: 0 <= i < j < |order| ==> Place(order[i]) <= Place(order[j])
  }

  /** A pack lists its partitions one after the other: system, thread, channel, the rest of the organization, evidence,
      situation. */
  lemma {:induction false} SourcesComeInPlaces(b: Budget, count: string -> int, r: Request, created: int,
                                               order: seq<Partition>)
    requires Climbs(order) && FillPartitions(b, count, r, created, order).Ok?
    ensures var pack := FillPartitions(b, count, r, created, order).value;
      InPlaces(pack.sources) && forall s :: s in pack.sources ==> s.partition in order
  {
    if order != [] {
      var front, p := order[..|order| - 1], order[|order| - 1];
      var candidates := InPartition(r, created, r.candidates, p);
      assert order == front + [p];
      SourcesComeInPlaces(b, count, r, created, front);
      FairHas(candidates);
      InPartitionHas(r, created, r.candidates, p);
      FillStaysInPlace(b, count, FillPartitions(b, count, r, created, front).value, Fair(candidates), p);
      FillFrom(b, count, FillPartitions(b, count, r, created, front).value, Fair(candidates));
    }
  }

  /** The order in which a pack is filled is such an order, and it has all six partitions. */
  lemma OrderClimbs()
    ensures Climbs(ORDER) && forall p: Partition :: p in ORDER <==> !p.OtherPartition?
  {
  }

  lemma {:induction false} SourcesAreEligible(b: Budget, count: string -> int, r: Request, created: int,
                                              order: seq<Partition>)
    requires FillPartitions(b, count, r, created, order).Ok?
    ensures forall s :: s in FillPartitions(b, count, r, created, order).value.sources ==>
      exists c :: c in r.candidates && Eligible(r, created, c) && s == SourceOf(c, count) && s.tokens > 0
                  && MaySupply(r, created, c) && Shows(s, c) && s.tokens == count(s.text)
  {
    if order != [] {
      var front, p := order[..|order| - 1], order[|order| - 1];
      SourcesAreEligible(b, count, r, created, front);
      FillFrom(b, count, FillPartitions(b, count, r, created, front).value,
               Fair(InPartition(r, created, r.candidates, p)));
      FairHas(InPartition(r, created, r.candidates, p));
      InPartitionHas(r, created, r.candidates, p);
    }
  }

  // ---------------------------------------------------------------- the builder

  /** The time at which the pack, and all its possible sources, are still fresh. */
  ghost predicate ExpiryOf(r: Request, candidates: seq<Candidate>, created: int, fallback: int, expires: int) {
    && expires <= fallback
    && (forall c :: c in candidates && Eligible(r, created, c) && c.sourceExpiresAt != 0 ==>
        expires <= c.sourceExpiresAt)
    && (expires == fallback
        || exists c :: c in candidates && Eligible(r, created, c) && c.sourceExpiresAt == expires && expires != 0)
  }

  /** Every partition has its eligible candidates, in the order of the request. */
  ghost predicate Groups(r: Request, created: int, candidates: seq<Candidate>,
                         grouped: map<Partition, seq<Candidate>>) {
    forall p :: InPartition(r, created, candidates, p) == if p in grouped then grouped[p] else []
  }

  lemma OneMoreGrouped(r: Request, created: int, candidates: seq<Candidate>,
                       grouped: map<Partition, seq<Candidate>>, c: Candidate)
    requires Groups(r, created, candidates, grouped)
    ensures var own := if c.partition in grouped then grouped[c.partition] else [];
      Groups(r, created, candidates + [c],
             if Eligible(r, created, c) then grouped[c.partition := own + [c]] else grouped)
  {
    assert (candidates + [c])[..|candidates|] == candidates;
  }

  function Sooner(r: Request, created: int, c: Candidate, expires: int): int {
    if Eligible(r, created, c) && c.sourceExpiresAt != 0 && c.sourceExpiresAt < expires then c.sourceExpiresAt
    else expires
  }

  lemma OneMoreExpires(r: Request, candidates: seq<Candidate>, created: int, fallback: int, expires: int, c: Candidate)
    requires ExpiryOf(r, candidates, created, fallback, expires)
    ensures ExpiryOf(r, candidates + [c], created, fallback, Sooner(r, created, c, expires))
  {
    assert c in candidates + [c];
    assert forall other :: other in candidates ==> other in candidates + [c];
  }

  method GroupCandidates(r: Request, created: int, fallback: int)
    returns (grouped: map<Partition, seq<Candidate>>, expires: int)
    ensures Groups(r, created, r.candidates, grouped)
    ensures ExpiryOf(r, r.candidates, created, fallback, expires)
  {
    grouped, expires := map[], fallback;
    for i := 0 to |r.candidates|
      invariant Groups(r, created, r.candidates[..i], grouped)
      invariant ExpiryOf(r, r.candidates[..i], created, fallback, expires)
    {
      var c := r.candidates[i];
      assert r.candidates[..i + 1] == r.candidates[..i] + [c];
      OneMoreExpires(r, r.candidates[..i], created, fallback, expires, c);
      OneMoreGrouped(r, created, r.candidates[..i], grouped, c);
      if Eligible(r, created, c) {
        var own := if c.partition in grouped then grouped[c.partition] else [];
        grouped := grouped[c.partition := own + [c]];
        if c.sourceExpiresAt != 0 && c.sourceExpiresAt < expires {
          expires := c.sourceExpiresAt;
        }
      }
    }
    assert r.candidates[..|r.candidates|] == r.candidates;
  }

  /** Fills one partition after the other, each in fair order; the first required source that does not fit
      stops the build. */
  method Build(b: Budget, count: string -> int, r: Request, now: int) returns (result: Result<Built, Error>)
    requires ValidBudget(b)
    ensures r.org == 0 || r.target == 0 ==> result == Err(InvalidRequest)
    ensures r.org != 0 && r.target != 0 ==>
      var created := if r.createdAt == 0 then now else r.createdAt;
      match FillPartitions(b, count, r, created, ORDER)
      case Err(e) => result == Err(e)
      case Ok(pack) =>
        result.Ok? && result.value.pack == pack && result.value.createdAt == created
        && ExpiryOf(r, r.candidates, created, if r.expiresAt == 0 then created + 86400 else r.expiresAt,
                    result.value.expiresAt)
  {
    if r.org == 0 || r.target == 0 {
      return Err(InvalidRequest);
    }
    var created := if r.createdAt == 0 then now else r.createdAt;
    var grouped, expires := GroupCandidates(r, created, if r.expiresAt == 0 then created + 86400 else r.expiresAt);
    var filled := FillAll(b, count, r, created, ORDER, grouped);
    if filled.Err? {
      return Err(filled.error);
    }
    return Ok(Built(filled.value, created, expires));
  }

  lemma NextPartition(
    b: Budget, count: string -> int, r: Request, created: int, order: seq<Partition>, n: nat, pack: Pack,
    list: seq<Candidate>)
    requires n < |order| && FillPartitions(b, count, r, created, order[..n]) == Ok(pack)
    requires list == Fair(InPartition(r, created, r.candidates, order[n]))
    ensures FillPartitions(b, count, r, created, order[..n + 1]) == Fill(b, count, pack, list)
  {
    assert order[..n + 1][..n] == order[..n];
  }

  method FillAll(b: Budget, count: string -> int, r: Request, created: int, order: seq<Partition>,
                 grouped: map<Partition, seq<Candidate>>)
    returns (result: Result<Pack, Error>)
    requires Groups(r, created, r.candidates, grouped)
    ensures result == FillPartitions(b, count, r, created, order)
  {
    var pack := EMPTY;
    for n := 0 to |order|
      invariant FillPartitions(b, count, r, created, order[..n]) == Ok(pack)
    {
      var list := FairOrder.FairOrder(if order[n] in grouped then grouped[order[n]] else []);
      var filled := FillOne(b, count, pack, list);
      NextPartition(b, count, r, created, order, n, pack, list);
      if filled.Err? {
        StopsEarly(b, count, r, created, order, n + 1);
        return filled;
      }
      pack := filled.value;
    }
    assert order[..|order|] == order;
    return Ok(pack);
  }

  method FillOne(b: Budget, count: string -> int, start: Pack, list: seq<Candidate>)
    returns (result: Result<Pack, Error>)
    ensures result == Fill(b, count, start, list)
  {
    var pack := start;
    for i := 0 to |list|
      invariant Fill(b, count, start, list[..i]) == Ok(pack)
    {
      assert list[..i + 1][..i] == list[..i];
      var c := list[i];
      if KeyOf(c) in pack.seen {
        continue;
      }
      var tokens := count(c.text);
      if tokens <= 0 {
        continue;
      }
      if Overflows(b, count, pack, c) {
        if c.required {
          FillStops(b, count, start, list, i + 1);
          return Err(RequiredTooLarge(c.id));
        }
        continue;
      }
      pack := Add(count, pack, c);
    }
    assert list[..|list|] == list;
    return Ok(pack);
  }

  lemma {:induction false} FillStops(b: Budget, count: string -> int, pack: Pack, list: seq<Candidate>, i: nat)
    requires i <= |list| && Fill(b, count, pack, list[..i]).Err?
    ensures Fill(b, count, pack, list) == Fill(b, count, pack, list[..i])
  {
    if i == |list| {
      assert list[..i] == list;
    } else {
      assert list[..|list| - 1][..i] == list[..i];
      FillStops(b, count, pack, list[..|list| - 1], i);
    }
  }

  lemma {:induction false} StopsEarly(b: Budget, count: string -> int, r: Request, created: int,
                                      order: seq<Partition>, n: nat)
    requires n <= |order| && FillPartitions(b, count, r, created, order[..n]).Err?
    ensures FillPartitions(b, count, r, created, order) == FillPartitions(b, count, r, created, order[..n])
    decreases |order|
  {
    if n == |order| {
      assert order[..n] == order;
    } else {
      assert order[..|order| - 1][..n] == order[..n];
      StopsEarly(b, count, r, created, order[..|order| - 1], n);
    }
  }
}
