/** Routing a request to a model profile (core/modelrouter/router.go). Identifiers are numbers that stand
    for strings in their order; 0 is the empty string. */
module ModelRouter {
  import opened Prelude

  type Id = nat

  datatype Profile = Profile(
    id: Id, provider: Id, model: Id, variant: Id, enabled: bool, maxInputTokens: int, fallbacks: seq<Id>,
    capabilities: seq<Id>, dataClasses: seq<Id>)

  datatype Rule = Rule(
    id: Id, org: Id, workspace: Id, channel: Id, routine: Id, skill: Id, phase: Id, profile: Id, priority: int)

  datatype Route = Route(
    org: Id, workspace: Id, channel: Id, routine: Id, skill: Id, phase: Id, override: Id, channelDefault: Id,
    inputTokens: int, capabilities: seq<Id>, dataClasses: seq<Id>)

  /** None where the source has a nil map, which allows everything. */
  datatype Constraints = Constraints(
    allowedProviders: Option<set<Id>>, disabled: set<Id>, available: Option<set<Id>>, maxInputTokens: int)

  datatype Router = Router(
    profiles: map<Id, Profile>, rules: seq<Rule>, organizationDefaults: map<Id, Id>, deploymentDefault: Id, policy: Id)

  datatype Reason =
    | Missing | Disabled | Unavailable | ProviderDenied | ContextTooLarge | CapabilityMissing | DataClassDenied

  datatype MatchedBy = Override | ByRule(id: Id) | OrganizationDefault | DeploymentDefault

  datatype Trace = Trace(matched: MatchedBy, tried: seq<Id>, rejected: seq<(Id, Reason)>, fallback: bool)

  datatype Resolved = Resolved(profile: Id, provider: Id, model: Id, variant: Id, policy: Id)

  datatype Error = InvalidProfile(id: Id) | DuplicateProfile(id: Id) | MissingDefault | NoEligibleModel

  predicate ValidProfile(p: Profile) {
    p.id != 0 && p.provider != 0 && p.model != 0 && p.maxInputTokens > 0
  }

  predicate ValidRouter(r: Router) {
    r.deploymentDefault in r.profiles
      && forall id :: id in r.profiles ==> r.profiles[id].id == id && ValidProfile(r.profiles[id])
  }

  /** These profiles are valid and distinct, and the map holds exactly them. */
  ghost predicate Holds(profiles: seq<Profile>, indexed: map<Id, Profile>) {
    && (forall p :: p in profiles ==> ValidProfile(p) && p.id in indexed && indexed[p.id] == p)
    && (forall id :: id in indexed ==> indexed[id].id == id && indexed[id] in profiles)
    && (forall i, j :: 0 <= i < j < |profiles| ==> profiles[i].id != profiles[j].id)
  }

  lemma HoldsOneMore(profiles: seq<Profile>, indexed: map<Id, Profile>, p: Profile)
    requires Holds(profiles, indexed) && ValidProfile(p) && p.id !in indexed
    ensures Holds(profiles + [p], indexed[p.id := p])
  {
    forall i | 0 <= i < |profiles| ensures profiles[i].id != p.id {
      assert profiles[i] in profiles;
    }
  }

  /** A router is built exactly from valid, distinct profiles that include the deployment default. */
  method New(profiles: seq<Profile>, rules: seq<Rule>, organizationDefaults: map<Id, Id>,
             deploymentDefault: Id, policy: Id)
    returns (r: Result<Router, Error>)
    ensures r.Ok? ==> Holds(profiles, r.value.profiles) && ValidRouter(r.value)
    ensures r.Ok? ==>
      forall p :: p in profiles ==> p.id != 0 && p.provider != 0 && p.model != 0 && p.maxInputTokens > 0
    ensures r.Err? ==>
      match r.error
      case InvalidProfile(id) => exists p :: p in profiles && p.id == id && !ValidProfile(p)
      case DuplicateProfile(id) => exists i, j :: 0 <= i < j < |profiles| && profiles[i].id == profiles[j].id == id
      case MissingDefault => forall p :: p in profiles ==> p.id != deploymentDefault
      case NoEligibleModel => false
    ensures r.Ok? ==>
      r.value.rules == rules && r.value.organizationDefaults == organizationDefaults
      && r.value.deploymentDefault == deploymentDefault && r.value.policy == policy
  {
    var indexed: map<Id, Profile> := map[];
    for i := 0 to |profiles|
      invariant Holds(profiles[..i], indexed)
    {
      var profile := profiles[i];
      assert profiles[..i + 1] == profiles[..i] + [profile];
      if !ValidProfile(profile) {
        assert profile in profiles;
        return Err(InvalidProfile(profile.id));
      }
      if profile.id in indexed {
        var k :| 0 <= k < i && profiles[k] == indexed[profile.id];
        return Err(DuplicateProfile(profile.id));
      }
      HoldsOneMore(profiles[..i], indexed, profile);
      indexed := indexed[profile.id := profile];
    }
    assert profiles[..|profiles|] == profiles;
    if deploymentDefault !in indexed {
      return Err(MissingDefault);
    }
    return Ok(Router(indexed, rules, organizationDefaults, deploymentDefault, policy));
  }

  // ---------------------------------------------------------------- eligibility

  function Ineligibility(p: Profile, route: Route, c: Constraints): Option<Reason> {
    if !p.enabled || p.id in c.disabled then Some(Disabled)
    else if c.available.Some? && p.id !in c.available.value then Some(Unavailable)
    else if c.allowedProviders.Some? && p.provider !in c.allowedProviders.value then Some(ProviderDenied)
    else if route.inputTokens > p.maxInputTokens || (c.maxInputTokens > 0 && route.inputTokens > c.maxInputTokens) then
      Some(ContextTooLarge)
    else if exists required :: required in route.capabilities && required !in p.capabilities then
      Some(CapabilityMissing)
    else if exists kind :: kind in route.dataClasses && kind !in p.dataClasses then Some(DataClassDenied)
    else None
  }

  predicate Eligible(p: Profile, route: Route, c: Constraints) {
    Ineligibility(p, route, c).None?
  }

  predicate Covers(offered: seq<Id>, wanted: seq<Id>) {
    forall x :: x in wanted ==> x in offered
  }

  /** The profile can serve the request: it may be used, it is offered, and it can do what is asked with data of
      this kind and amount. */
  ghost predicate Serves(p: Profile, route: Route, c: Constraints) {
    && p.enabled && p.id !in c.disabled
    && (c.available.Some? ==> p.id in c.available.value)
    && (c.allowedProviders.Some? ==> p.provider in c.allowedProviders.value)
    && route.inputTokens <= p.maxInputTokens && (c.maxInputTokens > 0 ==> route.inputTokens <= c.maxInputTokens)
    && Covers(p.capabilities, route.capabilities)
    && Covers(p.dataClasses, route.dataClasses)
  }

  /** A profile is turned down exactly when it cannot serve, and for a reason that is true of it. */
  lemma ReasonsAreTrue(p: Profile, route: Route, c: Constraints)
    ensures Eligible(p, route, c) <==> Serves(p, route, c)
    ensures match Ineligibility(p, route, c)
      case None => true
      case Some(Disabled) => !p.enabled || p.id in c.disabled
      case Some(Unavailable) => c.available.Some? && p.id !in c.available.value
      case Some(ProviderDenied) => c.allowedProviders.Some? && p.provider !in c.allowedProviders.value
      case Some(ContextTooLarge) =>
        p.maxInputTokens < route.inputTokens || (0 < c.maxInputTokens < route.inputTokens)
      case Some(CapabilityMissing) => !Covers(p.capabilities, route.capabilities)
      case Some(DataClassDenied) => !Covers(p.dataClasses, route.dataClasses)
      case Some(Missing) => false
  {
  }

  // ---------------------------------------------------------------- candidates

  datatype Match = Match(profile: Id, rank: int, priority: int, id: Id)

  /** The name of the entry that a channel default adds to the matches, wherever it comes in the order of rule
      identifiers. */
  const CHANNEL_DEFAULT: Id

  predicate Applies(rule: Rule, route: Route) {
    && rule.org in {0, route.org} && rule.workspace in {0, route.workspace} && rule.channel in {0, route.channel}
    && rule.routine in {0, route.routine} && rule.phase in {0, route.phase} && rule.skill in {0, route.skill}
  }

  function MatchOf(rule: Rule): Match {
    Match(rule.profile,
          if rule.phase != 0 || rule.skill != 0 then 6 else if rule.routine != 0 then 5 else if rule.channel != 0 then 4
          else if rule.workspace != 0 then 3 else 2,
          rule.priority, rule.id)
  }

  function Matches(rules: seq<Rule>, route: Route): seq<Match> {
    if rules == [] then []
    else if Applies(rules[|rules| - 1], route) then Matches(rules[..|rules| - 1], route) + [MatchOf(rules[|rules| - 1])]
    else Matches(rules[..|rules| - 1], route)
  }

  function AllMatches(r: Router, route: Route): seq<Match> {
    if route.channelDefault != 0 && route.channelDefault in r.profiles
    then Matches(r.rules, route) + [Match(route.channelDefault, 4, 0, CHANNEL_DEFAULT)]
    else Matches(r.rules, route)
  }

  /** Higher rank first, then higher priority, then smaller identifier. */
  predicate Precedes(a: Match, b: Match) {
    if a.rank != b.rank then a.rank > b.rank
    else if a.priority != b.priority then a.priority > b.priority
    else a.id <= b.id
  }

  predicate Ordered(matches: seq<Match>) {
    forall i, j :: 0 <= i < j < |matches| ==> Precedes(matches[i], matches[j])
  }

  function ProfilesOf(matches: seq<Match>): seq<Id> {
    seq(|matches|, i requires 0 <= i < |matches| => matches[i].profile)
  }

  /** Every field the rule fills in is the request's. */
  predicate Fits(rule: Rule, route: Route) {
    && (rule.org != 0 ==> rule.org == route.org) && (rule.workspace != 0 ==> rule.workspace == route.workspace)
    && (rule.channel != 0 ==> rule.channel == route.channel) && (rule.routine != 0 ==> rule.routine == route.routine)
    && (rule.phase != 0 ==> rule.phase == route.phase) && (rule.skill != 0 ==> rule.skill == route.skill)
  }

  /** The matches are those of the rules that fit, and no others. */
  lemma {:induction false} MatchesAreFitting(rules: seq<Rule>, route: Route)
    ensures forall rule :: rule in rules && Fits(rule, route) ==> MatchOf(rule) in Matches(rules, route)
    ensures forall m :: m in Matches(rules, route) ==>
      exists rule :: rule in rules && Fits(rule, route) && m == MatchOf(rule)
  {
    if rules != [] {
      var front, last := rules[..|rules| - 1], rules[|rules| - 1];
      MatchesAreFitting(front, route);
      assert rules == front + [last];
      assert Fits(last, route) <==> Applies(last, route);
      forall m | m in Matches(rules, route)
        ensures exists rule :: rule in rules && Fits(rule, route) && m == MatchOf(rule)
      {
        if m in Matches(front, route) {
          var rule :| rule in front && Fits(rule, route) && m == MatchOf(rule);
          assert rule in rules;
        }
      }
    }
  }

  /** How much a rule says about where it applies. */
  function Detail(rule: Rule): nat {
    if rule.phase != 0 || rule.skill != 0 then 4 else if rule.routine != 0 then 3
    else if rule.channel != 0 then 2 else if rule.workspace != 0 then 1 else 0
  }

  /** The more specific rule comes first; a channel default counts as a rule for the channel. Of equally specific
      ones the higher priority decides, and then the smaller name. */
  lemma SpecificFirst(a: Rule, b: Rule, channelDefault: Id)
    ensures Detail(a) > Detail(b) ==> Precedes(MatchOf(a), MatchOf(b)) && !Precedes(MatchOf(b), MatchOf(a))
    ensures Detail(a) == Detail(b) ==>
      (Precedes(MatchOf(a), MatchOf(b)) <==> a.priority > b.priority || (a.priority == b.priority && a.id <= b.id))
    ensures var default := Match(channelDefault, 4, 0, CHANNEL_DEFAULT);
      && (Detail(a) > 2 ==> !Precedes(default, MatchOf(a))) && (Detail(a) < 2 ==> !Precedes(MatchOf(a), default))
      && (Detail(a) == 2 && a.priority > 0 ==> !Precedes(default, MatchOf(a)))
    ensures MatchOf(a).profile == a.profile
  {
  }

  /** What the list of candidates may be: ties between equal matches may fall either way. */
  ghost predicate IsCandidateList(r: Router, route: Route, list: seq<Id>, matched: MatchedBy) {
    if route.override != 0 then list == [route.override] && matched == Override
    else if AllMatches(r, route) != [] then
      exists ordered: seq<Match> :: Ordered(ordered) && multiset(ordered) == multiset(AllMatches(r, route))
        && ordered != []
        && list == ProfilesOf(ordered) && matched == ByRule(ordered[0].id)
    else if route.org in r.organizationDefaults && r.organizationDefaults[route.org] != 0 then
      list == [r.organizationDefaults[route.org], r.deploymentDefault] && matched == OrganizationDefault
    else list == [r.deploymentDefault] && matched == DeploymentDefault
  }

  /** The first candidate is a match that no other match precedes. */
  lemma BestMatchFirst(r: Router, route: Route, list: seq<Id>, matched: MatchedBy)
    requires route.override == 0 && AllMatches(r, route) != [] && IsCandidateList(r, route, list, matched)
    ensures exists best ::
      best in AllMatches(r, route) && list != [] && list[0] == best.profile && matched == ByRule(best.id)
      && forall m :: m in AllMatches(r, route) ==> Precedes(best, m)
  {
    var ordered: seq<Match> :| Ordered(ordered) && multiset(ordered) == multiset(AllMatches(r, route)) && ordered != []
      && list == ProfilesOf(ordered) && matched == ByRule(ordered[0].id);
    var best := ordered[0];
    assert best in multiset(ordered);
    forall m | m in AllMatches(r, route)
      ensures Precedes(best, m)
    {
      assert m in multiset(ordered);
      var i :| 0 <= i < |ordered| && ordered[i] == m;
    }
  }

  lemma InsertedInOrder(front: seq<Match>, m: Match, back: seq<Match>)
    requires Ordered(front + back) && (forall a :: a in front ==> Precedes(a, m))
    requires back != [] ==> !Precedes(back[0], m)
    ensures Ordered(front + [m] + back)
  {
    var before, after := front + back, front + [m] + back;
    assert forall i :: 0 <= i < |front| ==> before[i] == front[i] && front[i] in front && after[i] == front[i];
    assert forall i :: 0 <= i < |back| ==> before[|front| + i] == back[i] && after[|front| + 1 + i] == back[i];
    assert forall i :: 0 <= i < |back| ==> Precedes(m, back[i]);
  }

  method Insert(m: Match, sorted: seq<Match>) returns (result: seq<Match>)
    requires Ordered(sorted)
    ensures Ordered(result) && multiset(result) == multiset(sorted) + multiset{m}
  {
    var i := 0;
    while i < |sorted| && Precedes(sorted[i], m)
      invariant 0 <= i <= |sorted|
      invariant forall k :: 0 <= k < i ==> Precedes(sorted[k], m)
    {
      i := i + 1;
    }
    assert sorted == sorted[..i] + sorted[i..];
    InsertedInOrder(sorted[..i], m, sorted[i..]);
    result := sorted[..i] + [m] + sorted[i..];
  }

  method Sort(matches: seq<Match>) returns (sorted: seq<Match>)
    ensures Ordered(sorted) && multiset(sorted) == multiset(matches)
  {
    sorted := [];
    for i := 0 to |matches|
      invariant Ordered(sorted) && multiset(sorted) == multiset(matches[..i])
    {
      sorted := Insert(matches[i], sorted);
      assert matches[..i + 1] == matches[..i] + [matches[i]];
    }
    assert matches[..|matches|] == matches;
  }

  method Matching(rules: seq<Rule>, route: Route) returns (matches: seq<Match>)
    ensures matches == Matches(rules, route)
  {
    matches := [];
    for i := 0 to |rules|
      invariant matches == Matches(rules[..i], route)
    {
      assert rules[..i + 1][..i] == rules[..i];
      if Applies(rules[i], route) {
        matches := matches + [MatchOf(rules[i])];
      }
    }
    assert rules[..|rules|] == rules;
  }

  /** An override stands alone; else, if any rule fits or the channel has a default that still exists, the profiles of
      these are tried and no other; else the organization's default, if any, and then the deployment's. */
  ghost predicate StartsRight(r: Router, route: Route, list: seq<Id>, matched: MatchedBy) {
    var channel := route.channelDefault != 0 && route.channelDefault in r.profiles;
    if route.override != 0 then list == [route.override] && matched == Override
    else if channel || exists rule :: rule in r.rules && Fits(rule, route) then
      && matched.ByRule? && list != []
      && (channel ==> route.channelDefault in list)
      && (forall rule :: rule in r.rules && Fits(rule, route) ==> rule.profile in list)
      && (forall id :: id in list ==>
            (channel && id == route.channelDefault)
              || exists rule :: rule in r.rules && Fits(rule, route) && rule.profile == id)
    else if route.org in r.organizationDefaults && r.organizationDefaults[route.org] != 0 then
      list == [r.organizationDefaults[route.org], r.deploymentDefault] && matched == OrganizationDefault
    else list == [r.deploymentDefault] && matched == DeploymentDefault
  }

  /** Sorting the matches neither adds nor drops a profile. */
  lemma SortedStartsRight(r: Router, route: Route, sorted: seq<Match>)
    requires route.override == 0 && sorted != [] && multiset(sorted) == multiset(AllMatches(r, route))
    ensures StartsRight(r, route, ProfilesOf(sorted), ByRule(sorted[0].id))
  {
    MatchesAreFitting(r.rules, route);
    var list := ProfilesOf(sorted);
    forall m | m in AllMatches(r, route) ensures m.profile in list {
      assert m in multiset(sorted);
      var i :| 0 <= i < |sorted| && sorted[i] == m;
      assert list[i] == m.profile;
    }
    forall id | id in list
      ensures (route.channelDefault != 0 && route.channelDefault in r.profiles && id == route.channelDefault)
              || exists rule :: rule in r.rules && Fits(rule, route) && rule.profile == id
    {
      var i :| 0 <= i < |list| && list[i] == id;
      var m := sorted[i];
      assert m in multiset(AllMatches(r, route)) && m.profile == id;
      if m in Matches(r.rules, route) {
        var rule :| rule in r.rules && Fits(rule, route) && m == MatchOf(rule);
        assert rule.profile == id;
      }
    }
    if !(route.channelDefault != 0 && route.channelDefault in r.profiles) {
      assert sorted[0] in multiset(AllMatches(r, route));
    }
  }

  method Candidates(r: Router, route: Route) returns (list: seq<Id>, matched: MatchedBy)
    ensures IsCandidateList(r, route, list, matched) && StartsRight(r, route, list, matched)
  {
    MatchesAreFitting(r.rules, route);
    if route.override != 0 {
      return [route.override], Override;
    }
    var matches := Matching(r.rules, route);
    if route.channelDefault != 0 && route.channelDefault in r.profiles {
      matches := matches + [Match(route.channelDefault, 4, 0, CHANNEL_DEFAULT)];
    }
    var sorted := Sort(matches);
    assert |multiset(sorted)| == |multiset(matches)|;
    if sorted != [] {
      SortedStartsRight(r, route, sorted);
      return ProfilesOf(sorted), ByRule(sorted[0].id);
    }
    if route.org in r.organizationDefaults && r.organizationDefaults[route.org] != 0 {
      return [r.organizationDefaults[route.org], r.deploymentDefault], OrganizationDefault;
    }
    return [r.deploymentDefault], DeploymentDefault;
  }

  // ---------------------------------------------------------------- what fallback reaches

  predicate Answers(r: Router, route: Route, c: Constraints, id: Id) {
    id in r.profiles && Eligible(r.profiles[id], route, c)
  }

  /** The rejected profiles a request looks behind. */
  predicate Barred(r: Router, route: Route, c: Constraints, id: Id) {
    id in r.profiles && !Eligible(r.profiles[id], route, c)
  }

  function ReasonFor(r: Router, route: Route, c: Constraints, id: Id): Reason {
    if Barred(r, route, c, id) then Ineligibility(r.profiles[id], route, c).value else Missing
  }

  /** What one request sees of the catalog: where it starts, what answers it, what lies behind the rest. */
  datatype Graph = Graph(starts: set<Id>, good: set<Id>, next: map<Id, seq<Id>>)

  function GraphOf(r: Router, route: Route, c: Constraints, candidates: seq<Id>): Graph {
    Graph(set id | id in candidates && id != 0,
          set id | id in r.profiles && Answers(r, route, c, id),
          map id | id in r.profiles && Barred(r, route, c, id) :: r.profiles[id].fallbacks)
  }

  /** What is reached in exactly `hops` fallback hops, through ineligible profiles. */
  ghost function Level(g: Graph, hops: nat): set<Id> {
    if hops == 0 then g.starts
    else set from, to | from in Level(g, hops - 1) && from in g.next && to in g.next[from] :: to
  }

  /** Nothing eligible is reached in fewer hops. */
  ghost predicate NothingNearer(g: Graph, hops: nat) {
    forall k: nat :: k < hops ==> Level(g, k) !! g.good
  }

  /** Whatever is reached in any number of hops fails to answer, and the trace says why. */
  ghost predicate NoneAnswers(r: Router, route: Route, c: Constraints, candidates: seq<Id>,
                              rejected: seq<(Id, Reason)>) {
    var g := GraphOf(r, route, c, candidates);
    forall k: nat, id :: id in Level(g, k) ==> id !in g.good && (id, ReasonFor(r, route, c, id)) in rejected
  }

  /** An answer, reached in that many hops and in no fewer; among the candidates themselves, the first. */
  ghost predicate Nearest(r: Router, route: Route, c: Constraints, candidates: seq<Id>, id: Id, hops: nat) {
    var g := GraphOf(r, route, c, candidates);
    id in g.good && id in Level(g, hops) && NothingNearer(g, hops)
      && (hops == 0 ==> FirstThatAnswers(g, candidates, id))
  }

  /** Every profile once, ending with the one that answers. */
  predicate Trail(r: Router, route: Route, c: Constraints, tried: seq<Id>, last: Id) {
    Distinct(tried) && tried != [] && tried[|tried| - 1] == last
    && forall id :: id in tried && id != last ==> Barred(r, route, c, id)
  }

  /** The trace accounts for the search: everything tried was turned down for its true reason, and everything
      turned down was tried or does not exist. */
  ghost predicate Accounts(r: Router, route: Route, c: Constraints, tried: seq<Id>, rejected: seq<(Id, Reason)>) {
    && (forall id :: id in tried ==> (id, ReasonFor(r, route, c, id)) in rejected)
    && (forall e :: e in rejected ==> e.1 == ReasonFor(r, route, c, e.0) && (e.0 in r.profiles <==> e.0 in tried))
  }

  lemma AccountForOne(r: Router, route: Route, c: Constraints, tried: seq<Id>, rejected: seq<(Id, Reason)>, id: Id)
    requires Accounts(r, route, c, tried, rejected) && !Answers(r, route, c, id)
    ensures Accounts(r, route, c, tried + (if Barred(r, route, c, id) then [id] else []),
                     rejected + [(id, ReasonFor(r, route, c, id))])
  {
  }

  predicate Distinct(s: seq<Id>) {
    forall i, j :: 0 <= i < j < |s| ==> s[i] != s[j]
  }

  // ---------------------------------------------------------------- the state of a search

  /** Names in order of discovery, each with its depth; the first `done` are dealt with. */
  datatype Search = Search(order: seq<Id>, depth: map<Id, nat>, done: nat)

  ghost predicate Listed(s: Search) {
    s.done <= |s.order| && forall id :: id in s.depth <==> id in s.order
  }

  ghost predicate SortedAt(s: Search, i: nat, j: nat)
    requires Listed(s)
  {
    i < j < |s.order| ==> s.depth[s.order[i]] <= s.depth[s.order[j]]
  }

  ghost predicate PlacedAt(g: Graph, s: Search, id: Id) {
    && (id in s.depth ==> id in Level(g, s.depth[id]))
    && (id in g.starts ==> id in s.depth && s.depth[id] == 0)
  }

  /** It does not answer, and everything behind it is discovered at most one hop deeper. */
  ghost predicate DoneAt(g: Graph, s: Search, i: nat)
    requires Listed(s)
  {
    i < s.done ==>
      s.order[i] !in g.good
      && (s.order[i] in g.next ==>
            forall f :: f in g.next[s.order[i]] ==> f in s.depth && s.depth[f] <= s.depth[s.order[i]] + 1)
  }

  /** The names still waiting span at most two depths. */
  ghost predicate Narrow(s: Search)
    requires Listed(s)
  {
    s.done < |s.order| ==> s.depth[s.order[|s.order| - 1]] <= s.depth[s.order[s.done]] + 1
  }

  ghost predicate Sound(g: Graph, s: Search) {
    && Listed(s) && Narrow(s)
    && (forall i: nat, j: nat {:trigger SortedAt(s, i, j)} :: SortedAt(s, i, j))
    && (forall id {:trigger PlacedAt(g, s, id)} :: PlacedAt(g, s, id))
    && (forall i: nat {:trigger DoneAt(g, s, i)} :: DoneAt(g, s, i))
  }

  /** Every level up to the depth of the next name has been discovered. */
  lemma {:induction false} LevelsSeen(g: Graph, s: Search, hops: nat)
    requires Sound(g, s) && (s.done < |s.order| ==> hops <= s.depth[s.order[s.done]])
    ensures forall id :: id in Level(g, hops) ==> id in s.depth && s.depth[id] <= hops
  {
    if hops > 0 {
      LevelsSeen(g, s, hops - 1);
    }
    forall to | to in Level(g, hops)
      ensures to in s.depth && s.depth[to] <= hops
    {
      assert PlacedAt(g, s, to);
      if hops > 0 {
        var from :| from in Level(g, hops - 1) && from in g.next && to in g.next[from];
        var i: nat :| i < |s.order| && s.order[i] == from;
        assert SortedAt(s, s.done, i) && DoneAt(g, s, i);
      }
    }
  }

  /** The next name, when it answers, is nearest. */
  lemma HeadIsNearest(g: Graph, s: Search)
    requires Sound(g, s) && s.done < |s.order|
    ensures NothingNearer(g, s.depth[s.order[s.done]])
  {
    forall k: nat | k < s.depth[s.order[s.done]]
      ensures Level(g, k) !! g.good
    {
      LevelsSeen(g, s, k);
      forall id | id in Level(g, k)
        ensures id !in g.good
      {
        var i: nat :| i < |s.order| && s.order[i] == id;
        assert SortedAt(s, s.done, i) && DoneAt(g, s, i);
      }
    }
  }

  lemma AllExplored(g: Graph, s: Search, hops: nat, id: Id)
    requires Sound(g, s) && s.done == |s.order| && id in Level(g, hops)
    ensures id !in g.good && id in s.order
  {
    LevelsSeen(g, s, hops);
    var i: nat :| i < |s.order| && s.order[i] == id;
    assert DoneAt(g, s, i);
  }

  /** `a` occurs in the list before the first `b`. */
  ghost predicate Earlier(list: seq<Id>, a: Id, b: Id) {
    exists k :: 0 <= k < |list| && list[k] == a && b !in list[..k]
  }

  /** The candidates keep their order. */
  ghost predicate InOrder(candidates: seq<Id>, s: Search, i: nat, j: nat)
    requires Listed(s)
  {
    i < j < |s.order| && s.depth[s.order[j]] == 0 ==> Earlier(candidates, s.order[i], s.order[j])
  }

  ghost predicate AllInOrder(candidates: seq<Id>, s: Search)
    requires Listed(s)
  {
    forall i: nat, j: nat {:trigger InOrder(candidates, s, i, j)} :: InOrder(candidates, s, i, j)
  }

  /** `best` is the first of the list that answers. */
  ghost predicate FirstThatAnswers(g: Graph, list: seq<Id>, best: Id) {
    exists i :: 0 <= i < |list| && list[i] == best && forall k :: 0 <= k < i && list[k] != 0 ==> list[k] !in g.good
  }

  // ---------------------------------------------------------------- the search

  function Universe(r: Router, candidates: seq<Id>): set<Id> {
    (set id | id in candidates) + (set id, f | id in r.profiles && f in r.profiles[id].fallbacks :: f)
  }

  function Undiscovered(r: Router, candidates: seq<Id>, seen: set<Id>): nat {
    |Universe(r, candidates) - seen|
  }

  /** The candidates without repeats and empty names. */
  method Open(candidates: seq<Id>) returns (queue: seq<Id>, seen: set<Id>)
    ensures Distinct(queue) && seen == (set id | id in queue)
      && forall id :: id in queue <==> id in candidates && id != 0
    ensures forall k, l :: 0 <= k < l < |queue| ==> Earlier(candidates, queue[k], queue[l])
  {
    seen, queue := {}, [];
    for i := 0 to |candidates|
      invariant seen == (set id | id in queue) && Distinct(queue)
      invariant forall id :: id in queue <==> id in candidates[..i] && id != 0
      invariant forall k, l :: 0 <= k < l < |queue| ==> Earlier(candidates, queue[k], queue[l])
    {
      var candidate := candidates[i];
      if candidate !in seen && candidate != 0 {
        forall k | 0 <= k < |queue|
          ensures Earlier(candidates, queue[k], candidate)
        {
          assert queue[k] in candidates[..i];
          var l :| 0 <= l < i && candidates[l] == queue[k];
          assert candidate !in candidates[..l];
        }
        seen := seen + {candidate};
        queue := queue + [candidate];
      }
      assert candidates[..i + 1] == candidates[..i] + [candidate];
    }
    assert candidates[..|candidates|] == candidates;
  }

  /** The first occurrences of the list that were not yet seen. */
  method Unseen(list: seq<Id>, seen: set<Id>) returns (added: seq<Id>, more: set<Id>)
    ensures Distinct(added) && more == seen + (set id | id in list)
    ensures forall id :: id in added <==> id in list && id !in seen
  {
    added, more := [], seen;
    for i := 0 to |list|
      invariant Distinct(added) && more == seen + (set id | id in list[..i])
      invariant forall id :: id in added <==> id in list[..i] && id !in seen
    {
      if list[i] !in more {
        added := added + [list[i]];
        more := more + {list[i]};
      }
      assert list[..i + 1] == list[..i] + [list[i]];
    }
    assert list[..|list|] == list;
  }

  ghost function Further(s: Search, added: seq<Id>): (t: Search)
    requires Listed(s) && s.done < |s.order|
    requires forall id :: id in added ==> id !in s.depth
    ensures Listed(t) && t.order == s.order + added && t.done == s.done + 1
    ensures forall i :: 0 <= i < |s.order| ==> t.order[i] == s.order[i] && t.depth[t.order[i]] == s.depth[s.order[i]]
    ensures forall i :: |s.order| <= i < |t.order| ==>
      t.order[i] in added && t.order[i] !in s.depth && t.depth[t.order[i]] == s.depth[s.order[s.done]] + 1
  {
    var d := s.depth[s.order[s.done]];
    Search(s.order + added, s.depth + map id | id in added :: d + 1, s.done + 1)
  }

  /** The names the next one leads to that are not yet discovered. */
  ghost predicate NewBehind(g: Graph, s: Search, added: seq<Id>)
    requires Listed(s) && s.done < |s.order|
  {
    forall id :: id in added <==> s.order[s.done] in g.next && id in g.next[s.order[s.done]] && id !in s.depth
  }

  lemma StaysSorted(g: Graph, s: Search, added: seq<Id>, i: nat, j: nat)
    requires Sound(g, s) && s.done < |s.order| && NewBehind(g, s, added)
    ensures SortedAt(Further(s, added), i, j)
  {
    assert SortedAt(s, i, j) && SortedAt(s, i, |s.order| - 1);
  }

  lemma StaysNarrow(g: Graph, s: Search, added: seq<Id>)
    requires Sound(g, s) && s.done < |s.order| && NewBehind(g, s, added)
    ensures Narrow(Further(s, added))
  {
    assert SortedAt(s, s.done, |s.order| - 1);
    assert s.done + 1 < |s.order| ==> SortedAt(s, s.done, s.done + 1);
  }

  lemma StaysPlaced(g: Graph, s: Search, added: seq<Id>, id: Id)
    requires Sound(g, s) && s.done < |s.order| && NewBehind(g, s, added)
    ensures PlacedAt(g, Further(s, added), id)
  {
    var head := s.order[s.done];
    assert PlacedAt(g, s, id) && PlacedAt(g, s, head);
    if id in added {
      assert id in Level(g, s.depth[head] + 1);
    }
  }

  lemma StaysDone(g: Graph, s: Search, added: seq<Id>, i: nat)
    requires Sound(g, s) && s.done < |s.order| && NewBehind(g, s, added) && s.order[s.done] !in g.good
    ensures DoneAt(g, Further(s, added), i)
  {
    assert DoneAt(g, s, i);
    assert SortedAt(s, s.done, |s.order| - 1);
    if i == s.done && s.order[i] in g.next {
      forall f | f in g.next[s.order[i]]
        ensures f in Further(s, added).depth && Further(s, added).depth[f] <= s.depth[s.order[i]] + 1
      {
        if f in s.depth {
          var j: nat :| j < |s.order| && s.order[j] == f;
          assert SortedAt(s, j, |s.order| - 1);
        }
      }
    }
  }

  /** Discovering what is behind the next name keeps the state of the search, one name further. */
  lemma Advance(g: Graph, s: Search, added: seq<Id>)
    requires Sound(g, s) && s.done < |s.order| && NewBehind(g, s, added) && s.order[s.done] !in g.good
    ensures Sound(g, Further(s, added))
  {
    var t := Further(s, added);
    StaysNarrow(g, s, added);
    forall i: nat, j: nat ensures SortedAt(t, i, j) {
      StaysSorted(g, s, added, i, j);
    }
    forall id ensures PlacedAt(g, t, id) {
      StaysPlaced(g, s, added, id);
    }
    forall i: nat ensures DoneAt(g, t, i) {
      StaysDone(g, s, added, i);
    }
  }

  lemma KeepsOrder(candidates: seq<Id>, s: Search, added: seq<Id>)
    requires Listed(s) && AllInOrder(candidates, s) && s.done < |s.order|
    requires forall id :: id in added ==> id !in s.depth
    ensures AllInOrder(candidates, Further(s, added))
  {
    forall i: nat, j: nat
      ensures InOrder(candidates, Further(s, added), i, j)
    {
      assert InOrder(candidates, s, i, j);
    }
  }

  /** The names dealt with that the catalog has, in order: the profiles tried. */
  ghost predicate TriedIs(r: Router, route: Route, c: Constraints, s: Search, tried: seq<Id>)
    requires Listed(s)
  {
    Distinct(tried) && forall id :: id in tried ==> id in s.order[..s.done] && Barred(r, route, c, id)
  }

  ghost predicate RejectedAt(r: Router, route: Route, c: Constraints, s: Search, rejected: seq<(Id, Reason)>, i: nat)
    requires Listed(s)
  {
    i < s.done ==> (s.order[i], ReasonFor(r, route, c, s.order[i])) in rejected
  }

  ghost predicate RejectedAll(r: Router, route: Route, c: Constraints, s: Search, rejected: seq<(Id, Reason)>)
    requires Listed(s)
  {
    forall i: nat {:trigger RejectedAt(r, route, c, s, rejected, i)} :: RejectedAt(r, route, c, s, rejected, i)
  }

  lemma DistinctGrows(s: Search, added: seq<Id>)
    requires Listed(s) && Distinct(s.order) && Distinct(added) && forall id :: id in added ==> id !in s.depth
    ensures Distinct(s.order + added)
  {
    var all := s.order + added;
    forall i, j | 0 <= i < j < |all|
      ensures all[i] != all[j]
    {
      assert i < |s.order| ==> all[i] in s.order;
      assert j >= |s.order| ==> all[j] in added;
    }
  }

  lemma RejectedGrows(r: Router, route: Route, c: Constraints, s: Search, rejected: seq<(Id, Reason)>, added: seq<Id>)
    requires Listed(s) && s.done < |s.order| && RejectedAll(r, route, c, s, rejected)
    requires forall id :: id in added ==> id !in s.depth
    ensures var id := s.order[s.done];
      RejectedAll(r, route, c, Further(s, added), rejected + [(id, ReasonFor(r, route, c, id))])
  {
    var more := rejected + [(s.order[s.done], ReasonFor(r, route, c, s.order[s.done]))];
    forall i: nat
      ensures RejectedAt(r, route, c, Further(s, added), more, i)
    {
      assert RejectedAt(r, route, c, s, rejected, i);
    }
  }

  /** Everything the loop of a search keeps. */
  ghost predicate Searching(
    r: Router, route: Route, c: Constraints, candidates: seq<Id>, s: Search, queue: seq<Id>, seen: set<Id>,
    tried: seq<Id>,
    rejected: seq<(Id, Reason)>)
  {
    && Sound(GraphOf(r, route, c, candidates), s) && AllInOrder(candidates, s) && Distinct(s.order)
    && queue == s.order[s.done..] && seen == s.depth.Keys
    && TriedIs(r, route, c, s, tried) && RejectedAll(r, route, c, s, rejected)
  }

  lemma ShiftedQueue(order: seq<Id>, done: nat, added: seq<Id>)
    requires done < |order|
    ensures order[done..][1..] + added == (order + added)[done + 1..]
  {
  }

  /** The discovered names and the queue after one more name was dealt with. */
  lemma RoundState(
    r: Router, route: Route, c: Constraints, candidates: seq<Id>, s: Search, queue: seq<Id>, seen: set<Id>,
    added: seq<Id>)
    requires Sound(GraphOf(r, route, c, candidates), s) && AllInOrder(candidates, s) && Distinct(s.order)
      && Distinct(added)
    requires queue == s.order[s.done..] && seen == s.depth.Keys && queue != [] && !Answers(r, route, c, queue[0])
    requires forall f :: f in added <==>
      Barred(r, route, c, queue[0]) && f in r.profiles[queue[0]].fallbacks && f !in seen
    ensures (forall f :: f in added ==> f !in s.depth) && queue[0] == s.order[s.done]
    ensures Sound(GraphOf(r, route, c, candidates), Further(s, added)) && AllInOrder(candidates, Further(s, added))
  {
    assert queue[0] == s.order[s.done];
    assert NewBehind(GraphOf(r, route, c, candidates), s, added);
    Advance(GraphOf(r, route, c, candidates), s, added);
    KeepsOrder(candidates, s, added);
  }

  lemma Round(
    r: Router, route: Route, c: Constraints, candidates: seq<Id>, s: Search, queue: seq<Id>, seen: set<Id>,
    tried: seq<Id>,
    rejected: seq<(Id, Reason)>, added: seq<Id>)
    requires Searching(r, route, c, candidates, s, queue, seen, tried, rejected)
    requires queue != [] && !Answers(r, route, c, queue[0]) && Distinct(added)
    requires forall f :: f in added <==>
      Barred(r, route, c, queue[0]) && f in r.profiles[queue[0]].fallbacks && f !in seen
    ensures var id := queue[0];
      Searching(r, route, c, candidates, Further(s, added), queue[1..] + added, seen + (set f | f in added),
                tried + (if Barred(r, route, c, id) then [id] else []), rejected + [(id, ReasonFor(r, route, c, id))])
  {
    RoundState(r, route, c, candidates, s, queue, seen, added);
    TriedGrows(r, route, c, s, tried, added);
    RejectedGrows(r, route, c, s, rejected, added);
    DistinctGrows(s, added);
    ShiftedQueue(s.order, s.done, added);
  }

  lemma Success(
    r: Router, route: Route, c: Constraints, candidates: seq<Id>, s: Search, queue: seq<Id>, seen: set<Id>,
    tried: seq<Id>,
    rejected: seq<(Id, Reason)>) returns (hops: nat)
    requires Searching(r, route, c, candidates, s, queue, seen, tried, rejected)
    requires queue != [] && Answers(r, route, c, queue[0])
    ensures Nearest(r, route, c, candidates, queue[0], hops) && Trail(r, route, c, tried + [queue[0]], queue[0])
  {
    var g := GraphOf(r, route, c, candidates);
    var id := queue[0];
    assert id == s.order[s.done];
    hops := s.depth[id];
    HeadIsNearest(g, s);
    TriedOnce(r, route, c, s, tried);
    assert PlacedAt(g, s, id);
    if hops == 0 {
      HeadIsFirst(g, candidates, s);
    }
  }

  lemma Exhausted(
    r: Router, route: Route, c: Constraints, candidates: seq<Id>, s: Search, queue: seq<Id>, seen: set<Id>,
    tried: seq<Id>,
    rejected: seq<(Id, Reason)>, k: nat, id: Id)
    requires Searching(r, route, c, candidates, s, queue, seen, tried, rejected) && queue == []
    requires id in Level(GraphOf(r, route, c, candidates), k)
    ensures id !in GraphOf(r, route, c, candidates).good && (id, ReasonFor(r, route, c, id)) in rejected
  {
    AllExplored(GraphOf(r, route, c, candidates), s, k, id);
    var i: nat :| i < |s.order| && s.order[i] == id;
    assert RejectedAt(r, route, c, s, rejected, i);
  }

  lemma TriedOnce(r: Router, route: Route, c: Constraints, s: Search, tried: seq<Id>)
    requires Listed(s) && Distinct(s.order) && s.done < |s.order| && TriedIs(r, route, c, s, tried)
    ensures Trail(r, route, c, tried + [s.order[s.done]], s.order[s.done])
  {
    assert s.order[s.done] !in s.order[..s.done];
  }

  lemma NothingLeft(
    r: Router, route: Route, c: Constraints, candidates: seq<Id>, s: Search, queue: seq<Id>, seen: set<Id>,
    tried: seq<Id>,
    rejected: seq<(Id, Reason)>)
    requires Searching(r, route, c, candidates, s, queue, seen, tried, rejected) && queue == []
    ensures NoneAnswers(r, route, c, candidates, rejected)
    ensures Distinct(tried) && forall id :: id in tried ==> Barred(r, route, c, id)
  {
    var g := GraphOf(r, route, c, candidates);
    forall k: nat, id | id in Level(g, k)
      ensures id !in g.good && (id, ReasonFor(r, route, c, id)) in rejected
    {
      Exhausted(r, route, c, candidates, s, queue, seen, tried, rejected, k, id);
    }
  }

  method Begin(r: Router, route: Route, c: Constraints, candidates: seq<Id>)
    returns (queue: seq<Id>, seen: set<Id>, ghost s: Search)
    ensures Searching(r, route, c, candidates, s, queue, seen, [], []) && seen <= Universe(r, candidates)
  {
    queue, seen := Open(candidates);
    s := Search(queue, map id | id in seen :: 0, 0);
    Opened(GraphOf(r, route, c, candidates), candidates, s);
  }

  /** Finds an eligible profile in the fewest fallback hops, or reports none only when none is reachable.
      It ends on every fallback graph, because each round discovers a name or shortens the queue. */
  method Find(r: Router, route: Route, c: Constraints, candidates: seq<Id>)
    returns (found: Option<Id>, tried: seq<Id>, rejected: seq<(Id, Reason)>, ghost hops: nat)
    ensures found.Some? ==>
      Nearest(r, route, c, candidates, found.value, hops) && Trail(r, route, c, tried, found.value)
    ensures Accounts(r, route, c, if found.Some? then tried[..|tried| - 1] else tried, rejected)
    ensures found.None? ==>
      NoneAnswers(r, route, c, candidates, rejected) && Distinct(tried)
        && forall id :: id in tried ==> Barred(r, route, c, id)
  {
    var queue: seq<Id>, seen: set<Id>;
    ghost var s: Search;
    queue, seen, s := Begin(r, route, c, candidates);
    tried, rejected := [], [];
    while queue != []
      invariant Searching(r, route, c, candidates, s, queue, seen, tried, rejected)
      invariant seen <= Universe(r, candidates) && Accounts(r, route, c, tried, rejected)
      decreases Undiscovered(r, candidates, seen), |queue|
    {
      var id := queue[0];
      if Answers(r, route, c, id) {
        hops := Success(r, route, c, candidates, s, queue, seen, tried, rejected);
        assert (tried + [id])[..|tried|] == tried;
        return Some(id), tried + [id], rejected, hops;
      }
      var added, more, nowTried, reason := Reject(r, route, c, candidates, id, seen);
      Round(r, route, c, candidates, s, queue, seen, tried, rejected, added);
      AccountForOne(r, route, c, tried, rejected, id);
      s, queue, seen := Further(s, added), queue[1..] + added, more;
      tried, rejected := tried + nowTried, rejected + [(id, reason)];
    }
    NothingLeft(r, route, c, candidates, s, queue, seen, tried, rejected);
    return None, tried, rejected, 0;
  }

  lemma SmallerRest(r: Router, candidates: seq<Id>, id: Id, seen: set<Id>, more: set<Id>)
    requires id in r.profiles && seen <= Universe(r, candidates)
      && more == seen + (set f | f in r.profiles[id].fallbacks)
    ensures more <= Universe(r, candidates)
    ensures more == seen || Undiscovered(r, candidates, more) < Undiscovered(r, candidates, seen)
  {
    assert forall f :: f in r.profiles[id].fallbacks ==> f in Universe(r, candidates);
    if more != seen {
      var rest, shrunk := Universe(r, candidates) - seen, Universe(r, candidates) - more;
      var f :| f in more && f !in seen;
      assert shrunk <= rest - {f};
      SmallerSet(shrunk, rest - {f});
    }
  }

  lemma {:induction false} SmallerSet(a: set<Id>, b: set<Id>)
    requires a <= b
    ensures |a| <= |b|
  {
    if a != {} {
      var x :| x in a;
      SmallerSet(a - {x}, b - {x});
    }
  }

  lemma Opened(g: Graph, candidates: seq<Id>, s: Search)
    requires g.starts == (set id | id in candidates && id != 0)
    requires s.done == 0 && s.depth == map id | id in s.order :: 0
    requires forall id :: id in s.order <==> id in candidates && id != 0
    requires forall k, l :: 0 <= k < l < |s.order| ==> Earlier(candidates, s.order[k], s.order[l])
    ensures Sound(g, s) && AllInOrder(candidates, s)
  {
    forall id ensures PlacedAt(g, s, id) {
    }
  }

  /** Records the rejection of the next name, which does not answer, and finds what behind it is new. */
  method Reject(r: Router, route: Route, c: Constraints, candidates: seq<Id>, id: Id, seen: set<Id>)
    returns (added: seq<Id>, more: set<Id>, nowTried: seq<Id>, reason: Reason)
    requires !Answers(r, route, c, id) && seen <= Universe(r, candidates)
    ensures Distinct(added) && more == seen + (set f | f in added) && more <= Universe(r, candidates)
    ensures forall f :: f in added <==> Barred(r, route, c, id) && f in r.profiles[id].fallbacks && f !in seen
    ensures nowTried == (if Barred(r, route, c, id) then [id] else []) && reason == ReasonFor(r, route, c, id)
    ensures if added == [] then more == seen else Undiscovered(r, candidates, more) < Undiscovered(r, candidates, seen)
  {
    if id !in r.profiles {
      return [], seen, [], Missing;
    }
    added, more := Unseen(r.profiles[id].fallbacks, seen);
    SmallerRest(r, candidates, id, seen, more);
    assert if added == [] then more == seen else added[0] in more && added[0] !in seen;
    return added, more, [id], ReasonFor(r, route, c, id);
  }

  lemma TriedGrows(r: Router, route: Route, c: Constraints, s: Search, tried: seq<Id>, added: seq<Id>)
    requires Listed(s) && Distinct(s.order) && s.done < |s.order| && TriedIs(r, route, c, s, tried)
    requires forall id :: id in added ==> id !in s.depth
    ensures var id := s.order[s.done];
      id !in tried && TriedIs(r, route, c, Further(s, added), tried + if Barred(r, route, c, id) then [id] else [])
  {
    var t := Further(s, added);
    assert t.order[..t.done] == s.order[..s.done] + [s.order[s.done]];
  }

  /** A candidate next in line comes before every other candidate that would answer. */
  lemma HeadIsFirst(g: Graph, candidates: seq<Id>, s: Search)
    requires Sound(g, s) && AllInOrder(candidates, s) && g.starts == (set id | id in candidates && id != 0)
    requires s.done < |s.order| && s.depth[s.order[s.done]] == 0
    ensures FirstThatAnswers(g, candidates, s.order[s.done])
  {
    var head := s.order[s.done];
    assert PlacedAt(g, s, head);
    var i := 0;
    while candidates[i] != head
      invariant i < |candidates| && head !in candidates[..i] && head in candidates[i..]
      decreases |candidates| - i
    {
      i := i + 1;
    }
    forall k | 0 <= k < i && candidates[k] != 0
      ensures candidates[k] !in g.good
    {
      var other := candidates[k];
      assert other in candidates[..i] && PlacedAt(g, s, other);
      var j: nat :| j < |s.order| && s.order[j] == other;
      assert InOrder(candidates, s, s.done, j) && DoneAt(g, s, j);
    }
  }

  // ---------------------------------------------------------------- resolution

  lemma SomethingAnswers(r: Router, route: Route, c: Constraints, candidates: seq<Id>, rejected: seq<(Id, Reason)>,
                         hops: nat, id: Id)
    requires Nearest(r, route, c, candidates, id, hops)
    ensures !NoneAnswers(r, route, c, candidates, rejected)
  {
  }

  method Resolve(r: Router, route: Route, c: Constraints)
    returns (resolved: Result<Resolved, Error>, trace: Trace, ghost list: seq<Id>, ghost hops: nat)
    requires ValidRouter(r)
    ensures IsCandidateList(r, route, list, trace.matched) && StartsRight(r, route, list, trace.matched)
    ensures resolved.Ok? ==>
      var id := resolved.value.profile;
      && Nearest(r, route, c, list, id, hops) && Trail(r, route, c, trace.tried, id)
      && (trace.fallback <==> trace.tried != [id])
      && id in r.profiles && Serves(r.profiles[id], route, c)
      && Accounts(r, route, c, trace.tried[..|trace.tried| - 1], trace.rejected)
      && resolved.value == Resolved(id, r.profiles[id].provider, r.profiles[id].model, r.profiles[id].variant, r.policy)
    ensures resolved.Err? <==> NoneAnswers(r, route, c, list, trace.rejected)
    ensures resolved.Err? ==>
      && resolved.error == NoEligibleModel && Distinct(trace.tried)
      && Accounts(r, route, c, trace.tried, trace.rejected)
      && forall id :: id in trace.tried ==> id in r.profiles && !Serves(r.profiles[id], route, c)
  {
    var candidates, matched := Candidates(r, route);
    list := candidates;
    var found, tried, rejected;
    found, tried, rejected, hops := Find(r, route, c, candidates);
    forall id | id in r.profiles
      ensures Eligible(r.profiles[id], route, c) <==> Serves(r.profiles[id], route, c)
    {
      ReasonsAreTrue(r.profiles[id], route, c);
    }
    if found.None? {
      return Err(NoEligibleModel), Trace(matched, tried, rejected, false), list, hops;
    }
    SomethingAnswers(r, route, c, candidates, rejected, hops, found.value);
    var profile := r.profiles[found.value];
    resolved := Ok(Resolved(profile.id, profile.provider, profile.model, profile.variant, r.policy));
    trace := Trace(matched, tried, rejected, |tried| > 1);
  }
}
