/** The last corrections of a classifier recommendation and its acceptance
    (core/classifier/openai_classifier.go:239-244, 681-746, 1357-1441). */
module CorrectionTail {
  import opened Prelude
  import opened ReplyText
  import opened ClassifierGate

  datatype Profile = Profile(id: Id, strength: Strength, effort: Effort)

  datatype Rejection =
    | SilentWithAction | ReactionNotAllowed | ReplyOutcome | ReplyWithRecommendation | AgentMissing
    | RecommendationWithoutAgent
    | UnknownProfile

  predicate Recommends(d: Decision) {
    d.profile != 0 || !d.strength.NoneStrength? || !d.effort.NoEffort?
  }

  predicate IsAdvertised(d: Decision, profiles: seq<Profile>) {
    Profile(d.profile, d.strength, d.effort) in profiles
  }

  /** None when the recommendation is accepted. */
  function Rejected(d: Decision, profiles: seq<Profile>, reactions: seq<Emoji>): Option<Rejection> {
    if d.outcome.Silent? then
      (if !d.reaction.NoEmoji? || Given(d.directReply) || d.fullAgent || Recommends(d)
       then Some(SilentWithAction) else None)
    else if d.reaction !in reactions then Some(ReactionNotAllowed)
    else if Given(d.directReply) then
      (if !d.outcome.ReplyInChannel? && !d.outcome.ReplyInThread? then Some(ReplyOutcome)
       else if d.fullAgent || Recommends(d) then Some(ReplyWithRecommendation)
       else None)
    else if NeedsAgent(d.outcome) && !d.fullAgent then Some(AgentMissing)
    else if !d.fullAgent then (if Recommends(d) then Some(RecommendationWithoutAgent) else None)
    else if IsAdvertised(d, profiles) then None
    else Some(UnknownProfile)
  }

  // ---------------------------------------------------------------- corrections

  function FirstOf(profiles: seq<Profile>, strength: Strength): (r: Option<Profile>)
    ensures r.Some? ==> r.value in profiles && r.value.strength == strength
    ensures r.None? ==> forall p :: p in profiles ==> p.strength != strength
  {
    if profiles == [] then None
    else if profiles[0].strength == strength then Some(profiles[0])
    else FirstOf(profiles[1..], strength)
  }

  function WithProfile(d: Decision, profile: Profile, reason: string): Decision {
    d.(profile := profile.id, strength := profile.strength, effort := profile.effort,
       reasons := d.reasons + [Stated(reason)])
  }

  predicate ActionLeft(d: Decision) {
    !d.reaction.NoEmoji? || Given(d.directReply) || d.fullAgent || d.profile != 0
    || !(d.strength.NoStrength? || d.strength.NoneStrength?) || !d.effort.NoEffort? || d.releasable != []
    || d.restricted != []
  }

  function Silenced(d: Decision): Decision {
    d.(reaction := NoEmoji, directReply := NoReply, fullAgent := false, profile := 0, strength := NoneStrength,
       effort := NoEffort,
       releasable := [], restricted := [],
       reasons := if ActionLeft(d) then d.reasons + [Stated("policy.silent_action_cleared")] else d.reasons)
  }

  function WantedStrength(d: Decision): Strength {
    if d.strength in {Light, Standard, Strong} then d.strength
    else if d.effort in {Max, High, XHigh} then Strong
    else if d.effort.Medium? then Standard
    else Light
  }

  function AgentInferred(d: Decision): Decision {
    if NeedsAgent(d.outcome) && !Given(d.directReply) && !d.fullAgent
    then d.(fullAgent := true, reasons := d.reasons + [Stated("policy.agent_requirement_inferred")])
    else d
  }

  function Unrecommended(d: Decision): Decision {
    if !d.outcome.React? && !Given(d.directReply) then d
    else
      d.(profile := 0, strength := NoneStrength, effort := NoEffort,
         reasons := if d.profile != 0 || !(d.strength.NoStrength? || d.strength.NoneStrength?) || !d.effort.NoEffort?
                    then d.reasons + [Stated("policy.non_agent_profile_cleared")] else d.reasons)
  }

  function ReplyCleared(d: Decision): Decision {
    if Given(d.directReply) then
      d.(directReply := NoReply, reasons := d.reasons + [Stated("policy.agent_direct_reply_cleared")])
    else d
  }

  function WithCanonicalProfile(d: Decision, profiles: seq<Profile>): Decision {
    if d.outcome.Silent? then Silenced(d)
    else
      var e := AgentInferred(d);
      if !e.fullAgent then Unrecommended(e) else WithWantedProfile(ReplyCleared(e), profiles)
  }

  function WithWantedProfile(d: Decision, profiles: seq<Profile>): Decision {
    if IsAdvertised(d, profiles) then d
    else
      var found := FirstOf(profiles, WantedStrength(d));
      if found.Some? then WithProfile(d, found.value, "policy.canonical_agent_profile") else d
  }

  /** Background work on security matters wants a strong profile, other background work at least a standard
      one; `sensitive` says which. */
  function WithBackgroundFloor(d: Decision, sensitive: bool, profiles: seq<Profile>): Decision {
    var want := if sensitive then Strong else Standard;
    if !d.outcome.StartBackgroundJob? || d.strength == want || (want.Standard? && d.strength.Strong?) then d
    else
      var found := FirstOf(profiles, want);
      if found.Some? then WithProfile(d, found.value, "policy.background_profile_floor") else d
  }

  /** A reaction that a policy chose must be on the list; the provider's own is left alone. */
  function WithAllowedReaction(d: Decision, provider: Emoji, reactions: seq<Emoji>): Decision {
    if d.outcome.Silent? || d.reaction.NoEmoji? || d.reaction == provider || d.reaction in reactions then d
    else d.(reaction := NoEmoji, reasons := d.reasons + [Stated("policy.reaction_allowlist_fallback")])
  }

  function Preferred(d: Decision, reactions: seq<Emoji>): Emoji
    requires reactions != []
  {
    var wanted :=
      if Given(d.directReply) then [WhiteCheckMark, SpeechBalloon]
      else if d.outcome.StartBackgroundJob? || d.outcome.EscalateForApproval? then [Eyes, ThinkingFace]
      else [SpeechBalloon, Eyes];
    if wanted[0] in reactions then wanted[0] else if wanted[1] in reactions then wanted[1] else reactions[0]
  }

  function WithDefaultReaction(d: Decision, reactions: seq<Emoji>): Decision {
    if d.outcome.Silent? || !d.reaction.NoEmoji? || reactions == [] then d
    else d.(reaction := Preferred(d, reactions), reasons := d.reasons + [Stated("policy.default_reaction")])
  }

  function Tail(d: Decision, sensitive: bool, provider: Emoji, profiles: seq<Profile>,
                reactions: seq<Emoji>): Decision {
    WithDefaultReaction(
      WithAllowedReaction(WithBackgroundFloor(WithCanonicalProfile(d, profiles), sensitive, profiles),
                          provider, reactions),
      reactions)
  }

  // ---------------------------------------------------------------- what the tail achieves

  /** A recommendation is accepted exactly when it is silent and bare, or reacts from the list and either replies
      itself or hands over to an agent with an advertised profile, or does neither. */
  lemma AcceptedMeans(d: Decision, profiles: seq<Profile>, reactions: seq<Emoji>)
    ensures Rejected(d, profiles, reactions).None? <==>
      var bare := !d.fullAgent && d.profile == 0 && d.strength == NoneStrength && d.effort == NoEffort;
      if d.outcome == Silent then bare && d.reaction == NoEmoji && !Given(d.directReply)
      else
        && d.reaction in reactions
        && (if Given(d.directReply) then bare && d.outcome in {ReplyInChannel, ReplyInThread}
            else if d.fullAgent then Profile(d.profile, d.strength, d.effort) in profiles
            else bare && d.outcome !in {ReplyInThread, ReplyInChannel, StartBackgroundJob, EscalateForApproval})
  {
  }

  /** Correcting a silent recommendation strips it of everything it would do, and of nothing else. */
  lemma SilentIsBare(d: Decision, sensitive: bool, provider: Emoji, profiles: seq<Profile>, reactions: seq<Emoji>)
    requires d.outcome == Silent
    ensures var e := Tail(d, sensitive, provider, profiles, reactions);
      && e == d.(reaction := NoEmoji, directReply := NoReply, fullAgent := false, profile := 0,
                 strength := NoneStrength,
                 effort := NoEffort, releasable := [], restricted := [], reasons := e.reasons)
      && (e.reasons == d.reasons || e.reasons == d.reasons + [Stated("policy.silent_action_cleared")])
  {
  }

  /** Agent work with a profile nobody advertises gets the first one of the strength it named, or else of the one its
      effort asks for; background work then at least the floor. Advertised work keeps its profile. */
  lemma ProfileIsByStrength(d: Decision, profiles: seq<Profile>)
    requires NeedsAgent(d.outcome) && d.fullAgent
    ensures var e := WithCanonicalProfile(d, profiles);
      var wanted := if d.strength in {Light, Standard, Strong} then d.strength
                    else if d.effort in {High, XHigh, Max} then Strong
                    else if d.effort == Medium then Standard else Light;
      if IsAdvertised(d, profiles) then e.profile == d.profile && e.strength == d.strength && e.effort == d.effort
      else forall i :: 0 <= i < |profiles| && profiles[i].strength == wanted
                       && (forall k :: 0 <= k < i ==> profiles[k].strength != wanted) ==>
             Profile(e.profile, e.strength, e.effort) == profiles[i]
  {
    FirstIsFirst(profiles, WantedStrength(d));
    var found := FirstOf(profiles, WantedStrength(d));
    assert found.Some? ==> found.value == Profile(found.value.id, found.value.strength, found.value.effort);
  }

  lemma {:induction false} FirstIsFirst(profiles: seq<Profile>, strength: Strength)
    ensures forall i :: 0 <= i < |profiles| && profiles[i].strength == strength
                        && (forall k :: 0 <= k < i ==> profiles[k].strength != strength) ==>
              FirstOf(profiles, strength) == Some(profiles[i])
  {
    if profiles != [] && profiles[0].strength != strength {
      FirstIsFirst(profiles[1..], strength);
      forall i | 0 <= i < |profiles| && profiles[i].strength == strength
                 && (forall k :: 0 <= k < i ==> profiles[k].strength != strength)
        ensures FirstOf(profiles, strength) == Some(profiles[i])
      {
        assert profiles[1..][i - 1] == profiles[i];
      }
    }
  }

  /** Where nobody chose a reaction, the tail picks one that suits: done for a reply, watching for long work, talking
      otherwise, and the first of the list if it has none of these. */
  lemma DefaultReactionSuits(d: Decision, reactions: seq<Emoji>)
    requires d.outcome != Silent && d.reaction == NoEmoji && reactions != []
    ensures var e := WithDefaultReaction(d, reactions);
      var first, second :=
        if Given(d.directReply) then WhiteCheckMark
        else if d.outcome in {StartBackgroundJob, EscalateForApproval} then Eyes
        else SpeechBalloon,
        if Given(d.directReply) then SpeechBalloon
        else if d.outcome in {StartBackgroundJob, EscalateForApproval} then ThinkingFace else Eyes;
      e.reaction == if first in reactions then first else if second in reactions then second else reactions[0]
  {
  }

  predicate AllStrengths(profiles: seq<Profile>) {
    FirstOf(profiles, Light).Some? && FirstOf(profiles, Standard).Some? && FirstOf(profiles, Strong).Some?
  }

  /** What a correction of the profile leaves alone. */
  predicate SameCourse(d: Decision, e: Decision) {
    e.outcome == d.outcome && e.confidence == d.confidence && e.reaction == d.reaction
    && e.releasable == d.releasable && e.restricted == d.restricted
  }

  lemma CanonicalProfile(d: Decision, profiles: seq<Profile>)
    requires !d.outcome.Silent? && !d.outcome.OtherOutcome?
    ensures var e := WithCanonicalProfile(d, profiles);
      && SameCourse(d, e)
      && (e.fullAgent <==> d.fullAgent || (NeedsAgent(d.outcome) && !Given(d.directReply)))
      && (e.fullAgent ==> !Given(e.directReply) && (AllStrengths(profiles) ==> IsAdvertised(e, profiles)))
      && (!e.fullAgent ==> e.directReply == d.directReply && !Recommends(e))
  {
    var e := AgentInferred(d);
    assert SameCourse(d, e) && e.directReply == d.directReply;
    if e.fullAgent {
      WantedProfileKeeps(ReplyCleared(e), profiles);
    } else {
      UnrecommendedKeeps(e);
    }
  }

  lemma UnrecommendedKeeps(d: Decision)
    requires !d.fullAgent && !d.outcome.Silent? && !d.outcome.OtherOutcome?
      && (NeedsAgent(d.outcome) ==> Given(d.directReply))
    ensures var e := Unrecommended(d);
      SameCourse(d, e) && e.fullAgent == d.fullAgent && e.directReply == d.directReply && !Recommends(e)
  {
  }

  lemma WantedProfileKeeps(d: Decision, profiles: seq<Profile>)
    ensures var e := WithWantedProfile(d, profiles);
      && SameCourse(d, e) && e.fullAgent == d.fullAgent && e.directReply == d.directReply
      && (AllStrengths(profiles) ==> IsAdvertised(e, profiles))
  {
    var found := FirstOf(profiles, WantedStrength(d));
    if found.Some? {
      PickedIsAdvertised(d, found.value, "policy.canonical_agent_profile", profiles);
    }
  }

  lemma PickedIsAdvertised(d: Decision, p: Profile, reason: string, profiles: seq<Profile>)
    requires p in profiles
    ensures IsAdvertised(WithProfile(d, p, reason), profiles)
  {
    assert p == Profile(p.id, p.strength, p.effort);
  }

  lemma FloorKeeps(d: Decision, sensitive: bool, profiles: seq<Profile>)
    ensures var e := WithBackgroundFloor(d, sensitive, profiles);
      && SameCourse(d, e) && e.fullAgent == d.fullAgent && e.directReply == d.directReply
      && (IsAdvertised(d, profiles) ==> IsAdvertised(e, profiles))
      && (!d.outcome.StartBackgroundJob? ==> e == d)
  {
    var found := FirstOf(profiles, if sensitive then Strong else Standard);
    if found.Some? {
      PickedIsAdvertised(d, found.value, "policy.background_profile_floor", profiles);
    }
  }

  /** Corrections pick from the advertised profiles, and touch neither the outcome nor the confidence. */
  lemma ProfileIsSettled(d: Decision, sensitive: bool, profiles: seq<Profile>)
    requires AllStrengths(profiles) && !d.outcome.Silent? && !d.outcome.OtherOutcome?
    ensures var e := WithBackgroundFloor(WithCanonicalProfile(d, profiles), sensitive, profiles);
      && SameCourse(d, e)
      && (e.fullAgent <==> d.fullAgent || (NeedsAgent(d.outcome) && !Given(d.directReply)))
      && (e.fullAgent ==> !Given(e.directReply) && IsAdvertised(e, profiles))
      && (!e.fullAgent ==> e.directReply == d.directReply && (Recommends(e) ==> e.outcome.StartBackgroundJob?))
  {
    CanonicalProfile(d, profiles);
    FloorKeeps(WithCanonicalProfile(d, profiles), sensitive, profiles);
  }

  /** The reaction ends up on the list unless it is the provider's own and is not. */
  lemma ReactionIsSettled(d: Decision, provider: Emoji, reactions: seq<Emoji>)
    requires reactions != [] && !d.outcome.Silent?
    ensures var e := WithDefaultReaction(WithAllowedReaction(d, provider, reactions), reactions);
      && e == d.(reaction := e.reaction, reasons := e.reasons)
      && (e.reaction in reactions <==> d.reaction.NoEmoji? || d.reaction != provider || d.reaction in reactions)
      && (d.reaction in reactions && !d.reaction.NoEmoji? ==> e == d)
  {
  }

  /** With all three strengths advertised and a non-empty list, a recommendation of any of the six outcomes
      is accepted unless the provider's own reaction is off the list, or a direct reply survives with an
      outcome that is no reply. It survives exactly when no full agent is asked for. */
  lemma AcceptedExactly(d: Decision, sensitive: bool, provider: Emoji, profiles: seq<Profile>, reactions: seq<Emoji>)
    requires AllStrengths(profiles) && reactions != [] && !d.outcome.OtherOutcome?
    ensures Rejected(Tail(d, sensitive, provider, profiles, reactions), profiles, reactions).None? <==>
      d.outcome.Silent?
      || (!(!d.reaction.NoEmoji? && d.reaction == provider && d.reaction !in reactions)
          && !(Given(d.directReply) && !d.fullAgent && !d.outcome.ReplyInChannel? && !d.outcome.ReplyInThread?))
  {
    if !d.outcome.Silent? {
      ProfileIsSettled(d, sensitive, profiles);
      ReactionIsSettled(WithBackgroundFloor(WithCanonicalProfile(d, profiles), sensitive, profiles),
                        provider, reactions);
    }
  }

  /** An accepted recommendation is a fixed point: correcting it again changes nothing. */
  lemma TailTwice(d: Decision, sensitive: bool, provider: Emoji, profiles: seq<Profile>, reactions: seq<Emoji>)
    requires AllStrengths(profiles) && reactions != [] && NoEmoji !in reactions && !d.outcome.OtherOutcome?
    requires Rejected(Tail(d, sensitive, provider, profiles, reactions), profiles, reactions).None?
    ensures var e := Tail(d, sensitive, provider, profiles, reactions);
      Tail(e, sensitive, provider, profiles, reactions) == e
  {
    if !d.outcome.Silent? {
      ProfileIsSettled(d, sensitive, profiles);
      ReactionIsSettled(WithBackgroundFloor(WithCanonicalProfile(d, profiles), sensitive, profiles),
                        provider, reactions);
    }
  }

  /** Without all three strengths, agent work, asked for or inferred, can fail for its profile: exactly when its
      reaction ends on the list, its profile is unknown, no profile has the wanted strength, and the background
      floor finds none either. */
  lemma MissingStrengthFails(d: Decision, sensitive: bool, provider: Emoji, profiles: seq<Profile>,
                             reactions: seq<Emoji>)
    requires reactions != [] && NeedsAgent(d.outcome) && (d.fullAgent || !Given(d.directReply))
    ensures var rejected := Rejected(Tail(d, sensitive, provider, profiles, reactions), profiles, reactions);
      rejected == Some(UnknownProfile) <==>
      && (d.reaction.NoEmoji? || d.reaction != provider || d.reaction in reactions)
      && !IsAdvertised(d, profiles) && FirstOf(profiles, WantedStrength(d)).None? && !FloorHelps(d, sensitive, profiles)
  {
    CanonicalProfile(d, profiles);
    UnadvertisedExactly(d, sensitive, profiles);
    FloorKeeps(WithCanonicalProfile(d, profiles), sensitive, profiles);
    ReactionIsSettled(WithBackgroundFloor(WithCanonicalProfile(d, profiles), sensitive, profiles), provider, reactions);
  }

  lemma UnadvertisedExactly(d: Decision, sensitive: bool, profiles: seq<Profile>)
    requires NeedsAgent(d.outcome) && (d.fullAgent || !Given(d.directReply))
    ensures !IsAdvertised(WithBackgroundFloor(WithCanonicalProfile(d, profiles), sensitive, profiles), profiles) <==>
      !IsAdvertised(d, profiles) && FirstOf(profiles, WantedStrength(d)).None? && !FloorHelps(d, sensitive, profiles)
  {
    var e := WithCanonicalProfile(d, profiles);
    assert !IsAdvertised(e, profiles) <==> !IsAdvertised(d, profiles) && FirstOf(profiles, WantedStrength(d)).None?;
    assert !IsAdvertised(e, profiles) ==> e.strength == d.strength && e.outcome == d.outcome;
    FloorKeeps(e, sensitive, profiles);
  }

  /** The background floor asks for another strength, and finds it. */
  predicate FloorHelps(d: Decision, sensitive: bool, profiles: seq<Profile>) {
    d.outcome.StartBackgroundJob?
    && (if sensitive then !d.strength.Strong? else !d.strength.Standard? && !d.strength.Strong?)
    && FirstOf(profiles, if sensitive then Strong else Standard).Some?
  }
}
