/** The decision gate (core/classifier/service.go). The text heuristics are arbitrary readings of the
    message; the classifier may answer anything, or fail. */
module ClassifierGate {
  import opened Prelude
  import opened ReplyText

  type Id = nat

  datatype Outcome = Silent | React | ReplyInThread | ReplyInChannel | StartBackgroundJob
    | EscalateForApproval | OtherOutcome

  /** A floating-point confidence: not every one is a number. */
  datatype Confidence = NotANumber | Number(value: real)

  datatype Disclosure = NoClass | DestinationSafe | RestrictedAwareness | OtherClass

  datatype Strength = NoStrength | NoneStrength | Light | Standard | Strong | OtherStrength
  datatype Effort = NoEffort | Medium | High | XHigh | Max | OtherEffort

  /** Fixed emoji by name; `Named` holds any other. */
  datatype Emoji = NoEmoji | Eyes | SpeechBalloon | WhiteCheckMark | ThinkingFace | Named(name: string)

  /** The reason codes the gate itself gives; `Stated` holds any other. */
  datatype Reason =
    | KillSwitch | SelfMessage | WorkflowLoop | Deleted | AmbientLinkOnly | UnsupportedSubtype | IntegrationMessage
    | ThirdPartyAddress | ChannelMode | ShadowMode | UnsolicitedAssistWork | ClassifierError | ClassifierInvalid
    | InvalidDirectReply | LowConfidence | DirectReplyThreshold | ChannelReplyThreshold | DisclosureDenied
    | EvidencePruned | ReplyPlacement | ExplicitThread | ExplicitChannel | SubstantialThread | BriefChannel | DeepThread
    | ActivePlacement | ActiveReply | SourceWriteSilent | SourceWriteReply | SocialReplied | DirectMessageReplied
    | BriefReply(direct: bool) | DeeperReply(direct: bool)
    | ProviderErrorFallback | FaultFallback(fault: Fault) | ReplyThresholdFallback | ReplyInvalidFallback
    | NonActionFallback
    | Stated(code: string)

  datatype Fault =
    | BadConfidence | BadOutcome | NoReason | BadReaction | ReplyWithAgent | BadReplyText | AgentRequired
    | BadEvidence | BadSignal

  datatype Decision = Decision(
    outcome: Outcome, confidence: Confidence, reasons: seq<Reason>, directReply: Reply, disclosure: Disclosure,
    fullAgent: bool, reaction: Emoji, profile: Id, strength: Strength, effort: Effort, releasable: seq<Id>,
    restricted: seq<Id>, sourceWrite: bool, productRetrieval: bool)

  datatype Source = Source(id: Id, disclosure: Disclosure)

  datatype Mode = Observe | MentionOnly | Assist | OtherMode

  /** What the heuristics make of the message. */
  datatype Reading = Reading(
    question: bool, explicitRequest: bool, addressesTag: bool, leadingAddress: bool, social: bool, privateSocial: bool,
    socialKind: Social, wantsThread: Option<bool>, brief: bool, deep: bool, status: bool, likelyAddressed: bool,
    aligned: bool, missingLocation: bool)

  datatype Target = Target(
    mode: Mode, mention: bool, directMessage: bool, activeThread: bool, authorizedTrigger: bool, killSwitched: bool,
    workflowLoop: bool, unsupported: bool, deleted: bool, ambientLinkOnly: bool, selfAuthored: bool, integration: bool,
    text: Reading)

  datatype Result = Result(predicted: Decision, effective: Decision, shadowed: bool)

  datatype Answer = Answer(decision: Decision, failed: bool)

  datatype Service = Service(shadow: bool, assistThreshold: real, channelThreshold: real)

  predicate Below(c: Confidence, bound: real) {
    c.Number? && c.value < bound
  }

  predicate AtLeast(c: Confidence, bound: real) {
    c.Number? && c.value >= bound
  }

  // ---------------------------------------------------------------- validity

  predicate ValidName(name: string) {
    name != "" && forall c :: c in name ==> 'a' <= c <= 'z' || '0' <= c <= '9' || c == '_' || c == '-' || c == '+'
  }

  function NameOf(emoji: Emoji): string {
    match emoji
    case NoEmoji => ""
    case Eyes => "eyes"
    case SpeechBalloon => "speech_balloon"
    case WhiteCheckMark => "white_check_mark"
    case ThinkingFace => "thinking_face"
    case Named(name) => name
  }

  /** The fixed emoji are valid, which `FixedEmojiAreValid` shows. */
  predicate ValidEmoji(emoji: Emoji) {
    match emoji
    case NoEmoji => false
    case Named(name) => ValidName(name)
    case _ => true
  }

  lemma FixedEmojiAreValid(emoji: Emoji, name: string)
    requires name == NameOf(emoji)
    ensures ValidEmoji(emoji) <==> ValidName(name)
  {
  }

  predicate NeedsAgent(o: Outcome) {
    o in {ReplyInThread, ReplyInChannel, StartBackgroundJob, EscalateForApproval}
  }

  predicate NeedsEvidence(o: Outcome) {
    o in {ReplyInThread, ReplyInChannel, StartBackgroundJob}
  }

  /** The class of the last source with this identifier. */
  function ClassOf(pack: seq<Source>, id: Id): Disclosure {
    if pack == [] then NoClass
    else if pack[|pack| - 1].id == id then pack[|pack| - 1].disclosure
    else ClassOf(pack[..|pack| - 1], id)
  }

  predicate AllOfClass(pack: seq<Source>, ids: seq<Id>, wanted: Disclosure) {
    forall id :: id in ids ==> ClassOf(pack, id) == wanted
  }

  predicate RecommendsNoAgent(d: Decision) {
    !d.fullAgent && d.profile == 0 && (d.strength.NoStrength? || d.strength.NoneStrength?) && d.effort.NoEffort?
  }

  predicate ValidDirectReply(d: Decision) {
    (d.outcome.ReplyInThread? || d.outcome.ReplyInChannel?) && RecommendsNoAgent(d) && ValidReply(d.directReply)
  }

  predicate Valid(d: Decision, pack: seq<Source>) {
    && !(d.confidence.Number? && (d.confidence.value < 0.0 || d.confidence.value > 1.0))
    && !d.outcome.OtherOutcome? && d.reasons != []
    && (d.outcome.Silent? || ValidEmoji(d.reaction))
    && (if Given(d.directReply) then ValidDirectReply(d) else NeedsAgent(d.outcome) ==> d.fullAgent)
    && AllOfClass(pack, d.releasable, DestinationSafe) && AllOfClass(pack, d.restricted, RestrictedAwareness)
  }

  // ---------------------------------------------------------------- sanitizing and placement

  function Keep(pack: seq<Source>, ids: seq<Id>, wanted: Disclosure): seq<Id> {
    if ids == [] then []
    else if ClassOf(pack, ids[|ids| - 1]) == wanted then Keep(pack, ids[..|ids| - 1], wanted) + [ids[|ids| - 1]]
    else Keep(pack, ids[..|ids| - 1], wanted)
  }

  function Sanitized(d: Decision, pack: seq<Source>): Decision {
    var releasable := Keep(pack, d.releasable, DestinationSafe);
    var restricted := Keep(pack, d.restricted, RestrictedAwareness);
    d.(releasable := releasable, restricted := restricted,
       reasons := if releasable == d.releasable && restricted == d.restricted then d.reasons
                  else d.reasons + [EvidencePruned])
  }

  lemma {:induction false} KeepKeeps(pack: seq<Source>, ids: seq<Id>, wanted: Disclosure)
    ensures AllOfClass(pack, Keep(pack, ids, wanted), wanted)
    ensures |Keep(pack, ids, wanted)| <= |ids|
    ensures Keep(pack, ids, wanted) == ids <==> AllOfClass(pack, ids, wanted)
  {
    if ids != [] {
      KeepKeeps(pack, ids[..|ids| - 1], wanted);
      assert ids == ids[..|ids| - 1] + [ids[|ids| - 1]];
      if ClassOf(pack, ids[|ids| - 1]) == wanted {
        assert Keep(pack, ids, wanted)[..|Keep(pack, ids, wanted)| - 1] == Keep(pack, ids[..|ids| - 1], wanted);
      }
    }
  }

  /** Sanitizing leaves only evidence of the right class, in order, and touches nothing that is right. */
  lemma SanitizedEvidence(d: Decision, pack: seq<Source>)
    ensures var t := Sanitized(d, pack);
      && AllOfClass(pack, t.releasable, DestinationSafe) && AllOfClass(pack, t.restricted, RestrictedAwareness)
      && (t == d <==>
          AllOfClass(pack, d.releasable, DestinationSafe) && AllOfClass(pack, d.restricted, RestrictedAwareness))
      && Sanitized(t, pack) == t
  {
    KeepKeeps(pack, d.releasable, DestinationSafe);
    KeepKeeps(pack, d.restricted, RestrictedAwareness);
    KeepKeeps(pack, Keep(pack, d.releasable, DestinationSafe), DestinationSafe);
    KeepKeeps(pack, Keep(pack, d.restricted, RestrictedAwareness), RestrictedAwareness);
  }

  method Prune(pack: seq<Source>, ids: seq<Id>, wanted: Disclosure) returns (kept: seq<Id>, pruned: bool)
    ensures kept == Keep(pack, ids, wanted) && (pruned <==> kept != ids)
  {
    kept, pruned := [], false;
    for i := 0 to |ids|
      invariant kept == Keep(pack, ids[..i], wanted) && (pruned <==> kept != ids[..i]) && |kept| <= i
    {
      assert ids[..i + 1][..i] == ids[..i];
      assert ids[..i + 1] == ids[..i] + [ids[i]];
      KeepKeeps(pack, ids[..i + 1], wanted);
      KeepKeeps(pack, ids[..i], wanted);
      if ClassOf(pack, ids[i]) == wanted {
        kept := kept + [ids[i]];
      } else {
        pruned := true;
      }
    }
    assert ids[..|ids|] == ids;
  }

  function WithOutcome(d: Decision, outcome: Outcome, reason: Reason): Decision {
    if d.outcome == outcome then d else d.(outcome := outcome, reasons := d.reasons + [reason])
  }

  /** A direct reply stays in the thread of an active thread, and in the channel otherwise. */
  function ReplyPlaced(d: Decision, target: Target): Decision {
    if !Given(d.directReply) then d
    else WithOutcome(d, if target.activeThread then ReplyInThread else ReplyInChannel, ReplyPlacement)
  }

  predicate Substantial(d: Decision) {
    d.fullAgent && (d.strength.Strong? || d.effort in {High, XHigh, Max})
  }

  function MentionPlaced(d: Decision, text: Reading): Decision {
    if d.sourceWrite then d
    else if text.wantsThread.Some? then
      (if text.wantsThread.value then WithOutcome(d, ReplyInThread, ExplicitThread)
       else WithOutcome(d, ReplyInChannel, ExplicitChannel))
    else if Substantial(d) && (d.outcome.ReplyInChannel? || d.outcome.ReplyInThread?) then
      WithOutcome(d, ReplyInThread, SubstantialThread)
    else if d.productRetrieval then d
    else if d.outcome.ReplyInThread? && text.brief then WithOutcome(d, ReplyInChannel, BriefChannel)
    else if d.outcome.ReplyInChannel? && text.deep then WithOutcome(d, ReplyInThread, DeepThread)
    else d
  }

  predicate IsSocial(target: Target) {
    target.text.social || (target.directMessage && target.text.privateSocial)
  }

  /** Which direct replies may be sent to whom. */
  predicate ReplyAllowed(d: Decision, target: Target) {
    && Given(d.directReply)
    && ((target.text.likelyAddressed && target.text.missingLocation
         && TextOf(d.directReply) == TextOf(LocationQuestion))
        || (target.directMessage && TextOf(d.directReply) == TextOf(Clarification)) || IsSocial(target))
    && !d.fullAgent && d.releasable == [] && d.restricted == [] && d.disclosure.DestinationSafe?
    && d.outcome == (if target.activeThread then ReplyInThread else ReplyInChannel)
    && ValidReply(d.directReply)
  }

  predicate SilencedForSourceWrite(d: Decision) {
    d.outcome.Silent? && d.sourceWrite && SourceWriteSilent in d.reasons
  }

  // ---------------------------------------------------------------- fixed decisions

  function Quiet(reason: Reason): Decision {
    Decision(Silent, Number(1.0), [reason], NoReply, DestinationSafe, false, NoEmoji, 0, NoStrength, NoEffort, [],
             [], false, false)
  }

  function AgentFallback(outcome: Outcome, reason: Reason): Decision {
    Decision(outcome, Number(1.0), [reason], NoReply, DestinationSafe, true, Eyes, 0, NoStrength, NoEffort, [],
             [], false, false)
  }

  function ReplyFallback(outcome: Outcome, reason: Reason, reply: Reply, reaction: Emoji): Decision {
    Decision(outcome, Number(1.0), [reason], reply, DestinationSafe, false, reaction, 0, NoneStrength, NoEffort, [],
             [], false, false)
  }

  function Because(d: Decision, reason: Reason): Decision {
    d.(reasons := d.reasons + [reason])
  }

  function SourceWriteFallback(threaded: bool): Decision {
    ReplyFallback(if threaded then ReplyInThread else ReplyInChannel, SourceWriteReply,
                  SourceWriteRefusal, SpeechBalloon)
  }

  function SocialFallback(text: Reading, threaded: bool): Decision {
    ReplyFallback(if threaded then ReplyInThread else ReplyInChannel, SocialReplied,
                  SocialReply(text.socialKind),
                  if text.socialKind in {Help, Praise, Gratitude} then WhiteCheckMark else SpeechBalloon)
  }

  function MentionFallback(target: Target): Decision {
    var text := target.text;
    if text.wantsThread.Some? then
      (if text.wantsThread.value then AgentFallback(ReplyInThread, ExplicitThread)
       else AgentFallback(ReplyInChannel, ExplicitChannel))
    else if text.brief then
      AgentFallback(ReplyInChannel, BriefReply(target.directMessage))
    else
      AgentFallback(ReplyInThread, DeeperReply(target.directMessage))
  }

  // ---------------------------------------------------------------- prediction

  function PredictActive(s: Service, target: Target, pack: seq<Source>, answer: Answer): Decision {
    var d := ReplyPlaced(Sanitized(answer.decision, pack), target);
    var usable := !answer.failed && Valid(d, pack);
    if usable && SilencedForSourceWrite(d) then (if target.directMessage then SourceWriteFallback(true) else d)
    else if usable && !d.outcome.Silent? && !d.outcome.React? && !Given(d.directReply) then
      WithOutcome(d, if d.outcome.ReplyInChannel? then ReplyInThread else d.outcome, ActivePlacement)
    else if usable && !d.outcome.Silent? && !d.outcome.React? && AtLeast(d.confidence, s.assistThreshold)
      && ReplyAllowed(d, target) then d
    else if target.text.social then SocialFallback(target.text, true)
    else AgentFallback(ReplyInThread, ActiveReply)
  }

  /** The reason recorded for an invalid decision, by its first fault. The text of a misplaced direct reply
      mentions an outcome, and is taken for an invalid outcome. */
  function FaultOf(d: Decision, pack: seq<Source>): Fault {
    if d.confidence.Number? && (d.confidence.value < 0.0 || d.confidence.value > 1.0) then BadConfidence
    else if d.outcome.OtherOutcome? then BadOutcome
    else if d.reasons == [] then NoReason
    else if !d.outcome.Silent? && !ValidEmoji(d.reaction) then BadReaction
    else if Given(d.directReply) && !d.outcome.ReplyInThread? && !d.outcome.ReplyInChannel? then BadOutcome
    else if Given(d.directReply) && !RecommendsNoAgent(d) then
      ReplyWithAgent
    else if Given(d.directReply) && !ValidReply(d.directReply) then BadReplyText
    else if !Given(d.directReply) && NeedsAgent(d.outcome) && !d.fullAgent then AgentRequired
    else if !AllOfClass(pack, d.releasable, DestinationSafe) then BadEvidence
    else BadSignal
  }

  function FallbackReason(s: Service, target: Target, pack: seq<Source>, answer: Answer, d: Decision): Reason {
    if answer.failed then ProviderErrorFallback
    else if !Valid(d, pack) then FaultFallback(FaultOf(d, pack))
    else if Given(d.directReply) && Below(d.confidence, s.channelThreshold) then ReplyThresholdFallback
    else if Given(d.directReply) && !ReplyAllowed(d, target) then ReplyInvalidFallback
    else NonActionFallback
  }

  function AddressedFallback(s: Service, target: Target, pack: seq<Source>, answer: Answer, d: Decision): Decision {
    if IsSocial(target) then SocialFallback(target.text, false)
    else if target.directMessage && !target.text.question && !target.text.explicitRequest then
      Because(ReplyFallback(ReplyInChannel, DirectMessageReplied, Clarification, SpeechBalloon),
              if answer.failed || !Valid(d, pack) then FallbackReason(s, target, pack, answer, d)
              else NonActionFallback)
    else Because(MentionFallback(target), FallbackReason(s, target, pack, answer, d))
  }

  function Placed(target: Target, pack: seq<Source>, answer: Answer): Decision {
    var placed := ReplyPlaced(Sanitized(answer.decision, pack), target);
    if target.mention then MentionPlaced(placed, target.text) else placed
  }

  function PredictAddressed(s: Service, target: Target, pack: seq<Source>, answer: Answer): Decision {
    var d := Placed(target, pack, answer);
    var usable := !answer.failed && Valid(d, pack);
    if usable && SilencedForSourceWrite(d) then (if target.directMessage then SourceWriteFallback(false) else d)
    else if usable && !d.outcome.Silent? && !d.outcome.React?
            && (!Given(d.directReply) || (AtLeast(d.confidence, s.channelThreshold) && ReplyAllowed(d, target))) then d
    else AddressedFallback(s, target, pack, answer, d)
  }

  /** The thresholds of ambient output, in the channel and in general, and the ban on restricted evidence alone. */
  function AmbientGate(s: Service, d: Decision): Decision {
    var confident := if !d.outcome.Silent? && Below(d.confidence, s.assistThreshold) then Quiet(LowConfidence) else d;
    var placed :=
      if confident.outcome.ReplyInChannel? && Below(confident.confidence, s.channelThreshold) then
        (if Given(confident.directReply) then Quiet(DirectReplyThreshold)
         else WithOutcome(confident, ReplyInThread, ChannelReplyThreshold))
      else confident;
    if !Given(placed.directReply) && NeedsEvidence(placed.outcome) && placed.releasable == [] && placed.restricted != []
    then Quiet(DisclosureDenied)
    else placed
  }

  function PredictAmbient(s: Service, target: Target, pack: seq<Source>, answer: Answer): Decision {
    if answer.failed then Quiet(ClassifierError)
    else
      var d := ReplyPlaced(Sanitized(answer.decision, pack), target);
      if !Valid(d, pack) then Quiet(ClassifierInvalid)
      else if Given(d.directReply) && !ReplyAllowed(d, target) then Quiet(InvalidDirectReply)
      else AmbientGate(s, d)
  }

  /** The channel only answers mentions, and this is none: the classifier is not asked. */
  predicate MentionModeSkips(target: Target) {
    target.mode.MentionOnly? && !target.activeThread && !target.mention && !target.directMessage
  }

  function Predict(s: Service, target: Target, pack: seq<Source>, answer: Answer): Decision {
    if target.activeThread then PredictActive(s, target, pack, answer)
    else if target.mention || target.directMessage then PredictAddressed(s, target, pack, answer)
    else if target.mode.MentionOnly? then Quiet(ChannelMode)
    else PredictAmbient(s, target, pack, answer)
  }

  // ---------------------------------------------------------------- admission

  predicate ThirdParty(target: Target) {
    target.activeThread && !target.mention && !target.directMessage && !target.text.addressesTag
      && target.text.leadingAddress
  }

  function Suppression(target: Target): Option<Reason> {
    if target.killSwitched then Some(KillSwitch)
    else if target.selfAuthored then Some(SelfMessage)
    else if target.workflowLoop then Some(WorkflowLoop)
    else if target.deleted then Some(Deleted)
    else if target.ambientLinkOnly then Some(AmbientLinkOnly)
    else if target.unsupported then Some(UnsupportedSubtype)
    else if target.integration && !target.authorizedTrigger then Some(IntegrationMessage)
    else if ThirdParty(target) then Some(ThirdPartyAddress)
    else None
  }

  predicate InitiativeAuthorized(target: Target, d: Decision) {
    !ThirdParty(target)
    && (target.mention || target.directMessage || target.activeThread || target.authorizedTrigger
        || target.text.addressesTag
        || target.text.question
        || ((target.text.likelyAddressed || d.productRetrieval) && target.text.explicitRequest)
        || (target.text.status && d.releasable != []) || target.text.aligned)
  }

  function Suppress(r: Result, reason: Reason): Result {
    Result(r.predicted, Quiet(reason), !r.predicted.outcome.Silent?)
  }

  function EnforceParticipation(r: Result, target: Target): Result {
    if !target.mode.Assist? || !NeedsAgent(r.effective.outcome) || InitiativeAuthorized(target, r.effective) then r
    else Suppress(r, UnsolicitedAssistWork)
  }

  function Decide(s: Service, target: Target, pack: seq<Source>, answer: Answer): Result {
    var suppressed := Suppression(target);
    if suppressed.Some? then Result(Quiet(suppressed.value), Quiet(suppressed.value), false)
    else if target.mode.Observe? then
      (if s.shadow then
         var predicted := Predict(s, target.(mode := Assist), pack, answer);
         Result(predicted, Quiet(ChannelMode), !predicted.outcome.Silent?)
       else Result(Quiet(ChannelMode), Quiet(ChannelMode), false))
    else
      var predicted := Predict(s, target, pack, answer);
      if target.mention || target.directMessage || target.activeThread || predicted.outcome.Silent? then
        Result(predicted, predicted, false)
      else if s.shadow then Result(predicted, Quiet(ShadowMode), true)
      else EnforceParticipation(Result(predicted, predicted, false), target)
  }

  predicate RequiresProviderCall(s: Service, target: Target) {
    Suppression(target).None? && (!target.mode.Observe? || s.shadow)
  }

  // ---------------------------------------------------------------- what every decision satisfies

  lemma ActiveIsValid(s: Service, target: Target, pack: seq<Source>, answer: Answer)
    ensures Valid(PredictActive(s, target, pack, answer), pack)
  {
  }

  lemma AddressedFallbackIsSound(s: Service, target: Target, pack: seq<Source>, answer: Answer, d: Decision)
    ensures var f := AddressedFallback(s, target, pack, answer, d);
      Valid(f, pack) && Answers(f) && (!target.activeThread ==> ReplyStaysPut(f, target))
  {
  }

  lemma AddressedIsValid(s: Service, target: Target, pack: seq<Source>, answer: Answer)
    ensures Valid(PredictAddressed(s, target, pack, answer), pack)
  {
    AddressedFallbackIsSound(s, target, pack, answer, Placed(target, pack, answer));
  }

  lemma GateKeeps(s: Service, d: Decision, pack: seq<Source>)
    requires Valid(d, pack)
    ensures var g := AmbientGate(s, d);
      && Valid(g, pack)
      && (|| g == d || g.outcome.Silent?
          || (g == WithOutcome(d, ReplyInThread, ChannelReplyThreshold) && !Given(d.directReply)))
  {
  }

  lemma AmbientIsValid(s: Service, target: Target, pack: seq<Source>, answer: Answer)
    ensures Valid(PredictAmbient(s, target, pack, answer), pack)
  {
    var d := ReplyPlaced(Sanitized(answer.decision, pack), target);
    if Valid(d, pack) {
      GateKeeps(s, d, pack);
    }
  }

  lemma PredictionIsValid(s: Service, target: Target, pack: seq<Source>, answer: Answer)
    ensures Valid(Predict(s, target, pack, answer), pack)
  {
    ActiveIsValid(s, target, pack, answer);
    AddressedIsValid(s, target, pack, answer);
    AmbientIsValid(s, target, pack, answer);
  }

  /** Whatever the classifier answers, both decisions are valid against the pack. */
  lemma DecisionsAreValid(s: Service, target: Target, pack: seq<Source>, answer: Answer)
    ensures Valid(Decide(s, target, pack, answer).predicted, pack)
      && Valid(Decide(s, target, pack, answer).effective, pack)
  {
    PredictionIsValid(s, target, pack, answer);
    PredictionIsValid(s, target.(mode := Assist), pack, answer);
  }

  /** An active thread is never answered in the channel. */
  lemma ActiveThreadStaysInThread(s: Service, target: Target, pack: seq<Source>, answer: Answer)
    requires target.activeThread
    ensures !Decide(s, target, pack, answer).predicted.outcome.ReplyInChannel?
    ensures !Decide(s, target, pack, answer).effective.outcome.ReplyInChannel?
  {
  }

  /** Observe mode, shadowing of ambient messages and hard suppression are silent; and in a shadowed run
      the flag says whether something would have happened. */
  lemma SilenceIsAbsolute(s: Service, target: Target, pack: seq<Source>, answer: Answer)
    requires target.mode.Observe? || Suppression(target).Some?
             || (s.shadow && !target.mention && !target.directMessage && !target.activeThread)
    ensures Decide(s, target, pack, answer).effective.outcome.Silent?
    ensures Decide(s, target, pack, answer).shadowed <==> !Decide(s, target, pack, answer).predicted.outcome.Silent?
  {
  }

  predicate Answers(d: Decision) {
    !d.outcome.Silent? && !d.outcome.React?
  }

  lemma AddressedAnswers(s: Service, target: Target, pack: seq<Source>, answer: Answer)
    requires target.directMessage
    ensures Answers(PredictAddressed(s, target, pack, answer))
  {
    AddressedFallbackIsSound(s, target, pack, answer, Placed(target, pack, answer));
  }

  lemma ActiveAnswers(s: Service, target: Target, pack: seq<Source>, answer: Answer)
    requires target.directMessage
    ensures Answers(PredictActive(s, target, pack, answer))
  {
  }

  /** A direct message that is neither suppressed nor merely observed always gets a real answer. */
  lemma DirectMessagesAreAnswered(s: Service, target: Target, pack: seq<Source>, answer: Answer)
    requires target.directMessage && Suppression(target).None? && !target.mode.Observe?
    ensures Answers(Decide(s, target, pack, answer).effective)
  {
    AddressedAnswers(s, target, pack, answer);
    ActiveAnswers(s, target, pack, answer);
  }

  /** A direct reply carries no agent work and no evidence, is safe for its destination, and stays in the
      thread exactly when the thread is active. */
  predicate ReplyStaysPut(d: Decision, target: Target) {
    Given(d.directReply) ==>
      RecommendsNoAgent(d) && d.releasable == [] && d.restricted == [] && d.disclosure.DestinationSafe?
      && d.outcome == (if target.activeThread then ReplyInThread else ReplyInChannel)
  }

  lemma DirectRepliesStayPut(s: Service, target: Target, pack: seq<Source>, answer: Answer)
    ensures ReplyStaysPut(Decide(s, target, pack, answer).predicted, target)
    ensures ReplyStaysPut(Decide(s, target, pack, answer).effective, target)
  {
    DirectPredictionStaysPut(s, target, pack, answer);
    EffectiveReplyStaysPut(s, target, pack, answer);
  }

  lemma DirectPredictionStaysPut(s: Service, target: Target, pack: seq<Source>, answer: Answer)
    ensures ReplyStaysPut(Decide(s, target, pack, answer).predicted, target)
  {
    PredictedReplyStaysPut(s, target, pack, answer);
    PredictedReplyStaysPut(s, target.(mode := Assist), pack, answer);
  }

  lemma EffectiveReplyStaysPut(s: Service, target: Target, pack: seq<Source>, answer: Answer)
    ensures ReplyStaysPut(Decide(s, target, pack, answer).effective, target)
  {
    PredictedReplyStaysPut(s, target, pack, answer);
    PredictedReplyStaysPut(s, target.(mode := Assist), pack, answer);
  }

  lemma PredictedReplyStaysPut(s: Service, target: Target, pack: seq<Source>, answer: Answer)
    ensures ReplyStaysPut(Predict(s, target, pack, answer), target)
  {
    if target.activeThread {
      ActiveReplyStaysPut(s, target, pack, answer);
    } else if target.mention || target.directMessage {
      AddressedReplyStaysPut(s, target, pack, answer);
    } else {
      AmbientReplyStaysPut(s, target, pack, answer);
    }
  }

  lemma ActiveReplyStaysPut(s: Service, target: Target, pack: seq<Source>, answer: Answer)
    requires target.activeThread
    ensures ReplyStaysPut(PredictActive(s, target, pack, answer), target)
  {
  }

  lemma AddressedReplyStaysPut(s: Service, target: Target, pack: seq<Source>, answer: Answer)
    requires !target.activeThread
    ensures ReplyStaysPut(PredictAddressed(s, target, pack, answer), target)
  {
    AddressedFallbackIsSound(s, target, pack, answer, Placed(target, pack, answer));
  }

  lemma AmbientReplyStaysPut(s: Service, target: Target, pack: seq<Source>, answer: Answer)
    requires !target.activeThread
    ensures ReplyStaysPut(PredictAmbient(s, target, pack, answer), target)
  {
    var d := ReplyPlaced(Sanitized(answer.decision, pack), target);
    if Valid(d, pack) {
      GateKeeps(s, d, pack);
    }
  }

  /** Enforcing participation again changes nothing. */
  lemma EnforcingTwice(r: Result, target: Target)
    ensures EnforceParticipation(EnforceParticipation(r, target), target) == EnforceParticipation(r, target)
    ensures target.mode.Assist? && NeedsAgent(EnforceParticipation(r, target).effective.outcome) ==>
      InitiativeAuthorized(target, EnforceParticipation(r, target).effective)
  {
  }

  /** Ambient output passed every gate: not below the assist threshold, in the channel not below the channel
      threshold, and in an assist channel agent work only with an authorized initiative. A confidence that is
      no number is below nothing, so it reaches the threshold exactly when it is a number. */
  lemma AmbientOutputIsEarned(s: Service, target: Target, pack: seq<Source>, answer: Answer)
    requires !target.mention && !target.directMessage && !target.activeThread
    requires !Decide(s, target, pack, answer).effective.outcome.Silent?
    ensures var d := Decide(s, target, pack, answer).effective;
      && !answer.failed && !s.shadow && target.mode !in {Observe, MentionOnly} && Suppression(target).None?
      && !Below(d.confidence, s.assistThreshold) && d.confidence == answer.decision.confidence
      && (AtLeast(d.confidence, s.assistThreshold) <==> d.confidence.Number?)
      && (d.outcome.ReplyInChannel? ==> !Below(d.confidence, s.channelThreshold))
      && (target.mode.Assist? && NeedsAgent(d.outcome) ==> InitiativeAuthorized(target, d))
  {
  }

  // ---------------------------------------------------------------- a good answer is used

  /** The classifier answered with valid work for an agent. */
  predicate GivesWork(answer: Answer, pack: seq<Source>) {
    !answer.failed && Valid(answer.decision, pack) && !Given(answer.decision.directReply)
      && NeedsAgent(answer.decision.outcome)
  }

  /** The decision is the answer but for the place, and the answer's own reasons come first. */
  predicate Follows(e: Decision, d: Decision) {
    e == d.(outcome := e.outcome, reasons := e.reasons) && d.reasons <= e.reasons
  }

  lemma NothingToSanitize(d: Decision, pack: seq<Source>)
    requires Valid(d, pack)
    ensures Sanitized(d, pack) == d
  {
    SanitizedEvidence(d, pack);
  }

  /** Where an addressed answer goes. Only a mention moves it: to the place that was asked for, heavy work to a
      thread, short questions to the channel and deep ones to a thread. */
  predicate WellPlaced(d: Decision, e: Decision, target: Target) {
    var moves, text := target.mention && !d.sourceWrite, target.text;
    && Follows(e, d) && (!moves ==> e == d)
    && (moves && text.wantsThread.Some? ==>
        e.outcome == if text.wantsThread.value then ReplyInThread else ReplyInChannel)
    && (text.wantsThread.None? && d.outcome in {StartBackgroundJob, EscalateForApproval} ==> e == d)
    && (moves && text.wantsThread.None? && d.outcome in {ReplyInThread, ReplyInChannel} ==>
          e.outcome ==
            if d.strength == Strong || d.effort in {High, XHigh, Max} then ReplyInThread
            else if d.productRetrieval then d.outcome
            else if text.brief && d.outcome == ReplyInThread then ReplyInChannel
            else if text.deep && d.outcome == ReplyInChannel then ReplyInThread
            else d.outcome)
  }

  lemma MentionIsWellPlaced(d: Decision, target: Target)
    requires d.fullAgent && NeedsAgent(d.outcome)
    ensures WellPlaced(d, if target.mention then MentionPlaced(d, target.text) else d, target)
  {
  }

  /** A mention or direct message outside a thread gets the work its answer recommends, whatever the confidence. */
  lemma AddressedAnswerIsUsed(s: Service, target: Target, pack: seq<Source>, answer: Answer)
    requires (target.mention || target.directMessage) && !target.activeThread
    requires Suppression(target).None? && !target.mode.Observe? && GivesWork(answer, pack)
    ensures var r := Decide(s, target, pack, answer);
      r.predicted == r.effective && WellPlaced(answer.decision, r.effective, target)
  {
    var d := answer.decision;
    NothingToSanitize(d, pack);
    MentionIsWellPlaced(d, target);
    assert Placed(target, pack, answer) == if target.mention then MentionPlaced(d, target.text) else d;
    MovedIsValid(d, Placed(target, pack, answer), pack);
  }

  lemma MovedIsValid(d: Decision, e: Decision, pack: seq<Source>)
    requires Valid(d, pack) && !Given(d.directReply) && NeedsAgent(d.outcome) && Follows(e, d) && NeedsAgent(e.outcome)
    ensures Valid(e, pack) && !Given(e.directReply)
  {
  }

  /** The same in an active thread, where only an answer in the channel moves, to the thread. */
  lemma ActiveAnswerIsUsed(s: Service, target: Target, pack: seq<Source>, answer: Answer)
    requires target.activeThread && Suppression(target).None? && !target.mode.Observe? && GivesWork(answer, pack)
    ensures var d, e := answer.decision, Decide(s, target, pack, answer).effective;
      && Follows(e, d) && (d.outcome != ReplyInChannel ==> e == d)
      && (d.outcome == ReplyInChannel ==> e.outcome == ReplyInThread)
  {
    NothingToSanitize(answer.decision, pack);
  }

  /** An unaddressed message gets exactly what a confident answer recommends, silence and reactions included,
      unless it rests on restricted evidence alone or, in an assist channel, on nobody's initiative. */
  lemma AmbientAnswerIsUsed(s: Service, target: Target, pack: seq<Source>, answer: Answer)
    requires !target.mention && !target.directMessage && !target.activeThread && !s.shadow
    requires Suppression(target).None? && target.mode !in {Observe, MentionOnly}
    requires !answer.failed && Valid(answer.decision, pack) && !Given(answer.decision.directReply)
    requires AtLeast(answer.decision.confidence, s.assistThreshold)
      && AtLeast(answer.decision.confidence, s.channelThreshold)
    requires NeedsEvidence(answer.decision.outcome) && answer.decision.restricted != [] ==>
      answer.decision.releasable != []
    requires target.mode.Assist? && NeedsAgent(answer.decision.outcome) ==>
      target.authorizedTrigger || target.text.addressesTag || target.text.question || target.text.aligned
    ensures Decide(s, target, pack, answer).effective == answer.decision
  {
    NothingToSanitize(answer.decision, pack);
  }

  /** A reply the classifier words itself is sent as it stands, if it is one that may be sent and the classifier
      is sure enough: of a thread by the lower threshold, outside by the higher. */
  lemma AllowedReplyIsSent(s: Service, target: Target, pack: seq<Source>, answer: Answer)
    requires Suppression(target).None? && !target.mode.Observe?
    requires target.mention || target.directMessage || target.activeThread
    requires !answer.failed && Valid(answer.decision, pack) && ReplyAllowed(answer.decision, target)
    requires AtLeast(answer.decision.confidence, if target.activeThread then s.assistThreshold else s.channelThreshold)
    requires target.mention && !target.activeThread ==>
      answer.decision.sourceWrite
        || (target.text.wantsThread.None? && !(target.text.deep && !answer.decision.productRetrieval))
    ensures Decide(s, target, pack, answer).effective == answer.decision
  {
    NothingToSanitize(answer.decision, pack);
  }

  /** When there is no usable answer, a mention still gets an agent, in the place that was asked for or that
      suits the question, and the last reason says what was wrong. */
  lemma MentionWithoutAnswer(s: Service, target: Target, pack: seq<Source>, answer: Answer)
    requires target.mention && !target.directMessage && !target.activeThread && !target.text.social
    requires Suppression(target).None? && !target.mode.Observe? && answer.failed
    ensures var e := Decide(s, target, pack, answer).effective;
      && e.fullAgent && e.confidence == Number(1.0) && !Given(e.directReply) && e.reaction == Eyes
      && e.outcome == (if target.text.wantsThread == Some(true) then ReplyInThread
                       else if target.text.wantsThread == Some(false) || target.text.brief then ReplyInChannel
                       else ReplyInThread)
      && e.reasons[|e.reasons| - 1] == ProviderErrorFallback
  {
  }

  /** The same for small talk: it is returned in kind, with the reply that belongs to it. */
  lemma SmallTalkWithoutAnswer(s: Service, target: Target, pack: seq<Source>, answer: Answer)
    requires (target.mention || target.directMessage || target.activeThread) && target.text.social
    requires Suppression(target).None? && !target.mode.Observe? && answer.failed
    ensures var e := Decide(s, target, pack, answer).effective;
      && e.directReply == SocialReply(target.text.socialKind) && !e.fullAgent
      && e.outcome == (if target.activeThread then ReplyInThread else ReplyInChannel)
      && e.reaction == (if target.text.socialKind in {Help, Praise, Gratitude} then WhiteCheckMark else SpeechBalloon)
  {
  }

  /** A reply of these words is called for by this message. */
  predicate CalledFor(target: Target, text: string) {
    || target.text.social || (target.directMessage && target.text.privateSocial)
    || (target.text.likelyAddressed && target.text.missingLocation && text == TextOf(LocationQuestion))
    || (target.directMessage && (text == TextOf(Clarification) || text == TextOf(SourceWriteRefusal)))
  }

  predicate RepliesWhenCalledFor(d: Decision, target: Target) {
    Given(d.directReply) ==> CalledFor(target, TextOf(d.directReply))
  }

  lemma AllowedIsCalledFor(d: Decision, target: Target)
    requires ReplyAllowed(d, target)
    ensures CalledFor(target, TextOf(d.directReply))
  {
  }

  lemma ActiveReplyIsCalledFor(s: Service, target: Target, pack: seq<Source>, answer: Answer)
    ensures RepliesWhenCalledFor(PredictActive(s, target, pack, answer), target)
  {
    var d := ReplyPlaced(Sanitized(answer.decision, pack), target);
    if ReplyAllowed(d, target) {
      AllowedIsCalledFor(d, target);
    }
  }

  lemma FallbackReplyIsCalledFor(s: Service, target: Target, pack: seq<Source>, answer: Answer, d: Decision)
    ensures RepliesWhenCalledFor(AddressedFallback(s, target, pack, answer, d), target)
  {
  }

  lemma AddressedReplyIsCalledFor(s: Service, target: Target, pack: seq<Source>, answer: Answer)
    ensures RepliesWhenCalledFor(PredictAddressed(s, target, pack, answer), target)
  {
    var d := Placed(target, pack, answer);
    FallbackReplyIsCalledFor(s, target, pack, answer, d);
    if ReplyAllowed(d, target) {
      AllowedIsCalledFor(d, target);
    }
  }

  lemma AmbientReplyIsCalledFor(s: Service, target: Target, pack: seq<Source>, answer: Answer)
    ensures RepliesWhenCalledFor(PredictAmbient(s, target, pack, answer), target)
  {
    var d := ReplyPlaced(Sanitized(answer.decision, pack), target);
    if Valid(d, pack) && (Given(d.directReply) ==> ReplyAllowed(d, target)) {
      GateKeeps(s, d, pack);
      if AmbientGate(s, d).outcome.Silent? {
        SilentHasNoReply(AmbientGate(s, d), pack);
      }
      if Given(d.directReply) {
        AllowedIsCalledFor(d, target);
      }
    }
  }

  lemma SilentHasNoReply(d: Decision, pack: seq<Source>)
    requires Valid(d, pack) && d.outcome.Silent?
    ensures !Given(d.directReply)
  {
  }

  lemma PredictedReplyIsCalledFor(s: Service, target: Target, pack: seq<Source>, answer: Answer)
    ensures RepliesWhenCalledFor(Predict(s, target, pack, answer), target)
  {
    ActiveReplyIsCalledFor(s, target, pack, answer);
    AddressedReplyIsCalledFor(s, target, pack, answer);
    AmbientReplyIsCalledFor(s, target, pack, answer);
  }

  /** Whatever the classifier words, a reply goes out only where it is called for: to small talk, to a question that
      lacks its place and asks for it, or to a direct message, to say what the bot cannot do or ask what is meant. */
  lemma RepliesAreCalledFor(s: Service, target: Target, pack: seq<Source>, answer: Answer)
    ensures RepliesWhenCalledFor(Decide(s, target, pack, answer).effective, target)
  {
    PredictedReplyIsCalledFor(s, target, pack, answer);
  }

  /** What a valid decision is: a confidence between 0 and 1 if it is a number at all, an outcome, a reason, a reaction
      unless it is silent, an agent for agent work or a plain reply instead, and evidence of the right class. */
  lemma ValidMeans(d: Decision, pack: seq<Source>)
    ensures Valid(d, pack) <==>
      && (d.confidence.Number? ==> 0.0 <= d.confidence.value <= 1.0) && d.outcome != OtherOutcome && |d.reasons| > 0
      && (d.outcome != Silent ==> ValidEmoji(d.reaction))
      && (Given(d.directReply) ==>
            d.outcome in {ReplyInThread, ReplyInChannel} && ValidReply(d.directReply) && !d.fullAgent && d.profile == 0
            && d.strength in {NoStrength, NoneStrength} && d.effort == NoEffort)
      && (!Given(d.directReply)
          && d.outcome in {ReplyInThread, ReplyInChannel, StartBackgroundJob, EscalateForApproval} ==>
            d.fullAgent)
      && (forall i :: 0 <= i < |d.releasable| ==> ClassOf(pack, d.releasable[i]) == DestinationSafe)
      && (forall i :: 0 <= i < |d.restricted| ==> ClassOf(pack, d.restricted[i]) == RestrictedAwareness)
  {
    assert forall i :: 0 <= i < |d.releasable| ==> d.releasable[i] in d.releasable;
    assert forall i :: 0 <= i < |d.restricted| ==> d.restricted[i] in d.restricted;
  }

  /** An unaddressed message justifies agent work exactly if it triggers it, names the bot, asks something, asks the bot
      or about its product for something, is about the state of things it has evidence on, or fits its purpose. */
  lemma InitiativeExactly(target: Target, d: Decision)
    requires !target.mention && !target.directMessage && !target.activeThread
    ensures InitiativeAuthorized(target, d) <==>
      || target.authorizedTrigger || target.text.addressesTag || target.text.question || target.text.aligned
      || (target.text.explicitRequest && (target.text.likelyAddressed || d.productRetrieval))
      || (target.text.status && |d.releasable| > 0)
  {
  }

  /** A message is suppressed exactly for one of these facts about it, and the reason names one that holds. */
  lemma SuppressedForCause(target: Target)
    ensures Suppression(target).Some? <==>
      || target.killSwitched || target.selfAuthored || target.workflowLoop || target.deleted || target.ambientLinkOnly
      || target.unsupported || (target.integration && !target.authorizedTrigger)
      || (target.activeThread && target.text.leadingAddress && !target.mention && !target.directMessage
          && !target.text.addressesTag)
    ensures match Suppression(target)
      case Some(KillSwitch) => target.killSwitched
      case Some(SelfMessage) => target.selfAuthored
      case Some(WorkflowLoop) => target.workflowLoop
      case Some(Deleted) => target.deleted
      case Some(AmbientLinkOnly) => target.ambientLinkOnly
      case Some(UnsupportedSubtype) => target.unsupported
      case Some(IntegrationMessage) => target.integration && !target.authorizedTrigger
      case Some(ThirdPartyAddress) => target.activeThread && target.text.leadingAddress
      case Some(_) => false
      case None => true
  {
  }

  /** A plain message in the channel, about which the heuristics find nothing. */
  function Ambient(mode: Mode, authorizedTrigger: bool): Target {
    Target(mode, false, false, false, authorizedTrigger, false, false, false, false, false, false, false,
           Reading(false, false, false, false, false, false, Greeting, None, false, false, false, false, false, false))
  }

  function AgentReply(confidence: Confidence): Decision {
    Decision(ReplyInChannel, confidence, [Stated("r")], NoReply, DestinationSafe, true, Eyes, 1, Standard, Medium, [],
             [], false, false)
  }

  /** A confidence that is no number passes every pair of thresholds: the agent answers in the channel, where
      the same answer with a low enough number would have been silence. */
  lemma NotANumberPasses(s: Service, low: real)
    requires !s.shadow && 0.0 <= low <= 1.0 && low < s.assistThreshold
    ensures var target := Ambient(Assist, true);
      && Decide(s, target, [], Answer(AgentReply(NotANumber), false)).effective == AgentReply(NotANumber)
      && Decide(s, target, [], Answer(AgentReply(Number(low)), false)).effective.outcome.Silent?
  {
    assert Sanitized(AgentReply(NotANumber), []) == AgentReply(NotANumber);
    assert Sanitized(AgentReply(Number(low)), []) == AgentReply(Number(low));
  }

  // ---------------------------------------------------------------- asking the classifier

  /** The classifier, and how often it was asked. */
  class Gate {
    const service: Service
    var asked: nat

    constructor (service: Service)
      ensures this.service == service && asked == 0
    {
      this.service, asked := service, 0;
    }

    method Ask(answer: Answer) returns (given: Answer)
      modifies this`asked
      ensures given == answer && asked == old(asked) + 1
    {
      asked := asked + 1;
      return answer;
    }

    /** Asks at most once, and not at all when the channel only answers mentions and this is none. */
    method PredictFor(target: Target, pack: seq<Source>, answer: Answer) returns (d: Decision)
      modifies this`asked
      ensures d == Predict(service, target, pack, answer)
      ensures asked == old(asked) + if MentionModeSkips(target) then 0 else 1
    {
      if target.activeThread {
        var given := Ask(answer);
        return PredictActive(service, target, pack, given);
      }
      if target.mention || target.directMessage {
        var given := Ask(answer);
        return PredictAddressed(service, target, pack, given);
      }
      if target.mode.MentionOnly? {
        return Quiet(ChannelMode);
      }
      var given := Ask(answer);
      return PredictAmbient(service, target, pack, given);
    }

    /** `RequiresProviderCall` promises a call in every case but one: it also says so of a message that a
        mention-only channel skips. */
    method DecideFor(target: Target, pack: seq<Source>, answer: Answer) returns (r: Result)
      modifies this`asked
      ensures r == Decide(service, target, pack, answer)
      ensures asked == old(asked) + if RequiresProviderCall(service, target) && !MentionModeSkips(target) then 1 else 0
    {
      var suppressed := Suppression(target);
      if suppressed.Some? {
        var quiet := Quiet(suppressed.value);
        return Result(quiet, quiet, false);
      }
      if target.mode.Observe? {
        var quiet := Quiet(ChannelMode);
        if !service.shadow {
          return Result(quiet, quiet, false);
        }
        var shadowed := PredictFor(target.(mode := Assist), pack, answer);
        return Result(shadowed, quiet, !shadowed.outcome.Silent?);
      }
      var predicted := PredictFor(target, pack, answer);
      if target.mention || target.directMessage || target.activeThread || predicted.outcome.Silent? {
        return Result(predicted, predicted, false);
      }
      if service.shadow {
        return Result(predicted, Quiet(ShadowMode), true);
      }
      return EnforceParticipation(Result(predicted, predicted, false), target);
    }
  }

  /** The uncovered case occurs: for a plain message in a mention-only channel a call is promised and none
      is made. */
  method PromisedCallNotMade(service: Service, pack: seq<Source>, answer: Answer) returns (target: Target, asked: nat)
    ensures target == Ambient(MentionOnly, false) && RequiresProviderCall(service, target) && asked == 0
  {
    target := Ambient(MentionOnly, false);
    var gate := new Gate(service);
    var r := gate.DecideFor(target, pack, answer);
    asked := gate.asked;
  }
}
