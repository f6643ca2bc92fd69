/**
 * The career-coach steps (`CoachNodes` in src/nodes.py). Each step reads a
 * coach state and returns a partial update; the language model is the opaque
 * function `llm`, applied to a prompt that records which state values the
 * step put into its request (the wording of the request is not modelled).
 */
module Coach {
  import opened Wrappers
  import opened State
  import opened Text

  /** The user profile dictionary; the profile step writes only `raw_summary`. */
  type Profile = map<string, string>

  const RawSummary: string := "raw_summary"

  /** The token whose presence in the lower-cased feedback means approval. */
  const ApprovalToken: string := "approve"

  /** The coach workflow's state; every scalar key may be absent. */
  datatype CoachState = CoachState(
    messages: seq<Message>,
    userProfile: Option<Profile>,
    gapAnalysis: Option<string>,
    learningPlan: Option<string>,
    humanFeedback: Option<string>,
    revisionCount: Option<int>,
    isApproved: Option<bool>)

  /** The keys of the state dictionary. */
  datatype Key = Messages | UserProfile | GapAnalysis | LearningPlan | HumanFeedback | RevisionCount | IsApproved

  /** The keys a partial update writes. */
  function Keys(u: CoachState): set<Key> {
    (if u.messages != [] then {Messages} else {})
    + (if u.userProfile.Some? then {UserProfile} else {})
    + (if u.gapAnalysis.Some? then {GapAnalysis} else {})
    + (if u.learningPlan.Some? then {LearningPlan} else {})
    + (if u.humanFeedback.Some? then {HumanFeedback} else {})
    + (if u.revisionCount.Some? then {RevisionCount} else {})
    + (if u.isApproved.Some? then {IsApproved} else {})
  }

  /** The update that writes nothing. */
  const NoUpdate: CoachState := CoachState([], None, None, None, None, None, None)

  /** The coach state's reducer: `messages` concatenates, every other key is last-writer-wins. */
  function MergeCoach(s: CoachState, u: CoachState): (r: CoachState)
    ensures |r.messages| == |s.messages| + |u.messages|
    ensures r.messages[..|s.messages|] == s.messages
    ensures r.messages[|s.messages|..] == u.messages
    ensures u.userProfile.Some? ==> r.userProfile == u.userProfile
    ensures u.userProfile.None? ==> r.userProfile == s.userProfile
    ensures u.gapAnalysis.Some? ==> r.gapAnalysis == u.gapAnalysis
    ensures u.gapAnalysis.None? ==> r.gapAnalysis == s.gapAnalysis
    ensures u.learningPlan.Some? ==> r.learningPlan == u.learningPlan
    ensures u.learningPlan.None? ==> r.learningPlan == s.learningPlan
    ensures u.humanFeedback.Some? ==> r.humanFeedback == u.humanFeedback
    ensures u.humanFeedback.None? ==> r.humanFeedback == s.humanFeedback
    ensures u.revisionCount.Some? ==> r.revisionCount == u.revisionCount
    ensures u.revisionCount.None? ==> r.revisionCount == s.revisionCount
    ensures u.isApproved.Some? ==> r.isApproved == u.isApproved
    ensures u.isApproved.None? ==> r.isApproved == s.isApproved
  {
    CoachState(
      s.messages + u.messages,
      Replace(s.userProfile, u.userProfile),
      Replace(s.gapAnalysis, u.gapAnalysis),
      Replace(s.learningPlan, u.learningPlan),
      Replace(s.humanFeedback, u.humanFeedback),
      Replace(s.revisionCount, u.revisionCount),
      Replace(s.isApproved, u.isApproved))
  }

  /** What a step sends to the language model: the state values its request embeds. */
  datatype Prompt =
    | ProfilePrompt(userInput: string)
    | GapPrompt(profile: string)
    | PlanPrompt(gaps: string)
    | RefinePrompt(plan: string, feedback: string)

  /** The language model as an opaque text completion. */
  type Llm = Prompt -> string

  /** The model's reply as a chat message. */
  function Reply(text: string): Message {
    Message(Ai, text)
  }

  /** Profile step: summarises the last message of the log into `user_profile.raw_summary`. */
  function ProfileAnalyzer(llm: Llm, s: CoachState): (r: Result<CoachState, Error>)
    ensures r.Ok? <==> s.messages != []
    ensures r.Err? ==> r.error == IndexError
    ensures r.Ok? ==> Keys(r.value) == {Messages, UserProfile}
    ensures r.Ok? ==> r.value.userProfile.value.Keys == {RawSummary}
    ensures r.Ok? ==> r.value.messages == [Reply(r.value.userProfile.value[RawSummary])]
    ensures r.Ok? ==> r.value.userProfile.value[RawSummary] == llm(ProfilePrompt(s.messages[|s.messages| - 1].content))
  {
    if s.messages == [] then Err(IndexError)
    else
      var text := llm(ProfilePrompt(s.messages[|s.messages| - 1].content));
      Ok(NoUpdate.(userProfile := Some(map[RawSummary := text]), messages := [Reply(text)]))
  }

  /** Gap step: analyses `user_profile.raw_summary` into `gap_analysis`. */
  function GapAnalyzer(llm: Llm, s: CoachState): (r: Result<CoachState, Error>)
    ensures r.Ok? <==> s.userProfile.Some? && RawSummary in s.userProfile.value
    ensures s.userProfile.None? ==> r == Err(KeyError("user_profile"))
    ensures s.userProfile.Some? && RawSummary !in s.userProfile.value ==> r == Err(KeyError(RawSummary))
    ensures r.Ok? ==> Keys(r.value) == {Messages, GapAnalysis}
    ensures r.Ok? ==> r.value.messages == [Reply(r.value.gapAnalysis.value)]
    ensures r.Ok? ==> r.value.gapAnalysis == Some(llm(GapPrompt(s.userProfile.value[RawSummary])))
  {
    match s.userProfile
    case None => Err(KeyError("user_profile"))
    case Some(profile) =>
      if RawSummary !in profile then Err(KeyError(RawSummary))
      else
        var text := llm(GapPrompt(profile[RawSummary]));
        Ok(NoUpdate.(gapAnalysis := Some(text), messages := [Reply(text)]))
  }

  /** Plan step: turns `gap_analysis` into `learning_plan` and carries `revision_count` forward. */
  function PlanGenerator(llm: Llm, s: CoachState): (r: Result<CoachState, Error>)
    ensures r.Ok? <==> s.gapAnalysis.Some?
    ensures r.Err? ==> r.error == KeyError("gap_analysis")
    ensures r.Ok? ==> Keys(r.value) == {Messages, LearningPlan, RevisionCount}
    ensures r.Ok? ==> r.value.messages == [Reply(r.value.learningPlan.value)]
    ensures r.Ok? ==> r.value.learningPlan == Some(llm(PlanPrompt(s.gapAnalysis.value)))
    ensures r.Ok? && s.revisionCount.Some? ==> r.value.revisionCount == s.revisionCount
    ensures r.Ok? && s.revisionCount.None? ==> r.value.revisionCount == Some(0)
  {
    match s.gapAnalysis
    case None => Err(KeyError("gap_analysis"))
    case Some(gaps) =>
      var text := llm(PlanPrompt(gaps));
      var count := match s.revisionCount case Some(n) => n case None => 0;
      Ok(NoUpdate.(learningPlan := Some(text), messages := [Reply(text)], revisionCount := Some(count)))
  }

  /** The feedback as the review step reads it: an absent key reads as the empty string. */
  function FeedbackText(s: CoachState): string {
    match s.humanFeedback case Some(f) => f case None => ""
  }

  /** Review step: records whether the human feedback approves the plan. */
  function HumanReview(s: CoachState): (r: CoachState)
    ensures Keys(r) == {IsApproved}
    ensures r.isApproved == Some(true) <==>
      s.humanFeedback.Some? && s.humanFeedback.value != ""
      && exists i :: OccursAt(Lower(s.humanFeedback.value), ApprovalToken, i)
  {
    var feedback := FeedbackText(s);
    var approves := feedback != "" && Contains(Lower(feedback), ApprovalToken);
    if approves then
      assert s.humanFeedback == Some(feedback);
      assert exists i :: OccursAt(Lower(feedback), ApprovalToken, i);
      NoUpdate.(isApproved := Some(true))
    else if feedback != "" then
      NoUpdate.(isApproved := Some(false))
    else
      NoUpdate.(isApproved := Some(false))
  }

  /** Refine step: rewrites `learning_plan` from the feedback, counts the revision and clears the feedback. */
  function PlanRefiner(llm: Llm, s: CoachState): (r: Result<CoachState, Error>)
    ensures r.Ok? <==> s.learningPlan.Some? && s.humanFeedback.Some? && s.revisionCount.Some?
    ensures s.learningPlan.None? ==> r == Err(KeyError("learning_plan"))
    ensures s.learningPlan.Some? && s.humanFeedback.None? ==> r == Err(KeyError("human_feedback"))
    ensures s.learningPlan.Some? && s.humanFeedback.Some? && s.revisionCount.None? ==> r == Err(KeyError("revision_count"))
    ensures r.Ok? ==> Keys(r.value) == {Messages, LearningPlan, RevisionCount, HumanFeedback}
    ensures r.Ok? ==> r.value.messages == [Reply(r.value.learningPlan.value)]
    ensures r.Ok? ==> r.value.learningPlan == Some(llm(RefinePrompt(s.learningPlan.value, s.humanFeedback.value)))
    ensures r.Ok? ==> r.value.revisionCount == Some(s.revisionCount.value + 1)
    ensures r.Ok? ==> r.value.humanFeedback == Some("")
  {
    match (s.learningPlan, s.humanFeedback)
    case (None, _) => Err(KeyError("learning_plan"))
    case (Some(_), None) => Err(KeyError("human_feedback"))
    case (Some(plan), Some(feedback)) =>
      var text := llm(RefinePrompt(plan, feedback));
      match s.revisionCount
      case None => Err(KeyError("revision_count"))
      case Some(n) =>
        Ok(NoUpdate.(learningPlan := Some(text), messages := [Reply(text)],
                     revisionCount := Some(n + 1), humanFeedback := Some("")))
  }

  /** The profile step reads nothing of the log but the content of its last entry. */
  lemma ProfileAnalyzerReadsLastMessageOnly(llm: Llm, s: CoachState, t: CoachState)
    requires s.messages != [] && t.messages != []
    requires s.messages[|s.messages| - 1].content == t.messages[|t.messages| - 1].content
    ensures ProfileAnalyzer(llm, s) == ProfileAnalyzer(llm, t)
  {
  }

  /** The gap step reads nothing of the state but `user_profile.raw_summary`. */
  lemma GapAnalyzerReadsSummaryOnly(llm: Llm, s: CoachState, t: CoachState)
    requires s.userProfile.Some? && RawSummary in s.userProfile.value
    requires t.userProfile.Some? && RawSummary in t.userProfile.value
    requires s.userProfile.value[RawSummary] == t.userProfile.value[RawSummary]
    ensures GapAnalyzer(llm, s) == GapAnalyzer(llm, t)
  {
  }

  /** The plan step reads nothing of the state but `gap_analysis` and `revision_count`. */
  lemma PlanGeneratorReadsGapsOnly(llm: Llm, s: CoachState, t: CoachState)
    requires s.gapAnalysis == t.gapAnalysis && s.revisionCount == t.revisionCount
    ensures PlanGenerator(llm, s) == PlanGenerator(llm, t)
  {
  }

  /** The refine step reads nothing of the state but the plan, the feedback and the count. */
  lemma PlanRefinerReadsPlanAndFeedbackOnly(llm: Llm, s: CoachState, t: CoachState)
    requires s.learningPlan == t.learningPlan && s.humanFeedback == t.humanFeedback
    requires s.revisionCount == t.revisionCount
    ensures PlanRefiner(llm, s) == PlanRefiner(llm, t)
  {
  }

  /** The review step decides from `human_feedback` alone. */
  lemma HumanReviewReadsFeedbackOnly(s: CoachState, t: CoachState)
    requires s.humanFeedback == t.humanFeedback
    ensures HumanReview(s) == HumanReview(t)
  {
  }

  /** "approve" occurs at `i` in the lower-cased `text` when the next seven characters spell it in any case. */
  lemma LowerOccurrence(text: string, i: nat)
    requires i + 7 <= |text|
    requires forall k :: 0 <= k < 7 ==> LowerChar(text[i + k]) == ApprovalToken[k]
    ensures exists j :: OccursAt(Lower(text), ApprovalToken, j)
  {
    var l := Lower(text);
    forall k | 0 <= k < |ApprovalToken| ensures l[i..i + |ApprovalToken|][k] == ApprovalToken[k] {
      assert l[i + k] == LowerChar(text[i + k]);
    }
    assert l[i..i + |ApprovalToken|] == ApprovalToken;
    assert OccursAt(l, ApprovalToken, i);
  }

  /** "APPROVED" approves: the test ignores case and accepts longer words. */
  lemma ApprovedApproves(s: CoachState)
    requires s.humanFeedback == Some("APPROVED")
    ensures HumanReview(s).isApproved == Some(true)
  {
    LowerOccurrence("APPROVED", 0);
  }

  /** "disapprove" approves too: the test is a substring test, not a word test. */
  lemma DisapproveApproves(s: CoachState)
    requires s.humanFeedback == Some("disapprove")
    ensures HumanReview(s).isApproved == Some(true)
  {
    LowerOccurrence("disapprove", 3);
  }

  /** Text without the letter `a` in either case cannot contain the token once lower-cased. */
  lemma NoLetterANoToken(text: string)
    requires 'a' !in text && 'A' !in text
    ensures !exists i :: OccursAt(Lower(text), ApprovalToken, i)
  {
    var l := Lower(text);
    forall i | 0 <= i < |l| ensures l[i] != ApprovalToken[0] {
      assert text[i] in text;
    }
    forall i | 0 <= i && i + |ApprovalToken| <= |l| ensures !OccursAt(l, ApprovalToken, i) {
      assert l[i..i + |ApprovalToken|][0] == l[i];
    }
  }

  /** Absent feedback, and feedback whose lower-cased text lacks the token (empty feedback included), leave the plan unapproved. */
  lemma NoTokenMeansNotApproved(s: CoachState)
    requires s.humanFeedback.None? || !exists i :: OccursAt(Lower(s.humanFeedback.value), ApprovalToken, i)
    ensures HumanReview(s).isApproved == Some(false)
  {
    var r := HumanReview(s);
    assert IsApproved in Keys(r);
    assert r.isApproved.Some?;
    assert r.isApproved == Some(true) ==> s.humanFeedback.Some? && exists i :: OccursAt(Lower(s.humanFeedback.value), ApprovalToken, i);
    assert r.isApproved != Some(true);
  }

  /** Feedback asking for changes, such as "More projects", has no token and does not approve. */
  lemma ChangeRequestRejects(s: CoachState)
    requires s.humanFeedback == Some("More projects")
    ensures HumanReview(s).isApproved == Some(false)
  {
    NoLetterANoToken("More projects");
    NoTokenMeansNotApproved(s);
  }

  /** The review step changes no key but `is_approved`. */
  lemma HumanReviewChangesOnlyApproval(s: CoachState)
    ensures var r := MergeCoach(s, HumanReview(s));
      r.messages == s.messages && r.userProfile == s.userProfile && r.gapAnalysis == s.gapAnalysis
      && r.learningPlan == s.learningPlan && r.humanFeedback == s.humanFeedback
      && r.revisionCount == s.revisionCount && r.isApproved.Some?
  {
    assert s.messages + [] == s.messages;
  }

  /**
   * A model-calling step, once merged, appends exactly one message: the
   * completion, whose text is also the value of the key the step produces.
   */
  lemma LlmStepsAppendOneMessage(llm: Llm, s: CoachState)
    ensures ProfileAnalyzer(llm, s).Ok? ==> var r := MergeCoach(s, ProfileAnalyzer(llm, s).value);
      r.messages == s.messages + [Reply(r.userProfile.value[RawSummary])]
    ensures GapAnalyzer(llm, s).Ok? ==> var r := MergeCoach(s, GapAnalyzer(llm, s).value);
      r.messages == s.messages + [Reply(r.gapAnalysis.value)]
    ensures PlanGenerator(llm, s).Ok? ==> var r := MergeCoach(s, PlanGenerator(llm, s).value);
      r.messages == s.messages + [Reply(r.learningPlan.value)]
    ensures PlanRefiner(llm, s).Ok? ==> var r := MergeCoach(s, PlanRefiner(llm, s).value);
      r.messages == s.messages + [Reply(r.learningPlan.value)]
  {
  }

  /** The human input a caller injects before resuming: only `human_feedback`. */
  function FeedbackPatch(feedback: string): CoachState {
    NoUpdate.(humanFeedback := Some(feedback))
  }

  /**
   * `rounds` review rounds as a caller drives them: each injects one piece of
   * feedback and then merges one refiner step.
   */
  ghost function Refinements(llm: Llm, s: CoachState, rounds: seq<string>): Result<CoachState, Error>
    decreases |rounds|
  {
    if rounds == [] then Ok(s)
    else
      var fed := MergeCoach(s, FeedbackPatch(rounds[0]));
      match PlanRefiner(llm, fed)
      case Err(e) => Err(e)
      case Ok(u) => Refinements(llm, MergeCoach(fed, u), rounds[1..])
  }

  /**
   * From a state with a plan and a revision count `k`, `N` rounds succeed,
   * count `k + N` revisions, append exactly `N` messages after the old log,
   * and leave the feedback consumed.
   */
  lemma {:induction false} RefinementsCountRevisions(llm: Llm, s: CoachState, rounds: seq<string>)
    requires s.learningPlan.Some? && s.revisionCount.Some?
    ensures Refinements(llm, s, rounds).Ok?
    ensures var r := Refinements(llm, s, rounds).value;
      && r.revisionCount == Some(s.revisionCount.value + |rounds|)
      && r.learningPlan.Some?
      && |r.messages| == |s.messages| + |rounds|
      && IsPrefix(s.messages, r.messages)
      && (rounds != [] ==> r.humanFeedback == Some(""))
    decreases |rounds|
  {
    if rounds != [] {
      var fed := MergeCoach(s, FeedbackPatch(rounds[0]));
      var next := MergeCoach(fed, PlanRefiner(llm, fed).value);
      RefinementsCountRevisions(llm, next, rounds[1..]);
      var r := Refinements(llm, s, rounds).value;
      assert fed.messages == s.messages;
      PrefixTransitive(s.messages, next.messages, r.messages);
    }
  }

  /** One plan generation from a fresh count, followed by `N` refinements, leaves `revision_count == N`. */
  lemma GenerateThenRefine(llm: Llm, s: CoachState, rounds: seq<string>)
    requires s.gapAnalysis.Some?
    requires s.revisionCount.None? || s.revisionCount == Some(0)
    ensures PlanGenerator(llm, s).Ok?
    ensures var planned := MergeCoach(s, PlanGenerator(llm, s).value);
      && Refinements(llm, planned, rounds).Ok?
      && Refinements(llm, planned, rounds).value.revisionCount == Some(|rounds|)
  {
    var planned := MergeCoach(s, PlanGenerator(llm, s).value);
    RefinementsCountRevisions(llm, planned, rounds);
  }
}
