/** How the near-duplicate rule sets relate: the three lesson validators, the
    two lesson-generation gates, and the mock generators feeding the
    validators and the rubric. */
module Drift {
  import opened Js
  import opened Strings
  import opened Lessons
  import ContentValidator
  import ContentSafety
  import ValidateRoute
  import LessonGuard
  import OpenAiLesson
  import MockLesson
  import GoalDrafts
  import GoalRubric

  /** The lesson as the component posts it to the validation route. */
  function Sent(l: LessonOutput): RawLesson {
    RawLesson(Str(l.lessonTitle), Str(l.lessonOutline), Some(l.activities))
  }

  // ---------------------------------------------------------------- validators

  /** Both term lists of the route are sub-lists of the agent's. */
  lemma RouteListsAreSublists()
    ensures forall k :: k in ValidateRoute.InappropriateKeywords ==> k in ContentValidator.InappropriateKeywords
    ensures forall k :: k in ValidateRoute.EducationalKeywords ==> k in ContentValidator.EducationalKeywords
  {
  }

  /** Whatever the route blocks, the agent blocks too (with 0.9), whatever its
      configuration and the service say. */
  lemma RouteBlockedIsAgentBlocked(cfg: ContentValidator.Config, c: RawLesson, service: AnalysisOutcome)
    requires c.activities.Some?
    requires ValidateRoute.Decide(c).confidence == 0.9
    ensures ContentValidator.ValidateContent(cfg, c, service).status == Flagged
    ensures ContentValidator.ValidateContent(cfg, c, service).confidence == 0.9
  {
    RouteListsAreSublists();
    var text := Lower(LocalText(c));
    ContainsAnySubset(text, ValidateRoute.InappropriateKeywords, ContentValidator.InappropriateKeywords);
  }

  /** What the agent finds not educational, the route finds not educational too. */
  lemma AgentIrrelevantIsRouteIrrelevant(c: RawLesson)
    requires c.activities.Some?
    requires ContentValidator.PerformLocalValidation(c).value.confidence == 0.7
    ensures ValidateRoute.Decide(c) == Verdict(Flagged, NotEducational, 0.7, None)
  {
    RouteListsAreSublists();
    var text := Lower(LocalText(c));
    assert !ContainsAny(text, ContentValidator.InappropriateKeywords);
    assert !ContainsAny(text, ContentValidator.EducationalKeywords);
    if ContainsAny(text, ValidateRoute.InappropriateKeywords) {
      ContainsAnySubset(text, ValidateRoute.InappropriateKeywords, ContentValidator.InappropriateKeywords);
    }
    if ContainsAny(text, ValidateRoute.EducationalKeywords) {
      ContainsAnySubset(text, ValidateRoute.EducationalKeywords, ContentValidator.EducationalKeywords);
    }
  }

  /** The two local validations with the eleven-term lists agree on status,
      explanation and confidence; only the frontend copy reports categories. */
  lemma LocalValidationsAgree(c: RawLesson)
    requires c.activities.Some?
    ensures var a, b := ContentValidator.PerformLocalValidation(c).value, ContentSafety.PerformLocalValidation(c).value;
            a.status == b.status && a.explanation == b.explanation && a.confidence == b.confidence
  {
  }

  /** A blocked term in any one field, in any letter case, flags the lesson in
      all three validators. */
  lemma BlockedFieldTermFlagsEverywhere(cfg: ContentValidator.Config, c: RawLesson, service: AnalysisOutcome,
                                        field: string, k: string)
    requires c.activities.Some?
    requires field == Render(c.lessonTitle) || field == Render(c.lessonOutline) || field in c.activities.value
    requires k in ValidateRoute.InappropriateKeywords && Contains(Lower(field), k)
    ensures ValidateRoute.Decide(c).status == Flagged
    ensures ContentValidator.ValidateContent(cfg, c, service).status == Flagged
    ensures ContentSafety.PerformLocalValidation(c).value.status == Flagged
    ensures ContentSafety.PerformLocalValidation(c).value.categories.Some?
  {
    FieldTermIsScanned(c, field, k);
    RouteListsAreSublists();
    var text := Lower(LocalText(c));
    var j :| 0 <= j < |ValidateRoute.InappropriateKeywords| && ValidateRoute.InappropriateKeywords[j] == k;
    assert ContainsAny(text, ValidateRoute.InappropriateKeywords);
    ContainsAnySubset(text, ValidateRoute.InappropriateKeywords, ContentValidator.InappropriateKeywords);
    FoundNonEmpty(text, ContentSafety.InappropriateKeywords);
  }

  /** A lesson that both treat as safe gets 0.95 from the route but 0.8 from
      the agent's local check. */
  lemma SafeConfidenceDiffers(cfg: ContentValidator.Config, c: RawLesson, service: AnalysisOutcome)
    requires c.activities.Some? && !ContentValidator.Configured(cfg)
    requires ContentValidator.ValidateContent(cfg, c, service).status == Safe
    requires ValidateRoute.Decide(c).status == Safe
    ensures ValidateRoute.Decide(c).confidence == 0.95
    ensures ContentValidator.ValidateContent(cfg, c, service).confidence == 0.8
  {
  }

  /** A lesson that mentions only "kennis". */
  const KennisLesson: RawLesson := RawLesson(Str("kennis"), Str(""), Some([]))

  /** A term whose first letter does not occur early enough in `s` is absent. */
  lemma AbsentTerm(s: string, k: string)
    requires |k| > 0
    requires forall i :: 0 <= i && i + |k| <= |s| ==> s[i] != k[0]
    ensures !Contains(s, k)
  {
    forall i | 0 <= i <= |s|
      ensures !ContainsAt(s, k, i)
    {
      if i + |k| <= |s| {
        assert s[i..i + |k|][0] == s[i];
      }
    }
  }

  lemma KennisText()
    ensures Lower(LocalText(KennisLesson)) == "kennis  "
  {
    assert LocalText(KennisLesson) == "kennis  ";
    LowerOfLowercase("kennis  ");
  }

  lemma KennisHasNoBlockedTerm()
    ensures !ContainsAny("kennis  ", ContentValidator.InappropriateKeywords)
  {
    var s := "kennis  ";
    forall j | 0 <= j < |ContentValidator.InappropriateKeywords|
      ensures !Contains(s, ContentValidator.InappropriateKeywords[j])
    {
      AbsentTerm(s, ContentValidator.InappropriateKeywords[j]);
    }
  }

  lemma KennisHasNoRouteTerm()
    ensures !ContainsAny("kennis  ", ValidateRoute.EducationalKeywords)
  {
    var s := "kennis  ";
    forall j | 0 <= j < |ValidateRoute.EducationalKeywords|
      ensures !Contains(s, ValidateRoute.EducationalKeywords[j])
    {
      AbsentTerm(s, ValidateRoute.EducationalKeywords[j]);
    }
  }

  /** The agent accepts the "kennis" lesson; the route finds it not educational. */
  lemma KennisWitness(cfg: ContentValidator.Config, service: AnalysisOutcome)
    requires !ContentValidator.Configured(cfg)
    ensures ContentValidator.ValidateContent(cfg, KennisLesson, service) == Verdict(Safe, SuitableLocally, 0.8, None)
    ensures ValidateRoute.Decide(KennisLesson) == Verdict(Flagged, NotEducational, 0.7, None)
  {
    var s := "kennis  ";
    KennisText();
    KennisHasNoBlockedTerm();
    KennisHasNoRouteTerm();
    RouteListsAreSublists();
    if ContainsAny(s, ValidateRoute.InappropriateKeywords) {
      ContainsAnySubset(s, ValidateRoute.InappropriateKeywords, ContentValidator.InappropriateKeywords);
    }
    assert ContainsAt(s, "kennis", 0);
    assert ContentValidator.EducationalKeywords[9] == "kennis";
    assert ContainsAny(s, ContentValidator.EducationalKeywords);
  }

  // ---------------------------------------------------------------- lesson generation

  /** Whatever passes the agent's guardrail passes the frontend gate. */
  lemma GuardImpliesGate(g: GoalText)
    requires LessonGuard.ValidateEducationalContent(g)
    ensures OpenAiLesson.IsEducational(g)
  {
  }

  /** Past the agent's guardrail, both generators apply the same
      required-member rule: the agent's success is the frontend's returned
      lesson, and the agent's error message is the frontend's thrown one. */
  lemma GeneratorsAgreePastGuardrail(g: GoalText, reply: ModelReply)
    requires LessonGuard.ValidateEducationalContent(g)
    ensures var r, o := LessonGuard.GenerateLesson(g, reply), OpenAiLesson.GenerateLesson(g, reply);
            && (r.Success? <==> o.Returned?)
            && (r.Success? ==> r.data == o.lesson)
            && (r.Failure? ==> o == OpenAiLesson.Threw(r.error))
  {
    GuardImpliesGate(g);
  }

  /** The frontend gate has no blocklist: an educational goal with a blocked
      term reaches the model there, but not in the agent. */
  lemma GateLetsBlockedTermThrough(reply: ModelReply)
    ensures var g := GoalText(Str("les"), Str("geweld"));
            && OpenAiLesson.IsEducational(g)
            && !LessonGuard.ValidateEducationalContent(g)
            && LessonGuard.GenerateLesson(g, reply) == LessonGuard.Failure(LessonGuard.GuardrailMessage)
  {
    var g := GoalText(Str("les"), Str("geweld"));
    var text := "les geweld";
    assert GoalContent(g) == text;
    LowerOfLowercase(text);
    assert ContainsAt(text, "les", 0);
    assert ContainsAt(text, "geweld", 4);
    assert OpenAiLesson.EducationKeywords[6] == "les";
    assert LessonGuard.EducationKeywords[6] == "les";
    assert LessonGuard.InappropriateKeywords[0] == "geweld";
  }

  // ---------------------------------------------------------------- mock generators

  /** A lesson whose title starts with "Les" contains the route's first
      educational term once lowercased. */
  lemma TitleStartsWithLes(c: RawLesson)
    requires c.activities.Some? && c.lessonTitle.Str?
    requires |c.lessonTitle.text| >= 3 && c.lessonTitle.text[..3] == "Les"
    ensures ContainsAny(Lower(LocalText(c)), ValidateRoute.EducationalKeywords)
  {
    var s := LocalText(c);
    var t := c.lessonTitle.text;
    assert s[0] == t[0] && s[1] == t[1] && s[2] == t[2];
    assert Lower(s)[..3] == "les";
    ContainsPrefix(Lower(s), "les");
    assert ValidateRoute.EducationalKeywords[0] == "les";
  }

  /** The mock lesson's title starts with "Les: ", so the route never finds it
      irrelevant: it is blocked (a blocked term in the goal title) with 0.9, or
      approved with 0.95. */
  lemma MockLessonIsEducational(title: JsString)
    ensures var v := ValidateRoute.Decide(Sent(MockLesson.BuildLesson(title)));
            v.confidence == 0.9 || v == Verdict(Safe, ValidateRoute.ApprovedExplanation, 0.95, None)
  {
    var c := Sent(MockLesson.BuildLesson(title));
    assert c.lessonTitle.text[..5] == MockLesson.TitlePrefix;
    assert c.lessonTitle.text[..3] == MockLesson.TitlePrefix[..3] == "Les";
    TitleStartsWithLes(c);
  }

  /** A text starting with "Studenten kunnen " matches the rubric's first
      measurable term as a whole word. */
  lemma StudentenKunnen(s: string)
    requires |s| >= 17 && s[..17] == "Studenten kunnen "
    ensures MatchesAnyWord(s, GoalRubric.MeasurableTerms)
  {
    var p, rest := s[..17], s[17..];
    assert s == p + rest;
    assert p[10..16] == "kunnen";
    LowerOfLowercase("kunnen");
    assert WordAt(p, "kunnen", 10);
    WordInPrefix(p, rest, "kunnen", 10);
    assert GoalRubric.MeasurableTerms[0] == "kunnen";
    assert MatchesWord(s, GoalRubric.MeasurableTerms[0]);
  }

  /** The draft goals of the placeholder generator use "kunnen", so the rubric
      rates them measurable and valid. */
  lemma DraftGoalsAreValid(p: GoalDrafts.Params, i: nat)
    requires i < 2
    ensures var d := GoalDrafts.GenerateLearningGoals(p)[i];
            var g := GoalRubric.Goal(d.title, d.description);
            GoalRubric.AssessMeasurability(g) == 80 && GoalRubric.Mean(GoalRubric.CriteriaScores(g)) >= 7.0
  {
    var d := GoalDrafts.GenerateLearningGoals(p)[i];
    var prefix := if i == 0 then GoalDrafts.FirstDescriptionPrefix else GoalDrafts.SecondDescriptionPrefix;
    assert d.description[..|prefix|] == prefix;
    assert prefix[..17] == "Studenten kunnen ";
    assert d.description[..17] == prefix[..17];
    StudentenKunnen(d.description);
    GoalRubric.ValidIffClearOrMeasurable(GoalRubric.Goal(d.title, d.description));
  }
}
