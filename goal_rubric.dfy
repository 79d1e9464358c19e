/** The placeholder goal-quality rubric of the `Validator` agent
    (src/agents/validator.js). Scores are kept in integer tenths (8.5 is 85),
    so the mean and the threshold 7.0 are exact. */
module GoalRubric {
  import opened Strings

  datatype Goal = Goal(title: string, description: string)

  /** The alternatives of the clarity and measurability regular expressions. */
  const ActionVerbs: seq<string> := ["begrijpen", "toepassen", "analyseren", "evalueren", "creëren"]
  const MeasurableTerms: seq<string> := ["kunnen", "in staat zijn", "demonstreren", "tonen"]

  /** A criterion below this many tenths earns a suggestion; a mean at or
      above it is valid. */
  const Threshold: int := 70

  datatype Scores = Scores(clarity: int, measurability: int, relevance: int, achievability: int)

  datatype Criterion = Clarity | Measurability | Relevance | Achievability

  const AllCriteria: seq<Criterion> := [Clarity, Measurability, Relevance, Achievability]

  function Score(s: Scores, c: Criterion): int {
    match c
    case Clarity => s.clarity
    case Measurability => s.measurability
    case Relevance => s.relevance
    case Achievability => s.achievability
  }

  /** `assessClarity` */
  function AssessClarity(g: Goal): (score: int)
    ensures score == 85 <==> MatchesAnyWord(g.description, ActionVerbs) && |g.description| > 20
    ensures score != 85 ==> score == 60
  {
    var hasActionVerb := MatchesAnyWord(g.description, ActionVerbs);
    var hasSpecificTerms := |g.description| > 20;
    if hasActionVerb && hasSpecificTerms then 85 else 60
  }

  /** `assessMeasurability` */
  function AssessMeasurability(g: Goal): (score: int)
    ensures score == 80 <==> MatchesAnyWord(g.description, MeasurableTerms)
    ensures score != 80 ==> score == 55
  {
    if MatchesAnyWord(g.description, MeasurableTerms) then 80 else 55
  }

  /** `assessRelevance`: a placeholder constant, above the threshold. */
  function AssessRelevance(g: Goal): (score: int)
    ensures score == 75 && score >= Threshold
  {
    75
  }

  /** `assessAchievability`: a placeholder constant, above the threshold. */
  function AssessAchievability(g: Goal): (score: int)
    ensures score == 78 && score >= Threshold
  {
    78
  }

  function CriteriaScores(g: Goal): Scores {
    Scores(AssessClarity(g), AssessMeasurability(g), AssessRelevance(g), AssessAchievability(g))
  }

  function Total(s: Scores): int {
    s.clarity + s.measurability + s.relevance + s.achievability
  }

  /** Helper: the unrounded `overallScore`, in points; its use is stated by
      `ValidateLearningGoal`. */
  function Mean(s: Scores): real {
    Total(s) as real / 40.0
  }

  const ClarityAdvice: string := "Gebruik duidelijkere actiewerkwoorden zoals \"begrijpen\", \"toepassen\" of \"analyseren\""
  const MeasurabilityAdvice: string := "Maak het leerdoel meetbaarder door specifieke criteria toe te voegen"
  const RelevanceAdvice: string := "Zorg ervoor dat het leerdoel relevant is voor het vakgebied"
  const AchievabilityAdvice: string := "Controleer of het leerdoel haalbaar is voor het beoogde niveau"

  /** The suggestion pushed for a criterion that scores too low. */
  function Advice(c: Criterion): string {
    match c
    case Clarity => ClarityAdvice
    case Measurability => MeasurabilityAdvice
    case Relevance => RelevanceAdvice
    case Achievability => AchievabilityAdvice
  }

  /** The criteria of `cs` scoring below the threshold, in the order of `cs`
      (defined from the end, as successive pushes build it). */
  function LowCriteria(s: Scores, cs: seq<Criterion>): seq<Criterion> {
    if cs == [] then []
    else
      var last := cs[|cs| - 1];
      LowCriteria(s, cs[..|cs| - 1]) + (if Score(s, last) < Threshold then [last] else [])
  }

  /** `texts` holds, in order, the advice of each criterion of `cs`. */
  predicate AdviceOf(texts: seq<string>, cs: seq<Criterion>) {
    |texts| == |cs| && forall i :: 0 <= i < |cs| ==> texts[i] == Advice(cs[i])
  }

  lemma AdviceOfPush(texts: seq<string>, cs: seq<Criterion>, c: Criterion)
    requires AdviceOf(texts, cs)
    ensures AdviceOf(texts + [Advice(c)], cs + [c])
  {
  }

  /** `generateSuggestions`: one `push` per low criterion, in the order
      clarity, measurability, relevance, achievability. */
  method GenerateSuggestions(scores: Scores) returns (suggestions: seq<string>)
    ensures AdviceOf(suggestions, LowCriteria(scores, AllCriteria))
  {
    ghost var low: seq<Criterion> := [];
    suggestions := [];
    if scores.clarity < 7 * 10 {
      AdviceOfPush(suggestions, low, Clarity);
      suggestions, low := suggestions + [Advice(Clarity)], low + [Clarity];
    }
    assert AllCriteria[..1][..0] == [];
    assert low == LowCriteria(scores, AllCriteria[..1]);
    assert AdviceOf(suggestions, low);
    if scores.measurability < 7 * 10 {
      AdviceOfPush(suggestions, low, Measurability);
      suggestions, low := suggestions + [Advice(Measurability)], low + [Measurability];
    }
    assert AllCriteria[..2][..1] == AllCriteria[..1];
    assert low == LowCriteria(scores, AllCriteria[..2]);
    assert AdviceOf(suggestions, low);
    if scores.relevance < 7 * 10 {
      AdviceOfPush(suggestions, low, Relevance);
      suggestions, low := suggestions + [Advice(Relevance)], low + [Relevance];
    }
    assert AllCriteria[..3][..2] == AllCriteria[..2];
    assert low == LowCriteria(scores, AllCriteria[..3]);
    assert AdviceOf(suggestions, low);
    if scores.achievability < 7 * 10 {
      AdviceOfPush(suggestions, low, Achievability);
      suggestions, low := suggestions + [Advice(Achievability)], low + [Achievability];
    }
    assert AllCriteria[..3] == AllCriteria[..|AllCriteria| - 1];
    assert low == LowCriteria(scores, AllCriteria);
  }

  datatype Assessment = Assessment(overallScore: real, criteriaScores: Scores, suggestions: seq<string>, isValid: bool)

  /** `validateLearningGoal` (without the rounding of `overallScore`). */
  method ValidateLearningGoal(goal: Goal) returns (a: Assessment)
    ensures a.criteriaScores == CriteriaScores(goal)
    ensures a.overallScore == Mean(CriteriaScores(goal))
    ensures AdviceOf(a.suggestions, LowCriteria(CriteriaScores(goal), AllCriteria))
    ensures a.isValid <==> a.overallScore >= 7.0
  {
    var scores := Scores(AssessClarity(goal), AssessMeasurability(goal), AssessRelevance(goal), AssessAchievability(goal));
    var overallScore := (scores.clarity + scores.measurability + scores.relevance + scores.achievability) as real / 40.0;
    var suggestions := GenerateSuggestions(scores);
    a := Assessment(overallScore, scores, suggestions, overallScore >= 7.0);
  }

  // ---------------------------------------------------------------- properties

  /** `LowCriteria` over all four criteria: one conditional entry each, in the
      order clarity, measurability, relevance, achievability. */
  lemma LowCriteriaOfAll(s: Scores)
    ensures LowCriteria(s, AllCriteria) ==
              (if s.clarity < Threshold then [Clarity] else []) +
              (if s.measurability < Threshold then [Measurability] else []) +
              (if s.relevance < Threshold then [Relevance] else []) +
              (if s.achievability < Threshold then [Achievability] else [])
  {
    var c1: seq<Criterion> := [Clarity];
    var c2: seq<Criterion> := [Clarity, Measurability];
    var c3: seq<Criterion> := [Clarity, Measurability, Relevance];
    assert c1[..0] == [];
    assert LowCriteria(s, c1) == (if s.clarity < Threshold then [Clarity] else []);
    assert c2[..1] == c1;
    assert LowCriteria(s, c2) == LowCriteria(s, c1) + (if s.measurability < Threshold then [Measurability] else []);
    assert c3[..2] == c2;
    assert LowCriteria(s, c3) == LowCriteria(s, c2) + (if s.relevance < Threshold then [Relevance] else []);
    assert AllCriteria[..3] == c3;
  }

  /** A criterion is reported exactly when it is in `cs` and scores below the
      threshold. */
  lemma {:induction false} LowCriteriaMembers(s: Scores, cs: seq<Criterion>, c: Criterion)
    ensures c in LowCriteria(s, cs) <==> c in cs && Score(s, c) < Threshold
  {
    if cs != [] {
      var init := cs[..|cs| - 1];
      LowCriteriaMembers(s, init, c);
      assert cs == init + [cs[|cs| - 1]];
    }
  }

  /** Each criterion's suggestion appears exactly when it scores below the
      threshold. */
  lemma SuggestionFor(s: Scores, c: Criterion)
    ensures c in LowCriteria(s, AllCriteria) <==> Score(s, c) < Threshold
  {
    LowCriteriaMembers(s, AllCriteria, c);
  }

  /** The placeholder relevance and achievability never fall below the
      threshold: at most the clarity and the measurability suggestion is made. */
  lemma SuggestionsAtMostTwo(g: Goal)
    ensures LowCriteria(CriteriaScores(g), AllCriteria) ==
              (if AssessClarity(g) < Threshold then [Clarity] else []) +
              (if AssessMeasurability(g) < Threshold then [Measurability] else [])
    ensures |LowCriteria(CriteriaScores(g), AllCriteria)| <= 2
  {
    LowCriteriaOfAll(CriteriaScores(g));
  }

  /** With the constant relevance and achievability, the unrounded mean
      reaches 7.0 exactly when clarity or measurability scores high. */
  lemma ValidIffClearOrMeasurable(g: Goal)
    ensures Mean(CriteriaScores(g)) >= 7.0 <==> AssessClarity(g) == 85 || AssessMeasurability(g) == 80
  {
  }
}
