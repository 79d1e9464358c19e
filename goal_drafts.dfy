/** The placeholder `LesGenerator` agent (src/agents/lesgenerator.js): input
    validation and the two template goals. A parameter may be a string, or
    absent (`undefined`) or `null`; template literals render the latter two
    as text. */
module GoalDrafts {
  import opened Js
  import opened Strings

  datatype Params = Params(subject: JsString, level: JsString, domain: JsString)

  datatype DraftGoal = DraftGoal(title: string, description: string, level: JsString, domain: JsString)

  /** `params[field] && params[field].trim()` */
  predicate Present(v: JsString) {
    Truthy(v) && Trim(v.text) != ""
  }

  lemma PresentIffNotBlank(v: JsString)
    ensures Present(v) <==> v.Str? && !IsBlank(v.text)
  {
    if v.Str? {
      TrimEmptyIffBlank(v.text);
    }
  }

  /** `validateInput`: every required field is a string that is not all white
      space. */
  function ValidateInput(p: Params): (ok: bool)
    ensures ok <==> && p.subject.Str? && !IsBlank(p.subject.text)
                    && p.level.Str? && !IsBlank(p.level.text)
                    && p.domain.Str? && !IsBlank(p.domain.text)
  {
    PresentIffNotBlank(p.subject);
    PresentIffNotBlank(p.level);
    PresentIffNotBlank(p.domain);
    Present(p.subject) && Present(p.level) && Present(p.domain)
  }

  const FirstTitlePrefix: string := "Begrijpen van "
  const FirstTitleSuffix: string := " concepten"
  const FirstDescriptionPrefix: string := "Studenten kunnen de basisconcepten van "
  const FirstDescriptionMiddle: string := " uitleggen en toepassen op "
  const FirstDescriptionSuffix: string := " niveau."
  const SecondTitlePrefix: string := "Praktische toepassing "
  const SecondDescriptionPrefix: string := "Studenten kunnen "
  const SecondDescriptionSuffix: string := " principes toepassen in praktische situaties."

  /** `generateLearningGoals`: two goals about the subject, both carrying the
      requested level and domain. */
  function GenerateLearningGoals(p: Params): (goals: seq<DraftGoal>)
    ensures |goals| == 2
    ensures forall i :: 0 <= i < |goals| ==> goals[i].level == p.level && goals[i].domain == p.domain
    ensures forall i :: 0 <= i < |goals| ==> Contains(goals[i].title, Render(p.subject))
    ensures forall i :: 0 <= i < |goals| ==> Contains(goals[i].description, Render(p.subject))
  {
    var subject := Render(p.subject);
    var first := DraftGoal(FirstTitlePrefix + subject + FirstTitleSuffix,
                           FirstDescriptionPrefix + subject + FirstDescriptionMiddle + Render(p.level) + FirstDescriptionSuffix,
                           p.level, p.domain);
    var second := DraftGoal(SecondTitlePrefix + subject,
                            SecondDescriptionPrefix + subject + SecondDescriptionSuffix,
                            p.level, p.domain);
    SubjectIsContained(subject);
    ContainsInAppend(FirstTitlePrefix, subject, subject);
    ContainsInAppend(FirstTitlePrefix + subject, FirstTitleSuffix, subject);
    ContainsInAppend(FirstDescriptionPrefix, subject, subject);
    ContainsInAppend(FirstDescriptionPrefix + subject, FirstDescriptionMiddle, subject);
    ContainsInAppend(FirstDescriptionPrefix + subject + FirstDescriptionMiddle, Render(p.level), subject);
    ContainsInAppend(FirstDescriptionPrefix + subject + FirstDescriptionMiddle + Render(p.level), FirstDescriptionSuffix, subject);
    ContainsInAppend(SecondTitlePrefix, subject, subject);
    ContainsInAppend(SecondDescriptionPrefix, subject, subject);
    ContainsInAppend(SecondDescriptionPrefix + subject, SecondDescriptionSuffix, subject);
    [first, second]
  }

  lemma SubjectIsContained(s: string)
    ensures Contains(s, s)
  {
    assert ContainsAt(s, s, 0);
  }

  /** The titles name the subject verbatim. */
  lemma DraftTitles(p: Params)
    ensures GenerateLearningGoals(p)[0].title == "Begrijpen van " + Render(p.subject) + " concepten"
    ensures GenerateLearningGoals(p)[1].title == "Praktische toepassing " + Render(p.subject)
  {
  }
}
