/** The guardrails of `LessonGenerator` (src/agents/lessonGenerator.ts): a goal
    must mention education and must not mention an inappropriate term before
    the language model is called; the model's parsed answer must carry its
    required members. Every failure is returned as `{success: false, error}`.
    The chat-completion call is the `ModelReply` parameter. */
module LessonGuard {
  import opened Js
  import opened Strings
  import opened Lessons

  const EducationKeywords: seq<string> := [
    "leren", "onderwijs", "school", "student", "leerling", "docent", "les",
    "curriculum", "vaardigheid", "kennis", "competentie", "educatie"
  ]

  const InappropriateKeywords: seq<string> := [
    "geweld", "drugs", "alcohol", "seks", "discriminatie"
  ]

  const GuardrailMessage: string := "Het leerdoel is niet gerelateerd aan onderwijs of bevat ongepaste inhoud."

  /** `isEducationRelated`: some education keyword occurs in the lowercased text. */
  function IsEducationRelated(content: string): (related: bool)
    ensures related <==> exists k :: k in EducationKeywords && Contains(Lower(content), k)
  {
    ContainsAny(Lower(content), EducationKeywords)
  }

  /** The check ignores letter case: a keyword written in any case in the
      content makes it education-related. */
  lemma KeywordInAnyCase(content: string, written: string)
    requires Lower(written) in EducationKeywords && Contains(content, written)
    ensures IsEducationRelated(content)
  {
    ContainsLower(content, written);
  }

  /** `validateEducationalContent` */
  function ValidateEducationalContent(g: GoalText): (ok: bool)
    ensures ok <==>
              (exists j :: 0 <= j < |EducationKeywords| && Contains(Lower(GoalContent(g)), EducationKeywords[j])) &&
              (forall j :: 0 <= j < |InappropriateKeywords| ==> !Contains(Lower(GoalContent(g)), InappropriateKeywords[j]))
  {
    var combinedContent := GoalContent(g);
    if !IsEducationRelated(combinedContent) then false
    else !ContainsAny(Lower(combinedContent), InappropriateKeywords)
  }

  datatype GenerationResult = Success(data: LessonOutput) | Failure(error: string)

  /** `generateLesson` */
  function GenerateLesson(g: GoalText, reply: ModelReply): (r: GenerationResult)
    ensures !ValidateEducationalContent(g) ==> r == Failure(GuardrailMessage)
    ensures r.Success? <==> ValidateEducationalContent(g) && reply.Answer? && !Incomplete(reply.parsed)
    ensures r.Success? ==>
              r.data == Completed(reply.parsed) && r.data.lessonTitle != "" && r.data.lessonOutline != ""
    ensures ValidateEducationalContent(g) && reply.NoContent? ==> r == Failure(NoReplyMessage)
    ensures ValidateEducationalContent(g) && reply.Answer? && Incomplete(reply.parsed) ==> r == Failure(IncompleteMessage)
    ensures ValidateEducationalContent(g) && reply.Raised? ==> r == Failure(MessageOr(reply.cause, UnknownGenerationError))
  {
    if !ValidateEducationalContent(g) then Failure(GuardrailMessage)
    else
      match reply
      case Raised(e) => Failure(MessageOr(e, UnknownGenerationError))
      case NoContent => Failure(NoReplyMessage)
      case Answer(p) => if Incomplete(p) then Failure(IncompleteMessage) else Success(Completed(p))
  }

  /** When the guardrail fails the model is not consulted: the result does not
      depend on what it would have answered. */
  lemma GuardrailSkipsModel(g: GoalText, reply1: ModelReply, reply2: ModelReply)
    requires !ValidateEducationalContent(g)
    ensures GenerateLesson(g, reply1) == GenerateLesson(g, reply2)
  {
  }

  /** An empty `activities` array is truthy and passes the required-member check. */
  lemma EmptyActivitiesAccepted(g: GoalText, title: string, outline: string)
    requires ValidateEducationalContent(g) && title != "" && outline != ""
    ensures GenerateLesson(g, Answer(ParsedLesson(Some(title), Some(outline), Some([]))))
            == Success(LessonOutput(title, outline, []))
  {
  }
}
