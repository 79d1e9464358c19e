/** `generateLesson` of frontend/src/lib/azure-openai.ts: the education-keyword
    gate (no inappropriate-term check) and the required-member check; failures
    are thrown, so the result is the returned lesson or the thrown message.
    The chat-completion call is the `ModelReply` parameter. */
module OpenAiLesson {
  import opened Js
  import opened Strings
  import opened Lessons

  const EducationKeywords: seq<string> := [
    "leren", "onderwijs", "school", "student", "leerling", "docent", "les",
    "curriculum", "vaardigheid", "kennis", "competentie", "educatie"
  ]

  const GateMessage: string := "Het leerdoel is niet gerelateerd aan onderwijs."

  datatype Outcome = Returned(lesson: LessonOutput) | Threw(message: string)

  /** The gate in front of the `try` block: some education keyword occurs in
      the lowercased `${title} ${description}`. */
  function IsEducational(g: GoalText): (educational: bool)
    ensures educational <==> exists k :: k in EducationKeywords && Contains(Lower(GoalContent(g)), k)
  {
    ContainsAny(Lower(GoalContent(g)), EducationKeywords)
  }

  /** The gate ignores letter case and field boundaries: a keyword written in
      any case in the title or the description opens it. */
  lemma KeywordInTitleOrDescription(g: GoalText, written: string)
    requires Lower(written) in EducationKeywords
    requires Contains(Render(g.title), written) || Contains(Render(g.description), written)
    ensures IsEducational(g)
  {
    var t, d := Render(g.title), Render(g.description);
    if Contains(t, written) {
      ContainsInAppend(t, " ", written);
    }
    ContainsInAppend(t + " ", d, written);
    ContainsLower(GoalContent(g), written);
  }

  function GenerateLesson(g: GoalText, reply: ModelReply): (r: Outcome)
    // the gate's error is thrown before the try block and is not rewrapped
    ensures r == Threw(GateMessage) <==>
              !IsEducational(g) || (reply.Raised? && MessageOr(reply.cause, UnknownGenerationError) == GateMessage)
    ensures r.Returned? <==> IsEducational(g) && reply.Answer? && !Incomplete(reply.parsed)
    ensures r.Returned? ==> r.lesson == Completed(reply.parsed)
    // errors raised inside the try block are rethrown with the same message
    ensures IsEducational(g) && reply.NoContent? ==> r == Threw(NoReplyMessage)
    ensures IsEducational(g) && reply.Answer? && Incomplete(reply.parsed) ==> r == Threw(IncompleteMessage)
    ensures IsEducational(g) && reply.Raised? ==> r == Threw(MessageOr(reply.cause, UnknownGenerationError))
  {
    if !IsEducational(g) then Threw(GateMessage)
    else
      match reply
      case Raised(e) => Threw(MessageOr(e, UnknownGenerationError))
      case NoContent => Threw(NoReplyMessage)
      case Answer(p) => if Incomplete(p) then Threw(IncompleteMessage) else Returned(Completed(p))
  }
}
