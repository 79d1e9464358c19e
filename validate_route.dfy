/** The mock `POST` handler of frontend/src/app/api/validate-content/route.ts:
    shorter term lists, a generic blocklist explanation, and its own safe
    confidence. The simulated delay and the HTTP wrapper are not modelled;
    the response is its status code and JSON verdict. */
module ValidateRoute {
  import opened Js
  import opened Strings
  import opened Lessons

  const InappropriateKeywords: seq<string> := [
    "geweld", "drugs", "alcohol", "discriminatie", "pesten", "mobbing"
  ]

  const EducationalKeywords: seq<string> := [
    "les", "leren", "onderwijs", "school", "student", "leerling", "docent"
  ]

  const FilterExplanation: string := "Ongepaste inhoud gedetecteerd door content filter"
  const ApprovedExplanation: string := "Inhoud is goedgekeurd voor educatief gebruik"

  /** The request body: unreadable JSON, or an object whose `content` member
      may be absent. */
  datatype Request = Unreadable | Body(content: Option<RawLesson>)

  datatype Response = Response(httpStatus: int, verdict: Verdict)

  /** The verdict of a lesson whose `activities` is present. */
  function Decide(c: RawLesson): (v: Verdict)
    requires c.activities.Some?
    ensures var text := Lower(LocalText(c));
            && (ContainsAny(text, InappropriateKeywords) ==>
                  v == Verdict(Flagged, FilterExplanation, 0.9, None))
            && (!ContainsAny(text, InappropriateKeywords) && !ContainsAny(text, EducationalKeywords) ==>
                  v == Verdict(Flagged, NotEducational, 0.7, None))
            && (!ContainsAny(text, InappropriateKeywords) && ContainsAny(text, EducationalKeywords) ==>
                  v == Verdict(Safe, ApprovedExplanation, 0.95, None))
  {
    var combinedText := Lower(LocalText(c));
    if ContainsAny(combinedText, InappropriateKeywords) then Verdict(Flagged, FilterExplanation, 0.9, None)
    else if !ContainsAny(combinedText, EducationalKeywords) then Verdict(Flagged, NotEducational, 0.7, None)
    else Verdict(Safe, ApprovedExplanation, 0.95, None)
  }

  /** `POST`: any exception (unreadable body, missing `content`, missing
      `activities`) becomes status 500 with the conservative verdict. */
  function Post(req: Request): (res: Response)
    ensures res.httpStatus == 500 <==> !(req.Body? && req.content.Some? && req.content.value.activities.Some?)
    ensures res.httpStatus == 500 ==> res.verdict == PrecautionVerdict
    ensures res.httpStatus != 500 ==> res.httpStatus == 200 && res.verdict == Decide(req.content.value)
  {
    match req
    case Unreadable => Response(500, PrecautionVerdict)
    case Body(content) =>
      if content.None? || content.value.activities.None? then Response(500, PrecautionVerdict)
      else Response(200, Decide(content.value))
  }

  /** The generic explanation names no term: every blocked lesson gets the
      same verdict. */
  lemma BlockedVerdictIsUniform(c1: RawLesson, c2: RawLesson)
    requires c1.activities.Some? && c2.activities.Some?
    requires ContainsAny(Lower(LocalText(c1)), InappropriateKeywords)
    requires ContainsAny(Lower(LocalText(c2)), InappropriateKeywords)
    ensures Decide(c1) == Decide(c2)
  {
  }
}
