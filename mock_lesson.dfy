/** The mock `POST` handler of frontend/src/app/api/generate-lesson/route.ts: a
    fixed lesson template around the goal's title. The simulated delay is not
    modelled; a failure (unreadable body, missing `learningGoal`) is status 500
    with an error body. */
module MockLesson {
  import opened Js
  import opened Lessons

  /** The `learningGoal` member; only its `title` is read. */
  datatype LearningGoalRef = LearningGoalRef(title: JsString)

  datatype Request = Unreadable | Body(learningGoal: Option<LearningGoalRef>)

  datatype Reply = Lesson(lesson: LessonOutput) | Failed(httpStatus: int, error: string)

  const TitlePrefix: string := "Les: "
  const OutlineHead: string := "\n**Leerdoel:** "
  const OutlineBody: string :=
    "\n\n**Tijdsduur:** 50 minuten\n\n**Lesopbouw:**\n\n"
    + "1. **Introductie (10 min)**\n   - Welkom en agenda\n   - Activeren voorkennis\n   - Uitleg leerdoel\n\n"
    + "2. **Instructie (15 min)**\n   - Theoretische uitleg\n   - Voorbeelden en demonstraties\n   - Interactieve vragen\n\n"
    + "3. **Verwerking (20 min)**\n   - Praktische oefeningen\n   - Samenwerking in groepjes\n   - Begeleiding door docent\n\n"
    + "4. **Afsluiting (5 min)**\n   - Samenvatting hoofdpunten\n   - Evaluatie leerdoel\n   - Preview volgende les\n\n"
    + "**Benodigdheden:**\n- Whiteboard/smartboard\n- Werkbladen\n- Eventueel digitale hulpmiddelen\n\n"
    + "**Differentiatie:**\n- Extra uitdaging voor snelle leerlingen\n- Ondersteuning voor leerlingen die meer tijd nodig hebben\n      "

  const TemplateActivities: seq<string> := [
    "Brainstorm activiteit: Leerlingen delen hun voorkennis over het onderwerp in tweetallen",
    "Interactieve presentatie met vragen en antwoorden om de theorie uit te leggen",
    "Praktische oefening waarbij leerlingen in groepjes van 3-4 aan de slag gaan met het geleerde",
    "Reflectie ronde waarin elke groep hun bevindingen deelt met de klas"
  ]

  const ErrorMessage: string := "Fout bij het genereren van de les"

  /** The `mockLesson` record for a goal title. */
  function BuildLesson(title: JsString): (l: LessonOutput)
    ensures |TitlePrefix| <= |l.lessonTitle| && l.lessonTitle[..|TitlePrefix|] == TitlePrefix
    ensures |OutlineHead| + |Render(title)| <= |l.lessonOutline|
    ensures l.lessonOutline[..|OutlineHead|] == OutlineHead
    ensures l.lessonOutline[|OutlineHead|..|OutlineHead| + |Render(title)|] == Render(title)
    ensures l.activities == TemplateActivities
  {
    var t := Render(title);
    var outline := OutlineHead + t + OutlineBody;
    assert outline[..|OutlineHead|] == OutlineHead;
    assert outline[|OutlineHead|..|OutlineHead| + |t|] == t;
    LessonOutput(TitlePrefix + t, outline, TemplateActivities)
  }

  /** The goal's title can be read back from the lesson title. */
  lemma TitleRoundTrip(title: JsString)
    ensures BuildLesson(title).lessonTitle[|TitlePrefix|..] == Render(title)
  {
    var t := Render(title);
    assert (TitlePrefix + t)[|TitlePrefix|..] == t;
  }

  /** The activities do not depend on the goal: always the same four. */
  lemma ActivitiesAreFixed(title1: JsString, title2: JsString)
    ensures BuildLesson(title1).activities == BuildLesson(title2).activities
    ensures |BuildLesson(title1).activities| == 4
  {
  }

  /** `POST` */
  function Post(req: Request): (r: Reply)
    ensures r.Failed? <==> !(req.Body? && req.learningGoal.Some?)
    ensures r.Failed? ==> r.httpStatus == 500 && r.error == ErrorMessage
    ensures r.Lesson? ==> r.lesson == BuildLesson(req.learningGoal.value.title)
  {
    match req
    case Unreadable => Failed(500, ErrorMessage)
    case Body(goal) =>
      if goal.None? then Failed(500, ErrorMessage) else Lesson(BuildLesson(goal.value.title))
  }
}
