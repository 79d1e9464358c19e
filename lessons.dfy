/** Records shared by the moderation and lesson-generation code: the lesson a
    validator receives, the verdict it returns, the per-category analysis of the
    external moderation service, and the parsed answer of the language model. */
module Lessons {
  import opened Js
  import opened Strings

  // ---------------------------------------------------------------- verdicts

  datatype Status = Safe | Flagged

  /** `ValidationResult`; `categories` is the optional member that only
      frontend/src/lib/azure-content-safety.ts fills in. */
  datatype Verdict = Verdict(status: Status, explanation: string, confidence: real, categories: Option<seq<string>>)

  const BlockedPrefix: string := "Ongepaste inhoud gedetecteerd: "
  const NotEducational: string := "Inhoud lijkt niet educatief van aard te zijn"
  const SuitableLocally: string := "Inhoud is geschikt voor educatief gebruik"
  const ServiceFlaggedPrefix: string := "Azure Content Safety heeft ongepaste inhoud gedetecteerd in categorieën: "
  const ServiceApproved: string := "Inhoud is goedgekeurd door Azure Content Safety en lokale validatie"
  const Precaution: string := "Fout tijdens validatie - inhoud geblokkeerd uit voorzorg"

  /** The conservative verdict of a validation that failed. */
  const PrecautionVerdict: Verdict := Verdict(Flagged, Precaution, 0.5, None)

  // ---------------------------------------------------------------- lesson content

  /** `LessonContent` as it arrives: the two text members may be absent or
      null, and `activities` may be missing (then `.join` throws). */
  datatype RawLesson = RawLesson(lessonTitle: JsString, lessonOutline: JsString, activities: Option<seq<string>>)

  /** `${lessonTitle} ${lessonOutline} ${activities.join(' ')}`: the rendered
      title first and the joined activities last, each field set off by one
      space. */
  function LocalText(c: RawLesson): (t: string)
    requires c.activities.Some?
    ensures |t| == |Render(c.lessonTitle)| + |Render(c.lessonOutline)| + |Join(c.activities.value, " ")| + 2
    ensures t[..|Render(c.lessonTitle)| + 1] == Render(c.lessonTitle) + " "
    ensures t[|Render(c.lessonTitle)| + 1..|t| - |Join(c.activities.value, " ")|] == Render(c.lessonOutline) + " "
    ensures t[|t| - |Join(c.activities.value, " ")|..] == Join(c.activities.value, " ")
  {
    Render(c.lessonTitle) + " " + Render(c.lessonOutline) + " " + Join(c.activities.value, " ")
  }

  /** Each field of the lesson occurs in the text the local checks scan. */
  lemma FieldsInLocalText(c: RawLesson)
    requires c.activities.Some?
    ensures Contains(LocalText(c), Render(c.lessonTitle))
    ensures Contains(LocalText(c), Render(c.lessonOutline))
    ensures forall i :: 0 <= i < |c.activities.value| ==> Contains(LocalText(c), c.activities.value[i])
  {
    var t, o, j := Render(c.lessonTitle), Render(c.lessonOutline), Join(c.activities.value, " ");
    assert LocalText(c) == t + (" " + o + " " + j);
    ContainsPrefix(t, t);
    ContainsInAppend(t, " " + o + " " + j, t);
    assert LocalText(c) == (t + " ") + (o + (" " + j));
    ContainsPrefix(o, o);
    ContainsInAppend(o, " " + j, o);
    ContainsInAppend(t + " ", o + (" " + j), o);
    forall i | 0 <= i < |c.activities.value|
      ensures Contains(LocalText(c), c.activities.value[i])
    {
      JoinContainsElement(c.activities.value, " ", i);
      ContainsInAppend(t + " " + o + " ", j, c.activities.value[i]);
    }
  }

  /** Field boundaries and letter case carry no weight: a term occurring in
      the lowercased title, outline or any activity occurs in the scanned text. */
  lemma FieldTermIsScanned(c: RawLesson, field: string, k: string)
    requires c.activities.Some?
    requires field == Render(c.lessonTitle) || field == Render(c.lessonOutline) || field in c.activities.value
    requires Contains(Lower(field), k)
    ensures Contains(Lower(LocalText(c)), k)
  {
    FieldsInLocalText(c);
    ContainsLower(LocalText(c), field);
    ContainsTransitive(Lower(LocalText(c)), Lower(field), k);
  }

  // ---------------------------------------------------------------- external analysis

  /** One entry of `categoriesAnalysis`. */
  datatype CategoryScore = CategoryScore(category: string, severity: int)

  /** What the external moderation call produced: it failed (network error,
      non-2xx status, unreadable payload), or it returned an analysis whose
      `categoriesAnalysis` member may be absent. */
  datatype AnalysisOutcome = Unavailable | Analysis(categoriesAnalysis: Option<seq<CategoryScore>>)

  /** Severity 2 (medium) and 3 (high) flag a category. */
  predicate Severe(c: CategoryScore) {
    c.severity >= 2
  }

  /** The names of the severe categories, in response order: never more than
      the entries, and as many exactly when every entry is severe. */
  function FlaggedCategories(cs: seq<CategoryScore>): (r: seq<string>)
    ensures |r| <= |cs|
    ensures |r| == |cs| <==> forall j :: 0 <= j < |cs| ==> Severe(cs[j])
  {
    if cs == [] then []
    else
      assert forall j :: 1 <= j < |cs| ==> cs[j] == cs[1..][j - 1];
      (if Severe(cs[0]) then [cs[0].category] else []) + FlaggedCategories(cs[1..])
  }

  function Names(cs: seq<CategoryScore>): seq<string> {
    if cs == [] then [] else [cs[0].category] + Names(cs[1..])
  }

  /** Extending an analysis by one entry extends the flagged list by that entry's
      name exactly when it is severe. */
  lemma {:induction false} FlaggedCategoriesAppend(cs: seq<CategoryScore>, c: CategoryScore)
    ensures FlaggedCategories(cs + [c]) == FlaggedCategories(cs) + (if Severe(c) then [c.category] else [])
  {
    if cs != [] {
      assert (cs + [c])[1..] == cs[1..] + [c];
      FlaggedCategoriesAppend(cs[1..], c);
    }
  }

  /** A name is flagged exactly when some entry with that name is severe. */
  lemma {:induction false} FlaggedCategoriesMembers(cs: seq<CategoryScore>, name: string)
    ensures name in FlaggedCategories(cs) <==>
            exists j :: 0 <= j < |cs| && cs[j].category == name && Severe(cs[j])
  {
    if cs != [] {
      FlaggedCategoriesMembers(cs[1..], name);
      if exists j :: 0 <= j < |cs[1..]| && cs[1..][j].category == name && Severe(cs[1..][j]) {
        var j :| 0 <= j < |cs[1..]| && cs[1..][j].category == name && Severe(cs[1..][j]);
        assert cs[j + 1] == cs[1..][j];
      }
      if exists j :: 0 <= j < |cs| && cs[j].category == name && Severe(cs[j]) {
        var j :| 0 <= j < |cs| && cs[j].category == name && Severe(cs[j]);
        if j > 0 {
          assert cs[1..][j - 1] == cs[j];
        }
      }
    }
  }

  /** The flagged list is empty exactly when no entry is severe. */
  lemma {:induction false} FlaggedCategoriesEmpty(cs: seq<CategoryScore>)
    ensures FlaggedCategories(cs) == [] <==> forall j :: 0 <= j < |cs| ==> !Severe(cs[j])
  {
    if cs != [] {
      FlaggedCategoriesEmpty(cs[1..]);
      assert forall j :: 1 <= j < |cs| ==> cs[j] == cs[1..][j - 1];
    }
  }

  /** The flagged names keep the response order. */
  lemma {:induction false} FlaggedCategoriesInOrder(cs: seq<CategoryScore>)
    ensures IsSubsequence(FlaggedCategories(cs), Names(cs))
  {
    if cs != [] {
      FlaggedCategoriesInOrder(cs[1..]);
      assert Names(cs) == [cs[0].category] + Names(cs[1..]);
      if Severe(cs[0]) {
        assert FlaggedCategories(cs) == [cs[0].category] + FlaggedCategories(cs[1..]);
        assert ([cs[0].category] + FlaggedCategories(cs[1..]))[1..] == FlaggedCategories(cs[1..]);
      } else {
        assert FlaggedCategories(cs) == FlaggedCategories(cs[1..]);
        SubsequenceConsRight(FlaggedCategories(cs[1..]), cs[0].category, Names(cs[1..]));
      }
    }
  }

  // ---------------------------------------------------------------- lesson generation

  /** `LessonOutput` once its required members were checked. */
  datatype LessonOutput = LessonOutput(lessonTitle: string, lessonOutline: string, activities: seq<string>)

  /** The result of `JSON.parse` on the model's answer: every member may be absent. */
  datatype ParsedLesson = ParsedLesson(lessonTitle: Option<string>, lessonOutline: Option<string>, activities: Option<seq<string>>)

  /** What the chat-completion call produced: an exception (from the call or
      from `JSON.parse`), an empty message, or a parsed answer. */
  datatype ModelReply = Raised(cause: Thrown) | NoContent | Answer(parsed: ParsedLesson)

  /** A parsed string member as a JavaScript value: absent is `undefined`. */
  function Member(m: Option<string>): JsString {
    match m
    case None => Undefined
    case Some(s) => Str(s)
  }

  /** `!lessonData.lessonTitle || !lessonData.lessonOutline || !lessonData.activities`:
      empty strings are falsy, an empty array is not. */
  function Incomplete(p: ParsedLesson): (missing: bool)
    ensures missing <==> !Truthy(Member(p.lessonTitle)) || !Truthy(Member(p.lessonOutline)) || p.activities.None?
    ensures p.activities == Some([]) && Truthy(Member(p.lessonTitle)) && Truthy(Member(p.lessonOutline)) ==> !missing
  {
    p.lessonTitle.None? || p.lessonTitle.value == "" ||
    p.lessonOutline.None? || p.lessonOutline.value == "" ||
    p.activities.None?
  }

  function Completed(p: ParsedLesson): LessonOutput
    requires !Incomplete(p)
  {
    LessonOutput(p.lessonTitle.value, p.lessonOutline.value, p.activities.value)
  }

  const NoReplyMessage: string := "Geen response ontvangen van AI model"
  const IncompleteMessage: string := "Onvolledige response van AI model"
  const UnknownGenerationError: string := "Onbekende fout bij het genereren van de les"

  /** A learning goal as the generators read it. */
  datatype GoalText = GoalText(title: JsString, description: JsString)

  /** Helper: `${title} ${description}`, the text the generators' keyword
      checks scan; stated through `ValidateEducationalContent` and
      `IsEducational`. */
  function GoalContent(g: GoalText): string {
    Render(g.title) + " " + Render(g.description)
  }
}
