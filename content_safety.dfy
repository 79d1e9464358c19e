/** The frontend validator (frontend/src/lib/azure-content-safety.ts): the same
    local keyword checks, which also report the found terms as `categories`,
    then an unconditional call of the moderation client, whose result is the
    `AnalysisOutcome` parameter. */
module ContentSafety {
  import opened Js
  import opened Strings
  import opened Lessons

  const InappropriateKeywords: seq<string> := [
    "geweld", "drugs", "alcohol", "discriminatie", "pesten", "mobbing",
    "seks", "pornografie", "zelfmoord", "zelfbeschadiging", "haat"
  ]

  const EducationalKeywords: seq<string> := [
    "leren", "onderwijs", "school", "student", "leerling", "docent",
    "les", "activiteit", "oefening", "kennis", "vaardigheid"
  ]

  const FallbackPrefix: string := "Azure Content Safety niet beschikbaar, lokale validatie gebruikt: "

  function Scanned(c: RawLesson): string
    requires c.activities.Some?
  {
    Lower(LocalText(c))
  }

  /** `performLocalValidation`; `None` is the `TypeError` thrown when
      `activities` is missing. */
  function PerformLocalValidation(c: RawLesson): (r: Option<Verdict>)
    ensures c.activities.None? <==> r.None?
    ensures c.activities.Some? && ContainsAny(Scanned(c), InappropriateKeywords) ==>
              var found := Found(Scanned(c), InappropriateKeywords);
              r == Some(Verdict(Flagged, BlockedPrefix + Join(found, ", "), 0.9, Some(found)))
    ensures c.activities.Some? && !ContainsAny(Scanned(c), InappropriateKeywords) &&
            !ContainsAny(Scanned(c), EducationalKeywords) ==>
              r == Some(Verdict(Flagged, NotEducational, 0.7, None))
    ensures c.activities.Some? && !ContainsAny(Scanned(c), InappropriateKeywords) &&
            ContainsAny(Scanned(c), EducationalKeywords) ==>
              r == Some(Verdict(Safe, SuitableLocally, 0.8, None))
  {
    if c.activities.None? then None
    else
      var text := Scanned(c);
      var found := Found(text, InappropriateKeywords);
      FoundNonEmpty(text, InappropriateKeywords);
      if |found| > 0 then Some(Verdict(Flagged, BlockedPrefix + Join(found, ", "), 0.9, Some(found)))
      else if !ContainsAny(text, EducationalKeywords) then Some(Verdict(Flagged, NotEducational, 0.7, None))
      else Some(Verdict(Safe, SuitableLocally, 0.8, None))
  }

  /** The `categories` of a local blocklist verdict are exactly the blocked
      terms that occur, in list order. */
  lemma LocalCategoriesAreFoundTerms(c: RawLesson, k: string)
    requires c.activities.Some? && ContainsAny(Scanned(c), InappropriateKeywords)
    ensures var cats := PerformLocalValidation(c).value.categories;
            && cats.Some?
            && (k in cats.value <==> k in InappropriateKeywords && Contains(Scanned(c), k))
            && IsSubsequence(cats.value, InappropriateKeywords)
  {
    FoundMembers(Scanned(c), InappropriateKeywords, k);
    FoundInListOrder(Scanned(c), InappropriateKeywords);
  }

  /** `validateContent`. `None` is a rejected promise: with `activities`
      missing, both the first local validation and the one in the `catch`
      clause throw. */
  method ValidateContent(c: RawLesson, service: AnalysisOutcome) returns (r: Option<Verdict>)
    ensures c.activities.None? ==> r.None?
    // a local flag is returned before any analysis
    ensures PerformLocalValidation(c).Some? && PerformLocalValidation(c).value.status == Flagged ==>
              r == PerformLocalValidation(c)
    // a failed call falls back to the (necessarily safe) local verdict, annotated
    ensures PerformLocalValidation(c).Some? && PerformLocalValidation(c).value.status == Safe &&
            service.Unavailable? ==>
              r == Some(Verdict(Safe, FallbackPrefix + SuitableLocally, 0.8, None))
    // an analysis flags exactly when some category is severe, listing those
    ensures PerformLocalValidation(c).Some? && PerformLocalValidation(c).value.status == Safe &&
            service.Analysis? ==>
              var flagged := FlaggedCategories(service.categoriesAnalysis.GetOr([]));
              r == Some(if flagged != []
                        then Verdict(Flagged, ServiceFlaggedPrefix + Join(flagged, ", "), 0.95, Some(flagged))
                        else Verdict(Safe, ServiceApproved, 0.95, None))
  {
    var first := PerformLocalValidation(c);
    if first.None? {
      // the catch clause validates again, which throws again
      return None;
    }
    var localResult := first.value;
    if localResult.status == Flagged {
      return Some(localResult);
    }
    match service
    case Unavailable =>
      var fallback := PerformLocalValidation(c).value;
      return Some(fallback.(explanation := FallbackPrefix + fallback.explanation));
    case Analysis(categoriesAnalysis) =>
      var flaggedCategories: seq<string> := [];
      if categoriesAnalysis.Some? {
        var cats := categoriesAnalysis.value;
        for i := 0 to |cats|
          invariant flaggedCategories == FlaggedCategories(cats[..i])
        {
          FlaggedCategoriesAppend(cats[..i], cats[i]);
          assert cats[..i + 1] == cats[..i] + [cats[i]];
          if cats[i].severity >= 2 {
            flaggedCategories := flaggedCategories + [cats[i].category];
          }
        }
        assert cats[..|cats|] == cats;
      }
      if |flaggedCategories| > 0 {
        return Some(Verdict(Flagged, ServiceFlaggedPrefix + Join(flaggedCategories, ", "), 0.95, Some(flaggedCategories)));
      }
      return Some(Verdict(Safe, ServiceApproved, 0.95, None));
  }

  /** A severe category is always reported, so it always flags locally safe
      content (there is no configuration gate in front of the analysis). */
  lemma SevereCategoryIsFlagged(categories: seq<CategoryScore>, j: nat)
    requires j < |categories| && Severe(categories[j])
    ensures FlaggedCategories(categories) != []
    ensures categories[j].category in FlaggedCategories(categories)
  {
    FlaggedCategoriesMembers(categories, categories[j].category);
  }
}
