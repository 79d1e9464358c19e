/** `ContentValidator` (src/agents/validator.ts): local keyword checks, then,
    when the service is configured, the external severity analysis. The two
    readonly fields the constructor reads from the environment are the
    `Config` parameter; the result of the external call is the
    `AnalysisOutcome` parameter. */
module ContentValidator {
  import opened Js
  import opened Strings
  import opened Lessons

  const InappropriateKeywords: seq<string> := [
    "geweld", "drugs", "alcohol", "discriminatie", "pesten", "mobbing",
    "seks", "pornografie", "zelfmoord", "zelfbeschadiging", "haat"
  ]

  const EducationalKeywords: seq<string> := [
    "leren", "onderwijs", "school", "student", "leerling", "docent",
    "les", "activiteit", "oefening", "kennis", "vaardigheid"
  ]

  /** The endpoint and key, each `process.env.X || ''`. */
  datatype Config = Config(endpoint: string, key: string)

  /** The constructor: an unset variable becomes the empty string. */
  function FromEnvironment(endpoint: Option<string>, key: Option<string>): (cfg: Config)
    ensures endpoint.Some? ==> cfg.endpoint == endpoint.value
    ensures endpoint.None? ==> cfg.endpoint == ""
    ensures key.Some? ==> cfg.key == key.value
    ensures key.None? ==> cfg.key == ""
  {
    Config(endpoint.GetOr(""), key.GetOr(""))
  }

  /** Helper: `this.azureContentSafetyEndpoint && this.azureContentSafetyKey`,
      whose use is stated by `ValidateContent`. */
  predicate Configured(cfg: Config) {
    cfg.endpoint != "" && cfg.key != ""
  }

  /** The lowercased text the keyword checks scan. */
  function Scanned(c: RawLesson): string
    requires c.activities.Some?
  {
    Lower(LocalText(c))
  }

  /** `performLocalValidation`; `None` is the `TypeError` thrown when
      `activities` is missing. */
  function PerformLocalValidation(c: RawLesson): (r: Option<Verdict>)
    ensures c.activities.None? <==> r.None?
    ensures c.activities.Some? && ContainsAny(Scanned(c), InappropriateKeywords) ==>
              r == Some(Verdict(Flagged, BlockedPrefix + Join(Found(Scanned(c), InappropriateKeywords), ", "), 0.9, None))
    ensures c.activities.Some? && !ContainsAny(Scanned(c), InappropriateKeywords) &&
            !ContainsAny(Scanned(c), EducationalKeywords) ==>
              r == Some(Verdict(Flagged, NotEducational, 0.7, None))
    ensures c.activities.Some? && !ContainsAny(Scanned(c), InappropriateKeywords) &&
            ContainsAny(Scanned(c), EducationalKeywords) ==>
              r == Some(Verdict(Safe, SuitableLocally, 0.8, None))
  {
    if c.activities.None? then None
    else
      var text := Scanned(c);
      var found := Found(text, InappropriateKeywords);
      FoundNonEmpty(text, InappropriateKeywords);
      if |found| > 0 then Some(Verdict(Flagged, BlockedPrefix + Join(found, ", "), 0.9, None))
      else if !ContainsAny(text, EducationalKeywords) then Some(Verdict(Flagged, NotEducational, 0.7, None))
      else Some(Verdict(Safe, SuitableLocally, 0.8, None))
  }

  /** The verdict built from a successful external analysis; a missing
      `categoriesAnalysis` counts as an empty one. */
  function ServiceVerdict(categories: Option<seq<CategoryScore>>): (r: Verdict)
    ensures r.confidence == 0.95 && r.categories.None?
    ensures r.status == Flagged <==> exists j :: 0 <= j < |categories.GetOr([])| && Severe(categories.GetOr([])[j])
    ensures r.status == Flagged ==> r.explanation == ServiceFlaggedPrefix + Join(FlaggedCategories(categories.GetOr([])), ", ")
    ensures r.status == Safe ==> r.explanation == ServiceApproved
  {
    var cs := categories.GetOr([]);
    FlaggedCategoriesEmpty(cs);
    if exists j :: 0 <= j < |cs| && Severe(cs[j]) then
      Verdict(Flagged, ServiceFlaggedPrefix + Join(FlaggedCategories(cs), ", "), 0.95, None)
    else
      Verdict(Safe, ServiceApproved, 0.95, None)
  }

  /** `validateContent` */
  function ValidateContent(cfg: Config, c: RawLesson, service: AnalysisOutcome): (r: Verdict)
    // any other failure: the conservative verdict
    ensures c.activities.None? ==> r == PrecautionVerdict
    // a local flag is final, and the service is not consulted
    ensures PerformLocalValidation(c).Some? && PerformLocalValidation(c).value.status == Flagged ==>
              r == PerformLocalValidation(c).value
    // without configuration, or when the call fails, the local verdict stands
    ensures PerformLocalValidation(c).Some? && (!Configured(cfg) || service.Unavailable?) ==>
              r == PerformLocalValidation(c).value
    // otherwise the analysis decides
    ensures PerformLocalValidation(c).Some? && PerformLocalValidation(c).value.status == Safe &&
            Configured(cfg) && service.Analysis? ==>
              r == ServiceVerdict(service.categoriesAnalysis)
  {
    match PerformLocalValidation(c)
    case None => PrecautionVerdict
    case Some(local) =>
      if local.status == Flagged then local
      else if !Configured(cfg) then local
      else
        match service
        case Unavailable => local
        case Analysis(categories) => ServiceVerdict(categories)
  }

  /** `validateLesson`: the verdict of `validateContent`, logged. */
  function ValidateLesson(cfg: Config, c: RawLesson, service: AnalysisOutcome): (r: Verdict)
    ensures r == ValidateContent(cfg, c, service)
  {
    ValidateContent(cfg, c, service)
  }

  // ---------------------------------------------------------------- properties

  /** A blocked term anywhere in the lesson (any case) flags it with 0.9 and
      names the found terms in list order, whatever the configuration and the
      service would say. */
  lemma BlockedTermFlags(cfg: Config, c: RawLesson, service: AnalysisOutcome, k: string)
    requires c.activities.Some?
    requires k in InappropriateKeywords && Contains(Scanned(c), k)
    ensures var r := ValidateContent(cfg, c, service);
            && r.status == Flagged && r.confidence == 0.9
            && r.explanation == BlockedPrefix + Join(Found(Scanned(c), InappropriateKeywords), ", ")
            && k in Found(Scanned(c), InappropriateKeywords)
            && IsSubsequence(Found(Scanned(c), InappropriateKeywords), InappropriateKeywords)
  {
    var j :| 0 <= j < |InappropriateKeywords| && InappropriateKeywords[j] == k;
    assert ContainsAny(Scanned(c), InappropriateKeywords);
    FoundMembers(Scanned(c), InappropriateKeywords, k);
    FoundInListOrder(Scanned(c), InappropriateKeywords);
  }

  /** The blocklist precedes the relevance check: a blocked term without any
      educational term yields the blocklist explanation. */
  lemma BlocklistBeforeRelevance(cfg: Config, c: RawLesson, service: AnalysisOutcome)
    requires c.activities.Some?
    requires ContainsAny(Scanned(c), InappropriateKeywords) && !ContainsAny(Scanned(c), EducationalKeywords)
    ensures ValidateContent(cfg, c, service).explanation != NotEducational
    ensures ValidateContent(cfg, c, service).confidence == 0.9
  {
    var e := BlockedPrefix + Join(Found(Scanned(c), InappropriateKeywords), ", ");
    assert e[0] == BlockedPrefix[0] == 'O';
    assert NotEducational[0] == 'I';
  }

  /** Without a configured service the result is exactly the local verdict:
      safe with 0.8 exactly when no blocked and some educational term occurs. */
  lemma UnconfiguredIsLocal(cfg: Config, c: RawLesson, service: AnalysisOutcome)
    requires !Configured(cfg) && c.activities.Some?
    ensures var r := ValidateContent(cfg, c, service);
            (r.status == Safe <==>
               !ContainsAny(Scanned(c), InappropriateKeywords) && ContainsAny(Scanned(c), EducationalKeywords))
            && (r.status == Safe ==> r.confidence == 0.8)
  {
  }

  /** The external analysis can only turn a local `safe` into `flagged`: the
      service never lifts a local flag. */
  lemma ServiceNeverLiftsFlag(cfg: Config, c: RawLesson, service: AnalysisOutcome)
    requires ValidateContent(cfg, c, service).status == Safe
    ensures PerformLocalValidation(c).Some? && PerformLocalValidation(c).value.status == Safe
  {
  }

  /** A failed service call gives the same verdict as no service at all. */
  lemma UnavailableIsUnconfigured(cfg: Config, c: RawLesson)
    ensures ValidateContent(cfg, c, Unavailable) == ValidateContent(Config("", ""), c, Unavailable)
  {
  }
}
