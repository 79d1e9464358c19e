# JAMP content rules, modelled in Dafny

JAMP is a lesson-planning tool for Dutch schools. Teachers keep a list of
learning goals. An agent drafts lessons for a goal, and a moderation step
decides whether a lesson may be shown. This project models the rules these
parts apply. It proves what those rules promise and how the near-duplicate
copies of them differ.

- **Moderation.** There are three copies of the keyword moderation:
  - the `ContentValidator` agent (`ContentValidator`);
  - the frontend library around the external content-safety service (`ContentSafety`);
  - the mock validation route (`ValidateRoute`).

  Each lowercases the space-joined title, outline and activities of a lesson. It
  checks a blocklist first, then a list of educational terms. Two of them then
  consult an external severity analysis.
- **Generation gates.** The generation agent (`LessonGuard`) and the frontend
  generator (`OpenAiLesson`) check a goal against education keywords before
  calling the language model. Both also check the members the answer must have.
- **Goal rubric.** The placeholder quality rubric (`GoalRubric`) scores each
  criterion in tenths, averages the four scores and lists suggestions.
- **Placeholder generators.** `GoalDrafts` drafts goals, and the mock lesson
  route (`MockLesson`) builds lessons from a template.
- **Client state.** The lesson editor component (`LessonEditor`, a class whose
  fields are the component's state) and the goal list of the dashboard
  (`GoalList`). The monitoring dashboard's filter, counts and status
  presentation are in `Monitoring`.
- **Goals API.** The learning-goals HTTP function (`GoalsApi`) is a class whose
  handlers assign the response.
- **Cross-copy lemmas.** `Drift` relates the copies: which lists contain which,
  where the verdicts agree, and concrete inputs where they part.

Shared records live in `Lessons`. JavaScript value rules live in `Js`:
- template literals render `undefined`/`null` as text;
- the truthiness of strings;
- the message of a caught error.

String operations live in `Strings`: ASCII lowercasing, `includes`, `filter`,
`some`, `join`, `trim`, and a word-bounded case-insensitive match standing in
for `/\b(...)\b/i`.

Every external call is a parameter holding its result:
- the content-safety analysis: `AnalysisOutcome`;
- the chat completion: `ModelReply`;
- the two `fetch` calls of the editor: `GenerateFetch` and `ValidateFetch`;
- the database replies: `RowReply`, `Replies` and the `failed` flags;
- the clock: `now`.

Three behaviours of the code the model keeps:
- An absent title renders as `"undefined"` inside the scanned text; it is not
  skipped.
- The frontend moderation library rejects a lesson without `activities`: both
  its first local check and the one in its `catch` clause throw.
- The frontend generator's gate error is thrown before its `try` block, so it
  is never rewrapped.

## Model

| member | source | states |
|---|---|---|
| ContentValidator.FromEnvironment | src/agents/validator.ts:17-20 | an unset endpoint or key becomes the empty string; a set one is kept |
| ContentValidator.PerformLocalValidation | src/agents/validator.ts:50-95 | a missing `activities` throws; any blocked term in the lowercased text gives flagged, 0.9, naming the found terms joined by ", "; otherwise no educational term gives flagged, 0.7; otherwise safe, 0.8 |
| ContentValidator.ServiceVerdict | src/agents/validator.ts:113-135 | flagged with 0.95 exactly when some category has severity at least 2, naming the flagged categories; otherwise, also for a missing analysis, safe with 0.95 |
| ContentValidator.ValidateContent | src/agents/validator.ts:97-153 | a local flag is final; without endpoint and key, or when the service call fails, the local verdict stands; otherwise the analysis decides; a thrown error gives flagged, 0.5 |
| ContentValidator.ValidateLesson | src/agents/validator.ts:155-167 | returns the verdict of `validateContent` unchanged |
| ContentValidator.BlockedTermFlags | src/agents/validator.ts:51-70 | a blocked term anywhere gives flagged, 0.9, whatever the configuration and the service; the explanation lists exactly the occurring blocked terms, in blocklist order |
| ContentValidator.BlocklistBeforeRelevance | src/agents/validator.ts:64-88 | a blocked term without an educational term yields the blocklist explanation and 0.9, not the relevance verdict |
| ContentValidator.UnconfiguredIsLocal | src/agents/validator.ts:73-94 | without configuration the verdict is safe exactly when no blocked term and some educational term occurs, and then with 0.8 |
| ContentValidator.ServiceNeverLiftsFlag | src/agents/validator.ts:100-104 | a safe final verdict implies a safe local verdict; the service only adds flags |
| ContentValidator.UnavailableIsUnconfigured | src/agents/validator.ts:137-143 | a failed service call gives the same verdict as having no service configured |
| Lessons.LocalText | src/agents/validator.ts:51 | the scanned text is the rendered title, a space, the outline, a space and the space-joined activities, in that order |
| Lessons.FieldsInLocalText | src/agents/validator.ts:51 | the title, the outline and every activity occur in the joined text |
| Lessons.FieldTermIsScanned | src/agents/validator.ts:51-62 | a term in the lowercased title, outline or any activity occurs in the scanned text |
| Lessons.FlaggedCategories | frontend/src/lib/azure-content-safety.ts:39-49 | never more names than analysed entries, and as many exactly when every entry is severe |
| Lessons.FlaggedCategoriesAppend | frontend/src/lib/azure-content-safety.ts:43-48 | one more analysed category extends the flagged list by its name exactly when it is severe |
| Lessons.FlaggedCategoriesMembers | frontend/src/lib/azure-content-safety.ts:43-48 | a name is flagged exactly when some entry with that name has severity at least 2 |
| Lessons.FlaggedCategoriesEmpty | src/agents/validator.ts:114-118 | the flagged list is empty exactly when no category is severe |
| Lessons.FlaggedCategoriesInOrder | src/agents/validator.ts:119-122 | the flagged names are a subsequence of the analysed names, in response order |
| ContentSafety.PerformLocalValidation | frontend/src/lib/azure-content-safety.ts:78-124 | as in the agent, with `categories` set to the found terms on a blocklist flag and absent otherwise |
| ContentSafety.LocalCategoriesAreFoundTerms | frontend/src/lib/azure-content-safety.ts:88-99 | the reported categories are exactly the occurring blocked terms, in list order |
| ContentSafety.ValidateContent | frontend/src/lib/azure-content-safety.ts:21-76 | a local flag is returned before any analysis; with no configuration gate, any analysis flags with 0.95 exactly the severe categories, in response order, else safe with 0.95; a failed call gives the annotated safe local verdict with 0.8 |
| ContentSafety.SevereCategoryIsFlagged | frontend/src/lib/azure-content-safety.ts:42-51 | any severe category is reported, so the analysis flags the lesson |
| ValidateRoute.Decide | frontend/src/app/api/validate-content/route.ts:12-52 | on the lowercased joined text: a blocked term gives flagged, 0.9, with a fixed explanation; otherwise no educational term gives flagged, 0.7; otherwise safe, 0.95 |
| ValidateRoute.Post | frontend/src/app/api/validate-content/route.ts:4-65 | an unreadable body or a missing `content` or `activities` gives status 500 with flagged, 0.5; otherwise status 200 with the decision |
| ValidateRoute.BlockedVerdictIsUniform | frontend/src/app/api/validate-content/route.ts:23-29 | every blocked lesson gets the same verdict; the explanation names no term |
| Drift.RouteListsAreSublists | frontend/src/app/api/validate-content/route.ts:15-34 | both term lists of the route are contained in the agent's lists |
| Drift.RouteBlockedIsAgentBlocked | frontend/src/app/api/validate-content/route.ts:19-29 | whatever the route blocks, the agent blocks with 0.9, whatever its configuration and the service |
| Drift.AgentIrrelevantIsRouteIrrelevant | frontend/src/app/api/validate-content/route.ts:36-46 | a lesson the agent finds not educational gets the route's not-educational verdict too |
| Drift.LocalValidationsAgree | frontend/src/lib/azure-content-safety.ts:78-124 | the agent's and the library's local checks agree on status, explanation and confidence |
| Drift.BlockedFieldTermFlagsEverywhere | frontend/src/app/api/validate-content/route.ts:12-29 | a route-blocked term in any one field, in any letter case, flags the lesson in all three validators |
| Drift.SafeConfidenceDiffers | frontend/src/app/api/validate-content/route.ts:48-52 | a lesson both accept gets 0.95 from the route but 0.8 from the unconfigured agent |
| Drift.KennisWitness | frontend/src/app/api/validate-content/route.ts:32-46 | the lesson "kennis" is safe for the unconfigured agent (0.8) and not educational for the route (0.7) |
| Drift.GuardImpliesGate | frontend/src/lib/azure-openai.ts:30-40 | every goal past the agent's guardrail passes the frontend gate |
| Drift.GeneratorsAgreePastGuardrail | frontend/src/lib/azure-openai.ts:86-102 | past the guardrail both generators return the same lesson, or fail with the same message |
| Drift.GateLetsBlockedTermThrough | frontend/src/lib/azure-openai.ts:35-40 | the goal "les" / "geweld" passes the frontend gate but fails the agent's guardrail, whatever the model would answer |
| Drift.MockLessonIsEducational | frontend/src/app/api/generate-lesson/route.ts:13 | every mock lesson is blocked with 0.9 or approved with 0.95 by the route, never found not educational |
| Drift.DraftGoalsAreValid | src/agents/lesgenerator.js:27-33 | both draft goals match "kunnen", so the rubric scores them measurable and valid |
| LessonGuard.IsEducationRelated | src/agents/lessonGenerator.ts:45-50 | true exactly when one of the 12 education keywords occurs in the lowercased content |
| LessonGuard.KeywordInAnyCase | src/agents/lessonGenerator.ts:45-50 | a keyword written in any letter case in the content makes it education-related |
| LessonGuard.ValidateEducationalContent | src/agents/lessonGenerator.ts:45-68 | true exactly when the lowercased title and description contain one of the 12 education keywords and none of the 5 inappropriate terms |
| LessonGuard.GenerateLesson | src/agents/lessonGenerator.ts:70-148 | a failed guardrail gives the fixed message; success exactly for a valid goal with an answer whose title and outline are non-empty and whose activities are present; each other failure is reported with its message, never thrown |
| LessonGuard.GuardrailSkipsModel | src/agents/lessonGenerator.ts:73-78 | when the guardrail fails the result does not depend on the model's answer |
| LessonGuard.EmptyActivitiesAccepted | src/agents/lessonGenerator.ts:132-134 | an empty activities array passes the required-member check |
| Lessons.Incomplete | frontend/src/lib/azure-openai.ts:94-96 | an answer is incomplete exactly when its title or outline is falsy (absent or empty) or its activities are absent; an empty activities array is accepted |
| OpenAiLesson.IsEducational | frontend/src/lib/azure-openai.ts:30-40 | the gate opens exactly when one of the 12 education keywords occurs in the lowercased title, a space and the description |
| OpenAiLesson.KeywordInTitleOrDescription | frontend/src/lib/azure-openai.ts:35-36 | a keyword written in any letter case in the title or in the description opens the gate |
| OpenAiLesson.GenerateLesson | frontend/src/lib/azure-openai.ts:26-103 | throws the gate message exactly when no education keyword occurs (or a raised error carries that text); returns exactly a complete answer; rethrows later errors with the same message |
| GoalRubric.AssessClarity | src/agents/validator.js:50-55 | 8.5 exactly when an action verb matches as a word and the description is longer than 20; else 6.0 |
| GoalRubric.AssessMeasurability | src/agents/validator.js:61-64 | 8.0 exactly when a measurable term matches as a word; else 5.5 |
| GoalRubric.AssessRelevance | src/agents/validator.js:70-73 | the placeholder constant 7.5, at or above the threshold 7 |
| GoalRubric.AssessAchievability | src/agents/validator.js:79-82 | the placeholder constant 7.8, at or above the threshold 7 |
| GoalRubric.GenerateSuggestions | src/agents/validator.js:88-108 | one suggestion per criterion below 7, in the order clarity, measurability, relevance, achievability |
| GoalRubric.ValidateLearningGoal | src/agents/validator.js:25-44 | the four scores, their unrounded mean, the suggestions, and validity exactly when the mean is at least 7.0 |
| GoalRubric.LowCriteriaOfAll | src/agents/validator.js:88-108 | the low criteria are one conditional entry per criterion, in fixed order |
| GoalRubric.LowCriteriaMembers | src/agents/validator.js:91-105 | a criterion is listed exactly when it is among those checked and scores below 7 |
| GoalRubric.SuggestionFor | src/agents/validator.js:91-105 | a criterion's suggestion appears exactly when it scores below 7 |
| GoalRubric.SuggestionsAtMostTwo | src/agents/validator.js:70-105 | the relevance and achievability suggestions never appear: at most two suggestions |
| GoalRubric.ValidIffClearOrMeasurable | src/agents/validator.js:36-42 | the goal is valid exactly when clarity or measurability scores high |
| GoalDrafts.PresentIffNotBlank | src/agents/lesgenerator.js:49 | a field passes exactly when it is a string that is not all white space |
| GoalDrafts.ValidateInput | src/agents/lesgenerator.js:47-50 | true exactly when subject, level and domain are each a string that is not all white space |
| GoalDrafts.GenerateLearningGoals | src/agents/lesgenerator.js:20-40 | exactly two goals, each carrying the level and domain unchanged, each naming the subject in title and description |
| GoalDrafts.DraftTitles | src/agents/lesgenerator.js:26-32 | the titles are "Begrijpen van " + subject + " concepten" and "Praktische toepassing " + subject |
| MockLesson.BuildLesson | frontend/src/app/api/generate-lesson/route.ts:12-56 | the title is "Les: " followed by the goal title; the outline embeds the goal title right after its "**Leerdoel:** " line; the four template activities |
| MockLesson.TitleRoundTrip | frontend/src/app/api/generate-lesson/route.ts:13 | the goal title can be read back from the lesson title |
| MockLesson.ActivitiesAreFixed | frontend/src/app/api/generate-lesson/route.ts:50-55 | the activities do not depend on the goal and are four |
| MockLesson.Post | frontend/src/app/api/generate-lesson/route.ts:4-66 | status 500 with the error message exactly when the body is unreadable or lacks `learningGoal`; otherwise the mock lesson |
| LessonEditor.EditField | frontend/src/components/LessonGenerator.tsx:88-95 | only the edited member changes; no lesson stays no lesson |
| LessonEditor.SetActivity | frontend/src/components/LessonGenerator.tsx:99-100 | only the item at the index changes; the length is kept |
| LessonEditor.AddedActivity | frontend/src/components/LessonGenerator.tsx:112 | "Nieuwe activiteit..." appended, earlier items unchanged |
| LessonEditor.RemoveAt | frontend/src/components/LessonGenerator.tsx:119 | one item fewer for an index in range, the same length otherwise |
| LessonEditor.AfterGenerate | frontend/src/components/LessonGenerator.tsx:35-86 | generation ends; a flagged verdict received is recorded, clears the generated and the editable lesson and sets "Inhoud geblokkeerd: " + its explanation; a safe verdict is recorded with no error and the lesson shown and editable; a failed validation call keeps the lesson with no verdict and its error (the fixed message or the thrown one); a failed generation keeps the previous editable lesson and sets its error (the fixed message or the thrown one) |
| LessonEditor.LessonGeneratorView.GenerateLesson | frontend/src/components/LessonGenerator.tsx:35-86 | the state setters in sequence reach the state `AfterGenerate` describes, so a flagged verdict clears both lessons and sets the blocked error |
| LessonEditor.LessonGeneratorView.HandleLessonEdit | frontend/src/components/LessonGenerator.tsx:88-95 | only the editable lesson changes, by the field edit |
| LessonEditor.LessonGeneratorView.HandleActivityEdit | frontend/src/components/LessonGenerator.tsx:97-106 | the copied array with one slot overwritten becomes the activities; a no-op without a lesson |
| LessonEditor.LessonGeneratorView.AddActivity | frontend/src/components/LessonGenerator.tsx:108-115 | the activities gain the new item; a no-op without a lesson |
| LessonEditor.LessonGeneratorView.RemoveActivity | frontend/src/components/LessonGenerator.tsx:117-125 | the item at the index is removed; a no-op without a lesson |
| LessonEditor.RemoveAtRemovesOne | frontend/src/components/LessonGenerator.tsx:119 | removing index i keeps the items before and after it, in order; an index past the end changes nothing |
| LessonEditor.RemoveOfferedKeepsOne | frontend/src/components/LessonGenerator.tsx:251-253 | removal is offered only with more than one activity, so it never empties the list |
| LessonEditor.AddThenRemoveLast | frontend/src/components/LessonGenerator.tsx:108-125 | adding an activity and removing the last one restores the list |
| Monitoring.FilteredLogs | frontend/src/components/MonitoringDashboard.tsx:62 | never more logs than before |
| Monitoring.FilterAllKeepsEverything | frontend/src/components/MonitoringDashboard.tsx:62 | the filter `all` keeps every log |
| Monitoring.FilterOnlyKeepsStatus | frontend/src/components/MonitoringDashboard.tsx:62 | a status filter keeps exactly the logs with that status, in their original order, every copy of each |
| Monitoring.CountStatus | frontend/src/components/MonitoringDashboard.tsx:66-68 | the number of logs whose status is the given one (its multiplicity among the statuses), so at most the number of logs, and zero exactly when no log has the status |
| Monitoring.FilterCountsStatus | frontend/src/components/MonitoringDashboard.tsx:66-68 | the status filter keeps exactly as many logs as the status occurs among the logs' statuses |
| Monitoring.ComputeStats | frontend/src/components/MonitoringDashboard.tsx:64-69 | the total is the number of logs; success, failed and flagged are each the number of logs with that very status, each at most the total |
| Monitoring.CountsAddUp | frontend/src/components/MonitoringDashboard.tsx:64-69 | with only the three known statuses, the three counts add up to the total |
| Monitoring.StatusIcon | frontend/src/components/MonitoringDashboard.tsx:36-47 | the check, cross and warning icons exactly for success, failed and flagged; the clock exactly for any other status |
| Monitoring.StatusColor | frontend/src/components/MonitoringDashboard.tsx:49-60 | green, red and yellow exactly for success, failed and flagged; gray exactly for any other status |
| Monitoring.StatusLabel | frontend/src/components/MonitoringDashboard.tsx:185-186 | "Succesvol" exactly for success, "Gefaald" exactly for failed, "Geblokkeerd" for every other status |
| Monitoring.UnknownStatusPresentation | frontend/src/components/MonitoringDashboard.tsx:36-60 | an unknown status is labelled as blocked but shown gray with the clock icon |
| Monitoring.KnownStatusesAreDistinct | frontend/src/components/MonitoringDashboard.tsx:36-60 | the three known statuses have distinct colours, icons and labels |
| Monitoring.GoalLabel | frontend/src/components/MonitoringDashboard.tsx:192 | "Onbekend leerdoel" for a missing or empty title; otherwise the title |
| Monitoring.ShortId | frontend/src/components/MonitoringDashboard.tsx:194 | at most the first 8 characters of the id, followed by "..." |
| Monitoring.LoadedLogs | frontend/src/components/MonitoringDashboard.tsx:27-28 | a failed query keeps the old logs; otherwise the data, or the empty list when there is none |
| GoalList.ReplaceById | frontend/src/app/page.tsx:56 | the same length; every entry with the id replaced by the row, the others untouched |
| GoalList.RemoveById | frontend/src/app/page.tsx:66 | never longer than before |
| GoalList.AddGoal | frontend/src/app/page.tsx:36-45 | an error leaves the list and throws; otherwise the new row first, then the old list unchanged |
| GoalList.UpdateGoal | frontend/src/app/page.tsx:47-57 | an error leaves the list and throws; otherwise the list with the id's entries replaced |
| GoalList.DeleteGoal | frontend/src/app/page.tsx:59-67 | an error leaves the list and throws; otherwise the list without the id's entries |
| GoalList.RemoveByIdKeepsOthers | frontend/src/app/page.tsx:66 | a delete keeps exactly the entries with another id, in order, every copy of each |
| GoalList.RemoveAbsentId | frontend/src/app/page.tsx:66 | deleting an id that is not in the list changes nothing |
| GoalList.UpdateThenDelete | frontend/src/app/page.tsx:56-66 | with a row that keeps the id, deleting after an update equals deleting before it |
| GoalList.ErrorLeavesListUnchanged | frontend/src/app/page.tsx:43-65 | a failed database call leaves the list as it was, whichever handler ran |
| GoalsApi.BuildUpdates | src/api/goals/index.js:141-146 | the title only when truthy; the description whenever it is not undefined; always the update time |
| GoalsApi.FunctionContext.HandleGet | src/api/goals/index.js:66-103 | with an id: 404 for a query error, 200 with the row otherwise; without: the list query's error is rethrown, else 200 with the goals |
| GoalsApi.FunctionContext.HandlePost | src/api/goals/index.js:105-130 | a missing body throws; a falsy title gives 400 and no insert; otherwise one insert, 201 with the row, or the insert error rethrown |
| GoalsApi.FunctionContext.HandlePut | src/api/goals/index.js:132-167 | no id gives 400 with no call; a missing body throws; otherwise one update with the built update object, 404 on error, 200 with the row |
| GoalsApi.FunctionContext.HandleDelete | src/api/goals/index.js:169-194 | no id gives 400 with no call; otherwise one delete, 404 on error, 204 on success |
| GoalsApi.FunctionContext.Invoke | src/api/goals/index.js:13-64 | OPTIONS gives 200 with CORS and no call; another method gives 405 with CORS; GET with an id issues the single select and answers 200 with the row or 404, without one the list select and 200 with the goals or 500; POST with a title issues one insert and answers 201 with the row or 500; PUT with an id and a body issues one update with the built update object and answers 200 or 404; DELETE with an id issues one delete and answers 204 or 404; 400 exactly for the missing title or id, with no call, no CORS headers and the message naming what is missing (the title for POST, the id otherwise); 500 with CORS also for a missing body |
| Strings.LowerIdempotent | src/agents/validator.ts:59 | lowercasing twice equals lowercasing once |
| Strings.LowerAppend | src/agents/validator.ts:59 | lowercasing a concatenation lowercases each part |
| Strings.ContainsLower | src/agents/validator.ts:59-62 | containment survives lowercasing both sides |
| Strings.FoundMembers | src/agents/validator.ts:60-62 | a keyword is found exactly when it is listed and occurs |
| Strings.FoundInListOrder | src/agents/validator.ts:60-62 | the found keywords keep the list's order |
| Strings.FoundNonEmpty | src/agents/validator.ts:60-64 | some keyword is found exactly when `some` holds |
| Strings.JoinContainsElement | src/agents/validator.ts:51 | each element occurs in the joined text |
| Strings.TrimEmptyIffBlank | src/agents/lesgenerator.js:49 | `trim` gives the empty string exactly for an all-white-space string |
| Strings.WordInPrefix | src/agents/validator.js:62 | a word match that ends before the end of a prefix survives any continuation |

## Left out

- Network, database and model calls: their results are parameters. The prompt text, request headers and CORS header contents are not modelled; the response records whether the CORS headers are attached.
- `JSON.parse` and response-shape handling: a parsed answer is a record whose members may be absent. Members of other types than the ones declared are not modelled.
- The `setTimeout` delays, `console` logging, `new Date().toISOString()` (the `now` parameter), date formatting and JSX/CSS rendering.
- Unicode case folding and white space: `toLowerCase`, `trim` and the regular expression's `/i` are modelled on ASCII letters and ASCII white space. Because of this the upper-case form of the non-ASCII verb "creëren" is not matched, where the regular expression would match it.
- String lengths count characters, not UTF-16 code units; `slice(0, 8)` is modelled the same way.
- GoalRubric.ValidateLearningGoal: `overallScore` is the unrounded mean, because the float rounding `Math.round(overallScore * 10) / 10` is not modelled; validity is decided on the unrounded mean as in the source.
- ContentSafety.ValidateContent: the `maxSeverity` running maximum is not modelled, because it is never read.
- LessonEditor.LessonGeneratorView.HandleActivityEdit: requires the index to be in range. The assignment past the end of a JavaScript array (which creates holes) is not modelled.
- The initial loads (`fetchGoals` of the dashboard page, `fetchLogs` of the monitoring dashboard) and their loading flags and error messages are not modelled; only the log-list update after the logs query is (`Monitoring.LoadedLogs`).
- The selected-log detail view of the monitoring dashboard: it uses the same label and colour functions.
- Parameters of `validateInput`/`generateLearningGoals` that are not strings, `undefined` or `null` (`trim` on a number throws).
- The constructors' client setup (Azure, OpenAI and Supabase clients) and environment reading: only the agent's endpoint and key are modelled, as `ContentValidator.FromEnvironment`.
