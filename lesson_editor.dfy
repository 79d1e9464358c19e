/** The state of the `LessonGenerator` component
    (frontend/src/components/LessonGenerator.tsx): generation, validation and
    editing of a lesson. The two `fetch` calls are the `GenerateFetch` and
    `ValidateFetch` parameters; each state setter is an assignment of a field. */
module LessonEditor {
  import opened Js
  import opened Lessons

  const NewActivity: string := "Nieuwe activiteit..."
  const ErrorBlockedPrefix: string := "Inhoud geblokkeerd: "
  const GenerateFailed: string := "Fout bij het genereren van de les"
  const ValidateFailed: string := "Fout bij het valideren van de inhoud"
  const UnknownError: string := "Onbekende fout opgetreden"

  /** `handleLessonEdit(field, value)`, one case per field of `LessonOutput`. */
  datatype LessonEdit = SetTitle(title: string) | SetOutline(outline: string) | SetActivities(activities: seq<string>)

  /** The `/api/generate-lesson` call: it threw (network error, unreadable
      body), answered with a non-2xx status, or returned a lesson. */
  datatype GenerateFetch = GenerateThrew(cause: Thrown) | GenerateNotOk | GenerateOk(lesson: LessonOutput)

  /** The `/api/validate-content` call, in the same three shapes. */
  datatype ValidateFetch = ValidateThrew(cause: Thrown) | ValidateNotOk | ValidateOk(verdict: Verdict)

  /** The five `useState` values of the component. */
  datatype ViewState = ViewState(
    isGenerating: bool,
    generatedLesson: Option<LessonOutput>,
    validationResult: Option<Verdict>,
    error: Option<string>,
    editableLesson: Option<LessonOutput>)

  const InitialState: ViewState := ViewState(false, None, None, None, None)

  // ---------------------------------------------------------------- pure transitions

  /** `{...editableLesson, [field]: value}` when there is an editable lesson. */
  function EditField(l: Option<LessonOutput>, e: LessonEdit): (r: Option<LessonOutput>)
    ensures l.None? <==> r.None?
    ensures r.Some? ==> match e
              case SetTitle(t) => r.value == LessonOutput(t, l.value.lessonOutline, l.value.activities)
              case SetOutline(o) => r.value == LessonOutput(l.value.lessonTitle, o, l.value.activities)
              case SetActivities(a) => r.value == LessonOutput(l.value.lessonTitle, l.value.lessonOutline, a)
  {
    match l
    case None => None
    case Some(lesson) =>
      match e
      case SetTitle(t) => Some(lesson.(lessonTitle := t))
      case SetOutline(o) => Some(lesson.(lessonOutline := o))
      case SetActivities(a) => Some(lesson.(activities := a))
  }

  /** `newActivities[index] = value` on a copy. */
  function SetActivity(acts: seq<string>, index: nat, value: string): (r: seq<string>)
    requires index < |acts|
    ensures |r| == |acts| && r[index] == value
    ensures forall j :: 0 <= j < |acts| && j != index ==> r[j] == acts[j]
  {
    acts[index := value]
  }

  /** `[...activities, 'Nieuwe activiteit...']` */
  function AddedActivity(acts: seq<string>): (r: seq<string>)
    ensures |r| == |acts| + 1 && r[..|acts|] == acts && r[|acts|] == NewActivity
  {
    acts + [NewActivity]
  }

  /** `activities.filter((_, i) => i !== index)` */
  function RemoveAt(acts: seq<string>, index: nat): (r: seq<string>)
    ensures |r| == if index < |acts| then |acts| - 1 else |acts|
  {
    if acts == [] then []
    else if index == 0 then acts[1..]
    else [acts[0]] + RemoveAt(acts[1..], index - 1)
  }

  /** The state after `generateLesson`, given what the two calls produced. */
  function AfterGenerate(s: ViewState, gen: GenerateFetch, val: ValidateFetch): (r: ViewState)
    ensures !r.isGenerating
    // a flagged verdict leaves no lesson on screen, and says why
    ensures r.validationResult.Some? && r.validationResult.value.status == Flagged ==>
              r.generatedLesson.None? && r.editableLesson.None? &&
              r.error == Some(ErrorBlockedPrefix + r.validationResult.value.explanation)
    // a lesson stays on screen only with a safe verdict, or when the validation call failed
    ensures r.generatedLesson.Some? ==>
              gen.GenerateOk? && r.generatedLesson == r.editableLesson == Some(gen.lesson) &&
              (r.validationResult.None? <==> !val.ValidateOk?) &&
              (val.ValidateOk? ==> r.validationResult == Some(val.verdict) && val.verdict.status.Safe? && r.error.None?)
    // a failed generation keeps the previous editable lesson
    ensures !gen.GenerateOk? ==>
              r.generatedLesson.None? && r.validationResult.None? && r.error.Some? &&
              r.editableLesson == s.editableLesson
    // the error of a failed generation: the thrown message, or the non-2xx one
    ensures gen.GenerateThrew? ==> r.error == Some(MessageOr(gen.cause, UnknownError))
    ensures gen.GenerateNotOk? ==> r.error == Some(GenerateFailed)
    // a flagged verdict received is recorded, clears both lessons and says why
    ensures gen.GenerateOk? && val.ValidateOk? && val.verdict.status == Flagged ==>
              r.validationResult == Some(val.verdict) && r.generatedLesson.None? && r.editableLesson.None? &&
              r.error == Some(ErrorBlockedPrefix + val.verdict.explanation)
    // a safe verdict received is recorded and the lesson is shown and editable
    ensures gen.GenerateOk? && val.ValidateOk? && val.verdict.status == Safe ==>
              r.validationResult == Some(val.verdict) && r.error.None? &&
              r.generatedLesson == r.editableLesson == Some(gen.lesson)
    // a failed validation call keeps the lesson on screen, with no verdict and the error
    ensures gen.GenerateOk? && !val.ValidateOk? ==>
              r.validationResult.None? && r.generatedLesson == r.editableLesson == Some(gen.lesson) &&
              r.error == Some(if val.ValidateNotOk? then ValidateFailed else MessageOr(val.cause, UnknownError))
  {
    match gen
    case GenerateThrew(e) => ViewState(false, None, None, Some(MessageOr(e, UnknownError)), s.editableLesson)
    case GenerateNotOk => ViewState(false, None, None, Some(GenerateFailed), s.editableLesson)
    case GenerateOk(lesson) =>
      match val
      case ValidateThrew(e) => ViewState(false, Some(lesson), None, Some(MessageOr(e, UnknownError)), Some(lesson))
      case ValidateNotOk => ViewState(false, Some(lesson), None, Some(ValidateFailed), Some(lesson))
      case ValidateOk(v) =>
        if v.status == Flagged then ViewState(false, None, Some(v), Some(ErrorBlockedPrefix + v.explanation), None)
        else ViewState(false, Some(lesson), Some(v), None, Some(lesson))
  }

  // ---------------------------------------------------------------- the component

  class LessonGeneratorView {
    var isGenerating: bool
    var generatedLesson: Option<LessonOutput>
    var validationResult: Option<Verdict>
    var error: Option<string>
    var editableLesson: Option<LessonOutput>

    function State(): ViewState
      reads this
    {
      ViewState(isGenerating, generatedLesson, validationResult, error, editableLesson)
    }

    constructor()
      ensures State() == InitialState
    {
      isGenerating := false;
      generatedLesson := None;
      validationResult := None;
      error := None;
      editableLesson := None;
    }

    /** `generateLesson` */
    method GenerateLesson(gen: GenerateFetch, val: ValidateFetch)
      modifies this
      ensures State() == AfterGenerate(old(State()), gen, val)
    {
      isGenerating := true;
      error := None;
      generatedLesson := None;
      validationResult := None;
      match gen {
        case GenerateThrew(e) =>
          error := Some(MessageOr(e, UnknownError));
        case GenerateNotOk =>
          error := Some(GenerateFailed);
        case GenerateOk(lessonData) =>
          generatedLesson := Some(lessonData);
          editableLesson := Some(lessonData);
          match val {
            case ValidateThrew(e) =>
              error := Some(MessageOr(e, UnknownError));
            case ValidateNotOk =>
              error := Some(ValidateFailed);
            case ValidateOk(validation) =>
              validationResult := Some(validation);
              if validation.status == Flagged {
                error := Some(ErrorBlockedPrefix + validation.explanation);
                generatedLesson := None;
                editableLesson := None;
              }
          }
      }
      isGenerating := false;
    }

    /** `handleLessonEdit` */
    method HandleLessonEdit(e: LessonEdit)
      modifies this
      ensures State() == old(State()).(editableLesson := EditField(old(editableLesson), e))
    {
      if editableLesson.Some? {
        editableLesson := EditField(editableLesson, e);
      }
    }

    /** `handleActivityEdit`: the activities are copied into a fresh array,
        one slot is overwritten, and the copy becomes the new list. */
    method HandleActivityEdit(index: nat, value: string)
      requires editableLesson.Some? ==> index < |editableLesson.value.activities|
      modifies this
      ensures old(editableLesson).None? ==> State() == old(State())
      ensures old(editableLesson).Some? ==>
                State() == old(State()).(editableLesson :=
                  Some(old(editableLesson).value.(activities := SetActivity(old(editableLesson).value.activities, index, value))))
    {
      if editableLesson.Some? {
        var lesson := editableLesson.value;
        var acts := lesson.activities;
        var newActivities := new string[|acts|](i requires 0 <= i < |acts| => acts[i]);
        newActivities[index] := value;
        assert newActivities[..] == acts[index := value];
        editableLesson := Some(lesson.(activities := newActivities[..]));
      }
    }

    /** `addActivity` */
    method AddActivity()
      modifies this
      ensures old(editableLesson).None? ==> State() == old(State())
      ensures old(editableLesson).Some? ==>
                State() == old(State()).(editableLesson :=
                  Some(old(editableLesson).value.(activities := AddedActivity(old(editableLesson).value.activities))))
    {
      if editableLesson.Some? {
        var lesson := editableLesson.value;
        editableLesson := Some(lesson.(activities := AddedActivity(lesson.activities)));
      }
    }

    /** `removeActivity` */
    method RemoveActivity(index: nat)
      modifies this
      ensures old(editableLesson).None? ==> State() == old(State())
      ensures old(editableLesson).Some? ==>
                State() == old(State()).(editableLesson :=
                  Some(old(editableLesson).value.(activities := RemoveAt(old(editableLesson).value.activities, index))))
    {
      if editableLesson.Some? {
        var lesson := editableLesson.value;
        editableLesson := Some(lesson.(activities := RemoveAt(lesson.activities, index)));
      }
    }
  }

  // ---------------------------------------------------------------- properties

  /** `removeActivity(i)` removes exactly the item at `i` and keeps the others
      in order; an index past the end changes nothing. */
  lemma {:induction false} RemoveAtRemovesOne(acts: seq<string>, index: nat)
    ensures index < |acts| ==> RemoveAt(acts, index) == acts[..index] + acts[index + 1..]
    ensures index >= |acts| ==> RemoveAt(acts, index) == acts
  {
    if acts != [] && index > 0 {
      RemoveAtRemovesOne(acts[1..], index - 1);
      if index < |acts| {
        assert acts[1..][..index - 1] == acts[1..index];
        assert acts[1..][index - 1 + 1..] == acts[index + 1..];
        assert [acts[0]] + acts[1..index] == acts[..index];
      }
    }
  }

  /** The remove button is shown only while there is more than one activity,
      so removing through it never empties the list. */
  lemma RemoveOfferedKeepsOne(acts: seq<string>, index: nat)
    requires |acts| > 1 && index < |acts|
    ensures |RemoveAt(acts, index)| >= 1
  {
  }

  /** Adding an activity and removing the last one restores the list. */
  lemma AddThenRemoveLast(acts: seq<string>)
    ensures RemoveAt(AddedActivity(acts), |acts|) == acts
  {
    RemoveAtRemovesOne(AddedActivity(acts), |acts|);
  }
}
