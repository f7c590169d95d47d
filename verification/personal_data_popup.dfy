/** The personal-data popup (src/components/PersonalDataPopup.tsx): two text
    fields, studies and experiences (one experience per line), checked for
    blankness and handed on with the experiences split into lines. */
module PersonalDataPopup {
  import opened Wrappers
  import opened JsStrings

  const STUDIES_REQUIRED: string := "Studies information is required"
  const EXPERIENCE_REQUIRED: string := "At least one experience is required"

  /** `{ studies, experiences }`, what the popup is opened with and what it
      hands to `onSubmit`. */
  datatype PopupData = PopupData(studies: string, experiences: seq<string>)

  /** The errors `validateForm` reports: one per blank field. */
  function PopupErrors(studies: string, experiences: string): (e: map<string, string>)
    ensures "studies" in e <==> IsBlank(studies)
    ensures "experiences" in e <==> IsBlank(experiences)
    ensures e.Keys <= {"studies", "experiences"}
    ensures "studies" in e ==> e["studies"] == STUDIES_REQUIRED
    ensures "experiences" in e ==> e["experiences"] == EXPERIENCE_REQUIRED
  {
    var withStudies := if IsBlank(studies) then map["studies" := STUDIES_REQUIRED] else map[];
    if IsBlank(experiences) then withStudies["experiences" := EXPERIENCE_REQUIRED] else withStudies
  }

  class Popup {
    var studies: string
    var experiences: string
    var errors: map<string, string>

    /** The experiences are shown one per line. */
    constructor (initialData: PopupData)
      ensures studies == initialData.studies && experiences == Join(initialData.experiences, '\n')
      ensures errors == map[]
    {
      studies := initialData.studies;
      experiences := Join(initialData.experiences, '\n');
      errors := map[];
    }

    /** Typing into the studies field. */
    method EditStudies(value: string)
      modifies this
      ensures studies == value && experiences == old(experiences) && errors == old(errors)
    {
      studies := value;
    }

    /** Typing into the experiences field. */
    method EditExperiences(value: string)
      modifies this
      ensures experiences == value && studies == old(studies) && errors == old(errors)
    {
      experiences := value;
    }

    /** `validateForm`: fills a fresh error dictionary field by field, shows
      it, and answers whether it stayed empty. */
    method ValidateForm() returns (valid: bool)
      modifies this
      ensures studies == old(studies) && experiences == old(experiences)
      ensures errors == PopupErrors(studies, experiences)
      ensures valid <==> errors == map[]
    {
      var studiesMissing := TrimsToEmpty(studies);
      var experiencesMissing := TrimsToEmpty(experiences);
      var newErrors: map<string, string> := map[];
      if studiesMissing {
        newErrors := newErrors["studies" := STUDIES_REQUIRED];
      }
      if experiencesMissing {
        newErrors := newErrors["experiences" := EXPERIENCE_REQUIRED];
      }
      errors := newErrors;
      valid := |newErrors.Keys| == 0;
    }

    /** `handleSubmit`: when the form is valid, the studies exactly as typed
      and the non-blank lines of the experiences, in order; nothing
      otherwise. */
    method HandleSubmit() returns (submitted: Option<PopupData>)
      modifies this
      ensures studies == old(studies) && experiences == old(experiences)
      ensures errors == PopupErrors(studies, experiences)
      ensures submitted.Some? <==> errors == map[]
      ensures submitted.Some? ==> submitted.value == PopupData(studies, NonBlankPieces(experiences, '\n'))
    {
      var valid := ValidateForm();
      if valid {
        submitted := Some(PopupData(studies, NonBlankPieces(experiences, '\n')));
      } else {
        submitted := None;
      }
    }
  }

  /** A submission the popup accepts carries at least one experience, each
      a non-blank single line. */
  lemma AcceptedHasExperiences(studies: string, experiences: string)
    requires PopupErrors(studies, experiences) == map[]
    ensures var lines := NonBlankPieces(experiences, '\n');
      lines != [] && forall i | 0 <= i < |lines| :: !IsBlank(lines[i]) && '\n' !in lines[i]
  {
    assert "experiences" !in PopupErrors(studies, experiences);
    NonBlankPiecesOfNonBlank(experiences, '\n');
  }

  /** Opening the popup on data it produced and saving without edits hands
      on the same data again. */
  lemma ResubmitIsStable(studies: string, experiences: string)
    requires PopupErrors(studies, experiences) == map[]
    ensures var data := PopupData(studies, NonBlankPieces(experiences, '\n'));
      PopupErrors(data.studies, Join(data.experiences, '\n')) == map[] &&
      NonBlankPieces(Join(data.experiences, '\n'), '\n') == data.experiences
  {
    var lines := NonBlankPieces(experiences, '\n');
    AcceptedHasExperiences(studies, experiences);
    JoinNotBlank(lines, '\n');
    JoinThenNonBlankPieces(lines, '\n');
  }

  /** Initial data of non-blank single-line experiences (at least one) and
      non-blank studies is accepted unchanged and handed back as it came. */
  lemma InitialDataRoundTrip(data: PopupData)
    requires !IsBlank(data.studies) && data.experiences != []
    requires forall i | 0 <= i < |data.experiences| :: !IsBlank(data.experiences[i]) && '\n' !in data.experiences[i]
    ensures PopupErrors(data.studies, Join(data.experiences, '\n')) == map[]
    ensures PopupData(data.studies, NonBlankPieces(Join(data.experiences, '\n'), '\n')) == data
  {
    JoinNotBlank(data.experiences, '\n');
    JoinThenNonBlankPieces(data.experiences, '\n');
  }

  /** Both fields emptied: both errors at once. */
  lemma EmptyFieldsReportBoth()
    ensures PopupErrors("", "") == map["studies" := STUDIES_REQUIRED, "experiences" := EXPERIENCE_REQUIRED]
  {
  }
}
