/** The personal-data form (src/components/PersonalDataForm.tsx): name and
    e-mail checks, the initial form state, and the merge of what the
    personal-data popup hands back. */
module PersonalDataForm {
  import opened Wrappers
  import opened JsStrings
  import opened EmailPatterns
  import opened Plans
  import opened PersonalDataPopup

  const NAME_REQUIRED: string := "Name is required"
  const EMAIL_REQUIRED: string := "Email is required"
  const EMAIL_INVALID: string := "Please enter a valid email address"

  datatype FormData = FormData(
    name: string,
    email: string,
    studies: string,
    experiences: seq<string>,
    selectedPlan: string,
    letterCount: int)

  /** The errors `validateForm` reports: a blank name; a blank e-mail, or
      else an e-mail without a `\S+@\S+\.\S+` match, never both. */
  function FormErrors(name: string, email: string): (e: map<string, string>)
    ensures "name" in e <==> IsBlank(name)
    ensures "email" in e <==> IsBlank(email) || !LooseEmailMatches(email)
    ensures e.Keys <= {"name", "email"}
    ensures "name" in e ==> e["name"] == NAME_REQUIRED
    ensures "email" in e ==> e["email"] == (if IsBlank(email) then EMAIL_REQUIRED else EMAIL_INVALID)
  {
    var withName := if IsBlank(name) then map["name" := NAME_REQUIRED] else map[];
    if IsBlank(email) then withName["email" := EMAIL_REQUIRED]
    else if !LooseEmailMatches(email) then withName["email" := EMAIL_INVALID]
    else withName
  }

  /** An address the contact endpoint accepts is never refused by the form. */
  lemma ContactAddressesPassForm(name: string, email: string)
    requires ContactEmailMatches(email)
    ensures "email" !in FormErrors(name, email)
  {
    ContactImpliesLoose(email);
    var i, k :| 0 <= i < |email| && 0 <= k < |email| && ContactMatchAt(email, i, k);
    assert ContactMatchAt(email, i, k);
    assert !IsSpace(email[i]);
  }

  /** The form refuses some addresses only for want of a non-blank
      character: a blank address is "required", never "invalid". */
  lemma BlankEmailIsRequiredNotInvalid(name: string, email: string)
    requires IsBlank(email)
    ensures FormErrors(name, email)["email"] == EMAIL_REQUIRED
  {
  }

  class Form {
    var formData: FormData
    var showPopup: bool
    var errors: map<string, string>

    /** Empty name, e-mail and studies, one empty experience, the Free Plan
        and no letters. */
    constructor ()
      ensures formData == FormData("", "", "", [""], FREE_PLAN, 0)
      ensures !showPopup && errors == map[]
    {
      formData := FormData("", "", "", [""], FREE_PLAN, 0);
      showPopup := false;
      errors := map[];
    }

    /** Typing into the name field. */
    method EditName(value: string)
      modifies this
      ensures formData == old(formData).(name := value)
      ensures showPopup == old(showPopup) && errors == old(errors)
    {
      formData := formData.(name := value);
    }

    /** Typing into the e-mail field. */
    method EditEmail(value: string)
      modifies this
      ensures formData == old(formData).(email := value)
      ensures showPopup == old(showPopup) && errors == old(errors)
    {
      formData := formData.(email := value);
    }

    /** What the popup is opened with: the form's studies and experiences. */
    function PopupInitialData(): (d: PopupData)
      reads this
      ensures d.studies == formData.studies && d.experiences == formData.experiences
    {
      PopupData(formData.studies, formData.experiences)
    }

    /** `validateForm`: fills a fresh error dictionary, shows it, and
        answers whether it stayed empty. */
    method ValidateForm() returns (valid: bool)
      modifies this
      ensures formData == old(formData) && showPopup == old(showPopup)
      ensures errors == FormErrors(formData.name, formData.email)
      ensures valid <==> errors == map[]
    {
      var name, email := formData.name, formData.email;
      var nameMissing := TrimsToEmpty(name);
      var emailMissing := TrimsToEmpty(email);
      var looksValid := LooseEmailMatches(email);
      var newErrors: map<string, string> := map[];
      if nameMissing {
        newErrors := newErrors["name" := NAME_REQUIRED];
      }
      if emailMissing {
        newErrors := newErrors["email" := EMAIL_REQUIRED];
      } else if !looksValid {
        newErrors := newErrors["email" := EMAIL_INVALID];
      }
      errors := newErrors;
      valid := |newErrors.Keys| == 0;
    }

    /** `handleSubmit`: the whole form data goes to `onSubmit` only when no
        error was found. */
    method HandleSubmit() returns (submitted: Option<FormData>)
      modifies this
      ensures formData == old(formData) && showPopup == old(showPopup)
      ensures errors == FormErrors(formData.name, formData.email)
      ensures submitted == (if errors == map[] then Some(formData) else None)
    {
      var valid := ValidateForm();
      submitted := if valid then Some(formData) else None;
    }

    /** `handlePopupSubmit`: only the studies and the experiences are taken
        from the popup; the popup closes. */
    method HandlePopupSubmit(data: PopupData)
      modifies this
      ensures formData == old(formData).(studies := data.studies, experiences := data.experiences)
      ensures !showPopup && errors == old(errors)
    {
      formData := formData.(studies := data.studies, experiences := data.experiences);
      showPopup := false;
    }
  }

  /** Opening the popup on a form whose studies are filled in and whose
      experiences are non-blank single lines (at least one), and saving it
      untouched, gives the form back exactly as it was. */
  lemma PopupRoundTripKeepsForm(d: FormData)
    requires !IsBlank(d.studies) && d.experiences != []
    requires forall i | 0 <= i < |d.experiences| :: !IsBlank(d.experiences[i]) && '\n' !in d.experiences[i]
    ensures var shown := Join(d.experiences, '\n');
      PopupErrors(d.studies, shown) == map[] &&
      d.(studies := d.studies, experiences := NonBlankPieces(shown, '\n')) == d
  {
    InitialDataRoundTrip(PopupData(d.studies, d.experiences));
  }

  /** The popup opened on the initial form shows blank fields and refuses to
      save until both are filled. */
  lemma InitialPopupRefused()
    ensures var data := FormData("", "", "", [""], FREE_PLAN, 0);
      PopupErrors(data.studies, Join(data.experiences, '\n')).Keys == {"studies", "experiences"}
  {
  }

  /** A freshly opened form cannot be submitted: both the name and the
      e-mail are reported missing. */
  lemma InitialFormRefused()
    ensures FormErrors("", "") == map["name" := NAME_REQUIRED, "email" := EMAIL_REQUIRED]
  {
  }
}
