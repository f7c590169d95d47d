/** The client page (src/App.tsx): registration, plan choice, personal data
    and the generation gate with its local letter counter. The database
    helper and the letter generator are inputs: each call either returns
    or throws with a message. */
module App {
  import opened Wrappers
  import opened JsStrings
  import opened Plans

  const REGISTER_FAILED: string := "Failed to register user. Please try again."
  const PLAN_FAILED: string := "Failed to update plan. Please try again."
  const DATA_FAILED: string := "Failed to update personal data. Please try again."
  const MISSING_INPUT: string := "Please fill in both personal data and job ad details."
  const FREE_LIMIT: string :=
    "You have reached the limit of 5 letters per month on the Free Plan. Please upgrade to generate more letters."
  const UNEXPECTED: string := "An unexpected error occurred. Please try again. Error details: "
  const API_KEY_MISSING: string := "OpenAI API key is not set. Please set the VITE_OPENAI_API_KEY environment variable."
  /** The letters the page lets a Free Plan user generate. */
  const FREE_LETTERS: int := 5

  /** Whatever object the page keeps as `personalData`: the registration
      data, or later what the personal-data popup submitted. Only its
      `email` property is read. */
  datatype Profile = Profile(email: Option<string>, fields: map<string, string>)

  /** A database write that went through, in the order the page made it. */
  datatype DbWrite =
    | InsertUser(user: Profile, plan: string, count: int)
    | UpdatePlan(email: Option<string>, plan: string)
    | UpdatePersonalData(email: Option<string>, data: Profile)
    | InsertCoverLetter(userId: Option<string>, jobAd: string, letter: string)
    | UpdateLetterCount(email: Option<string>, count: int)

  /** The component state, plus the writes made so far. */
  datatype View = View(
    isRegistered: bool,
    selectedPlan: string,
    personalData: Option<Profile>,
    jobAd: string,
    coverLetter: string,
    isLoading: bool,
    isPersonalDataPopupOpen: bool,
    isPaymentPlanPopupOpen: bool,
    error: Option<string>,
    letterCount: int,
    writes: seq<DbWrite>)

  /** One press of "Generate Cover Letter": what the generator returns (Err:
      it throws, with this message), and whether the cover-letter insert
      and the counter update throw (Some: with this message). */
  datatype Attempt = Attempt(generated: Result<string, string>, insertFailure: Option<string>, updateFailure: Option<string>)

  /** The state on first render; the effect at mount reports a missing
      OpenAI key. */
  function Initial(apiKeySet: bool): (s: View)
    ensures !s.isRegistered && s.selectedPlan == FREE_PLAN && s.letterCount == 0 && s.writes == []
    ensures s.error.None? <==> apiKeySet
  {
    View(false, FREE_PLAN, None, "", "", false, false, false, if apiKeySet then None else Some(API_KEY_MISSING), 0, [])
  }

  /** `handleRegistration`: when the insert goes through, the page is
      registered on the Free Plan with no letters counted; otherwise only
      the error changes. */
  function Registered(s: View, userData: Profile, insertOk: bool): (t: View)
    ensures insertOk ==>
      t.isRegistered && t.selectedPlan == FREE_PLAN && t.letterCount == 0 &&
      t.personalData == Some(userData) && t.writes == s.writes + [InsertUser(userData, FREE_PLAN, 0)]
    ensures !insertOk ==> t == s.(error := Some(REGISTER_FAILED))
  {
    if insertOk then
      s.(isRegistered := true, personalData := Some(userData), selectedPlan := FREE_PLAN, letterCount := 0,
         writes := s.writes + [InsertUser(userData, FREE_PLAN, 0)])
    else s.(error := Some(REGISTER_FAILED))
  }

  /** `handlePlanSelection`: reading `personalData.email` with no personal
      data throws, and so does a failed update; both only set the error.
      Otherwise the plan is taken and the popup closes. */
  function PlanSelected(s: View, plan: string, updateOk: bool): (t: View)
    ensures t.selectedPlan == plan <==> (s.personalData.Some? && updateOk) || s.selectedPlan == plan
    ensures s.personalData.None? || !updateOk ==> t == s.(error := Some(PLAN_FAILED))
    ensures t.letterCount == s.letterCount
  {
    if s.personalData.None? || !updateOk then s.(error := Some(PLAN_FAILED))
    else s.(selectedPlan := plan, isPaymentPlanPopupOpen := false,
            writes := s.writes + [UpdatePlan(s.personalData.value.email, plan)])
  }

  /** `handlePersonalDataSubmit`: the submitted data replaces the kept
      personal data and the popup closes; a failed update only sets the
      error. */
  function PersonalDataSubmitted(s: View, data: Profile, updateOk: bool): (t: View)
    ensures updateOk ==> t.personalData == Some(data) && !t.isPersonalDataPopupOpen
    ensures !updateOk ==> t == s.(error := Some(DATA_FAILED))
    ensures t.selectedPlan == s.selectedPlan && t.letterCount == s.letterCount
  {
    if updateOk then
      s.(personalData := Some(data), isPersonalDataPopupOpen := false,
         writes := s.writes + [UpdatePersonalData(data.email, data)])
    else s.(error := Some(DATA_FAILED))
  }

  /** The Free Plan has used up its letters. */
  predicate QuotaReached(plan: string, letterCount: int) {
    plan == FREE_PLAN && letterCount >= FREE_LETTERS
  }

  /** The two checks at the top of `handleGenerateCoverLetter`: the error
      they report, or None when generation may start. */
  function GenerationGate(s: View): (e: Option<string>)
    ensures e.None? <==> s.personalData.Some? && s.jobAd != "" && !QuotaReached(s.selectedPlan, s.letterCount)
    ensures e == Some(FREE_LIMIT) <==> s.personalData.Some? && s.jobAd != "" && QuotaReached(s.selectedPlan, s.letterCount)
  {
    if s.personalData.None? || s.jobAd == "" then Some(MISSING_INPUT)
    else if QuotaReached(s.selectedPlan, s.letterCount) then Some(FREE_LIMIT)
    else None
  }

  /** `disabled` of the generate button. */
  predicate ButtonDisabled(s: View) {
    s.isLoading || QuotaReached(s.selectedPlan, s.letterCount)
  }

  /** With personal data and a job ad present and nothing loading, the
      button is disabled exactly when the handler would refuse for the
      Free Plan limit. */
  lemma ButtonMatchesGate(s: View)
    requires s.personalData.Some? && s.jobAd != "" && !s.isLoading
    ensures ButtonDisabled(s) <==> GenerationGate(s) == Some(FREE_LIMIT)
    ensures !ButtonDisabled(s) <==> GenerationGate(s).None?
  {
  }

  /** The state while the generator runs. */
  function Started(s: View): View {
    s.(isLoading := true, error := None)
  }

  /** The state once the generator has answered. A result starting with
      "Error:" is shown as the error and counts nothing. Any other result
      is shown and counted before the two writes are attempted; a throw
      from either write reports the unexpected error with the counter
      already raised. `isLoading` is cleared in every case. */
  function Finished(s: View, a: Attempt): View
    requires s.personalData.Some?
  {
    match a.generated
    case Err(message) => s.(error := Some(UNEXPECTED + message), isLoading := false)
    case Ok(letter) =>
      if StartsWith(letter, "Error:") then s.(error := Some(letter), isLoading := false)
      else
        var newCount := s.letterCount + 1;
        var userId := s.personalData.value.email;
        var shown := s.(coverLetter := letter, letterCount := newCount, isLoading := false);
        match a.insertFailure
        case Some(message) => shown.(error := Some(UNEXPECTED + message))
        case None =>
          var inserted := shown.(writes := s.writes + [InsertCoverLetter(userId, s.jobAd, letter)]);
          match a.updateFailure
          case Some(message) => inserted.(error := Some(UNEXPECTED + message))
          case None => inserted.(writes := inserted.writes + [UpdateLetterCount(userId, newCount)])
  }

  /** `handleGenerateCoverLetter` from start to finish. */
  function Generate(s: View, a: Attempt): View {
    match GenerationGate(s)
    case Some(message) => s.(error := Some(message))
    case None => Finished(Started(s), a)
  }

  /** A refused press changes only the error, which names the reason. */
  lemma RefusedPressChangesOnlyError(s: View, a: Attempt)
    requires GenerationGate(s).Some?
    ensures Generate(s, a) == s.(error := GenerationGate(s))
    ensures s.personalData.None? || s.jobAd == "" ==> Generate(s, a).error == Some(MISSING_INPUT)
  {
  }

  /** A result starting with "Error:" becomes the error and leaves the
      letter shown, the counter and the database as they were. */
  lemma ErrorResultIsNotCounted(s: View, letter: string, insertFailure: Option<string>, updateFailure: Option<string>)
    requires GenerationGate(s).None? && StartsWith(letter, "Error:")
    ensures var t := Generate(s, Attempt(Ok(letter), insertFailure, updateFailure));
      t.error == Some(letter) && t.coverLetter == s.coverLetter && t.letterCount == s.letterCount &&
      t.writes == s.writes && !t.isLoading
  {
  }

  /** Any other result is shown, counted exactly once, and stored: the
      letter first, then the new count, both under the kept address. Paid
      plans are never limited. */
  lemma LetterIsCountedOnce(s: View, letter: string)
    requires s.personalData.Some? && s.jobAd != ""
    requires s.selectedPlan != FREE_PLAN || s.letterCount < FREE_LETTERS
    requires !StartsWith(letter, "Error:")
    ensures var t := Generate(s, Attempt(Ok(letter), None, None));
      var userId := s.personalData.value.email;
      t.coverLetter == letter && t.letterCount == s.letterCount + 1 && t.error.None? && !t.isLoading &&
      t.writes == s.writes + [InsertCoverLetter(userId, s.jobAd, letter), UpdateLetterCount(userId, s.letterCount + 1)]
  {
  }

  /** When the cover-letter insert throws, the page has already counted the
      letter but nothing reaches the database: the shown counter runs
      ahead of the stored one. */
  lemma FailedInsertStillCounts(s: View, letter: string, message: string, updateFailure: Option<string>)
    requires GenerationGate(s).None? && !StartsWith(letter, "Error:")
    ensures var t := Generate(s, Attempt(Ok(letter), Some(message), updateFailure));
      t.letterCount == s.letterCount + 1 && t.writes == s.writes && t.error == Some(UNEXPECTED + message)
  {
  }

  /** Every press that gets past the gate ends with nothing loading, and a
      press never lowers the counter nor raises it by more than one. */
  lemma PressEndsLoaded(s: View, a: Attempt)
    ensures var t := Generate(s, a);
      (GenerationGate(s).None? ==> !t.isLoading) &&
      s.letterCount <= t.letterCount <= s.letterCount + 1 &&
      t.selectedPlan == s.selectedPlan
  {
  }

  /** Several presses in a row. */
  function GenerateAll(s: View, attempts: seq<Attempt>): View
    decreases |attempts|
  {
    if attempts == [] then s else GenerateAll(Generate(s, attempts[0]), attempts[1..])
  }

  /** On the Free Plan the counter never passes five, however often the
      handler runs. */
  lemma {:induction false} FreeCountStaysWithinLimit(s: View, attempts: seq<Attempt>)
    requires s.selectedPlan == FREE_PLAN && s.letterCount <= FREE_LETTERS
    ensures GenerateAll(s, attempts).letterCount <= FREE_LETTERS
    ensures GenerateAll(s, attempts).selectedPlan == FREE_PLAN
    decreases |attempts|
  {
    if attempts != [] {
      PressEndsLoaded(s, attempts[0]);
      FreeCountStaysWithinLimit(Generate(s, attempts[0]), attempts[1..]);
    }
  }

  /** A fresh registration can generate at most five letters until a plan
      is chosen. */
  lemma RegistrationGrantsFiveLetters(s: View, userData: Profile, attempts: seq<Attempt>)
    ensures GenerateAll(Registered(s, userData, true), attempts).letterCount <= FREE_LETTERS
  {
    FreeCountStaysWithinLimit(Registered(s, userData, true), attempts);
  }

  /** A paid plan taken lifts the limit at once, whatever the counter. */
  lemma PaidPlanLiftsLimit(s: View, plan: string)
    requires s.personalData.Some? && s.jobAd != "" && plan != FREE_PLAN
    ensures GenerationGate(PlanSelected(s, plan, true)).None?
  {
  }

  /** After the personal-data popup is submitted the kept data is what the
      popup sent, which has no address: later writes go out without one. */
  lemma PopupDataLosesAddress(s: View, fields: map<string, string>, plan: string)
    ensures var t := PlanSelected(PersonalDataSubmitted(s, Profile(None, fields), true), plan, true);
      t.writes[|t.writes| - 1] == UpdatePlan(None, plan)
  {
  }

  /** The page component: its state fields, updated by the handlers. */
  class Page {
    var isRegistered: bool
    var selectedPlan: string
    var personalData: Option<Profile>
    var jobAd: string
    var coverLetter: string
    var isLoading: bool
    var isPersonalDataPopupOpen: bool
    var isPaymentPlanPopupOpen: bool
    var error: Option<string>
    var letterCount: int
    var writes: seq<DbWrite>

    function State(): View
      reads this
    {
      View(isRegistered, selectedPlan, personalData, jobAd, coverLetter, isLoading, isPersonalDataPopupOpen,
           isPaymentPlanPopupOpen, error, letterCount, writes)
    }

    constructor (apiKeySet: bool)
      ensures State() == Initial(apiKeySet)
    {
      isRegistered, selectedPlan, personalData := false, FREE_PLAN, None;
      jobAd, coverLetter, isLoading := "", "", false;
      isPersonalDataPopupOpen, isPaymentPlanPopupOpen := false, false;
      error := None;
      letterCount, writes := 0, [];
      if !apiKeySet {
        error := Some(API_KEY_MISSING);
      }
    }

    /** Typing into the job-ad form. */
    method EditJobAd(value: string)
      modifies this
      ensures State() == old(State()).(jobAd := value)
    {
      jobAd := value;
    }

    method HandleRegistration(userData: Profile, insertOk: bool)
      modifies this
      ensures State() == Registered(old(State()), userData, insertOk)
    {
      if !insertOk {
        error := Some(REGISTER_FAILED);
        return;
      }
      writes := writes + [InsertUser(userData, FREE_PLAN, 0)];
      isRegistered := true;
      personalData := Some(userData);
      selectedPlan := FREE_PLAN;
      letterCount := 0;
    }

    method HandlePlanSelection(plan: string, updateOk: bool)
      modifies this
      ensures State() == PlanSelected(old(State()), plan, updateOk)
    {
      if personalData.None? || !updateOk {
        error := Some(PLAN_FAILED);
        return;
      }
      writes := writes + [UpdatePlan(personalData.value.email, plan)];
      selectedPlan := plan;
      isPaymentPlanPopupOpen := false;
    }

    method HandlePersonalDataSubmit(data: Profile, updateOk: bool)
      modifies this
      ensures State() == PersonalDataSubmitted(old(State()), data, updateOk)
    {
      if !updateOk {
        error := Some(DATA_FAILED);
        return;
      }
      writes := writes + [UpdatePersonalData(data.email, data)];
      personalData := Some(data);
      isPersonalDataPopupOpen := false;
    }

    /** The checks, then `isLoading` on and the error cleared; `started`
        tells whether the generator is called. */
    method BeginGeneration() returns (started: bool)
      modifies this
      ensures started <==> GenerationGate(old(State())).None?
      ensures started ==> State() == Started(old(State())) && isLoading
      ensures !started ==> State() == old(State()).(error := GenerationGate(old(State())))
    {
      if personalData.None? || jobAd == "" {
        error := Some(MISSING_INPUT);
        return false;
      }
      if selectedPlan == FREE_PLAN && letterCount >= FREE_LETTERS {
        error := Some(FREE_LIMIT);
        return false;
      }
      isLoading := true;
      error := None;
      started := true;
    }

    /** What follows the generator's answer, down to the `finally`. */
    method CompleteGeneration(a: Attempt)
      requires personalData.Some?
      modifies this
      ensures State() == Finished(old(State()), a)
      ensures !isLoading
    {
      match a.generated {
        case Err(message) =>
          error := Some(UNEXPECTED + message);
        case Ok(letter) =>
          if StartsWith(letter, "Error:") {
            error := Some(letter);
          } else {
            coverLetter := letter;
            var newLetterCount := letterCount + 1;
            letterCount := newLetterCount;
            var userId := personalData.value.email;
            if a.insertFailure.Some? {
              error := Some(UNEXPECTED + a.insertFailure.value);
            } else {
              writes := writes + [InsertCoverLetter(userId, jobAd, letter)];
              if a.updateFailure.Some? {
                error := Some(UNEXPECTED + a.updateFailure.value);
              } else {
                writes := writes + [UpdateLetterCount(userId, newLetterCount)];
              }
            }
          }
      }
      isLoading := false;
    }

    /** `handleGenerateCoverLetter`. */
    method HandleGenerateCoverLetter(a: Attempt)
      modifies this
      ensures State() == Generate(old(State()), a)
    {
      var started := BeginGeneration();
      if started {
        CompleteGeneration(a);
      }
    }
  }
}
