/** The bot-creation wizard of src/pages/CreateBot.tsx: a step counter over
    nine steps, a form record, per-step guards that enable the Next button,
    the Next/Previous transitions and the use-case checkbox toggle. User
    actions are events; a click on a disabled button does nothing. */
module CreateBot {
  import opened Seqs
  import JsText

  /** The wizard's form (`BotFormData`). */
  datatype FormData = FormData(
    projectName: string,
    whatsappApiKey: string,
    phoneNumber: string,
    verifiedSenderId: string,
    aiProvider: string,
    welcomeMessage: string,
    useCases: seq<string>,
    template: string,
    workingHoursStart: string,
    workingHoursEnd: string,
    fallbackMessage: string)

  /** `initialFormData`: empty fields, no use case, working hours 09:00 to 17:00. */
  const InitialFormData: FormData := FormData(
    projectName := "",
    whatsappApiKey := "",
    phoneNumber := "",
    verifiedSenderId := "",
    aiProvider := "",
    welcomeMessage := "",
    useCases := [],
    template := "",
    workingHoursStart := "09:00",
    workingHoursEnd := "17:00",
    fallbackMessage := "")

  datatype StepInfo = StepInfo(id: nat, title: string, description: string)

  /** `steps`: the nine steps in order. */
  const Steps: seq<StepInfo> := [
    StepInfo(1, "Project Name", "Give your bot a name"),
    StepInfo(2, "WhatsApp Setup", "Configure API credentials"),
    StepInfo(3, "AI Provider", "Choose your AI engine"),
    StepInfo(4, "Welcome Message", "Set the greeting message"),
    StepInfo(5, "Use Cases", "Define bot purpose"),
    StepInfo(6, "Template", "Choose a template"),
    StepInfo(7, "Working Hours", "Set availability"),
    StepInfo(8, "Fallback Message", "Default responses"),
    StepInfo(9, "Review & Launch", "Finalize your bot")
  ]

  /** `steps.length`. */
  const StepCount: nat := |Steps|

  /** The text fields `updateFormData` is called with. */
  datatype TextField =
    | ProjectName | WhatsappApiKey | PhoneNumber | VerifiedSenderId | AiProvider
    | WelcomeMessage | Template | WorkingHoursStart | WorkingHoursEnd | FallbackMessage

  /** The value of a text field. */
  function Text(form: FormData, field: TextField): string
  {
    match field
    case ProjectName => form.projectName
    case WhatsappApiKey => form.whatsappApiKey
    case PhoneNumber => form.phoneNumber
    case VerifiedSenderId => form.verifiedSenderId
    case AiProvider => form.aiProvider
    case WelcomeMessage => form.welcomeMessage
    case Template => form.template
    case WorkingHoursStart => form.workingHoursStart
    case WorkingHoursEnd => form.workingHoursEnd
    case FallbackMessage => form.fallbackMessage
  }

  /** `updateFormData(field, value)`: `{...prev, [field]: value}`. */
  function UpdateFormData(form: FormData, field: TextField, value: string): (r: FormData)
    ensures Text(r, field) == value
    ensures forall g :: g != field ==> Text(r, g) == Text(form, g)
    ensures r.useCases == form.useCases
  {
    match field
    case ProjectName => form.(projectName := value)
    case WhatsappApiKey => form.(whatsappApiKey := value)
    case PhoneNumber => form.(phoneNumber := value)
    case VerifiedSenderId => form.(verifiedSenderId := value)
    case AiProvider => form.(aiProvider := value)
    case WelcomeMessage => form.(welcomeMessage := value)
    case Template => form.(template := value)
    case WorkingHoursStart => form.(workingHoursStart := value)
    case WorkingHoursEnd => form.(workingHoursEnd := value)
    case FallbackMessage => form.(fallbackMessage := value)
  }

  /** `handleUseCaseChange(caseId, checked)`: checking appends the id (even
      when already listed); unchecking drops every occurrence. */
  function HandleUseCaseChange(form: FormData, caseId: string, checked: bool): (r: FormData)
    ensures forall g :: Text(r, g) == Text(form, g)
    ensures checked ==>
      && |r.useCases| == |form.useCases| + 1
      && r.useCases[..|form.useCases|] == form.useCases
      && r.useCases[|form.useCases|] == caseId
    ensures !checked ==> caseId !in r.useCases
    ensures !checked ==> forall x :: x in r.useCases <==> x in form.useCases && x != caseId
    ensures !checked ==> (|r.useCases| == |form.useCases| <==> caseId !in form.useCases)
  {
    var cases := if checked then form.useCases + [caseId] else Without(form.useCases, Identity, caseId);
    form.(useCases := cases)
  }

  /** Unchecking keeps the other use cases in their order: on a list made
      of two parts it acts on each part separately. */
  lemma UncheckKeepsOrder(form: FormData, caseId: string, front: seq<string>, back: seq<string>)
    requires form.useCases == front + back
    ensures HandleUseCaseChange(form, caseId, false).useCases
         == HandleUseCaseChange(form.(useCases := front), caseId, false).useCases
          + HandleUseCaseChange(form.(useCases := back), caseId, false).useCases
  {
    WithoutConcat(front, back, Identity, caseId);
  }

  /** Checking an unlisted use case and unchecking it again restores the form. */
  lemma CheckThenUncheck(form: FormData, caseId: string)
    requires caseId !in form.useCases
    ensures HandleUseCaseChange(HandleUseCaseChange(form, caseId, true), caseId, false) == form
  {
    var cases := form.useCases;
    WithoutConcat(cases, [caseId], Identity, caseId);
    WithoutNoMatch(cases, Identity, caseId);
    assert Without([caseId], Identity, caseId) == [];
  }

  /** The wizard: the current step and the form. */
  datatype Wizard = Wizard(step: int, form: FormData)

  predicate InRange(w: Wizard)
  {
    1 <= w.step <= StepCount
  }

  /** The wizard as it opens: step 1 with the initial form. */
  const InitialWizard: Wizard := Wizard(1, InitialFormData)

  /** `canProceedToNext()`: the guard of the current step. Steps 1, 4 and 8
      need a non-whitespace character after trimming; step 2 only checks
      its credentials for emptiness, so whitespace passes; steps 3 and 6
      need a choice, step 5 a use case, and every other step passes. */
  predicate CanProceedToNext(w: Wizard)
    ensures w.step == 1 ==> (CanProceedToNext(w) <==> !JsText.Blank(w.form.projectName))
    ensures w.step == 2 ==> (CanProceedToNext(w) <==>
      w.form.whatsappApiKey != "" && w.form.phoneNumber != "" && w.form.verifiedSenderId != "")
    ensures w.step == 3 ==> (CanProceedToNext(w) <==> w.form.aiProvider != "")
    ensures w.step == 4 ==> (CanProceedToNext(w) <==> !JsText.Blank(w.form.welcomeMessage))
    ensures w.step == 5 ==> (CanProceedToNext(w) <==> exists c :: c in w.form.useCases)
    ensures w.step == 6 ==> (CanProceedToNext(w) <==> w.form.template != "")
    ensures w.step == 8 ==> (CanProceedToNext(w) <==> !JsText.Blank(w.form.fallbackMessage))
    ensures !(1 <= w.step <= 6 || w.step == 8) ==> CanProceedToNext(w)
  {
    JsText.TrimEmptyIffBlank(w.form.projectName);
    JsText.TrimEmptyIffBlank(w.form.welcomeMessage);
    JsText.TrimEmptyIffBlank(w.form.fallbackMessage);
    assert |w.form.useCases| > 0 ==> w.form.useCases[0] in w.form.useCases;
    var f := w.form;
    match w.step
    case 1 => JsText.Trim(f.projectName) != ""
    case 2 => f.whatsappApiKey != "" && f.phoneNumber != "" && f.verifiedSenderId != ""
    case 3 => f.aiProvider != ""
    case 4 => JsText.Trim(f.welcomeMessage) != ""
    case 5 => |f.useCases| > 0
    case 6 => f.template != ""
    case 7 => true
    case 8 => JsText.Trim(f.fallbackMessage) != ""
    case _ => true
  }

  /** The text fields the guard of `step` reads. */
  function GuardFields(step: int): set<TextField>
  {
    match step
    case 1 => {ProjectName}
    case 2 => {WhatsappApiKey, PhoneNumber, VerifiedSenderId}
    case 3 => {AiProvider}
    case 4 => {WelcomeMessage}
    case 6 => {Template}
    case 8 => {FallbackMessage}
    case _ => {}
  }

  /** Each guard depends only on its own step's fields: editing any other
      text field leaves Next as enabled or disabled as it was, and so does
      toggling a use case anywhere but on step 5. */
  lemma StepGuards(w: Wizard, field: TextField, value: string, caseId: string, checked: bool)
    ensures field !in GuardFields(w.step) ==>
      CanProceedToNext(w.(form := UpdateFormData(w.form, field, value))) == CanProceedToNext(w)
    ensures w.step != 5 ==>
      CanProceedToNext(w.(form := HandleUseCaseChange(w.form, caseId, checked))) == CanProceedToNext(w)
    ensures w.step == 5 && checked ==> CanProceedToNext(w.(form := HandleUseCaseChange(w.form, caseId, checked)))
  {
    var edited := UpdateFormData(w.form, field, value);
    var toggled := HandleUseCaseChange(w.form, caseId, checked);
    assert forall g :: Text(toggled, g) == Text(w.form, g);
    assert field !in GuardFields(w.step) ==> forall g :: g in GuardFields(w.step) ==> Text(edited, g) == Text(w.form, g);
    assert checked ==> caseId in toggled.useCases by {
      if checked {
        assert toggled.useCases[|w.form.useCases|] == caseId;
      }
    }
  }

  /** `handleNext()`: one step forward unless on the last step. */
  function HandleNext(w: Wizard): (r: Wizard)
    ensures r.form == w.form
    ensures w.step < StepCount ==> r.step == w.step + 1
    ensures w.step >= StepCount ==> r == w
  {
    if w.step < StepCount then w.(step := w.step + 1) else w
  }

  /** `handlePrevious()`: one step back unless on the first step. */
  function HandlePrevious(w: Wizard): (r: Wizard)
    ensures r.form == w.form
    ensures w.step > 1 ==> r.step == w.step - 1
    ensures w.step <= 1 ==> r == w
  {
    if w.step > 1 then w.(step := w.step - 1) else w
  }

  /** Next and Previous undo each other away from the bounds. */
  lemma NextPreviousInverse(w: Wizard)
    requires InRange(w)
    ensures w.step < StepCount ==> HandlePrevious(HandleNext(w)) == w
    ensures w.step > 1 ==> HandleNext(HandlePrevious(w)) == w
  {
  }

  /** The right-hand navigation button: Next, enabled by the step's guard,
      or the Launch button on the last step. */
  datatype ForwardButton = NextButton(enabled: bool) | LaunchButton

  function Forward(w: Wizard): (b: ForwardButton)
    ensures b.LaunchButton? <==> w.step == StepCount
    ensures b.NextButton? ==> (b.enabled <==> CanProceedToNext(w))
  {
    if w.step == StepCount then LaunchButton else NextButton(CanProceedToNext(w))
  }

  /** Previous is disabled on the first step: within range it is enabled
      exactly where `handlePrevious` would move. */
  predicate PreviousEnabled(w: Wizard)
    ensures InRange(w) ==> (PreviousEnabled(w) <==> HandlePrevious(w) != w)
  {
    w.step != 1
  }

  /** A user action on the wizard. Launch is not modelled. */
  datatype Event =
    | Edit(field: TextField, value: string)
    | ToggleUseCase(caseId: string, checked: bool)
    | PressNext
    | PressPrevious

  /** The wizard after one action; a click on a disabled or hidden button does nothing. */
  function Dispatch(w: Wizard, e: Event): (r: Wizard)
    ensures InRange(w) ==> InRange(r)
    ensures e.PressNext? && r != w ==> CanProceedToNext(w) && r == w.(step := w.step + 1)
    ensures e.PressPrevious? && r != w ==> r == w.(step := w.step - 1)
    ensures e.PressNext? || e.PressPrevious? ==> r.form == w.form
    ensures e.Edit? || e.ToggleUseCase? ==> r.step == w.step
    ensures e.PressNext? && w.step < StepCount && CanProceedToNext(w) ==> r == w.(step := w.step + 1)
    ensures e.PressPrevious? && w.step > 1 ==> r == w.(step := w.step - 1)
    ensures e.Edit? ==> r.form == UpdateFormData(w.form, e.field, e.value)
    ensures e.ToggleUseCase? ==> r.form == HandleUseCaseChange(w.form, e.caseId, e.checked)
  {
    match e
    case Edit(field, value) => w.(form := UpdateFormData(w.form, field, value))
    case ToggleUseCase(caseId, checked) => w.(form := HandleUseCaseChange(w.form, caseId, checked))
    case PressNext => if Forward(w) == NextButton(true) then HandleNext(w) else w
    case PressPrevious => if PreviousEnabled(w) then HandlePrevious(w) else w
  }

  /** The wizard after a sequence of actions; each action moves the step by
      at most one, and actions that do not navigate leave it where it is. */
  function Run(w: Wizard, events: seq<Event>): (r: Wizard)
    ensures w.step - |events| <= r.step <= w.step + |events|
    ensures (forall i :: 0 <= i < |events| ==> !events[i].PressNext? && !events[i].PressPrevious?) ==> r.step == w.step
    decreases |events|
  {
    if events == [] then w else Run(Dispatch(w, events[0]), events[1..])
  }

  /** Whatever the user does, the step stays within 1..9. */
  lemma {:induction false} RunStaysInRange(w: Wizard, events: seq<Event>)
    requires InRange(w)
    ensures InRange(Run(w, events))
    decreases |events|
  {
    if events != [] {
      RunStaysInRange(Dispatch(w, events[0]), events[1..]);
    }
  }

  /** The wizard opens on step 1 with Next and Previous both disabled. */
  lemma InitialState()
    ensures InRange(InitialWizard)
    ensures Forward(InitialWizard) == NextButton(false)
    ensures !PreviousEnabled(InitialWizard)
  {
    var w := Wizard(1, InitialFormData);
    assert InitialWizard == w;
    assert StepCount == 9;
    assert !PreviousEnabled(w);
    assert JsText.Blank(w.form.projectName);
    assert !CanProceedToNext(w);
  }
}
