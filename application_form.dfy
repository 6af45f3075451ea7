/** The application wizard: step 1 stores a pending application, step 2 marks it
    verified with the entered code (any code of six characters is taken). */
module ApplicationForm {
  import opened Seqs
  import opened Entities
  import opened Gateway
  import opened Text

  /** The step-1 form. */
  datatype ApplicationInput = ApplicationInput(message: string, guestsRequested: int)

  const InitialInput: ApplicationInput := ApplicationInput("", 0)

  /** The record sent to `EventApplication.create`: pending, unverified, for
      `event` and `email`; the fields the call leaves out are absent. */
  function SubmittedApplication(event: Event, email: string, form: ApplicationInput): (r: Application)
    ensures r.eventId == event.id && r.userEmail == email
    ensures r.message == form.message && r.guestsRequested == form.guestsRequested
    ensures r.status == Pending && !r.verified
    ensures r.verificationCode.None? && r.reviewedBy.None? && r.reviewedAt.None?
  {
    Application(0, event.id, email, form.message, form.guestsRequested, Pending, false, None, None, None)
  }

  /** The verification patch `{verified: true, verification_code: code}`. */
  function VerifyPatch(code: string): Application -> Application {
    (a: Application) => a.(verified := true, verificationCode := Some(code))
  }

  /** Any code verifies the application; nothing but the two fields changes. */
  lemma VerifyPatchFields(a: Application, code: string)
    ensures VerifyPatch(code)(a).verified && VerifyPatch(code)(a).verificationCode == Some(code)
    ensures VerifyPatch(code)(a).(verified := a.verified, verificationCode := a.verificationCode) == a
  {
  }

  /** The Complete Application button is enabled: `verificationCode.length`
      counts UTF-16 code units. */
  predicate VerifyEnabled(isSubmitting: bool, code: string) {
    !isSubmitting && Utf16Length(code) == 6
  }

  /** Every code of six code units enables the button when nothing is in flight,
      and no other length does; the characters themselves are never looked at. */
  lemma OnlyLengthIsChecked(code: string, other: string)
    requires Utf16Length(code) == Utf16Length(other)
    ensures VerifyEnabled(false, code) == VerifyEnabled(false, other)
    ensures VerifyEnabled(false, code) <==> Utf16Length(code) == 6
    ensures !VerifyEnabled(true, code)
  {
  }

  /** Six characters one of which lies outside the Basic Multilingual Plane are
      seven code units, so they do not enable the button; six characters inside
      it do. */
  lemma AstralCharacterCountsTwice(code: string)
    requires |code| == 6
    ensures (forall i :: 0 <= i < 6 ==> (code[i] as int) < 0x1_0000) ==> VerifyEnabled(false, code)
    ensures (exists i :: 0 <= i < 6 && (code[i] as int) >= 0x1_0000) ==> !VerifyEnabled(false, code)
  {
  }

  class ApplicationWizard {
    const event: Event
    const user: string
    var formData: ApplicationInput
    var step: int
    var verificationCode: string
    var isSubmitting: bool
    var applicationId: Option<Id>

    /** The wizard is at step 1 or 2, and at step 2 exactly when an application
        has been stored. */
    ghost predicate Valid()
      reads this
    {
      (step == 1 || step == 2) && (step == 2 <==> applicationId.Some?)
    }

    constructor (event: Event, user: string)
      ensures Valid()
      ensures this.event == event && this.user == user
      ensures formData == InitialInput && step == 1 && verificationCode == "" && !isSubmitting && applicationId.None?
    {
      this.event := event;
      this.user := user;
      formData := InitialInput;
      step := 1;
      verificationCode := "";
      isSubmitting := false;
      applicationId := None;
    }

    method EditForm(form: ApplicationInput)
      requires Valid()
      modifies this`formData
      ensures Valid() && formData == form
    {
      formData := form;
    }

    method EditCode(code: string)
      requires Valid()
      modifies this`verificationCode
      ensures Valid() && verificationCode == code
    {
      verificationCode := code;
    }

    /** `handleApplicationSubmit`: store the application; only on success remember
        its id and move to step 2. A failure leaves step and id as they were. */
    method HandleApplicationSubmit(store: EntityStore, accept: bool) returns (ok: bool)
      requires Valid() && store.Valid()
      modifies this`isSubmitting, this`applicationId, this`step, store
      ensures Valid() && store.Valid() && !isSubmitting
      ensures ok == accept
      ensures store.applications == if ok
        then old(store.applications)[old(store.nextId) := SubmittedApplication(event, user, formData).(id := old(store.nextId))]
        else old(store.applications)
      ensures applicationId == if ok then Some(old(store.nextId)) else old(applicationId)
      ensures step == if ok then 2 else old(step)
      ensures old(step) == 2 ==> step == 2
      ensures store.nextId == old(store.nextId) + (if ok then 1 else 0)
      ensures store.events == old(store.events) && store.roles == old(store.roles) && store.attendees == old(store.attendees)
    {
      isSubmitting := true;
      var created := store.CreateApplication(SubmittedApplication(event, user, formData), accept);
      ok := created.Some?;
      if ok {
        applicationId := Some(created.value.id);
        step := 2;
      }
      isSubmitting := false;
    }

    /** `handleVerificationSubmit`: mark the stored application verified with the
        entered code, whatever it is. Without an id the update fails. The step
        does not change; `ok` is when the parent is told it is done. */
    method HandleVerificationSubmit(store: EntityStore, accept: bool) returns (ok: bool)
      requires Valid() && store.Valid()
      modifies this`isSubmitting, store
      ensures Valid() && store.Valid() && !isSubmitting
      ensures ok == (applicationId.Some? && accept && applicationId.value in old(store.applications))
      ensures store.applications == if ok
        then old(store.applications)[applicationId.value := VerifyPatch(verificationCode)(old(store.applications)[applicationId.value])]
        else old(store.applications)
      ensures store.events == old(store.events) && store.roles == old(store.roles) && store.attendees == old(store.attendees)
      ensures store.nextId == old(store.nextId)
    {
      isSubmitting := true;
      if applicationId.Some? {
        ok := store.UpdateApplication(applicationId.value, VerifyPatch(verificationCode), accept);
      } else {
        ok := false;
      }
      isSubmitting := false;
    }
  }
}
