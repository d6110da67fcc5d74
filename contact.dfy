/** The contact form: its validation schema, the project-type labels, and the
    submit / confirm / send sequence with its outcome. */
module Contact {
  import opened Prelude
  import opened Language
  import opened Audio

  datatype ContactFormData = ContactFormData(name: string, email: string, projectType: string, message: string)

  /** What the form's fields hold after `reset()`: nothing. */
  const EmptyForm: ContactFormData := ContactFormData("", "", "", "")

  // ---- The schema ----

  /** Length as JavaScript and the schema's `min`/`max` count it: in UTF-16 code
      units, so a character outside the Basic Multilingual Plane counts twice. */
  function Utf16Length(s: string): nat
  {
    if s == [] then 0 else (if s[0] as int > 0xFFFF then 2 else 1) + Utf16Length(s[1..])
  }

  /** A UTF-16 length is between one and two units per character, and exactly
      one per character for text inside the Basic Multilingual Plane. */
  lemma {:induction false} Utf16LengthBounds(s: string)
    ensures |s| <= Utf16Length(s) <= 2 * |s|
    ensures (forall i :: 0 <= i < |s| ==> s[i] as int <= 0xFFFF) ==> Utf16Length(s) == |s|
  {
    if s != [] {
      Utf16LengthBounds(s[1..]);
    }
  }

  /** One failed check of the schema. */
  datatype Issue =
    | NameTooShort | NameTooLong
    | EmailInvalid | EmailTooLong
    | ProjectTypeMissing
    | MessageTooShort | MessageTooLong

  /** `name: z.string().min(2).max(100)`. */
  function NameIssues(name: string): seq<Issue>
  {
    (if Utf16Length(name) < 2 then [NameTooShort] else []) + (if Utf16Length(name) > 100 then [NameTooLong] else [])
  }

  /** `email: z.string().email().max(255)`; the format is decided by `isEmail`,
      standing for the validation library's own pattern. */
  function EmailIssues(email: string, isEmail: string -> bool): seq<Issue>
  {
    (if !isEmail(email) then [EmailInvalid] else []) + (if Utf16Length(email) > 255 then [EmailTooLong] else [])
  }

  /** `projectType: z.string().min(1)`. */
  function ProjectTypeIssues(projectType: string): seq<Issue>
  {
    if Utf16Length(projectType) < 1 then [ProjectTypeMissing] else []
  }

  /** `message: z.string().min(10).max(1000)`. */
  function MessageIssues(message: string): seq<Issue>
  {
    (if Utf16Length(message) < 10 then [MessageTooShort] else [])
    + (if Utf16Length(message) > 1000 then [MessageTooLong] else [])
  }

  /** Every failed check of the schema, in field order; each field reports all
      of its failed checks. */
  function Issues(d: ContactFormData, isEmail: string -> bool): seq<Issue>
  {
    NameIssues(d.name) + EmailIssues(d.email, isEmail) + ProjectTypeIssues(d.projectType) + MessageIssues(d.message)
  }

  predicate SchemaAccepts(d: ContactFormData, isEmail: string -> bool)
  {
    Issues(d, isEmail) == []
  }

  /** The form is accepted exactly when every length bound holds and the email
      has the right format. */
  lemma SchemaAcceptsIff(d: ContactFormData, isEmail: string -> bool)
    ensures SchemaAccepts(d, isEmail) <==>
      && 2 <= Utf16Length(d.name) <= 100
      && isEmail(d.email) && Utf16Length(d.email) <= 255
      && 1 <= Utf16Length(d.projectType)
      && 10 <= Utf16Length(d.message) <= 1000
  {
  }

  /** An issue is reported exactly when its field's own checks report it. */
  lemma InIssues(d: ContactFormData, isEmail: string -> bool, x: Issue)
    ensures x in Issues(d, isEmail) <==>
      x in NameIssues(d.name) || x in EmailIssues(d.email, isEmail)
      || x in ProjectTypeIssues(d.projectType) || x in MessageIssues(d.message)
  {
  }

  /** The name's issues are reported exactly when its bounds are broken. */
  lemma NameIssueReported(d: ContactFormData, isEmail: string -> bool)
    ensures NameTooShort in Issues(d, isEmail) <==> Utf16Length(d.name) < 2
    ensures NameTooLong in Issues(d, isEmail) <==> Utf16Length(d.name) > 100
  {
    InIssues(d, isEmail, NameTooShort);
    InIssues(d, isEmail, NameTooLong);
  }

  lemma EmailIssueReported(d: ContactFormData, isEmail: string -> bool)
    ensures EmailInvalid in Issues(d, isEmail) <==> !isEmail(d.email)
    ensures EmailTooLong in Issues(d, isEmail) <==> Utf16Length(d.email) > 255
  {
    InIssues(d, isEmail, EmailInvalid);
    InIssues(d, isEmail, EmailTooLong);
  }

  /** A project type is missing exactly when none was chosen. */
  lemma ProjectTypeIssueReported(d: ContactFormData, isEmail: string -> bool)
    ensures ProjectTypeMissing in Issues(d, isEmail) <==> d.projectType == ""
  {
    Utf16LengthBounds(d.projectType);
    InIssues(d, isEmail, ProjectTypeMissing);
  }

  lemma MessageIssueReported(d: ContactFormData, isEmail: string -> bool)
    ensures MessageTooShort in Issues(d, isEmail) <==> Utf16Length(d.message) < 10
    ensures MessageTooLong in Issues(d, isEmail) <==> Utf16Length(d.message) > 1000
  {
    InIssues(d, isEmail, MessageTooShort);
    InIssues(d, isEmail, MessageTooLong);
  }

  /** The message shown for an issue: the form's own text in the active
      language for the four custom messages, `None` where the validation
      library's default message is used. */
  function IssueMessage(lang: Lang, issue: Issue): Option<string>
  {
    match issue
    case NameTooShort =>
      Some(if lang == Ar then "الاسم يجب أن يكون حرفين على الأقل" else "Name must be at least 2 characters")
    case EmailInvalid =>
      Some(if lang == Ar then "البريد الإلكتروني غير صحيح" else "Invalid email address")
    case ProjectTypeMissing =>
      Some(if lang == Ar then "يرجى اختيار نوع المشروع" else "Please select a project type")
    case MessageTooShort =>
      Some(if lang == Ar then "الرسالة يجب أن تكون 10 أحرف على الأقل" else "Message must be at least 10 characters")
    case _ => None
  }

  /** Only the lower bounds and the email format carry messages of their own. */
  lemma CustomMessages(lang: Lang, issue: Issue)
    ensures IssueMessage(lang, issue).Some? <==> issue in {NameTooShort, EmailInvalid, ProjectTypeMissing, MessageTooShort}
    ensures IssueMessage(lang, issue).Some? ==> IssueMessage(lang, issue) != IssueMessage(Toggled(lang), issue)
  {
  }

  // ---- Project types ----

  datatype ProjectTypeOption = ProjectTypeOption(value: string, labelKey: string)

  const ProjectTypes: seq<ProjectTypeOption> := [
    ProjectTypeOption("web", "contact.form.type.web"),
    ProjectTypeOption("mobile", "contact.form.type.mobile"),
    ProjectTypeOption("saas", "contact.form.type.saas"),
    ProjectTypeOption("other", "contact.form.type.other")
  ]

  /** The label of a project type: the translated label of the first option
      with that value, or the raw value when no option has it. */
  function GetProjectTypeLabel(lang: Lang, value: string): string
  {
    match Find(ProjectTypes, (o: ProjectTypeOption) => o.value == value)
    case Some(o) => Translate(lang, o.labelKey)
    case None => value
  }

  /** A known value is shown by its translated label, whose key is the value
      under `contact.form.type.`; and that label comes from the table. */
  lemma KnownProjectTypeLabel(lang: Lang, i: int)
    requires 0 <= i < |ProjectTypes|
    ensures ProjectTypes[i].labelKey == "contact.form.type." + ProjectTypes[i].value
    ensures GetProjectTypeLabel(lang, ProjectTypes[i].value) == Translate(lang, ProjectTypes[i].labelKey)
  {
    FindIsFirst(ProjectTypes, (o: ProjectTypeOption) => o.value == ProjectTypes[i].value, i);
  }

  /** Any other value is shown as it is. */
  lemma UnknownProjectTypeLabel(lang: Lang, value: string)
    requires value !in {"web", "mobile", "saas", "other"}
    ensures GetProjectTypeLabel(lang, value) == value
  {
    var p := (o: ProjectTypeOption) => o.value == value;
    assert forall i :: 0 <= i < |ProjectTypes| ==> !p(ProjectTypes[i]);
  }

  // ---- Submission ----

  /** The request handed to the email service. */
  datatype EmailRequest = EmailRequest(serviceId: string, templateId: string, params: map<string, string>, publicKey: string)

  function EmailRequestFor(d: ContactFormData): EmailRequest
  {
    EmailRequest("service_nozetsh", "template_g1txmks",
      map["from_name" := d.name, "from_email" := d.email, "project_type" := d.projectType, "message" := d.message],
      "Opsp8EwVCiuU5ZgX7")
  }

  /** The request carries every field of the form under its template name. */
  lemma EmailRequestCarriesForm(d: ContactFormData)
    ensures EmailRequestFor(d).params.Keys == {"from_name", "from_email", "project_type", "message"}
    ensures EmailRequestFor(d).params["from_name"] == d.name
    ensures EmailRequestFor(d).params["from_email"] == d.email
    ensures EmailRequestFor(d).params["project_type"] == d.projectType
    ensures EmailRequestFor(d).params["message"] == d.message
  {
  }

  /** The success toast: `t('contact.form.success')`. */
  function SuccessMessage(lang: Lang): string
  {
    Translate(lang, "contact.form.success")
  }

  /** The failure toast, written inline in each language. */
  function FailureMessage(lang: Lang): string
  {
    if lang == Ar then "حدث خطأ أثناء الإرسال، حاول مرة أخرى" else "Failed to send message, please try again"
  }

  /** What the form does outside its own state, in order. */
  datatype ContactEffect =
    | SoundRequested(sound: SoundType)
    | EmailSent(request: EmailRequest)
    | SuccessToast(text: string)
    | ErrorToast(text: string)
    | ClearSubmittedTimerSet(delayMs: nat)

  /** The form's state. `values` are the fields' current contents, `errors`
      the issues of the last validation. */
  class ContactForm {
    var isSubmitting: bool
    var isSubmitted: bool
    var showConfirmDialog: bool
    var pendingData: Option<ContactFormData>
    var values: ContactFormData
    var errors: seq<Issue>
    var effects: seq<ContactEffect>

    constructor ()
      ensures !isSubmitting && !isSubmitted && !showConfirmDialog && pendingData == None
      ensures values == EmptyForm && errors == [] && effects == []
    {
      isSubmitting, isSubmitted, showConfirmDialog, pendingData := false, false, false, None;
      values, errors, effects := EmptyForm, [], [];
    }

    /** Typing into the fields. */
    method Edit(d: ContactFormData)
      modifies this`values
      ensures values == d
    {
      values := d;
    }

    /** The submit button, disabled while a send is in flight: the form is
        validated and, only when it is valid, handed to `onSubmit`. */
    method HandleSubmit(isEmail: string -> bool)
      requires !isSubmitting
      modifies this`errors, this`pendingData, this`showConfirmDialog, this`effects
      ensures errors == Issues(values, isEmail)
      ensures SchemaAccepts(values, isEmail) ==>
        pendingData == Some(values) && showConfirmDialog && effects == old(effects) + [SoundRequested(Click)]
      ensures !SchemaAccepts(values, isEmail) ==>
        pendingData == old(pendingData) && showConfirmDialog == old(showConfirmDialog) && effects == old(effects)
    {
      errors := Issues(values, isEmail);
      if errors == [] {
        OnSubmit(values);
      }
    }

    /** Asks for the click sound, keeps the data and opens the confirmation
        dialog; nothing is sent yet. */
    method OnSubmit(d: ContactFormData)
      modifies this`pendingData, this`showConfirmDialog, this`effects
      ensures pendingData == Some(d) && showConfirmDialog
      ensures effects == old(effects) + [SoundRequested(Click)]
    {
      effects := effects + [SoundRequested(Click)];
      pendingData := Some(d);
      showConfirmDialog := true;
    }

    /** The dialog's own open/close (its cancel button and dismissal). */
    method SetConfirmDialog(open: bool)
      modifies this`showConfirmDialog
      ensures showConfirmDialog == open
    {
      showConfirmDialog := open;
    }

    /** The confirm button, up to the `await`: without pending data nothing
        happens; otherwise the dialog closes, the form is marked as submitting
        and the request is sent. `started` says which. */
    method BeginConfirmSend() returns (started: bool)
      requires showConfirmDialog
      modifies this`showConfirmDialog, this`isSubmitting, this`effects
      ensures started <==> old(pendingData).Some?
      ensures !started ==>
        showConfirmDialog == old(showConfirmDialog) && isSubmitting == old(isSubmitting) && effects == old(effects)
      ensures started ==>
        !showConfirmDialog && isSubmitting && effects == old(effects) + [EmailSent(EmailRequestFor(pendingData.value))]
    {
      if pendingData.None? {
        return false;
      }
      showConfirmDialog := false;
      isSubmitting := true;
      effects := effects + [EmailSent(EmailRequestFor(pendingData.value))];
      return true;
    }

    /** The rest of the confirm handler once the service answers, in the
        language of the moment the button was pressed. On success: the success
        toast, the success sound, the submitted mark, a cleared form, no
        pending data and a timer that clears the mark 3 seconds later. On
        failure: only the error toast. Either way the form is no longer
        submitting. */
    method CompleteSend(lang: Lang, succeeded: bool)
      modifies this`isSubmitting, this`isSubmitted, this`values, this`pendingData, this`effects
      ensures !isSubmitting
      ensures succeeded ==>
        && isSubmitted && values == EmptyForm && pendingData == None
        && effects == old(effects) + [SuccessToast(SuccessMessage(lang)),
                                      SoundRequested(Success), ClearSubmittedTimerSet(3000)]
      ensures !succeeded ==>
        && isSubmitted == old(isSubmitted) && values == old(values) && pendingData == old(pendingData)
        && effects == old(effects) + [ErrorToast(FailureMessage(lang))]
    {
      if succeeded {
        effects := effects + [SuccessToast(SuccessMessage(lang))];
        effects := effects + [SoundRequested(Success)];
        isSubmitted := true;
        values := EmptyForm;
        pendingData := None;
        effects := effects + [ClearSubmittedTimerSet(3000)];
      } else {
        effects := effects + [ErrorToast(FailureMessage(lang))];
      }
      isSubmitting := false;
    }

    /** The whole confirm handler for a given outcome of the send. Its button
        sits inside the dialog, so the dialog is open whenever it runs. */
    method HandleConfirmSend(lang: Lang, succeeded: bool)
      requires showConfirmDialog
      modifies this`showConfirmDialog, this`isSubmitting, this`isSubmitted, this`values, this`pendingData, this`effects
      ensures old(pendingData).None? ==>
        && showConfirmDialog == old(showConfirmDialog) && isSubmitting == old(isSubmitting)
        && isSubmitted == old(isSubmitted) && values == old(values) && pendingData == old(pendingData)
        && effects == old(effects)
      ensures old(pendingData).Some? ==> !showConfirmDialog && !isSubmitting
      ensures old(pendingData).Some? && succeeded ==>
        && isSubmitted && values == EmptyForm && pendingData == None
        && effects == old(effects) + [EmailSent(EmailRequestFor(old(pendingData).value)),
             SuccessToast(SuccessMessage(lang)), SoundRequested(Success), ClearSubmittedTimerSet(3000)]
      ensures old(pendingData).Some? && !succeeded ==>
        && isSubmitted == old(isSubmitted) && values == old(values) && pendingData == old(pendingData)
        && effects == old(effects) + [EmailSent(EmailRequestFor(old(pendingData).value)), ErrorToast(FailureMessage(lang))]
    {
      var started := BeginConfirmSend();
      if started {
        CompleteSend(lang, succeeded);
      }
    }

    /** The 3-second timer set on success. */
    method ExpireSubmitted()
      modifies this`isSubmitted
      ensures !isSubmitted
    {
      isSubmitted := false;
    }
  }

  /** One press of the submit button on a valid form at rest. */
  method SubmitValid(form: ContactForm, isEmail: string -> bool)
    requires SchemaAccepts(form.values, isEmail) && !form.isSubmitting
    modifies form
    ensures form.values == old(form.values) && !form.isSubmitting
    ensures form.pendingData == Some(form.values) && form.showConfirmDialog
    ensures form.effects == old(form.effects) + [SoundRequested(Click)]
  {
    form.HandleSubmit(isEmail);
  }

  /** One press of the confirm button while the dialog shows the current values. */
  method ConfirmPending(form: ContactForm, lang: Lang, succeeded: bool)
    requires form.showConfirmDialog && form.pendingData == Some(form.values)
    modifies form
    ensures !form.isSubmitting
    ensures !succeeded ==> form.values == old(form.values)
    ensures !succeeded ==>
      form.effects == old(form.effects) + [EmailSent(EmailRequestFor(form.values)), ErrorToast(FailureMessage(lang))]
    ensures succeeded ==> form.effects == old(form.effects) + [EmailSent(EmailRequestFor(old(form.values))),
      SuccessToast(SuccessMessage(lang)), SoundRequested(Success), ClearSubmittedTimerSet(3000)]
  {
    form.HandleConfirmSend(lang, succeeded);
  }

  /** What one submit-and-confirm round does outside the form, in order. */
  function SubmitEffects(d: ContactFormData, lang: Lang, succeeded: bool): seq<ContactEffect>
  {
    [SoundRequested(Click), EmailSent(EmailRequestFor(d))] +
      (if succeeded then [SuccessToast(SuccessMessage(lang)), SoundRequested(Success), ClearSubmittedTimerSet(3000)]
       else [ErrorToast(FailureMessage(lang))])
  }

  /** Submitting a valid form at rest and confirming it: one click sound,
      then the send of the current values and its outcome. */
  method SubmitAndConfirm(form: ContactForm, lang: Lang, isEmail: string -> bool, succeeded: bool)
    requires SchemaAccepts(form.values, isEmail) && !form.isSubmitting
    modifies form
    ensures !form.isSubmitting
    ensures !succeeded ==> form.values == old(form.values)
    ensures form.effects == old(form.effects) + SubmitEffects(old(form.values), lang, succeeded)
  {
    SubmitValid(form, isEmail);
    ConfirmPending(form, lang, succeeded);
  }

  /** A failed send can be retried: the form keeps its values, so submitting
      again reopens the dialog with the same data and confirming sends the same
      request. */
  method RetryAfterFailure(d: ContactFormData, lang: Lang, isEmail: string -> bool)
    returns (firstTry: seq<ContactEffect>, secondTry: seq<ContactEffect>)
    requires SchemaAccepts(d, isEmail)
    ensures firstTry == SubmitEffects(d, lang, false)
    ensures secondTry == firstTry + SubmitEffects(d, lang, true)
  {
    var form := new ContactForm();
    form.Edit(d);
    SubmitAndConfirm(form, lang, isEmail, false);
    firstTry := form.effects;
    SubmitAndConfirm(form, lang, isEmail, true);
    secondTry := form.effects;
  }

  /** An invalid form never reaches the dialog, so nothing can be sent. */
  method InvalidFormSendsNothing(d: ContactFormData, lang: Lang, isEmail: string -> bool, succeeded: bool)
    returns (effects: seq<ContactEffect>, dialogOpen: bool, issues: seq<Issue>)
    requires !SchemaAccepts(d, isEmail)
    ensures effects == [] && !dialogOpen
    ensures issues == Issues(d, isEmail) && issues != []
  {
    var form := new ContactForm();
    form.Edit(d);
    form.HandleSubmit(isEmail);
    effects, dialogOpen, issues := form.effects, form.showConfirmDialog, form.errors;
  }
}
