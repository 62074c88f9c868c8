/** The contact section (src/components/Contact.tsx): the form's validation
    schema, the simulated submission's status machine, and the attributes of
    the contact links. */
module Contact {
  import opened Wrappers
  import opened Text

  /** String length as JavaScript counts it: in UTF-16 code units, so a
      character outside the Basic Multilingual Plane counts twice. */
  function Utf16Length(s: string): (n: nat)
    ensures |s| <= n <= 2 * |s|
  {
    if s == [] then 0
    else (if s[0] as int > 0xFFFF then 2 else 1) + Utf16Length(s[1..])
  }

  /** The validation messages of the schema, by translation key. */
  datatype Issue =
    | NameRequired | NameMax
    | EmailRequired | EmailInvalid | EmailMax
    | MessageRequired | MessageMax

  /** The issues a `min(1)` / `max(limit)` pair raises on a trimmed value,
      in the order the checks are declared. */
  function LengthIssues(v: string, limit: nat, required: Issue, tooLong: Issue): seq<Issue> {
    (if Utf16Length(v) < 1 then [required] else [])
    + (if Utf16Length(v) > limit then [tooLong] else [])
  }

  /** A value passes exactly when its length is 1 to the limit; it is
      missing exactly when empty and too long exactly above the limit, and
      raises at most one of the two. */
  lemma LengthIssuesMeaning(v: string, limit: nat, required: Issue, tooLong: Issue)
    requires required != tooLong
    ensures LengthIssues(v, limit, required, tooLong) == [] <==> 1 <= Utf16Length(v) <= limit
    ensures required in LengthIssues(v, limit, required, tooLong) <==> Utf16Length(v) < 1
    ensures tooLong in LengthIssues(v, limit, required, tooLong) <==> Utf16Length(v) > limit
    ensures |LengthIssues(v, limit, required, tooLong)| <= 1
  {
  }

  /** Issues of the name field: trimmed length in 1..100. */
  function NameIssues(name: string): seq<Issue> {
    LengthIssues(Trim(name), 100, NameRequired, NameMax)
  }

  /** Issues of the e-mail field: trimmed length at least 1, the schema
      library's address format, trimmed length at most 255, in that order.
      The format check is a parameter. */
  function EmailIssues(email: string, isEmail: string -> bool): seq<Issue> {
    var v := Trim(email);
    (if Utf16Length(v) < 1 then [EmailRequired] else [])
    + (if !isEmail(v) then [EmailInvalid] else [])
    + (if Utf16Length(v) > 255 then [EmailMax] else [])
  }

  /** Issues of the message field: trimmed length in 1..1000. */
  function MessageIssues(message: string): seq<Issue> {
    LengthIssues(Trim(message), 1000, MessageRequired, MessageMax)
  }

  datatype FormData = FormData(name: string, email: string, message: string)

  /** The first issue per field, which is the one the form displays. */
  datatype FieldErrors = FieldErrors(name: Option<Issue>, email: Option<Issue>, message: Option<Issue>)

  function First(issues: seq<Issue>): (r: Option<Issue>)
    ensures r.None? <==> issues == []
    ensures r.Some? ==> r.value == issues[0]
  {
    if issues == [] then None else Some(issues[0])
  }

  const NoErrors: FieldErrors := FieldErrors(None, None, None)

  /** The three fields of the form. */
  datatype Field = Name | Email | Message

  function FieldValue(data: FormData, f: Field): string {
    match f
    case Name => data.name
    case Email => data.email
    case Message => data.message
  }

  function ErrorOf(errors: FieldErrors, f: Field): Option<Issue> {
    match f
    case Name => errors.name
    case Email => errors.email
    case Message => errors.message
  }

  /** The form data with one field replaced. */
  function WithValue(data: FormData, f: Field, v: string): FormData {
    match f
    case Name => data.(name := v)
    case Email => data.(email := v)
    case Message => data.(message := v)
  }

  lemma WithValueSpec(data: FormData, f: Field, v: string)
    ensures FieldValue(WithValue(data, f, v), f) == v
    ensures forall g :: g != f ==> FieldValue(WithValue(data, f, v), g) == FieldValue(data, g)
  {
  }

  /** The errors with one field's error replaced. */
  function WithError(errors: FieldErrors, f: Field, e: Option<Issue>): FieldErrors {
    match f
    case Name => errors.(name := e)
    case Email => errors.(email := e)
    case Message => errors.(message := e)
  }

  lemma WithErrorSpec(errors: FieldErrors, f: Field, e: Option<Issue>)
    ensures ErrorOf(WithError(errors, f, e), f) == e
    ensures forall g :: g != f ==> ErrorOf(WithError(errors, f, e), g) == ErrorOf(errors, g)
  {
  }

  /** The issues of one field's value, by the schema of that field. */
  function FieldIssues(f: Field, v: string, isEmail: string -> bool): seq<Issue> {
    match f
    case Name => NameIssues(v)
    case Email => EmailIssues(v, isEmail)
    case Message => MessageIssues(v)
  }

  /** What the resolver reports for the whole form: each field's first
      issue, or nothing for a field that passes. */
  function Errors(data: FormData, isEmail: string -> bool): FieldErrors {
    FieldErrors(First(NameIssues(data.name)), First(EmailIssues(data.email, isEmail)),
                First(MessageIssues(data.message)))
  }

  /** Each field's reported error depends on that field's value alone. */
  lemma ErrorsPerField(data: FormData, f: Field, isEmail: string -> bool)
    ensures ErrorOf(Errors(data, isEmail), f) == First(FieldIssues(f, FieldValue(data, f), isEmail))
  {
    match f
    case Name =>
    case Email =>
    case Message =>
  }

  /** The resolver: the trimmed data when every field passes, otherwise the
      errors of all fields. */
  function Validate(data: FormData, isEmail: string -> bool): Result<FormData, FieldErrors>
  {
    var errors := Errors(data, isEmail);
    if errors == NoErrors then Ok(FormData(Trim(data.name), Trim(data.email), Trim(data.message)))
    else Err(errors)
  }

  /** The resolver accepts exactly when every field passes, and then hands
      on the trimmed values; a rejection reports, for each field, its first
      issue, and no error for a field that passes. */
  lemma ValidateMeaning(data: FormData, isEmail: string -> bool)
    ensures var r := Validate(data, isEmail);
      r.Ok? <==> NameIssues(data.name) == [] && EmailIssues(data.email, isEmail) == [] && MessageIssues(data.message) == []
    ensures var r := Validate(data, isEmail);
      r.Ok? ==> r.value == FormData(Trim(data.name), Trim(data.email), Trim(data.message))
    ensures var r := Validate(data, isEmail);
      r.Err? ==> r.error != NoErrors
    ensures var r := Validate(data, isEmail);
      r.Err? ==>
        (r.error.name.None? <==> NameIssues(data.name) == [])
        && (r.error.name.Some? ==> r.error.name.value == NameIssues(data.name)[0])
    ensures var r := Validate(data, isEmail);
      r.Err? ==>
        (r.error.email.None? <==> EmailIssues(data.email, isEmail) == [])
        && (r.error.email.Some? ==> r.error.email.value == EmailIssues(data.email, isEmail)[0])
    ensures var r := Validate(data, isEmail);
      r.Err? ==>
        (r.error.message.None? <==> MessageIssues(data.message) == [])
        && (r.error.message.Some? ==> r.error.message.value == MessageIssues(data.message)[0])
  {
  }

  /** The data is accepted exactly when the trimmed name has 1 to 100 code
      units, the trimmed address 1 to 255 and passes the format check, and
      the trimmed message 1 to 1000. */
  lemma ValidateBounds(data: FormData, isEmail: string -> bool)
    ensures Validate(data, isEmail).Ok? <==>
      1 <= Utf16Length(Trim(data.name)) <= 100
      && 1 <= Utf16Length(Trim(data.email)) <= 255 && isEmail(Trim(data.email))
      && 1 <= Utf16Length(Trim(data.message)) <= 1000
  {
    ValidateMeaning(data, isEmail);
    LengthIssuesMeaning(Trim(data.name), 100, NameRequired, NameMax);
    LengthIssuesMeaning(Trim(data.message), 1000, MessageRequired, MessageMax);
  }

  /** A name of white space only is rejected as missing. */
  lemma BlankNameRejected(data: FormData, isEmail: string -> bool)
    requires forall i :: 0 <= i < |data.name| ==> IsWhitespace(data.name[i])
    ensures Validate(data, isEmail).Err?
    ensures Validate(data, isEmail).error.name == Some(NameRequired)
  {
    TrimEmpty(data.name);
  }

  /** An empty address fails both the length and the format check; the
      form shows the first, "required". */
  lemma EmptyEmailShowsRequired(data: FormData, isEmail: string -> bool)
    requires Trim(data.email) == ""
    ensures Validate(data, isEmail).Err?
    ensures Validate(data, isEmail).error.email == Some(EmailRequired)
  {
  }

  /** `submitStatus`. */
  datatype Status = Idle | Loading | Success | Error

  /** The translation key of the submit button's label. */
  function ButtonLabelKey(s: Status): string {
    match s
    case Loading => "contact.form.sending"
    case Success => "contact.form.success"
    case Error => "contact.form.error"
    case Idle => "contact.form.submit"
  }

  lemma ButtonLabelsDistinct(s: Status, t: Status)
    requires s != t
    ensures ButtonLabelKey(s) != ButtonLabelKey(t)
  {
  }

  const EmptyForm: FormData := FormData("", "", "")

  class ContactForm {
    var status: Status
    /** The current field values. */
    var values: FormData
    /** The errors shown under the fields. */
    var errors: FieldErrors
    /** Submissions waiting out their 1.5 s delay. */
    var pendingSubmissions: nat
    /** Three-second timers that will put the status back to idle. */
    var pendingResets: nat
    /** The data handed to the (simulated) send, in order. */
    var sent: seq<FormData>
    /** The form library's `isSubmitted`: once set, every change re-runs the
        resolver for the changed field. */
    var submitted: bool

    /** No code path assigns the error status; loading always has a
        submission in flight and success always has a reset pending. */
    predicate Valid()
      reads this
    {
      status != Error
      && (status == Loading ==> pendingSubmissions > 0)
      && (status == Success ==> pendingResets > 0)
    }

    constructor ()
      ensures status == Idle && values == EmptyForm && errors == NoErrors
      ensures pendingSubmissions == 0 && pendingResets == 0 && sent == [] && !submitted
      ensures Valid()
    {
      status, values, errors := Idle, EmptyForm, NoErrors;
      pendingSubmissions, pendingResets, sent := 0, 0, [];
      submitted := false;
    }

    /** The submit button is disabled exactly while loading. */
    function Disabled(): (d: bool)
      reads this
      ensures d <==> status == Loading
    {
      status == Loading
    }

    /** Typing into one field. Before the first submission nothing is
        validated; afterwards the change re-runs the resolver and the
        field's error becomes the one it reports for the new values. The
        other fields keep their errors. */
    method Edit(f: Field, text: string, isEmail: string -> bool)
      modifies this
      ensures FieldValue(values, f) == text
      ensures forall g :: g != f ==> FieldValue(values, g) == FieldValue(old(values), g)
      ensures old(submitted) ==> ErrorOf(errors, f) == First(FieldIssues(f, text, isEmail))
      ensures !old(submitted) ==> errors == old(errors)
      ensures forall g :: g != f ==> ErrorOf(errors, g) == ErrorOf(old(errors), g)
      ensures status == old(status) && submitted == old(submitted)
      ensures pendingSubmissions == old(pendingSubmissions) && pendingResets == old(pendingResets)
      ensures sent == old(sent)
    {
      values := WithValue(values, f, text);
      if submitted {
        errors := WithError(errors, f, First(FieldIssues(f, text, isEmail)));
      }
      WithValueSpec(old(values), f, text);
      WithErrorSpec(old(errors), f, First(FieldIssues(f, text, isEmail)));
    }

    /** Typing a whole form, field by field. Once the form has been
        submitted, the errors shown are then exactly the resolver's. */
    method Fill(data: FormData, isEmail: string -> bool)
      modifies this
      ensures values == data
      ensures old(submitted) ==> errors == Errors(data, isEmail)
      ensures !old(submitted) ==> errors == old(errors)
      ensures status == old(status) && submitted == old(submitted)
      ensures pendingSubmissions == old(pendingSubmissions) && pendingResets == old(pendingResets)
      ensures sent == old(sent)
    {
      Edit(Name, data.name, isEmail);
      Edit(Email, data.email, isEmail);
      Edit(Message, data.message, isEmail);
      assert FieldValue(values, Name) == data.name;
      if old(submitted) {
        ErrorsPerField(data, Name, isEmail);
        ErrorsPerField(data, Email, isEmail);
        ErrorsPerField(data, Message, isEmail);
      }
    }

    /** Pressing the enabled submit button: invalid data only shows the
        errors; valid data starts a submission of the trimmed values. */
    method HandleSubmit(isEmail: string -> bool)
      requires Valid() && !Disabled()
      modifies this
      ensures Valid()
      ensures values == old(values) && sent == old(sent) && pendingResets == old(pendingResets)
      ensures Validate(old(values), isEmail).Err? ==>
        errors == Validate(old(values), isEmail).error
        && status == old(status) && pendingSubmissions == old(pendingSubmissions) && submitted
      ensures Validate(old(values), isEmail).Ok? ==>
        errors == NoErrors && status == Loading && pendingSubmissions == old(pendingSubmissions) + 1
        && submitted == old(submitted)
    {
      var r := Validate(values, isEmail);
      if r.Err? {
        errors := r.error;
        submitted := true;
      } else {
        errors := NoErrors;
        status := Loading;
        pendingSubmissions := pendingSubmissions + 1;
      }
    }

    /** The 1.5 s wait of one submission ends: success, the form is reset
        (values and errors) and a three-second reset timer starts. The form
        library marks the form submitted when the handler settles, which is
        after the reset. */
    method SubmissionCompletes(data: FormData)
      requires Valid() && pendingSubmissions > 0
      modifies this
      ensures Valid()
      ensures status == Success && values == EmptyForm
      ensures pendingSubmissions == old(pendingSubmissions) - 1
      ensures pendingResets == old(pendingResets) + 1
      ensures sent == old(sent) + [data]
      ensures errors == NoErrors && submitted
    {
      sent := sent + [data];
      status := Success;
      values := EmptyForm;
      errors := NoErrors;
      submitted := true;
      pendingSubmissions := pendingSubmissions - 1;
      pendingResets := pendingResets + 1;
    }

    /** A reset timer fires: the status goes back to idle, whatever it is. */
    method ResetTimerFires()
      requires Valid() && pendingResets > 0
      modifies this
      ensures Valid()
      ensures status == Idle
      ensures pendingResets == old(pendingResets) - 1
      ensures pendingSubmissions == old(pendingSubmissions)
      ensures values == old(values) && errors == old(errors) && sent == old(sent)
      ensures submitted == old(submitted)
    {
      status := Idle;
      pendingResets := pendingResets - 1;
    }
  }

  /** A submission sent while the success message is still up is shown as
      idle when the first submission's reset timer fires, although it is
      still in flight, and the button is enabled again. */
  method SecondSubmissionShownIdle(data: FormData, isEmail: string -> bool) returns (f: ContactForm)
    requires Validate(data, isEmail).Ok?
    ensures f.status == Idle && f.pendingSubmissions == 1 && !f.Disabled()
  {
    f := new ContactForm();
    f.Fill(data, isEmail);
    f.HandleSubmit(isEmail);
    f.SubmissionCompletes(Validate(data, isEmail).value);
    f.Fill(data, isEmail);
    f.HandleSubmit(isEmail);
    f.ResetTimerFires();
  }

  /** Before the first submission typing shows no error, however bad the
      value; after a rejected submission, correcting the name clears its
      error while the other fields' errors stay. */
  method CorrectingAfterRejection(bad: FormData, good: string, isEmail: string -> bool) returns (f: ContactForm)
    requires NameIssues(bad.name) != []
    requires NameIssues(good) == []
    ensures f.errors.name.None?
    ensures f.errors.email == First(EmailIssues(bad.email, isEmail))
    ensures f.errors.message == First(MessageIssues(bad.message))
    ensures f.status == Idle && f.submitted
  {
    f := new ContactForm();
    f.Fill(bad, isEmail);
    assert f.errors == NoErrors;
    ValidateMeaning(bad, isEmail);
    f.HandleSubmit(isEmail);
    var shown := f.errors;
    f.Edit(Name, good, isEmail);
    assert ErrorOf(f.errors, Email) == ErrorOf(shown, Email);
    assert ErrorOf(f.errors, Message) == ErrorOf(shown, Message);
  }

  /** The `target` and `rel` of a contact link: none for a mail link, a new
      tab without opener or referrer for everything else. */
  function LinkAttributes(url: string): (attrs: (Option<string>, Option<string>))
    ensures "mailto:" <= url ==> attrs == (None, None)
    ensures !("mailto:" <= url) ==> attrs == (Some("_blank"), Some("noopener noreferrer"))
  {
    if "mailto:" <= url then (None, None) else (Some("_blank"), Some("noopener noreferrer"))
  }

  /** `contactLinks`. */
  const ContactUrls: seq<string> := [
    "mailto:hello@example.com",
    "https://linkedin.com/in/username",
    "https://github.com/username",
    "https://t.me/username"
  ]

  /** Only the e-mail link opens in place; the three profile links open in
      a new tab. */
  lemma ContactLinkTargets()
    ensures LinkAttributes(ContactUrls[0]).0.None?
    ensures forall i :: 1 <= i < |ContactUrls| ==> LinkAttributes(ContactUrls[i]).0 == Some("_blank")
  {
    assert "mailto:" <= ContactUrls[0];
    assert ContactUrls[1][0] == 'h' && ContactUrls[2][0] == 'h' && ContactUrls[3][0] == 'h';
  }
}
