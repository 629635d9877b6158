/** The contact page's form handler, scripts/contact-form-handler.js
    (`contactFormHandler`): the per-field rules, the whole-form check, the
    submitted-data check and formatting, and the flag that blocks a second
    submission while one is being sent. */
module ContactForm {
  import opened Wrappers
  import opened Text
  import opened Email

  // ---------------------------------------------------------------------
  // Per-field validation (validateField)

  /** What the rules read from a form control. */
  datatype Field = Field(id: string, fieldType: string, required: bool, value: string)

  predicate IsNameField(f: Field) {
    f.id == "first-name" || f.id == "last-name"
  }

  /** The field rules as one condition on the trimmed value: a required
      field is not empty; a non-empty e-mail field holds a valid address; a
      non-empty name has at least 2 characters; a non-empty message at least
      10; the subject is not empty. */
  predicate FieldValid(f: Field) {
    var v := Trim(f.value);
    && !(f.required && v == "")
    && !(f.fieldType == "email" && v != "" && !IsValidEmail(v))
    && !(IsNameField(f) && v != "" && |v| < 2)
    && !(f.id == "message" && v != "" && |v| < 10)
    && !(f.id == "subject" && v == "")
  }

  /** The message a field can show under it; `NoProblem` shows none. */
  datatype FieldProblem = NoProblem | Required | BadEmail | ShortName | ShortMessage | NoSubject
  {
    /** The text put under the field. */
    function Text(): string {
      match this
      case NoProblem => ""
      case Required => "This field is required."
      case BadEmail => "Please enter a valid email address."
      case ShortName => "Name must be at least 2 characters long."
      case ShortMessage => "Message must be at least 10 characters long."
      case NoSubject => "Please select a subject."
    }
  }

  /** The message shown under a field: the rule checked last among those
      that fail wins, because each failing check overwrites the message. */
  function FieldMessage(f: Field): FieldProblem {
    var v := Trim(f.value);
    if f.id == "subject" && v == "" then NoSubject
    else if f.id == "message" && v != "" && |v| < 10 then ShortMessage
    else if IsNameField(f) && v != "" && |v| < 2 then ShortName
    else if f.fieldType == "email" && v != "" && !IsValidEmail(v) then BadEmail
    else if f.required && v == "" then Required
    else NoProblem
  }

  /** A field shows no message exactly when it passes every rule, and only
      `NoProblem` has an empty text. */
  lemma {:induction false} FieldMessageEmptyIffValid(f: Field)
    ensures FieldMessage(f) == NoProblem <==> FieldValid(f)
    ensures FieldMessage(f).Text() == "" <==> FieldValid(f)
  {
  }

  /** `validateField`: the checks run one after another on the trimmed
      value, each failing one clearing the flag and replacing the message. */
  method ValidateField(field: Field) returns (isValid: bool, errorMessage: FieldProblem)
    ensures isValid <==> FieldValid(field)
    ensures errorMessage == FieldMessage(field)
    ensures isValid <==> errorMessage == NoProblem
  {
    var value := Trim(field.value);
    isValid := true;
    errorMessage := NoProblem;
    if field.required && value == "" {
      isValid := false;
      errorMessage := Required;
    }
    if field.fieldType == "email" && value != "" {
      if !IsValidEmail(value) {
        isValid := false;
        errorMessage := BadEmail;
      }
    }
    if field.id == "first-name" || field.id == "last-name" {
      if value != "" && |value| < 2 {
        isValid := false;
        errorMessage := ShortName;
      }
    }
    if field.id == "message" && value != "" {
      if |value| < 10 {
        isValid := false;
        errorMessage := ShortMessage;
      }
    }
    if field.id == "subject" && value == "" {
      isValid := false;
      errorMessage := NoSubject;
    }
  }

  /** The messages of a list of fields, in order. */
  function FieldMessages(fields: seq<Field>): (r: seq<FieldProblem>)
    ensures |r| == |fields|
  {
    if fields == [] then []
    else FieldMessages(fields[..|fields| - 1]) + [FieldMessage(fields[|fields| - 1])]
  }

  /** Each field gets its own message, at its own position. */
  lemma {:induction false} FieldMessagesPointwise(fields: seq<Field>)
    ensures forall i :: 0 <= i < |fields| ==> FieldMessages(fields)[i] == FieldMessage(fields[i])
  {
    if fields != [] {
      var front := fields[..|fields| - 1];
      FieldMessagesPointwise(front);
      assert forall i :: 0 <= i < |front| ==> front[i] == fields[i];
    }
  }

  /** No field shows a message. */
  predicate NoMessages(messages: seq<FieldProblem>) {
    forall j :: 0 <= j < |messages| ==> messages[j] == NoProblem
  }

  lemma {:induction false} NoMessagesAppend(messages: seq<FieldProblem>, m: FieldProblem)
    ensures NoMessages(messages + [m]) <==> NoMessages(messages) && m == NoProblem
  {
    var all := messages + [m];
    assert all[|messages|] == m;
    assert forall j :: 0 <= j < |messages| ==> all[j] == messages[j];
  }

  /** `validateAllFields`: every field is validated (and shows its message)
      even after one has failed; the result is whether all passed. */
  method ValidateAllFields(fields: seq<Field>) returns (isValid: bool, messages: seq<FieldProblem>)
    ensures messages == FieldMessages(fields)
    ensures isValid <==> forall i :: 0 <= i < |fields| ==> FieldValid(fields[i])
  {
    isValid := true;
    messages := [];
    for i := 0 to |fields|
      invariant messages == FieldMessages(fields[..i])
      invariant isValid <==> NoMessages(messages)
    {
      var ok, message := ValidateField(fields[i]);
      NoMessagesAppend(messages, message);
      assert fields[..i + 1][..i] == fields[..i];
      assert FieldMessages(fields[..i + 1]) == messages + [FieldMessage(fields[i])];
      if !ok {
        isValid := false;
      }
      messages := messages + [message];
    }
    assert fields[..|fields|] == fields;
    AllValidIffNoMessages(fields);
  }

  /** The form passes exactly when no field shows a message. */
  lemma {:induction false} AllValidIffNoMessages(fields: seq<Field>)
    ensures NoMessages(FieldMessages(fields)) <==> forall i :: 0 <= i < |fields| ==> FieldValid(fields[i])
  {
    FieldMessagesPointwise(fields);
    forall i | 0 <= i < |fields| ensures FieldMessages(fields)[i] == NoProblem <==> FieldValid(fields[i]) {
      FieldMessageEmptyIffValid(fields[i]);
    }
  }

  // ---------------------------------------------------------------------
  // The submitted data (validateFormData, formatFormData)

  /** The form's entries by name; a missing entry is `undefined`. */
  datatype FormData = FormData(
    firstName: Option<string>,
    lastName: Option<string>,
    email: Option<string>,
    subject: Option<string>,
    message: Option<string>,
    newsletter: Option<string>)

  /** `!x?.trim()`: absent, or only whitespace. */
  predicate Blank(x: Option<string>) {
    x.None? || Trim(x.value) == ""
  }

  /** `!x`: absent or empty. */
  predicate Falsy(x: Option<string>) {
    x.None? || x.value == ""
  }

  /** Every error `validateFormData` can report, declared in the order it
      checks them. */
  datatype FormError =
    | FirstNameRequired
    | LastNameRequired
    | EmailRequired
    | EmailInvalid
    | SubjectMissing
    | MessageRequired
    | MessageTooShort
  {
    /** The text pushed for the error. */
    function Text(): string {
      match this
      case FirstNameRequired => "First name is required"
      case LastNameRequired => "Last name is required"
      case EmailRequired => "Email is required"
      case EmailInvalid => "Please enter a valid email address"
      case SubjectMissing => "Please select a subject"
      case MessageRequired => "Message is required"
      case MessageTooShort => "Message must be at least 10 characters long"
    }

    /** The position in the checking order. */
    function Rank(): nat {
      match this
      case FirstNameRequired => 0
      case LastNameRequired => 1
      case EmailRequired => 2
      case EmailInvalid => 3
      case SubjectMissing => 4
      case MessageRequired => 5
      case MessageTooShort => 6
    }
  }

  /** The data passes: names, e-mail and message present and not blank, the
      untrimmed e-mail valid, a subject chosen, the untrimmed message at
      least 10 characters. */
  predicate FormDataValid(d: FormData) {
    && !Blank(d.firstName) && !Blank(d.lastName)
    && !Blank(d.email) && IsValidEmail(d.email.value)
    && !Falsy(d.subject)
    && !Blank(d.message) && |d.message.value| >= 10
  }

  /** `[e]` when the check fails, nothing otherwise. */
  function ErrorIf(fails: bool, e: FormError): seq<FormError> {
    if fails then [e] else []
  }

  /** The outcome of each check of `validateFormData`. */
  datatype Checks = Checks(
    firstNameBlank: bool, lastNameBlank: bool, emailBlank: bool, emailInvalid: bool,
    subjectMissing: bool, messageBlank: bool, messageShort: bool)

  function ChecksOf(d: FormData): Checks {
    Checks(Blank(d.firstName), Blank(d.lastName),
           Blank(d.email), d.email.Some? && !IsValidEmail(d.email.value),
           Falsy(d.subject),
           Blank(d.message), d.message.Some? && |d.message.value| < 10)
  }

  /** The errors pushed for given check outcomes: the e-mail's validity and
      the message's length are looked at only when not blank. */
  function ErrorList(c: Checks): seq<FormError> {
    ErrorIf(c.firstNameBlank, FirstNameRequired)
    + ErrorIf(c.lastNameBlank, LastNameRequired)
    + (if c.emailBlank then [EmailRequired] else ErrorIf(c.emailInvalid, EmailInvalid))
    + ErrorIf(c.subjectMissing, SubjectMissing)
    + (if c.messageBlank then [MessageRequired] else ErrorIf(c.messageShort, MessageTooShort))
  }

  /** The list `validateFormData` returns. */
  function FormErrors(d: FormData): seq<FormError> {
    ErrorList(ChecksOf(d))
  }

  /** `validateFormData`: the checks push their errors one after another. */
  method ValidateFormData(data: FormData) returns (errors: seq<FormError>)
    ensures errors == FormErrors(data)
  {
    errors := PushErrors(ChecksOf(data));
  }

  /** The pushes of `validateFormData`, given the outcome of each check. */
  method PushErrors(c: Checks) returns (errors: seq<FormError>)
    ensures errors == ErrorList(c)
  {
    errors := [];
    if c.firstNameBlank {
      errors := errors + [FirstNameRequired];
    }
    assert errors == ErrorIf(c.firstNameBlank, FirstNameRequired);
    ghost var names := errors;
    if c.lastNameBlank {
      errors := errors + [LastNameRequired];
    }
    assert errors == names + ErrorIf(c.lastNameBlank, LastNameRequired);
    names := errors;
    if c.emailBlank {
      errors := errors + [EmailRequired];
    } else if c.emailInvalid {
      errors := errors + [EmailInvalid];
    }
    assert errors == names + (if c.emailBlank then [EmailRequired] else ErrorIf(c.emailInvalid, EmailInvalid));
    names := errors;
    if c.subjectMissing {
      errors := errors + [SubjectMissing];
    }
    assert errors == names + ErrorIf(c.subjectMissing, SubjectMissing);
    names := errors;
    if c.messageBlank {
      errors := errors + [MessageRequired];
    } else if c.messageShort {
      errors := errors + [MessageTooShort];
    }
    assert errors == names + (if c.messageBlank then [MessageRequired] else ErrorIf(c.messageShort, MessageTooShort));
  }

  /** Each error is listed exactly when its check fails, the e-mail's
      "invalid" and the message's "too short" only when not blank. */
  lemma {:induction false} ErrorListExactly(c: Checks)
    ensures FirstNameRequired in ErrorList(c) <==> c.firstNameBlank
    ensures LastNameRequired in ErrorList(c) <==> c.lastNameBlank
    ensures EmailRequired in ErrorList(c) <==> c.emailBlank
    ensures EmailInvalid in ErrorList(c) <==> !c.emailBlank && c.emailInvalid
    ensures SubjectMissing in ErrorList(c) <==> c.subjectMissing
    ensures MessageRequired in ErrorList(c) <==> c.messageBlank
    ensures MessageTooShort in ErrorList(c) <==> !c.messageBlank && c.messageShort
  {
  }

  /** The errors come in the fixed order, at most one per field, and the
      list is empty exactly when no check fails. */
  lemma {:induction false} ErrorListOrdered(c: Checks)
    ensures |ErrorList(c)| <= 5
    ensures forall k, l :: 0 <= k < l < |ErrorList(c)| ==> ErrorList(c)[k].Rank() < ErrorList(c)[l].Rank()
    ensures ErrorList(c) == [] <==>
              !c.firstNameBlank && !c.lastNameBlank && !c.emailBlank && !c.emailInvalid
              && !c.subjectMissing && !c.messageBlank && !c.messageShort
  {
  }

  /** For the data: each error appears exactly when its condition holds;
      "required" and "invalid" never both for the e-mail, nor "required" and
      "too short" for the message (blank is judged after trimming, validity
      and length on the untrimmed text). */
  lemma {:induction false} FormErrorsExactly(d: FormData)
    ensures FirstNameRequired in FormErrors(d) <==> Blank(d.firstName)
    ensures LastNameRequired in FormErrors(d) <==> Blank(d.lastName)
    ensures EmailRequired in FormErrors(d) <==> Blank(d.email)
    ensures EmailInvalid in FormErrors(d) <==> !Blank(d.email) && !IsValidEmail(d.email.value)
    ensures SubjectMissing in FormErrors(d) <==> Falsy(d.subject)
    ensures MessageRequired in FormErrors(d) <==> Blank(d.message)
    ensures MessageTooShort in FormErrors(d) <==> !Blank(d.message) && |d.message.value| < 10
    ensures !(EmailRequired in FormErrors(d) && EmailInvalid in FormErrors(d))
    ensures !(MessageRequired in FormErrors(d) && MessageTooShort in FormErrors(d))
    ensures FormErrors(d) == [] <==> FormDataValid(d)
  {
    ErrorListExactly(ChecksOf(d));
    ErrorListOrdered(ChecksOf(d));
  }

  /** The record `formatFormData` builds. */
  datatype Formatted = Formatted(name: string, email: Option<string>, subject: Option<string>,
                                 message: Option<string>, newsletter: bool)

  /** `formatFormData`: the name is both names as a template literal renders
      them, one space between; the newsletter box counts only as "on". */
  function FormatFormData(d: FormData): (r: Formatted)
    ensures r.newsletter <==> d.newsletter == Some("on")
    ensures r.email == d.email && r.subject == d.subject && r.message == d.message
  {
    Formatted(Interpolate(d.firstName) + " " + Interpolate(d.lastName), d.email, d.subject, d.message,
              d.newsletter == Some("on"))
  }

  /** When neither name holds a space, splitting the formatted name at
      spaces gives back exactly the two names. */
  lemma {:induction false} FormattedNameSplits(d: FormData)
    requires d.firstName.Some? && d.lastName.Some?
    requires ' ' !in d.firstName.value && ' ' !in d.lastName.value
    ensures Split(FormatFormData(d).name, ' ') == [d.firstName.value, d.lastName.value]
  {
    var a, b := d.firstName.value, d.lastName.value;
    var s := a + " " + b;
    assert s[|a|] == ' ' && s[..|a|] == a && s[|a| + 1..] == b;
    assert forall j :: 0 <= j < |a| ==> s[j] == a[j];
    assert IndexOfChar(s, ' ') == |a|;
  }

  // ---------------------------------------------------------------------
  // The submission flag (handleFormSubmission, setSubmittingState)

  datatype SubmitStart = Ignored | Rejected(message: string, fieldMessages: seq<FieldProblem>) | Sending

  class ContactFormHandler {
    var isSubmitting: bool

    constructor ()
      ensures !isSubmitting
    {
      isSubmitting := false;
    }

    /** The synchronous part of `handleFormSubmission`: ignored while a
        submission is being sent; a form with an invalid field is rejected
        with a message and the flag left down; otherwise the flag goes up and
        the (simulated) sending starts. */
    method StartSubmission(fields: seq<Field>) returns (result: SubmitStart)
      modifies this
      ensures old(isSubmitting) ==> result == Ignored && isSubmitting
      ensures !old(isSubmitting) ==>
                ((forall i :: 0 <= i < |fields| ==> FieldValid(fields[i])) <==> result == Sending)
      ensures !old(isSubmitting) && result != Sending ==>
                result.Rejected? && result.message == "Please correct the errors below." && !isSubmitting
                && result.fieldMessages == FieldMessages(fields)
      ensures result == Sending ==> isSubmitting
    {
      if isSubmitting {
        return Ignored;
      }
      var isValid, messages := ValidateAllFields(fields);
      if !isValid {
        return Rejected("Please correct the errors below.", messages);
      }
      isSubmitting := true;
      result := Sending;
    }

    /** The part after the sending settles: the message for the outcome,
        and the flag back down whatever the outcome (the `finally`). */
    method FinishSubmission(succeeded: bool) returns (message: string)
      modifies this
      ensures !isSubmitting
      ensures succeeded ==> message == "Thank you! Your message has been sent successfully. We'll get back to you soon."
      ensures !succeeded ==> message == "Sorry, there was an error sending your message. Please try again."
    {
      if succeeded {
        message := "Thank you! Your message has been sent successfully. We'll get back to you soon.";
      } else {
        message := "Sorry, there was an error sending your message. Please try again.";
      }
      isSubmitting := false;
    }
  }
}
