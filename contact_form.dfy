/**
 * The contact form: its client-side schema (a name of at least 2 and a
 * message of at least 10 UTF-16 code units, an e-mail that passes the e-mail
 * check), its default values, and the submitted/pending states around the
 * POST to `/api/contact`. The e-mail format check is a parameter `isEmail`.
 */
module ContactForm {
  import opened Wrappers
  import opened Json
  import opened Schema
  import Routes

  datatype FormValues = FormValues(name: string, email: string, message: string)

  const DefaultValues: FormValues := FormValues("", "", "")

  datatype FormField = NameInput | EmailInput | MessageInput

  datatype FieldError = FieldError(field: FormField, message: string)

  const NameTooShort: string := "שם חייב להכיל לפחות 2 תווים"
  const BadEmail: string := "נא להזין כתובת אימייל תקינה"
  const MessageTooShort: string := "ההודעה חייבת להכיל לפחות 10 תווים"

  const MinNameLength: nat := 2
  const MinMessageLength: nat := 10

  /** A string's `length` in JavaScript: characters beyond the BMP take two code units. */
  function Utf16Length(s: string): (n: nat)
    ensures |s| <= n <= 2 * |s|
    ensures (forall i :: 0 <= i < |s| ==> s[i] as int < 0x1_0000) ==> n == |s|
  {
    if s == [] then 0 else (if s[0] as int < 0x1_0000 then 1 else 2) + Utf16Length(s[1..])
  }

  /** The form's own acceptance test. */
  predicate Valid(v: FormValues, isEmail: string -> bool) {
    Utf16Length(v.name) >= MinNameLength && isEmail(v.email) && Utf16Length(v.message) >= MinMessageLength
  }

  /** The text of one input. */
  function FieldText(v: FormValues, f: FormField): string {
    match f
    case NameInput => v.name
    case EmailInput => v.email
    case MessageInput => v.message
  }

  /** `v` with input `f` changed to `text`. */
  function WithField(v: FormValues, f: FormField, text: string): (w: FormValues)
    ensures FieldText(w, f) == text
    ensures forall g :: g != f ==> FieldText(w, g) == FieldText(v, g)
  {
    match f
    case NameInput => v.(name := text)
    case EmailInput => v.(email := text)
    case MessageInput => v.(message := text)
  }

  /** The schema's rule for one input: its error, or nothing. It reads that input only. */
  function FieldErrorOf(v: FormValues, f: FormField, isEmail: string -> bool): (r: seq<FieldError>)
    ensures |r| <= 1
    ensures forall e :: e in r ==> e.field == f
  {
    match f
    case NameInput =>
      if Utf16Length(v.name) < MinNameLength then [FieldError(NameInput, NameTooShort)] else []
    case EmailInput => if !isEmail(v.email) then [FieldError(EmailInput, BadEmail)] else []
    case MessageInput =>
      if Utf16Length(v.message) < MinMessageLength then [FieldError(MessageInput, MessageTooShort)] else []
  }

  /** `contactFormSchema` via the resolver: one error per failing field, in field order. */
  function Validate(v: FormValues, isEmail: string -> bool): (errors: seq<FieldError>)
    ensures errors == [] <==> Valid(v, isEmail)
    ensures FieldError(NameInput, NameTooShort) in errors <==> Utf16Length(v.name) < MinNameLength
    ensures FieldError(EmailInput, BadEmail) in errors <==> !isEmail(v.email)
    ensures FieldError(MessageInput, MessageTooShort) in errors <==> Utf16Length(v.message) < MinMessageLength
    ensures |errors| <= 3
  {
    FieldErrorOf(v, NameInput, isEmail) + FieldErrorOf(v, EmailInput, isEmail) + FieldErrorOf(v, MessageInput, isEmail)
  }

  /** The errors shown for input `f`. */
  function Only(errors: seq<FieldError>, f: FormField): (r: seq<FieldError>)
    ensures forall e :: e in r <==> e in errors && e.field == f
  {
    if errors == [] then []
    else (if errors[0].field == f then [errors[0]] else []) + Only(errors[1..], f)
  }

  lemma {:induction false} OnlyAppend(a: seq<FieldError>, b: seq<FieldError>, f: FormField)
    ensures Only(a + b, f) == Only(a, f) + Only(b, f)
  {
    if a == [] {
      assert a + b == b;
    } else {
      assert (a + b)[0] == a[0];
      assert (a + b)[1..] == a[1..] + b;
      OnlyAppend(a[1..], b, f);
    }
  }

  /** Input `f`'s errors among input `g`'s rule: all of it when `g` is `f`, none otherwise. */
  lemma OnlyOfRule(v: FormValues, g: FormField, f: FormField, isEmail: string -> bool)
    ensures Only(FieldErrorOf(v, g, isEmail), f) == if g == f then FieldErrorOf(v, g, isEmail) else []
  {
    var r := FieldErrorOf(v, g, isEmail);
    if r != [] {
      assert r[0] in r;
      assert r[1..] == [];
    }
  }

  /** The errors of input `f` in the full validation are that input's rule, and nothing else. */
  lemma OnlyOfValidate(v: FormValues, f: FormField, isEmail: string -> bool)
    ensures Only(Validate(v, isEmail), f) == FieldErrorOf(v, f, isEmail)
  {
    var n, e, m := FieldErrorOf(v, NameInput, isEmail), FieldErrorOf(v, EmailInput, isEmail),
                   FieldErrorOf(v, MessageInput, isEmail);
    assert Validate(v, isEmail) == (n + e) + m;
    OnlyAppend(n + e, m, f);
    OnlyAppend(n, e, f);
    OnlyOfRule(v, NameInput, f, isEmail);
    OnlyOfRule(v, EmailInput, f, isEmail);
    OnlyOfRule(v, MessageInput, f, isEmail);
    match f
    case NameInput => assert Only(n, f) + Only(e, f) + Only(m, f) == n + [] + [];
    case EmailInput => assert Only(n, f) + Only(e, f) + Only(m, f) == [] + e + [];
    case MessageInput => assert Only(n, f) + Only(e, f) + Only(m, f) == [] + [] + m;
  }

  /**
   * Re-validation of a changed input (react-hook-form's default `reValidateMode: 'onChange'`): the
   * resolver runs on the new values and only the changed input's error is
   * replaced; the other inputs keep the errors they showed.
   */
  function Revalidate(errors: seq<FieldError>, f: FormField, v: FormValues, isEmail: string -> bool)
    : seq<FieldError>
  {
    (if f == NameInput then FieldErrorOf(v, NameInput, isEmail) else Only(errors, NameInput))
    + (if f == EmailInput then FieldErrorOf(v, EmailInput, isEmail) else Only(errors, EmailInput))
    + (if f == MessageInput then FieldErrorOf(v, MessageInput, isEmail) else Only(errors, MessageInput))
  }

  /**
   * After a submit attempt the shown errors are the validation of the values;
   * re-validating one edited input keeps them so for the edited values.
   */
  lemma RevalidateKeepsValidation(w: FormValues, f: FormField, text: string, isEmail: string -> bool)
    ensures Revalidate(Validate(w, isEmail), f, WithField(w, f, text), isEmail)
         == Validate(WithField(w, f, text), isEmail)
  {
    var v := WithField(w, f, text);
    OnlyOfValidate(w, NameInput, isEmail);
    OnlyOfValidate(w, EmailInput, isEmail);
    OnlyOfValidate(w, MessageInput, isEmail);
    assert f != NameInput ==> FieldErrorOf(w, NameInput, isEmail) == FieldErrorOf(v, NameInput, isEmail) by {
      if f != NameInput { assert FieldText(v, NameInput) == FieldText(w, NameInput); }
    }
    assert f != EmailInput ==> FieldErrorOf(w, EmailInput, isEmail) == FieldErrorOf(v, EmailInput, isEmail) by {
      if f != EmailInput { assert FieldText(v, EmailInput) == FieldText(w, EmailInput); }
    }
    assert f != MessageInput ==> FieldErrorOf(w, MessageInput, isEmail) == FieldErrorOf(v, MessageInput, isEmail) by {
      if f != MessageInput { assert FieldText(v, MessageInput) == FieldText(w, MessageInput); }
    }
  }

  /** The untouched form is rejected on its name and its message, whatever the e-mail check says. */
  lemma UntouchedFormRejected(isEmail: string -> bool)
    ensures FieldError(NameInput, NameTooShort) in Validate(DefaultValues, isEmail)
    ensures FieldError(MessageInput, MessageTooShort) in Validate(DefaultValues, isEmail)
    ensures !Valid(DefaultValues, isEmail)
  {
  }

  /** The JSON body the form posts. */
  function RequestBody(v: FormValues): Json {
    ContactMessageBody(InsertContactMessage(v.name, v.email, v.message))
  }

  /** Whatever the form sends, the server's schema accepts and stores as sent. */
  lemma ServerAcceptsFormBody(v: FormValues)
    ensures ParseContactMessage(RequestBody(v)) == Ok(InsertContactMessage(v.name, v.email, v.message))
  {
    ContactMessageRoundTrip(InsertContactMessage(v.name, v.email, v.message));
  }

  /**
   * The length and e-mail rules live only in the form: a body the form would
   * never send is still stored by `POST /api/contact`.
   */
  lemma ServerAcceptsWhatFormRejects(messages: seq<ContactMessage>, id: string, now: int)
    requires forall i :: 0 <= i < |messages| ==> messages[i].id != id
    ensures var v := FormValues("a", "", "hi");
      && (forall isEmail: string -> bool :: !Valid(v, isEmail))
      && Routes.ContactCreate(messages, RequestBody(v), id, now).1.status == 201
  {
    var v := FormValues("a", "", "hi");
    ServerAcceptsFormBody(v);
  }

  class ContactFormState {
    var values: FormValues
    var errors: seq<FieldError>
    var isPending: bool
    var isSubmitted: bool
    /** react-hook-form's own `formState.isSubmitted`: a submit was attempted since the last reset. */
    var submitAttempted: bool

    constructor ()
      ensures values == DefaultValues && errors == [] && !isPending && !isSubmitted && !submitAttempted
    {
      submitAttempted := false;
      values := DefaultValues;
      errors := [];
      isPending := false;
      isSubmitted := false;
    }

    /**
     * Typing into input `f`. Before any submit attempt nothing is validated
     * (react-hook-form's default `mode: 'onSubmit'`); after one, the edited input is re-validated.
     */
    method Edit(f: FormField, text: string, isEmail: string -> bool)
      modifies this`values, this`errors
      ensures values == WithField(old(values), f, text)
      ensures errors == if submitAttempted then Revalidate(old(errors), f, values, isEmail) else old(errors)
    {
      values := WithField(values, f, text);
      if submitAttempted {
        errors := Revalidate(errors, f, values, isEmail);
      }
    }

    /**
     * `handleSubmit(onSubmit)`: with the form shown and no request in flight,
     * validate; a valid form starts the mutation and yields the request body.
     */
    method Submit(isEmail: string -> bool) returns (request: Option<Json>)
      modifies this`errors, this`isPending, this`submitAttempted
      ensures old(isSubmitted || isPending) ==> request == None && unchanged(this)
      ensures !old(isSubmitted || isPending) ==>
        && submitAttempted
        && errors == Validate(values, isEmail)
        && (request.Some? <==> Valid(values, isEmail))
        && (request.Some? ==> request.value == RequestBody(values) && isPending)
        && (request.None? ==> isPending == old(isPending))
    {
      if isSubmitted || isPending {
        return None;
      }
      submitAttempted := true;
      errors := Validate(values, isEmail);
      if errors == [] {
        isPending := true;
        request := Some(RequestBody(values));
      } else {
        request := None;
      }
    }

    /** `onSuccess`: show the thank-you panel and reset the form (`form.reset()` also clears the submit attempt). */
    method OnSuccess()
      modifies this
      ensures isSubmitted && !isPending && values == DefaultValues && errors == [] && !submitAttempted
    {
      submitAttempted := false;
      isSubmitted := true;
      isPending := false;
      values := DefaultValues;
      errors := [];
    }

    /** `onError`: only a toast; the values stay for another try. */
    method OnError()
      modifies this`isPending
      ensures !isPending
    {
      isPending := false;
    }

    /** The 5-second timer after a success: show the form again. */
    method ConfirmationElapsed()
      modifies this`isSubmitted
      ensures !isSubmitted
    {
      isSubmitted := false;
    }
  }
}
