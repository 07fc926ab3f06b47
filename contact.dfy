/** The contact form of the portfolio page: the four field rules checked before
    anything is sent, and the busy/success lifecycle of one mounted form. */
module Contact {

  // ---------------------------------------------------------------------------
  // Field values and the rules on them
  // ---------------------------------------------------------------------------

  /** The four inputs of the form, in the order the schema declares them. */
  datatype Field = Name | Email | Subject | Message

  /** What the form holds: one string per field. */
  datatype ContactMessage = ContactMessage(name: string, email: string, subject: string, message: string)
  {
    function Get(f: Field): string {
      match f
      case Name => name
      case Email => email
      case Subject => subject
      case Message => message
    }

    /** The message with one field replaced, as a keystroke into one input does. */
    function With(f: Field, v: string): (m: ContactMessage)
      ensures m.Get(f) == v
      ensures forall g :: g != f ==> m.Get(g) == Get(g)
    {
      match f
      case Name => this.(name := v)
      case Email => this.(email := v)
      case Subject => this.(subject := v)
      case Message => this.(message := v)
    }
  }

  /** The form's default values, which a reset restores. */
  const DefaultValues := ContactMessage("", "", "", "")

  /** Minimum lengths of the schema's three length rules. */
  const NameMin := 2
  const SubjectMin := 5
  const MessageMin := 10

  /** The texts shown under a field that breaks its rule. */
  const NameTooShort := "Name must be at least 2 characters."
  const EmailInvalid := "Please enter a valid email address."
  const SubjectTooShort := "Subject must be at least 5 characters."
  const MessageTooShort := "Message must be at least 10 characters."

  /** The two kinds of violation the schema can report. */
  datatype IssueCode = TooSmall(minimum: nat) | InvalidEmail

  /** What is shown next to a field that breaks its rule: the kind and the text. */
  datatype FieldError = FieldError(code: IssueCode, text: string)

  /** The length of a string as JavaScript counts it, in UTF-16 code units:
      a character outside the Basic Multilingual Plane takes two units. */
  function Utf16Length(s: string): (n: nat)
    ensures |s| <= n <= 2 * |s|
    ensures (forall i :: 0 <= i < |s| ==> s[i] as int < 0x1_0000) ==> n == |s|
  {
    if s == [] then 0
    else
      (if s[0] as int < 0x1_0000 then 1 else 2) + Utf16Length(s[1..])
  }

  /** The message as a whole meets the schema exactly when all four rules hold
      together; no field is valid on behalf of another. */
  ghost predicate MeetsSchema(m: ContactMessage, isEmail: string -> bool) {
    && Utf16Length(m.name) >= NameMin
    && isEmail(m.email)
    && Utf16Length(m.subject) >= SubjectMin
    && Utf16Length(m.message) >= MessageMin
  }

  /** The rule each field of the schema carries, checked on that field alone. */
  predicate Obeys(f: Field, value: string, isEmail: string -> bool) {
    match f
    case Name => Utf16Length(value) >= NameMin
    case Email => isEmail(value)
    case Subject => Utf16Length(value) >= SubjectMin
    case Message => Utf16Length(value) >= MessageMin
  }

  /** The error a field reports when it breaks its rule. */
  function RuleError(f: Field): FieldError {
    match f
    case Name => FieldError(TooSmall(NameMin), NameTooShort)
    case Email => FieldError(InvalidEmail, EmailInvalid)
    case Subject => FieldError(TooSmall(SubjectMin), SubjectTooShort)
    case Message => FieldError(TooSmall(MessageMin), MessageTooShort)
  }

  const AllFields: set<Field> := {Name, Email, Subject, Message}

  /** Validation of a whole message: every field is checked, and each field
      that breaks its rule is mapped to its error. No entry means accepted. */
  function Errors(m: ContactMessage, isEmail: string -> bool): (r: map<Field, FieldError>)
    ensures r == map[] <==> MeetsSchema(m, isEmail)
    ensures Name in r <==> Utf16Length(m.name) < NameMin
    ensures Email in r <==> !isEmail(m.email)
    ensures Subject in r <==> Utf16Length(m.subject) < SubjectMin
    ensures Message in r <==> Utf16Length(m.message) < MessageMin
    ensures forall f :: f in r ==> r[f] == RuleError(f)
  {
    var r := map f | f in AllFields && !Obeys(f, m.Get(f), isEmail) :: RuleError(f);
    assert Name in AllFields && Email in AllFields && Subject in AllFields && Message in AllFields;
    assert r == map[] ==> forall f :: f in AllFields ==> f !in r;
    r
  }

  // ---------------------------------------------------------------------------
  // The submission lifecycle
  // ---------------------------------------------------------------------------

  /** The acknowledgment shown to the visitor. */
  datatype Toast = Toast(title: string, description: string)

  const Acknowledgment := Toast("Message sent!", "Thank you for your message. I'll get back to you soon.")

  /** The three phases the two flags encode. */
  datatype Phase = Idle | Submitting | Success

  /** What a press of the submit control does. */
  datatype SubmitOutcome =
    | Blocked                       // control disabled, or form not on screen
    | Invalid(errors: map<Field, FieldError>)   // the schema refused the values
    | Started(values: ContactMessage)

  /** One mounted contact form: its field values, the field errors on display,
      the two lifecycle flags and the acknowledgments shown so far. */
  class ContactForm {
    const isEmail: string -> bool
    var values: ContactMessage
    var errors: map<Field, FieldError>
    var isSubmitting: bool
    var isSuccess: bool
    var toasts: seq<Toast>
    ghost var started: nat   // submissions started since mount

    ghost predicate Valid()
      reads this
    {
      && !(isSubmitting && isSuccess)
      && started == |toasts| + (if isSubmitting then 1 else 0)
      && (forall i :: 0 <= i < |toasts| ==> toasts[i] == Acknowledgment)
      && (isSuccess ==> |toasts| > 0)
    }

    /** The lifecycle phase the two flags encode. */
    function Status(): Phase
      reads this
    {
      if isSubmitting then Submitting else if isSuccess then Success else Idle
    }

    /** The form is on screen and its submit control is enabled. */
    predicate SubmitEnabled()
      reads this
    {
      !isSuccess && !isSubmitting
    }

    constructor (isEmail: string -> bool)
      ensures Valid() && Status() == Idle
      ensures this.isEmail == isEmail
      ensures values == DefaultValues && errors == map[] && toasts == [] && started == 0
    {
      this.isEmail := isEmail;
      values := DefaultValues;
      errors := map[];
      isSubmitting, isSuccess := false, false;
      toasts := [];
      started := 0;
    }

    /** Typing into one input. The inputs exist only while the success view is
        not showing; a keystroke then reaches nothing. */
    method Edit(f: Field, v: string) returns (accepted: bool)
      requires Valid()
      modifies this
      ensures Valid()
      ensures accepted == !old(isSuccess)
      ensures values == if accepted then old(values).With(f, v) else old(values)
      ensures errors == old(errors) && toasts == old(toasts) && started == old(started)
      ensures isSubmitting == old(isSubmitting) && isSuccess == old(isSuccess)
    {
      accepted := !isSuccess;
      if accepted {
        values := values.With(f, v);
      }
    }

    /** A press of the submit control. Nothing happens while it is disabled or
        the form is hidden; otherwise the values are validated, and only valid
        values start a submission, which raises the busy flag at once. */
    method Submit() returns (outcome: SubmitOutcome)
      requires Valid()
      modifies this
      ensures Valid()
      ensures outcome.Started? ==> MeetsSchema(outcome.values, isEmail)
      ensures !old(SubmitEnabled()) ==> outcome == Blocked && unchanged(this)
      ensures old(SubmitEnabled()) && !MeetsSchema(old(values), isEmail) ==>
        && outcome == Invalid(Errors(old(values), isEmail))
        && errors == outcome.errors
        && Status() == Idle && started == old(started)
      ensures old(SubmitEnabled()) && MeetsSchema(old(values), isEmail) ==>
        && outcome == Started(old(values))
        && errors == map[]
        && Status() == Submitting && isSubmitting && !isSuccess
        && started == old(started) + 1
      ensures values == old(values) && toasts == old(toasts)
    {
      if !SubmitEnabled() {
        return Blocked;
      }
      var found := Errors(values, isEmail);
      if found != map[] {
        errors := found;
        return Invalid(found);
      }
      errors := map[];
      isSubmitting := true;
      started := started + 1;
      outcome := Started(values);
    }

    /** The simulated request's delay ends: the busy flag is cleared before the
        success flag is raised, and one acknowledgment is shown. */
    method DelayElapsed()
      requires Valid() && isSubmitting
      modifies this
      ensures Valid()
      ensures old(Status()) == Submitting && Status() == Success
      ensures !isSubmitting && isSuccess
      ensures toasts == old(toasts) + [Acknowledgment]
      ensures |toasts| == started
      ensures values == old(values) && errors == old(errors) && started == old(started)
    {
      isSubmitting := false;
      isSuccess := true;
      toasts := toasts + [Acknowledgment];
    }

    /** The reset timer set on success fires: the success view goes away and
        the form is reset to its default values. */
    method ResetElapsed()
      requires Valid() && isSuccess
      modifies this
      ensures Valid()
      ensures old(Status()) == Success && Status() == Idle
      ensures !isSuccess && !isSubmitting
      ensures values == DefaultValues && errors == map[]
      ensures toasts == old(toasts) && started == old(started)
    {
      isSuccess := false;
      values := DefaultValues;
      errors := map[];
    }
  }

  // ---------------------------------------------------------------------------
  // Scenarios
  // ---------------------------------------------------------------------------

  /** Fills every input of a freshly mounted form. */
  method Fill(form: ContactForm, m: ContactMessage)
    requires form.Valid() && form.Status() == Idle
    modifies form
    ensures form.Valid() && form.Status() == Idle
    ensures form.values == m
    ensures form.toasts == old(form.toasts) && form.started == old(form.started)
  {
    var _ := form.Edit(Name, m.name);
    var _ := form.Edit(Email, m.email);
    var _ := form.Edit(Subject, m.subject);
    var _ := form.Edit(Message, m.message);
  }

  /** A valid message is sent, acknowledged once, and the form comes back empty. */
  method HappyPath(isEmail: string -> bool)
    returns (outcome: SubmitOutcome, afterDelay: Phase, acknowledgments: nat, afterReset: Phase, finalValues: ContactMessage)
    requires isEmail("a@b.com")
    ensures outcome.Started?
    ensures afterDelay == Success && acknowledgments == 1
    ensures afterReset == Idle && finalValues == DefaultValues
  {
    var form := new ContactForm(isEmail);
    Fill(form, ContactMessage("Al", "a@b.com", "Hi there", "This is a message"));
    outcome := form.Submit();
    form.DelayElapsed();
    afterDelay := form.Status();
    acknowledgments := |form.toasts|;
    form.ResetElapsed();
    afterReset := form.Status();
    finalValues := form.values;
  }

  /** A one-character name is refused with the name's error alone, whatever
      the other (valid) fields hold, and the form stays idle. */
  method ShortNameRejected(isEmail: string -> bool, email: string, subject: string, message: string)
    returns (outcome: SubmitOutcome, busy: bool)
    requires isEmail(email) && |subject| >= SubjectMin && |message| >= MessageMin
    ensures outcome == Invalid(map[Name := FieldError(TooSmall(2), NameTooShort)])
    ensures !busy
  {
    var form := new ContactForm(isEmail);
    var m := ContactMessage("A", email, subject, message);
    assert Utf16Length(m.name) == 1;
    Fill(form, m);
    outcome := form.Submit();
    busy := form.isSubmitting;
  }

  /** An address the email check refuses blocks the submission. */
  method BadEmailRejected(isEmail: string -> bool) returns (outcome: SubmitOutcome, busy: bool)
    requires !isEmail("not-an-email")
    ensures outcome.Invalid? && Email in outcome.errors
    ensures !busy
  {
    var form := new ContactForm(isEmail);
    Fill(form, ContactMessage("Al", "not-an-email", "Hi there", "This is a message"));
    outcome := form.Submit();
    busy := form.isSubmitting;
  }

  /** A second press while the first submission is in flight does nothing:
      exactly one acknowledgment follows. */
  method DoubleClick(isEmail: string -> bool) returns (first: SubmitOutcome, second: SubmitOutcome, acknowledgments: nat)
    requires isEmail("a@b.com")
    ensures first.Started? && second == Blocked
    ensures acknowledgments == 1
  {
    var form := new ContactForm(isEmail);
    Fill(form, ContactMessage("Al", "a@b.com", "Hi there", "This is a message"));
    first := form.Submit();
    second := form.Submit();
    form.DelayElapsed();
    acknowledgments := |form.toasts|;
  }

  /** A single character outside the Basic Multilingual Plane is two UTF-16
      units long, so it alone satisfies the two-character name rule. */
  lemma AstralNameMeetsNameRule(isEmail: string -> bool)
    ensures Name !in Errors(ContactMessage("\U{1F600}", "a@b.com", "Hi there", "This is a message"), isEmail)
  {
  }
}
