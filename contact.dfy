/** The contact form of pages/ContactPage.tsx: client-side validation of six
    fields and the state the page moves through while a message is sent
    through the hosted mail relay. The relay call and the build-time
    configuration are inputs of the model. */
module Contact {
  import opened JsString

  datatype Option<T> = None | Some(value: T)

  /** The `name` attributes of the form's inputs. */
  datatype Field = Name | Email | Phone | Company | Subject | Message

  datatype FormData = FormData(name: string, email: string, phone: string,
                               company: string, subject: string, message: string)

  const EmptyForm: FormData := FormData("", "", "", "", "", "")

  function Get(f: FormData, field: Field): string {
    match field
    case Name => f.name
    case Email => f.email
    case Phone => f.phone
    case Company => f.company
    case Subject => f.subject
    case Message => f.message
  }

  /** `{ ...formData, [field]: value }` */
  function Set(f: FormData, field: Field, value: string): (g: FormData)
    ensures Get(g, field) == value
    ensures forall other :: other != field ==> Get(g, other) == Get(f, other)
  {
    match field
    case Name => f.(name := value)
    case Email => f.(email := value)
    case Phone => f.(phone := value)
    case Company => f.(company := value)
    case Subject => f.(subject := value)
    case Message => f.(message := value)
  }

  const NameRequired := "Name is required"
  const EmailRequired := "Email is required"
  const EmailInvalid := "Email is invalid"
  const SubjectRequired := "Subject is required"
  const MessageRequired := "Message is required"
  const ConfigMissing := "EmailJS configuration is missing. Please check your .env file."
  const SendFailed := "Failed to send message. Please try again later."

  /** The fields validation may complain about. */
  const RequiredFields: set<Field> := {Name, Email, Subject, Message}

  // ---------------------------------------------------------------------------
  // The email pattern /\S+@\S+\.\S/

  /** No whitespace in `s[lo..hi]`. */
  predicate NoSpaceIn(s: string, lo: int, hi: int)
    requires 0 <= lo <= hi <= |s|
  {
    forall k :: lo <= k < hi ==> !IsSpace(s[k])
  }

  /** `s[lo..hi]` splits at `at` into the parts of `\S+@\S+\.\S`: a non-empty
      run of non-whitespace, '@' at `at`, another non-empty run, '.', and one
      more non-whitespace character. (The runs may themselves contain '@' and '.'.) */
  predicate SplitsAt(s: string, lo: int, at: int, hi: int)
    requires 0 <= lo <= hi <= |s|
  {
    && lo + 1 <= at < hi - 3
    && NoSpaceIn(s, lo, at) && s[at] == '@'
    && NoSpaceIn(s, at + 1, hi - 2) && s[hi - 2] == '.' && !IsSpace(s[hi - 1])
  }

  /** `s[lo..hi]` as a whole is in the language of the pattern. */
  predicate MatchesRange(s: string, lo: int, hi: int)
    requires 0 <= lo <= hi <= |s|
  {
    exists at :: lo < at < hi && SplitsAt(s, lo, at, hi)
  }

  /** `pattern.test(s)`: the pattern is not anchored, so any substring may match. */
  predicate EmailPatternTest(s: string) {
    exists lo, hi :: 0 <= lo <= hi <= |s| && MatchesRange(s, lo, hi)
  }

  /** A shorter account of the same test: an '@' at `at` with a non-whitespace
      character before it, then a non-empty whitespace-free run, a '.' at `dot`
      and a non-whitespace character after it. */
  predicate ShapeAt(s: string, at: int, dot: int) {
    && 0 < at && at + 1 < dot && dot + 1 < |s|
    && !IsSpace(s[at - 1]) && s[at] == '@' && NoSpaceIn(s, at + 1, dot)
    && s[dot] == '.' && !IsSpace(s[dot + 1])
  }

  predicate HasEmailShape(s: string) {
    exists at, dot :: 0 < at < dot < |s| && ShapeAt(s, at, dot)
  }

  /** The unanchored pattern only needs one character before the '@' and one
      after the '.', so it holds exactly when the email has that shape somewhere. */
  lemma EmailPatternLocal(s: string)
    ensures EmailPatternTest(s) <==> HasEmailShape(s)
  {
    if EmailPatternTest(s) {
      var lo, hi :| 0 <= lo <= hi <= |s| && MatchesRange(s, lo, hi);
      var at :| lo < at < hi && SplitsAt(s, lo, at, hi);
      assert !IsSpace(s[at - 1]);
      assert ShapeAt(s, at, hi - 2);
    }
    if HasEmailShape(s) {
      var at, dot :| 0 < at < dot < |s| && ShapeAt(s, at, dot);
      assert NoSpaceIn(s, at - 1, at);
      assert SplitsAt(s, at - 1, at, dot + 2);
      assert MatchesRange(s, at - 1, dot + 2);
    }
  }

  // ---------------------------------------------------------------------------
  // Validation

  /** `validate()`'s error map: required fields that trim to nothing, and an
      email that is blank or fails the pattern. The pattern is applied to the
      untrimmed value. Phone and company are never checked. */
  function Validate(f: FormData): (errors: map<Field, string>)
    ensures errors.Keys <= RequiredFields
    ensures Name in errors <==> IsBlank(f.name)
    ensures Subject in errors <==> IsBlank(f.subject)
    ensures Message in errors <==> IsBlank(f.message)
    ensures Email in errors <==> IsBlank(f.email) || !EmailPatternTest(f.email)
    ensures Name in errors ==> errors[Name] == NameRequired
    ensures Subject in errors ==> errors[Subject] == SubjectRequired
    ensures Message in errors ==> errors[Message] == MessageRequired
    ensures Email in errors ==> errors[Email] == if IsBlank(f.email) then EmailRequired else EmailInvalid
  {
    var e: map<Field, string> := map[];
    var e := if IsBlank(f.name) then e[Name := NameRequired] else e;
    var e := if IsBlank(f.email) then e[Email := EmailRequired]
             else if !EmailPatternTest(f.email) then e[Email := EmailInvalid]
             else e;
    var e := if IsBlank(f.subject) then e[Subject := SubjectRequired] else e;
    if IsBlank(f.message) then e[Message := MessageRequired] else e
  }

  /** `validate()`'s return value: no key in the error map. */
  predicate IsValid(f: FormData) {
    |Validate(f)| == 0
  }

  /** The form passes exactly when the four required fields have a
      non-whitespace character and the email matches the pattern. */
  lemma ValidIff(f: FormData)
    ensures IsValid(f) <==>
      !AllSpace(f.name) && !AllSpace(f.email) && !AllSpace(f.subject) && !AllSpace(f.message)
      && HasEmailShape(f.email)
  {
    BlankIffAllSpace(f.name);
    BlankIffAllSpace(f.email);
    BlankIffAllSpace(f.subject);
    BlankIffAllSpace(f.message);
    EmailPatternLocal(f.email);
    var e := Validate(f);
    if |e| == 0 {
      assert Name !in e && Email !in e && Subject !in e && Message !in e;
    } else {
      var k :| k in e;
    }
  }

  /** With all four required fields blank, exactly four errors come back. */
  lemma AllBlankGivesFourErrors(f: FormData)
    requires AllSpace(f.name) && AllSpace(f.email) && AllSpace(f.subject) && AllSpace(f.message)
    ensures Validate(f) == map[Name := NameRequired, Email := EmailRequired,
                               Subject := SubjectRequired, Message := MessageRequired]
    ensures |Validate(f)| == 4
  {
    BlankIffAllSpace(f.name);
    BlankIffAllSpace(f.email);
    BlankIffAllSpace(f.subject);
    BlankIffAllSpace(f.message);
    var expected := map[Name := NameRequired, Email := EmailRequired,
                        Subject := SubjectRequired, Message := MessageRequired];
    assert Validate(f).Keys == expected.Keys;
    assert expected.Keys == {Name, Email, Subject, Message};
  }

  /** Which email message is shown, if any. The two are mutually exclusive. */
  lemma EmailErrorCases(f: FormData)
    ensures (Email in Validate(f) && Validate(f)[Email] == EmailRequired) <==> AllSpace(f.email)
    ensures (Email in Validate(f) && Validate(f)[Email] == EmailInvalid) <==>
      !AllSpace(f.email) && !HasEmailShape(f.email)
  {
    BlankIffAllSpace(f.email);
    EmailPatternLocal(f.email);
  }

  /** The pattern is unanchored and sees the untrimmed text: padding and
      surrounding words do not make an address invalid, while a missing '.'
      part does. */
  lemma EmailPatternExamples()
    ensures EmailPatternTest(" a@b.c ")
    ensures EmailPatternTest("write to a@b.c now")
    ensures !EmailPatternTest("a@b")
  {
    assert SplitsAt(" a@b.c ", 1, 2, 6) by {
      assert NoSpaceIn(" a@b.c ", 1, 2) && NoSpaceIn(" a@b.c ", 3, 4);
    }
    assert MatchesRange(" a@b.c ", 1, 6);
    assert SplitsAt("write to a@b.c now", 9, 10, 14) by {
      assert NoSpaceIn("write to a@b.c now", 9, 10) && NoSpaceIn("write to a@b.c now", 11, 12);
    }
    assert MatchesRange("write to a@b.c now", 9, 14);
    EmailPatternLocal("a@b");
  }

  // ---------------------------------------------------------------------------
  // Submission

  /** The three build-time settings; an absent or empty one is missing. */
  datatype Config = Config(serviceId: Option<string>, templateId: Option<string>, publicKey: Option<string>)

  predicate Present(v: Option<string>) {
    v.Some? && v.value != ""
  }

  predicate Configured(c: Config) {
    Present(c.serviceId) && Present(c.templateId) && Present(c.publicKey)
  }

  /** What goes to the mail relay: the settings and the form's current values. */
  datatype SendRequest = SendRequest(serviceId: string, templateId: string, publicKey: string, form: FormData)

  /** How the relay call settles. */
  datatype SendOutcome = Delivered | Failed

  /** The page's form state. `submitError == None` is the component's `null`. */
  class ContactForm {
    var formData: FormData
    var errors: map<Field, string>
    var isSubmitted: bool
    var isSubmitting: bool
    var submitError: Option<string>

    /** The banner only ever shows one of the two messages, and it is cleared
        while a send is pending. */
    ghost predicate Valid()
      reads this
    {
      && (submitError == None || submitError == Some(ConfigMissing) || submitError == Some(SendFailed))
      && (isSubmitting ==> submitError == None)
    }

    constructor ()
      ensures Valid()
      ensures formData == EmptyForm && errors == map[]
      ensures !isSubmitted && !isSubmitting && submitError == None
    {
      formData := EmptyForm;
      errors := map[];
      isSubmitted := false;
      isSubmitting := false;
      submitError := None;
    }

    /** `handleChange`: store the new value, clear a shown error on that field
        only, and drop the banner. */
    method Change(field: Field, value: string)
      requires Valid()
      modifies this
      ensures Valid()
      ensures formData == Set(old(formData), field, value)
      ensures errors == if field in old(errors) && old(errors)[field] != ""
                        then old(errors)[field := ""] else old(errors)
      ensures submitError == None
      ensures isSubmitted == old(isSubmitted) && isSubmitting == old(isSubmitting)
    {
      formData := Set(formData, field, value);
      if field in errors && errors[field] != "" {
        errors := errors[field := ""];
      }
      if submitError.Some? && submitError.value != "" {
        submitError := None;
      }
    }

    /** `handleSubmit` up to the relay call. The submit button is disabled
        while a send is pending, so a submit starts from a settled state. The
        returned request is the relay call, if one is made. */
    method Submit(config: Config) returns (request: Option<SendRequest>)
      requires Valid() && !isSubmitting
      modifies this
      ensures Valid()
      ensures errors == Validate(formData)
      ensures formData == old(formData) && isSubmitted == old(isSubmitted)
      ensures request.Some? <==> IsValid(formData) && Configured(config)
      ensures !IsValid(formData) ==> !isSubmitting && submitError == old(submitError)
      ensures IsValid(formData) && !Configured(config) ==> !isSubmitting && submitError == Some(ConfigMissing)
      ensures request.Some? ==> isSubmitting && submitError == None
      ensures request.Some? ==> request.value == SendRequest(config.serviceId.value, config.templateId.value,
                                                              config.publicKey.value, formData)
    {
      errors := Validate(formData);
      if |errors| != 0 {
        return None;
      }
      isSubmitting := true;
      submitError := None;
      if !Configured(config) {
        submitError := Some(ConfigMissing);
        isSubmitting := false;
        return None;
      }
      request := Some(SendRequest(config.serviceId.value, config.templateId.value, config.publicKey.value, formData));
    }

    /** The pending relay call settles. On delivery the form is emptied and
        the thank-you panel shown; on failure the values are kept and the
        banner explains. */
    method SendSettled(outcome: SendOutcome)
      requires Valid() && isSubmitting
      modifies this
      ensures Valid() && !isSubmitting
      ensures errors == old(errors)
      ensures outcome == Delivered ==>
        isSubmitted && formData == EmptyForm && submitError == old(submitError)
      ensures outcome == Failed ==>
        isSubmitted == old(isSubmitted) && formData == old(formData) && submitError == Some(SendFailed)
    {
      match outcome
      case Delivered =>
        isSubmitting := false;
        isSubmitted := true;
        formData := EmptyForm;
      case Failed =>
        submitError := Some(SendFailed);
        isSubmitting := false;
    }

    /** The 6000 ms timer started on delivery, or the "Send another message"
        button: the thank-you panel goes away. */
    method DismissSubmitted()
      requires Valid()
      modifies this
      ensures Valid() && !isSubmitted
      ensures formData == old(formData) && errors == old(errors)
      ensures isSubmitting == old(isSubmitting) && submitError == old(submitError)
    {
      isSubmitted := false;
    }
  }

  /** Submitting the untouched form reports all four required fields and
      makes no relay call, whatever the configuration. */
  method SubmitUntouchedForm(config: Config) returns (request: Option<SendRequest>, errorCount: nat)
    ensures request == None && errorCount == 4
  {
    var page := new ContactForm();
    AllBlankGivesFourErrors(EmptyForm);
    request := page.Submit(config);
    errorCount := |page.errors|;
  }

  /** A complete, well-formed message with the settings present leads to
      exactly one relay call carrying the typed values; after delivery the
      form is empty and the thank-you panel shows until it is dismissed. */
  method SubmitAndDeliver(config: Config, message: FormData)
    returns (request: Option<SendRequest>, shownAfterSend: bool, shownAfterTimer: bool, formAfter: FormData)
    requires Configured(config) && IsValid(message)
    ensures request == Some(SendRequest(config.serviceId.value, config.templateId.value,
                                        config.publicKey.value, message))
    ensures shownAfterSend && !shownAfterTimer && formAfter == EmptyForm
  {
    var page := new ContactForm();
    page.Change(Name, message.name);
    page.Change(Email, message.email);
    page.Change(Phone, message.phone);
    page.Change(Company, message.company);
    page.Change(Subject, message.subject);
    page.Change(Message, message.message);
    assert page.formData == message;
    request := page.Submit(config);
    page.SendSettled(Delivered);
    shownAfterSend := page.isSubmitted;
    page.DismissSubmitted();
    shownAfterTimer := page.isSubmitted;
    formAfter := page.formData;
  }
}
