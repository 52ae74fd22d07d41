/**
  The contact form (src/components/contact/ContactForm.tsx): the e-mail heuristic
  `/\S+@\S+\.\S+/`, the field rules applied on submit, and the form's state
  (field values, error messages, the submitting and submitted flags) as the
  handlers change it.
 */
module ContactForm {

  import opened Text

  // ---------------------------------------------------------------- the e-mail check

  /** Every character strictly between positions `lo` and `hi` is non-whitespace. */
  predicate NonWhitespaceBetween(s: string, lo: int, hi: int)
    requires -1 <= lo && hi <= |s|
  {
    forall k :: lo < k < hi ==> !IsWhitespace(s[k])
  }

  /** The pattern `\S+@\S+\.\S+` matched with its '@' at `a` and its '.' at `b`: one
      non-whitespace character before the '@' is enough for the first `\S+`, the second
      `\S+` is everything strictly between, and one non-whitespace character after the
      '.' is enough for the third. */
  predicate MatchAt(s: string, a: int, b: int)
    requires 0 < a && a + 1 < b && b + 1 < |s|
  {
    && s[a] == '@' && s[b] == '.'
    && !IsWhitespace(s[a - 1])
    && NonWhitespaceBetween(s, a, b)
    && !IsWhitespace(s[b + 1])
  }

  /** The regular expression is not anchored: `test` holds when some substring matches. */
  ghost predicate EmailShape(s: string) {
    exists a, b | 0 < a && a + 1 < b && b + 1 < |s| :: MatchAt(s, a, b)
  }

  // The matcher below runs the pattern's automaton left to right. After reading s[..i]
  // it tracks which of its positions are live; these predicates say what each means.

  /** s[..i] ends in a non-whitespace character followed by '@'. */
  ghost predicate AfterAt(s: string, i: nat)
    requires i <= |s|
  {
    i >= 2 && s[i - 1] == '@' && !IsWhitespace(s[i - 2])
  }

  /** s[..i] ends inside the second `\S+`: after a valid "X@" and at least one more
      non-whitespace character. */
  ghost predicate InDomain(s: string, i: nat)
    requires i <= |s|
  {
    exists a | 0 < a && a + 1 < i :: s[a] == '@' && !IsWhitespace(s[a - 1]) && NonWhitespaceBetween(s, a, i)
  }

  /** s[..i] ends in the '.' of the pattern. */
  ghost predicate AfterDot(s: string, i: nat)
    requires i <= |s|
  {
    i >= 1 && s[i - 1] == '.' && InDomain(s, i - 1)
  }

  /** A whole match lies inside s[..i]. */
  ghost predicate MatchedWithin(s: string, i: nat)
    requires i <= |s|
  {
    exists a, b | 0 < a && a + 1 < b && b + 1 < i :: MatchAt(s, a, b)
  }

  lemma InDomainStep(s: string, i: nat)
    requires i < |s|
    ensures InDomain(s, i + 1) <==> !IsWhitespace(s[i]) && (AfterAt(s, i) || InDomain(s, i))
  {
    if InDomain(s, i + 1) {
      var a :| 0 < a && a + 1 < i + 1 && s[a] == '@' && !IsWhitespace(s[a - 1]) && NonWhitespaceBetween(s, a, i + 1);
      assert !IsWhitespace(s[i]);
      if a + 1 < i {
        assert NonWhitespaceBetween(s, a, i);
      }
    }
    if !IsWhitespace(s[i]) && AfterAt(s, i) {
      assert NonWhitespaceBetween(s, i - 1, i + 1);
    }
  }

  lemma MatchedWithinStep(s: string, i: nat)
    requires i < |s|
    ensures MatchedWithin(s, i + 1) <==> MatchedWithin(s, i) || (!IsWhitespace(s[i]) && AfterDot(s, i))
  {
    if MatchedWithin(s, i + 1) && !MatchedWithin(s, i) {
      var a, b :| 0 < a && a + 1 < b && b + 1 < i + 1 && MatchAt(s, a, b);
      assert b + 1 == i;
      assert InDomain(s, b);
    }
    if !IsWhitespace(s[i]) && AfterDot(s, i) {
      var a :| 0 < a && a + 1 < i - 1 && s[a] == '@' && !IsWhitespace(s[a - 1]) && NonWhitespaceBetween(s, a, i - 1);
      assert MatchAt(s, a, i - 1);
    }
  }

  /** One step of the automaton per character; stops at the first complete match. */
  function Scan(s: string, i: nat, word: bool, at: bool, domain: bool, dot: bool): (r: bool)
    requires i <= |s|
    requires word == (i > 0 && !IsWhitespace(s[i - 1]))
    requires at == AfterAt(s, i) && domain == InDomain(s, i) && dot == AfterDot(s, i)
    requires !MatchedWithin(s, i)
    ensures r == EmailShape(s)
    decreases |s| - i
  {
    if i == |s| then false
    else
      var c := s[i];
      MatchedWithinStep(s, i);
      if dot && !IsWhitespace(c) then
        true
      else
        InDomainStep(s, i);
        Scan(s, i + 1, !IsWhitespace(c), c == '@' && word, !IsWhitespace(c) && (at || domain), c == '.' && domain)
  }

  /** `validateEmail`: the unanchored test of `/\S+@\S+\.\S+/`. */
  function ValidateEmail(s: string): (r: bool)
    ensures r <==> EmailShape(s)
  {
    Scan(s, 0, false, false, false, false)
  }

  // ---------------------------------------------------------------- the form record

  datatype Key = Name | Email | Message | Company | Role | Budget | Timeline

  /** The keys of the `errors` record: one per field, and `submit`. */
  datatype ErrorKey = FieldError(key: Key) | SubmitError

  /** Every field holds a string: `initial` sets the optional ones to "" and the inputs
      only ever store strings. */
  datatype FormState = FormState(
    name: string, email: string, message: string,
    company: string, role: string, budget: string, timeline: string)

  const Initial := FormState("", "", "", "", "", "", "")

  const NameRequired := "Name is required"
  const EmailInvalid := "Enter a valid email"
  const MessageTooShort := "Please include a short message (min 10 chars)"
  const SubmitFailed := "Something went wrong. Please try again later."

  function Get(f: FormState, k: Key): string {
    match k
    case Name => f.name
    case Email => f.email
    case Message => f.message
    case Company => f.company
    case Role => f.role
    case Budget => f.budget
    case Timeline => f.timeline
  }

  /** `{ ...f, [k]: v }`: field `k` becomes `v`, every other field stays. */
  function Set(f: FormState, k: Key, v: string): (r: FormState)
    ensures Get(r, k) == v
    ensures forall k' :: k' != k ==> Get(r, k') == Get(f, k')
  {
    match k
    case Name => f.(name := v)
    case Email => f.(email := v)
    case Message => f.(message := v)
    case Company => f.(company := v)
    case Role => f.(role := v)
    case Budget => f.(budget := v)
    case Timeline => f.(timeline := v)
  }

  /** The message each rule reports. */
  function RuleMessage(k: Key): string {
    match k
    case Name => NameRequired
    case Email => EmailInvalid
    case Message => MessageTooShort
    case _ => ""
  }

  /** The error record for the given rule outcomes: one entry per failing rule, added
      in the order `validate` tests them. */
  function ErrorsFor(nameFails: bool, emailFails: bool, messageFails: bool): (err: map<ErrorKey, string>)
    ensures FieldError(Name) in err <==> nameFails
    ensures FieldError(Email) in err <==> emailFails
    ensures FieldError(Message) in err <==> messageFails
    ensures forall k | k in err :: k == FieldError(Name) || k == FieldError(Email) || k == FieldError(Message)
    ensures forall k | k in err :: k.FieldError? && err[k] == RuleMessage(k.key) != ""
  {
    var e1 := if nameFails then map[FieldError(Name) := NameRequired] else map[];
    var e2 := if emailFails then e1[FieldError(Email) := EmailInvalid] else e1;
    if messageFails then e2[FieldError(Message) := MessageTooShort] else e2
  }

  /** `validate`: a name that is blank once trimmed, an e-mail the heuristic rejects and
      a trimmed message that is empty or under ten UTF-16 code units each add their
      error. */
  function ValidationErrors(f: FormState): map<ErrorKey, string> {
    var m := Trim(f.message);
    ErrorsFor(Trim(f.name) == "", !ValidateEmail(f.email), m == "" || Utf16Length(m) < 10)
  }

  /** `validate` as written: an empty record, then one conditional assignment per rule. */
  method Validate(f: FormState) returns (err: map<ErrorKey, string>)
    ensures err == ValidationErrors(f)
  {
    err := map[];
    if Trim(f.name) == "" {
      err := err[FieldError(Name) := NameRequired];
    }
    if !ValidateEmail(f.email) {
      err := err[FieldError(Email) := EmailInvalid];
    }
    var m := Trim(f.message);
    if m == "" || Utf16Length(m) < 10 {
      err := err[FieldError(Message) := MessageTooShort];
    }
  }

  /** Each required field carries an error exactly when its rule fails. */
  lemma ValidationRules(f: FormState)
    ensures FieldError(Name) in ValidationErrors(f) <==> Trim(f.name) == ""
    ensures FieldError(Email) in ValidationErrors(f) <==> !EmailShape(f.email)
    ensures FieldError(Message) in ValidationErrors(f) <==> Utf16Length(Trim(f.message)) < 10
  {
  }

  /** Only the three required fields can carry an error, each with its rule's message;
      `submit` is never set by validation. */
  lemma ValidationErrorsShape(f: FormState)
    ensures SubmitError !in ValidationErrors(f)
    ensures forall k | k in ValidationErrors(f) :: k == FieldError(Name) || k == FieldError(Email) || k == FieldError(Message)
    ensures forall k | k in ValidationErrors(f) :: ValidationErrors(f)[k] == RuleMessage(k.key) != ""
  {
  }

  /** The optional fields never produce an error. */
  lemma OptionalFieldsNeverFail(f: FormState, k: Key)
    requires k in {Company, Role, Budget, Timeline}
    ensures FieldError(k) !in ValidationErrors(f)
  {
  }

  /** A form passes exactly when all three required rules hold. */
  lemma ValidIff(f: FormState)
    ensures ValidationErrors(f) == map[] <==>
      Trim(f.name) != "" && EmailShape(f.email) && Utf16Length(Trim(f.message)) >= 10
  {
    var err := ValidationErrors(f);
    ValidationRules(f);
    if Trim(f.name) != "" && EmailShape(f.email) && Utf16Length(Trim(f.message)) >= 10 {
      assert err.Keys == {};
    }
  }

  /** `errors.k && <p>…</p>`: an error is displayed when present and non-empty. */
  predicate ErrorShown(errors: map<ErrorKey, string>, k: ErrorKey) {
    k in errors && errors[k] != ""
  }

  // ---------------------------------------------------------------- the component

  class ContactFormState {
    var form: FormState
    var errors: map<ErrorKey, string>
    var submitting: bool
    var submitted: bool

    constructor ()
      ensures form == Initial && errors == map[] && !submitting && !submitted
    {
      form := Initial;
      errors := map[];
      submitting := false;
      submitted := false;
    }

    /** `onChange(k)`: the edited field takes the input's value and its error is
        cleared to ""; nothing else changes. */
    method OnChange(k: Key, value: string)
      modifies this
      ensures form == Set(old(form), k, value)
      ensures errors == old(errors)[FieldError(k) := ""]
      ensures !ErrorShown(errors, FieldError(k))
      ensures forall e | e != FieldError(k) :: (e in errors <==> e in old(errors)) && (e in errors ==> errors[e] == old(errors)[e])
      ensures submitting == old(submitting) && submitted == old(submitted)
    {
      form := Set(form, k, value);
      errors := errors[FieldError(k) := ""];
    }

    /** The synchronous part of `onSubmit`, up to the `await`: an invalid form only
        replaces the errors; a valid one starts submitting. */
    method OnSubmit()
      modifies this
      ensures form == old(form) && submitted == old(submitted)
      ensures var v := ValidationErrors(old(form));
        if v != map[] then errors == v && submitting == old(submitting)
        else errors == old(errors) && submitting
    {
      var v := Validate(form);
      if v != map[] {  // Object.keys(v).length is non-zero
        errors := v;
        return;
      }
      submitting := true;
    }

    /** The continuation after the `await`. `failed` stands for a rejected delivery (the
        `catch` branch); either way `finally` clears `submitting`. */
    method SubmitSettled(failed: bool)
      modifies this
      ensures !submitting
      ensures !failed ==> submitted && form == Initial && errors == old(errors)
      ensures failed ==> errors == map[SubmitError := SubmitFailed] && form == old(form) && submitted == old(submitted)
    {
      if !failed {
        submitted := true;
        form := Initial;
      } else {
        errors := map[SubmitError := SubmitFailed];
      }
      submitting := false;
    }

    /** The Clear button: the fields go back to `initial`; the errors stay. */
    method Clear()
      modifies this
      ensures form == Initial
      ensures errors == old(errors) && submitting == old(submitting) && submitted == old(submitted)
    {
      form := Initial;
    }

    /** "Send another message": back to the form. */
    method SendAnother()
      modifies this
      ensures !submitted
      ensures form == old(form) && errors == old(errors) && submitting == old(submitting)
    {
      submitted := false;
    }
  }

  /** A valid form, submitted and delivered, ends with the thank-you view, an empty form
      and nothing in flight. */
  method SubmitFlow(f: FormState)
    requires ValidationErrors(f) == map[]
  {
    var c := new ContactFormState();
    c.OnChange(Name, f.name);
    c.OnChange(Email, f.email);
    c.OnChange(Message, f.message);
    c.OnChange(Company, f.company);
    c.OnChange(Role, f.role);
    c.OnChange(Budget, f.budget);
    c.OnChange(Timeline, f.timeline);
    assert c.form == f;
    c.OnSubmit();
    assert c.submitting;
    c.SubmitSettled(false);
    assert c.submitted && c.form == Initial && !c.submitting;
  }
}
