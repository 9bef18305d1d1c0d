/**
 * The contact form of js/main.js: the inquiry pre-fill run at page load, the
 * submit handler that clears and sets each field's custom validity and gates
 * the submission, and the listeners that toggle a field's error class.
 */
module ContactForm {
  import opened Js
  import opened ContactValidation

  /** The six fields the submit handler looks up by id. */
  datatype Field = Name | Email | Phone | InquiryType | Message | Consent

  /** The order in which the handler clears them. */
  const AllFields: seq<Field> := [Name, Email, Phone, InquiryType, Message, Consent]

  /**
   * What the handler reads from the fields; `None` is a field missing from the
   * form. `phoneValid` is the phone input's native validity apart from any
   * custom message.
   */
  datatype FormValues = FormValues(
    name: Option<string>,
    email: Option<string>,
    phone: Option<string>,
    phoneValid: bool,
    inquiryType: Option<string>,
    message: Option<string>,
    consent: Option<bool>)

  /** The submit button, when the form has one. */
  datatype SubmitButton = SubmitButton(text: string, disabled: bool)

  const SendingLabel := "Sending..."

  /** The values of `inquiry` the pre-fill copies into the select. */
  const InquiryKinds: set<string> :=
    {"partnership", "general", "donation", "retreat", "photography", "media", "volunteer"}

  /** The fields the form holds. */
  function Present(v: FormValues): set<Field> {
    (if v.name.Some? then {Name} else {}) +
    (if v.email.Some? then {Email} else {}) +
    (if v.phone.Some? then {Phone} else {}) +
    (if v.inquiryType.Some? then {InquiryType} else {}) +
    (if v.message.Some? then {Message} else {}) +
    (if v.consent.Some? then {Consent} else {})
  }

  /** Whether the check for `f` fails; a missing field is never checked. */
  predicate Fails(v: FormValues, f: Field) {
    match f
    case Name => v.name.Some? && NameFails(v.name.value)
    case Email => v.email.Some? && EmailFails(v.email.value)
    case Phone => v.phone.Some? && PhoneFails(v.phone.value, v.phoneValid)
    case InquiryType => v.inquiryType.Some? && InquiryFails(v.inquiryType.value)
    case Message => v.message.Some? && MessageFails(v.message.value)
    case Consent => v.consent.Some? && ConsentFails(v.consent.value)
  }

  /** The custom validity message the handler gives a failing field. */
  function ErrorMessage(f: Field): (m: string)
    ensures m != ""
  {
    match f
    case Name => NameError
    case Email => EmailError
    case Phone => PhoneError
    case InquiryType => InquiryError
    case Message => MessageError
    case Consent => ConsentError
  }

  /**
   * Each field has a message of its own, so a failing field's validity tells
   * which check failed.
   */
  lemma ErrorMessagesDistinct(f: Field, g: Field)
    ensures ErrorMessage(f) == ErrorMessage(g) <==> f == g
  {
  }

  /** The fields whose check fails: all of them, not only the first. */
  function Failing(v: FormValues): (fields: set<Field>)
    ensures fields <= Present(v)
  {
    set f | f in Present(v) && Fails(v, f)
  }

  /** A present field is failing exactly when its check fails. */
  lemma InFailing(v: FormValues, f: Field)
    ensures f in Failing(v) <==> Fails(v, f)
  {
  }

  /** Which fields fail, field by field, as the handler's conditions read. */
  lemma FailingFields(v: FormValues)
    ensures Name in Failing(v) <==> v.name.Some? && NameFails(v.name.value)
    ensures Email in Failing(v) <==> v.email.Some? && v.email.value != "" && !MatchesEmailPattern(v.email.value)
    ensures Phone in Failing(v) <==> v.phone.Some? && v.phone.value != "" && !v.phoneValid
    ensures InquiryType in Failing(v) <==> v.inquiryType.Some? && v.inquiryType.value == ""
    ensures Message in Failing(v) <==> v.message.Some? && MessageFails(v.message.value)
    ensures Consent in Failing(v) <==> v.consent.Some? && !v.consent.value
  {
    assert Fails(v, Name) <==> v.name.Some? && NameFails(v.name.value);
  }

  /** The custom validity of every present field after a submit. */
  function ValidityAfterSubmit(v: FormValues): (m: map<Field, string>)
    ensures m.Keys == Present(v)
  {
    ValidityAfterChecks(Present(v), Failing(v), |AllFields|)
  }

  /**
   * After a submit every failing field carries its own message, whatever the
   * other fields did, and every passing field carries the empty message.
   */
  lemma ValidityAfterSubmitMessages(v: FormValues, f: Field)
    requires f in Present(v)
    ensures f in Failing(v) ==> ValidityAfterSubmit(v)[f] == ErrorMessage(f)
    ensures f !in Failing(v) ==> ValidityAfterSubmit(v)[f] == ""
  {
    ValidityAfterChecksAt(Present(v), Failing(v), |AllFields|, f);
  }

  /** The button after a submit that was not blocked. */
  function Sending(b: Option<SubmitButton>): (r: Option<SubmitButton>)
    ensures r.Some? <==> b.Some?
    ensures r.Some? ==> r.value.disabled && r.value.text == SendingLabel
  {
    if b.Some? then Some(SubmitButton(SendingLabel, true)) else None
  }

  /** The if-chain of the pre-fill: the parameter is one of the seven inquiry kinds. */
  predicate IsInquiryKind(p: string)
    ensures IsInquiryKind(p) <==> p in InquiryKinds
  {
    if p == "partnership" then true
    else if p == "general" then true
    else if p == "donation" then true
    else if p == "retreat" then true
    else if p == "photography" then true
    else if p == "media" then true
    else if p == "volunteer" then true
    else false
  }

  /** A fully valid form has no failing field, so it is submitted. */
  lemma ValidFormSubmits(name: string, email: string, inquiry: string, message: string)
    requires PlainText(name) && |name| >= 2
    requires email == "" || MatchesEmailPattern(email)
    requires inquiry != ""
    requires PlainText(message) && |message| >= 20
    ensures Failing(FormValues(Some(name), Some(email), None, true, Some(inquiry), Some(message), Some(true))) == {}
  {
    LengthChecksOnPlainText(name);
    LengthChecksOnPlainText(message);
  }

  /**
   * Each check sees only its own field: changing one field's value changes no
   * other field's verdict, so every failure is reported whatever the others say.
   */
  lemma ChecksAreIndependent(v: FormValues, f: Field, g: Field, w: FormValues)
    requires f != g
    requires f == Name ==> w == v.(name := w.name)
    requires f == Email ==> w == v.(email := w.email)
    requires f == Phone ==> w == v.(phone := w.phone, phoneValid := w.phoneValid)
    requires f == InquiryType ==> w == v.(inquiryType := w.inquiryType)
    requires f == Message ==> w == v.(message := w.message)
    requires f == Consent ==> w == v.(consent := w.consent)
    ensures g in Failing(w) <==> g in Failing(v)
  {
  }

  /** Position of a field in AllFields. */
  function FieldIndex(f: Field): (i: nat)
    ensures i < |AllFields| && AllFields[i] == f
  {
    match f
    case Name => 0
    case Email => 1
    case Phone => 2
    case InquiryType => 3
    case Message => 4
    case Consent => 5
  }

  /** Every present field with an empty custom validity, as the clearing leaves them. */
  function Cleared(present: set<Field>): (m: map<Field, string>)
    ensures m.Keys == present
    ensures forall f | f in m :: m[f] == ""
  {
    map f | f in present :: ""
  }

  /**
   * Custom validity of the present fields once the checks of the first `n`
   * fields of AllFields have run, given which fields fail: each check in turn
   * gives its field the error message when the field fails.
   */
  function ValidityAfterChecks(present: set<Field>, failing: set<Field>, n: nat): (m: map<Field, string>)
    requires n <= |AllFields|
    ensures m.Keys == present
  {
    if n == 0 then Cleared(present)
    else
      var f := AllFields[n - 1];
      var prev := ValidityAfterChecks(present, failing, n - 1);
      if f in present && f in failing then prev[f := ErrorMessage(f)] else prev
  }

  /** The failing fields among the first `n` of AllFields, found check by check. */
  function FailingBefore(failing: set<Field>, n: nat): (r: set<Field>)
    requires n <= |AllFields|
    ensures r <= failing
  {
    if n == 0 then {}
    else
      var f := AllFields[n - 1];
      FailingBefore(failing, n - 1) + (if f in failing then {f} else {})
  }

  /** The `n`-th check adds its field's message and its field to the failing ones exactly when it fails. */
  lemma CheckStep(present: set<Field>, failing: set<Field>, n: nat, f: Field)
    requires n < |AllFields| && AllFields[n] == f && failing <= present
    ensures f in failing ==>
      FailingBefore(failing, n + 1) == FailingBefore(failing, n) + {f} &&
      ValidityAfterChecks(present, failing, n + 1) == ValidityAfterChecks(present, failing, n)[f := ErrorMessage(f)]
    ensures f !in failing ==>
      FailingBefore(failing, n + 1) == FailingBefore(failing, n) &&
      ValidityAfterChecks(present, failing, n + 1) == ValidityAfterChecks(present, failing, n)
  {
  }

  /** A field is found failing by the first `n` checks exactly when it fails and is among them. */
  lemma {:induction false} FailingBeforeMembers(failing: set<Field>, n: nat, f: Field)
    requires n <= |AllFields|
    ensures f in FailingBefore(failing, n) <==> f in failing && FieldIndex(f) < n
  {
    if n > 0 {
      FailingBeforeMembers(failing, n - 1, f);
      assert FieldIndex(AllFields[n - 1]) == n - 1;
    }
  }

  /** Once all six checks have run, every failing field has been found. */
  lemma FailingBeforeAll(failing: set<Field>)
    ensures FailingBefore(failing, |AllFields|) == failing
  {
    forall f ensures f in FailingBefore(failing, |AllFields|) <==> f in failing {
      FailingBeforeMembers(failing, |AllFields|, f);
    }
  }

  /**
   * After the first `n` checks a present field carries its error message when
   * its check has run and failed, and the empty message otherwise.
   */
  lemma {:induction false} ValidityAfterChecksAt(present: set<Field>, failing: set<Field>, n: nat, f: Field)
    requires n <= |AllFields| && f in present
    ensures ValidityAfterChecks(present, failing, n)[f] ==
      if FieldIndex(f) < n && f in failing then ErrorMessage(f) else ""
  {
    if n > 0 {
      var g := AllFields[n - 1];
      assert FieldIndex(g) == n - 1;
      ValidityAfterChecksAt(present, failing, n - 1, f);
      if g != f {
        assert FieldIndex(f) != n - 1;
      }
    }
  }

  /** The contact form as the page holds it. */
  class Form {
    var values: FormValues
    /** `setCustomValidity` state of each present field. */
    var customValidity: map<Field, string>
    /** Fields carrying the `error` class. */
    var errorMarked: set<Field>
    var submitButton: Option<SubmitButton>

    ghost predicate Valid()
      reads this
    {
      customValidity.Keys == Present(values) && errorMarked <= Present(values)
    }

    constructor (values: FormValues, submitButton: Option<SubmitButton>)
      ensures Valid()
      ensures this.values == values && this.submitButton == submitButton
      ensures customValidity == map f | f in Present(values) :: ""
      ensures errorMarked == {}
    {
      this.values := values;
      this.submitButton := submitButton;
      customValidity := map f | f in Present(values) :: "";
      errorMarked := {};
    }

    /**
     * Page-load pre-fill from the `inquiry` query parameter: the select takes
     * the parameter when it is one of the seven kinds, and nothing else changes.
     */
    method PrefillInquiry(param: Option<string>)
      requires Valid()
      modifies this`values
      ensures Valid()
      ensures old(values).inquiryType.Some? && param.Some? && param.value in InquiryKinds ==>
                values == old(values).(inquiryType := param)
      ensures !(old(values).inquiryType.Some? && param.Some? && param.value in InquiryKinds) ==>
                values == old(values)
    {
      if Truthy(param) && values.inquiryType.Some? {
        if IsInquiryKind(param.value) {
          values := values.(inquiryType := Some(param.value));
        }
      }
    }

    /** The listener for a field's `invalid` event adds the error class. */
    method OnInvalid(f: Field)
      requires Valid() && f in Present(values)
      modifies this`errorMarked
      ensures Valid() && errorMarked == old(errorMarked) + {f}
    {
      errorMarked := errorMarked + {f};
    }

    /** The listener for a field's `input` event removes the error class. */
    method OnInput(f: Field)
      requires Valid()
      modifies this`errorMarked
      ensures Valid() && errorMarked == old(errorMarked) - {f}
    {
      errorMarked := errorMarked - {f};
    }

    /** The state once the checks of the first `n` fields have run. */
    ghost predicate AfterChecks(failing: set<Field>, n: nat, marked: set<Field>, hasError: bool)
      requires n <= |AllFields|
      reads this
    {
      customValidity == ValidityAfterChecks(Present(values), failing, n) &&
      errorMarked == marked + FailingBefore(failing, n) &&
      hasError == (FailingBefore(failing, n) != {})
    }

    /**
     * One check of the submit handler, the `n`-th of AllFields. When `failed`,
     * `setCustomValidity` gives the field its message and `reportValidity`
     * makes the browser fire `invalid` on it, whose listener adds the error
     * class; `hasError` becomes true.
     */
    method ApplyCheck(f: Field, failed: bool, hasError: bool,
                      ghost failing: set<Field>, ghost marked: set<Field>, ghost n: nat)
      returns (stillError: bool)
      requires n == FieldIndex(f)
      requires failing <= Present(values) && AfterChecks(failing, n, marked, hasError)
      requires failed == (f in failing)
      modifies this`customValidity, this`errorMarked
      ensures AfterChecks(failing, n + 1, marked, stillError)
    {
      ghost var before := FailingBefore(failing, n);
      CheckStep(Present(values), failing, n, f);
      stillError := hasError;
      if failed {
        customValidity := customValidity[f := ErrorMessage(f)];
        errorMarked := errorMarked + {f};
        assert errorMarked == marked + (before + {f});
        assert f in before + {f};
        stillError := true;
      }
    }

    /** Clears the custom validity of every present field, in the order of AllFields. */
    method ClearValidity()
      requires Valid()
      modifies this`customValidity
      ensures Valid()
      ensures customValidity == Cleared(Present(values))
    {
      var present := Present(values);
      for i := 0 to |AllFields|
        invariant customValidity.Keys == present
        invariant forall k :: 0 <= k < i && AllFields[k] in present ==> customValidity[AllFields[k]] == ""
      {
        var f := AllFields[i];
        if f in present {
          customValidity := customValidity[f := ""];
        }
      }
      forall f | f in present ensures customValidity[f] == "" {
        assert f == AllFields[FieldIndex(f)];
      }
    }

    /** The name, email and phone checks. */
    method FirstChecks(ghost marked: set<Field>) returns (hasError: bool)
      requires AfterChecks(Failing(values), 0, marked, false)
      modifies this`customValidity, this`errorMarked
      ensures AfterChecks(Failing(values), 3, marked, hasError)
    {
      ghost var failing := Failing(values);
      InFailing(values, Name);
      hasError := ApplyCheck(Name,
        values.name.Some? && NameFails(values.name.value), false, failing, marked, 0);
      InFailing(values, Email);
      hasError := ApplyCheck(Email,
        values.email.Some? && values.email.value != "" && !MatchesEmailPattern(values.email.value),
        hasError, failing, marked, 1);
      // `validity.valid` also reflects a custom message, which was cleared above.
      if values.phone.Some? {
        ValidityAfterChecksAt(Present(values), failing, 2, Phone);
      }
      InFailing(values, Phone);
      hasError := ApplyCheck(Phone,
        values.phone.Some? && values.phone.value != "" && !(values.phoneValid && customValidity[Phone] == ""),
        hasError, failing, marked, 2);
    }

    /** The inquiry type, message and consent checks. */
    method LastChecks(hasError0: bool, ghost marked: set<Field>) returns (hasError: bool)
      requires AfterChecks(Failing(values), 3, marked, hasError0)
      modifies this`customValidity, this`errorMarked
      ensures AfterChecks(Failing(values), 6, marked, hasError)
    {
      ghost var failing := Failing(values);
      InFailing(values, InquiryType);
      hasError := ApplyCheck(InquiryType,
        values.inquiryType.Some? && values.inquiryType.value == "", hasError0, failing, marked, 3);
      InFailing(values, Message);
      hasError := ApplyCheck(Message,
        values.message.Some? && MessageFails(values.message.value), hasError, failing, marked, 4);
      InFailing(values, Consent);
      hasError := ApplyCheck(Consent,
        values.consent.Some? && !values.consent.value, hasError, failing, marked, 5);
    }

    /**
     * The submit handler. It clears every present field's custom validity,
     * runs all six checks without stopping at the first failure, gives each
     * failing field its message, and returns whether the submission was
     * prevented: exactly when some check failed. Only a submission that goes
     * ahead changes the button.
     */
    method Submit() returns (prevented: bool)
      requires Valid()
      modifies this`customValidity, this`errorMarked, this`submitButton
      ensures Valid() && values == old(values)
      ensures prevented <==> Failing(values) != {}
      ensures customValidity == ValidityAfterSubmit(values)
      ensures errorMarked == old(errorMarked) + Failing(values)
      ensures submitButton == if prevented then old(submitButton) else Sending(old(submitButton))
    {
      ClearValidity();
      var hasError := FirstChecks(errorMarked);
      hasError := LastChecks(hasError, old(errorMarked));
      FailingBeforeAll(Failing(values));
      if !hasError && submitButton.Some? {
        submitButton := Some(SubmitButton(SendingLabel, true));
      }
      prevented := hasError;
    }
  }
}
