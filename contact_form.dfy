/** The public eligibility form: its fields, the validation, and the submission that creates a lead. */
module ContactForm {
  import opened Wrappers
  import opened Text
  import opened AdminTypes
  import opened LeadStore
  import opened Dashboard

  datatype FormField = Name | Email | Phone | Address | HomeAge | IsHomeowner | Concerns

  datatype FormData = FormData(name: string, email: string, phone: string, address: string,
                               homeAge: string, isHomeowner: string, concerns: string)
  {
    function Get(f: FormField): string {
      match f
      case Name => name
      case Email => email
      case Phone => phone
      case Address => address
      case HomeAge => homeAge
      case IsHomeowner => isHomeowner
      case Concerns => concerns
    }

    /** `{ ...prev, [name]: value }`: the one field replaced, every other kept. */
    function With(f: FormField, v: string): (r: FormData)
      ensures forall g :: r.Get(g) == if g == f then v else Get(g)
    {
      match f
      case Name => this.(name := v)
      case Email => this.(email := v)
      case Phone => this.(phone := v)
      case Address => this.(address := v)
      case HomeAge => this.(homeAge := v)
      case IsHomeowner => this.(isHomeowner := v)
      case Concerns => this.(concerns := v)
    }
  }

  const InitialFormData := FormData("", "", "", "", "", "", "")

  // ---------------------------------------------------------------------
  // The email pattern ^[^\s@]+@[^\s@]+\.[^\s@]+$

  /** A character the class `[^\s@]` admits. */
  predicate EmailChar(c: char) {
    !IsWhitespace(c) && c != '@'
  }

  predicate Plain(t: string) {
    forall k :: 0 <= k < |t| ==> EmailChar(t[k])
  }

  /** The pattern read off its structure: three non-empty plain runs joined by '@' and '.'. */
  ghost predicate MatchesEmailPattern(s: string) {
    exists i, j :: 0 < i && i + 1 < j && j + 1 < |s| && s[i] == '@' && s[j] == '.'
      && Plain(s[..i]) && Plain(s[i + 1..j]) && Plain(s[j + 1..])
  }

  /** The index of the first '@', or the length when there is none. */
  function FirstAt(s: string): (r: nat)
    ensures r <= |s|
    ensures forall k :: 0 <= k < r ==> s[k] != '@'
    ensures r < |s| ==> s[r] == '@'
  {
    if s == [] then 0
    else if s[0] == '@' then 0
    else 1 + FirstAt(s[1..])
  }

  /**
   * The check the form performs: a non-empty plain part before the first
   * '@', and after it a plain domain of at least three characters with a '.'
   * that is neither its first nor its last character.
   */
  predicate ValidEmail(s: string) {
    var i := FirstAt(s);
    0 < i < |s| && Plain(s[..i])
    && var d := s[i + 1..];
       |d| >= 3 && Plain(d) && '.' in d[1..|d| - 1]
  }

  /** A match of the pattern passes the check. */
  lemma PatternImpliesValid(s: string, i: nat, j: nat)
    requires 0 < i && i + 1 < j && j + 1 < |s| && s[i] == '@' && s[j] == '.'
    requires Plain(s[..i]) && Plain(s[i + 1..j]) && Plain(s[j + 1..])
    ensures ValidEmail(s)
  {
    assert forall k :: 0 <= k < i ==> s[k] == s[..i][k];
    assert FirstAt(s) == i;
    var d := s[i + 1..];
    forall k | 0 <= k < |d| ensures EmailChar(d[k]) {
      if k < j - i - 1 {
        assert d[k] == s[i + 1..j][k];
      } else if k > j - i - 1 {
        assert d[k] == s[j + 1..][k - (j - i)];
      }
    }
    assert d[1..|d| - 1][j - i - 2] == '.';
  }

  /** A string that passes the check matches the pattern, split at its first '@' and an interior '.' of the domain. */
  lemma ValidImpliesPattern(s: string)
    requires ValidEmail(s)
    ensures MatchesEmailPattern(s)
  {
    var i := FirstAt(s);
    var d := s[i + 1..];
    var m :| 0 <= m < |d| - 2 && d[1..|d| - 1][m] == '.';
    var j := i + 2 + m;
    assert s[j] == '.';
    assert s[i + 1..j] == d[..m + 1];
    assert s[j + 1..] == d[m + 2..];
    assert Plain(s[..i]) && Plain(s[i + 1..j]) && Plain(s[j + 1..]);
  }

  /** An accepted address has no whitespace anywhere and exactly one '@'. */
  lemma ValidEmailShape(s: string)
    requires ValidEmail(s)
    ensures forall k :: 0 <= k < |s| ==> !IsWhitespace(s[k])
    ensures forall k :: 0 <= k < |s| && s[k] == '@' ==> k == FirstAt(s)
  {
    var i := FirstAt(s);
    var d := s[i + 1..];
    assert Plain(s[..i]) && Plain(d);
    forall k | 0 <= k < |s| && k != i ensures EmailChar(s[k]) {
      if k < i {
        assert s[k] == s[..i][k];
      } else {
        assert s[k] == d[k - i - 1];
      }
    }
    assert s[i] == '@' && !IsWhitespace('@');
  }

  /** The check accepts exactly the strings the pattern matches. */
  lemma ValidEmailMatchesPattern(s: string)
    ensures ValidEmail(s) <==> MatchesEmailPattern(s)
  {
    if MatchesEmailPattern(s) {
      var i, j :| 0 < i && i + 1 < j && j + 1 < |s| && s[i] == '@' && s[j] == '.'
        && Plain(s[..i]) && Plain(s[i + 1..j]) && Plain(s[j + 1..]);
      PatternImpliesValid(s, i, j);
    }
    if ValidEmail(s) {
      ValidImpliesPattern(s);
    }
  }

  // ---------------------------------------------------------------------
  // Validation

  const NameRequired := "Name is required"
  const EmailRequired := "Email is required"
  const EmailInvalid := "Please enter a valid email"
  const PhoneRequired := "Phone number is required"
  const AddressRequired := "Address is required"
  const SelectOption := "Please select an option"

  /**
   * The message `validate` sets for one field, if any: name, phone and
   * address must not be blank; the email must not be blank and must match
   * the pattern as typed (no trim); the homeowner answer must have been
   * chosen. Home age and concerns are optional.
   */
  function FieldError(form: FormData, f: FormField): Option<string> {
    match f
    case Name => if Trim(form.name) == "" then Some(NameRequired) else None
    case Email =>
      if Trim(form.email) == "" then Some(EmailRequired)
      else if !ValidEmail(form.email) then Some(EmailInvalid)
      else None
    case Phone => if Trim(form.phone) == "" then Some(PhoneRequired) else None
    case Address => if Trim(form.address) == "" then Some(AddressRequired) else None
    case IsHomeowner => if form.isHomeowner == "" then Some(SelectOption) else None
    case HomeAge => None
    case Concerns => None
  }

  const AllFields: set<FormField> := {Name, Email, Phone, Address, HomeAge, IsHomeowner, Concerns}

  /** `validate`'s error map: one entry per field with a message. */
  function ErrorsFor(form: FormData): (errs: map<FormField, string>)
    ensures errs.Keys <= {Name, Email, Phone, Address, IsHomeowner}
  {
    map f | f in AllFields && FieldError(form, f).Some? :: FieldError(form, f).value
  }

  /** Which fields `validate` flags, and with which message. */
  lemma ErrorsForSpec(form: FormData)
    ensures Name in ErrorsFor(form) <==> Blank(form.name)
    ensures Email in ErrorsFor(form) <==> Blank(form.email) || !MatchesEmailPattern(form.email)
    ensures Phone in ErrorsFor(form) <==> Blank(form.phone)
    ensures Address in ErrorsFor(form) <==> Blank(form.address)
    ensures IsHomeowner in ErrorsFor(form) <==> form.isHomeowner == ""
    ensures HomeAge !in ErrorsFor(form) && Concerns !in ErrorsFor(form)
    ensures Name in ErrorsFor(form) ==> ErrorsFor(form)[Name] == NameRequired
    ensures Email in ErrorsFor(form) ==> ErrorsFor(form)[Email] == if Blank(form.email) then EmailRequired else EmailInvalid
    ensures Phone in ErrorsFor(form) ==> ErrorsFor(form)[Phone] == PhoneRequired
    ensures Address in ErrorsFor(form) ==> ErrorsFor(form)[Address] == AddressRequired
    ensures IsHomeowner in ErrorsFor(form) ==> ErrorsFor(form)[IsHomeowner] == SelectOption
  {
    ValidEmailMatchesPattern(form.email);
  }

  /** The form is valid exactly when every required answer is present and the email matches the pattern. */
  lemma ValidForm(form: FormData)
    ensures ErrorsFor(form) == map[] <==>
      !Blank(form.name) && !Blank(form.email) && MatchesEmailPattern(form.email)
      && !Blank(form.phone) && !Blank(form.address) && form.isHomeowner != ""
  {
    ErrorsForSpec(form);
    var errs := ErrorsFor(form);
    if !Blank(form.name) && !Blank(form.email) && MatchesEmailPattern(form.email)
       && !Blank(form.phone) && !Blank(form.address) && form.isHomeowner != "" {
      forall f ensures f !in errs {
        match f
        case Name => case Email => case Phone => case Address =>
        case HomeAge => case IsHomeowner => case Concerns =>
      }
      assert errs.Keys == {};
    }
  }

  /** The fields a submission stores: the form as typed, and the server's creation time. */
  function FormDocument(form: FormData): (d: Document)
    ensures d.Keys == {"name", "email", "phone", "address", "homeAge", "isHomeowner", "concerns", "createdAt"}
    ensures d["createdAt"] == ServerTimestamp
  {
    map["name" := Str(form.name), "email" := Str(form.email), "phone" := Str(form.phone),
        "address" := Str(form.address), "homeAge" := Str(form.homeAge),
        "isHomeowner" := Str(form.isHomeowner), "concerns" := Str(form.concerns),
        "createdAt" := ServerTimestamp]
  }

  /**
   * A submitted form appears on the dashboard as a new lead holding the
   * form's answers, created at the server's time, with no notes, no action
   * items and no contact or update time.
   */
  lemma SubmittedFormReadsAsNewLead(id: string, form: FormData, now: int)
    ensures ToLead(id, Merge(map[], FormDocument(form), now))
         == Lead(id, form.name, form.email, form.phone, form.address, form.homeAge, form.isHomeowner,
                 form.concerns, Some(now), New, [], [], None, None)
  {
  }

  const SubmitFailed := "Something went wrong submitting your information. Please try again or call us at (404) 446-6668."

  /** The form's state. */
  class ContactFormState {
    var formData: FormData
    var errors: map<FormField, string>
    var submitted: bool
    var submitting: bool
    var submitError: Option<string>

    constructor ()
      ensures formData == InitialFormData && errors == map[] && !submitted && !submitting && submitError == None
    {
      formData := InitialFormData;
      errors := map[];
      submitted := false;
      submitting := false;
      submitError := None;
    }

    /** `validate`: replaces the errors with the current form's, and reports whether there are none. */
    method Validate() returns (valid: bool)
      modifies this`errors
      ensures errors == ErrorsFor(formData)
      ensures valid <==> errors == map[]
    {
      errors := ErrorsFor(formData);
      valid := |errors| == 0;
    }

    /**
     * `handleSubmit`: an invalid form only shows its errors. A valid one is
     * stored under the fresh id `newId` the store picks; on success the form
     * is marked submitted, on failure the failure message is shown.
     */
    method HandleSubmit(store: Store, newId: string, now: int, fail: bool)
      requires newId !in store.docs
      modifies this, store
      ensures formData == old(formData) && errors == ErrorsFor(formData)
      ensures errors != map[] ==>
        && store.docs == old(store.docs) && submitted == old(submitted)
        && submitting == old(submitting) && submitError == old(submitError)
      ensures errors == map[] ==>
        && store.docs == (if fail then old(store.docs) else old(store.docs)[newId := Merge(map[], FormDocument(formData), now)])
        && submitted == (!fail || old(submitted))
        && submitError == (if fail then Some(SubmitFailed) else None)
        && !submitting
    {
      var valid := Validate();
      if !valid {
        return;
      }
      submitting := true;
      submitError := None;
      var ok := store.Add(newId, FormDocument(formData), now, fail);
      if ok {
        submitted := true;
      } else {
        submitError := Some(SubmitFailed);
      }
      submitting := false;
    }

    /** `handleChange`: sets one field and clears that field's error. */
    method HandleChange(field: FormField, value: string)
      modifies this`formData, this`errors
      ensures formData == old(formData).With(field, value)
      ensures errors == old(errors) - {field}
    {
      formData := formData.With(field, value);
      if field in errors {
        errors := errors - {field};
      }
    }
  }
}
