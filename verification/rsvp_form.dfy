/** The RSVP form of app/components/RSVPForm.tsx: the field-by-field
    validator with its e-mail pattern, the submit guard and reset, and the
    per-field change handler. The simulated two-second submission is an
    event; nothing is sent anywhere. */
module Rsvp {
  import opened JsText

  datatype Field = Name | Email | Phone | Guests | Attending | DietaryRequirements | Message

  datatype FormData = FormData(
    name: string,
    email: string,
    phone: string,
    guests: string,
    attending: string,
    dietaryRequirements: string,
    message: string)
  {
    function Get(f: Field): string {
      match f
      case Name => name
      case Email => email
      case Phone => phone
      case Guests => guests
      case Attending => attending
      case DietaryRequirements => dietaryRequirements
      case Message => message
    }

    /** `{...prev, [f]: v}`: the named field replaced, every other kept. */
    function With(f: Field, v: string): (r: FormData)
      ensures r.Get(f) == v
      ensures forall g :: g != f ==> r.Get(g) == Get(g)
    {
      match f
      case Name => this.(name := v)
      case Email => this.(email := v)
      case Phone => this.(phone := v)
      case Guests => this.(guests := v)
      case Attending => this.(attending := v)
      case DietaryRequirements => this.(dietaryRequirements := v)
      case Message => this.(message := v)
    }
  }

  /** The form's initial (and reset) contents: one guest, all else empty. */
  const InitialForm: FormData := FormData("", "", "", "1", "", "", "")

  /** `[^\s@]`. */
  predicate PlainChar(c: char) {
    !IsSpace(c) && c != '@'
  }

  /** `[^\s@]+` matching exactly `s[lo..hi]`. */
  predicate PlainRun(s: string, lo: nat, hi: nat)
    requires lo <= hi <= |s|
  {
    lo < hi && forall i :: lo <= i < hi ==> PlainChar(s[i])
  }

  /** The anchored pattern `^[^\s@]+@[^\s@]+\.[^\s@]+$`, read as the three
      runs around the `@` and a chosen `.` that a match picks out. */
  predicate EmailPattern(s: string) {
    exists at: nat, dot: nat | at < |s| && dot < |s| ::
      at + 1 < dot && s[at] == '@' && s[dot] == '.' &&
      PlainRun(s, 0, at) && PlainRun(s, at + 1, dot) && PlainRun(s, dot + 1, |s|)
  }

  predicate NoSpace(s: string) {
    forall i :: 0 <= i < |s| ==> !IsSpace(s[i])
  }

  /** No white space, exactly one `@` that is not first, and after it a `.`
      with at least one character on each side. */
  predicate EmailShape(s: string) {
    NoSpace(s) &&
    exists at :: 0 < at < |s| && s[at] == '@' &&
      (forall i :: 0 <= i < |s| && s[i] == '@' ==> i == at) &&
      (exists dot :: at + 1 < dot < |s| - 1 && s[dot] == '.')
  }

  /** The pattern accepts exactly the strings of that shape. */
  lemma EmailPatternMeans(s: string)
    ensures EmailPattern(s) <==> EmailShape(s)
  {
    if EmailPattern(s) {
      var at: nat, dot: nat :| at < |s| && dot < |s| && at + 1 < dot && s[at] == '@' && s[dot] == '.' &&
        PlainRun(s, 0, at) && PlainRun(s, at + 1, dot) && PlainRun(s, dot + 1, |s|);
      forall i | 0 <= i < |s| ensures !IsSpace(s[i]) && (s[i] == '@' ==> i == at) {
        if i < at {
          assert PlainChar(s[i]);
        } else if at < i < dot {
          assert PlainChar(s[i]);
        } else if dot < i {
          assert PlainChar(s[i]);
        }
      }
    }
    if EmailShape(s) {
      var at :| 0 < at < |s| && s[at] == '@' &&
        (forall i :: 0 <= i < |s| && s[i] == '@' ==> i == at) &&
        (exists dot :: at + 1 < dot < |s| - 1 && s[dot] == '.');
      var dot :| at + 1 < dot < |s| - 1 && s[dot] == '.';
      assert PlainRun(s, 0, at) && PlainRun(s, at + 1, dot) && PlainRun(s, dot + 1, |s|);
    }
  }

  /** An address the pattern accepts is non-empty and has nothing to trim,
      so one with a leading or trailing space is rejected. */
  lemma EmailPatternIsTrimmed(s: string)
    requires EmailPattern(s)
    ensures s != "" && Trim(s) == s
  {
    EmailPatternMeans(s);
    TrimKeepsTidy(s);
  }

  /** The errors `validateForm` collects, keyed by field. */
  function ValidationErrors(f: FormData): map<Field, string> {
    var afterName := if Trim(f.name) == "" then map[Name := "Name is required"] else map[];
    var afterEmail :=
      if Trim(f.email) == "" then afterName[Email := "Email is required"]
      else if !EmailPattern(f.email) then afterName[Email := "Please enter a valid email address"]
      else afterName;
    if f.attending == "" then afterEmail[Attending := "Please let us know if you can attend"] else afterEmail
  }

  /** What a form must satisfy to be submitted. */
  predicate Acceptable(f: FormData) {
    Trim(f.name) != "" && Trim(f.email) != "" && EmailPattern(f.email) && f.attending != ""
  }

  /** `validateForm` is true exactly for an acceptable form; each rejected
      field carries its own message, and an e-mail that is blank after
      trimming is reported as required, never as malformed. */
  lemma ValidationErrorsMeaning(f: FormData)
    ensures ValidationErrors(f) == map[] <==> Acceptable(f)
    ensures ValidationErrors(f).Keys <= {Name, Email, Attending}
    ensures Name in ValidationErrors(f) <==> AllSpace(f.name)
    ensures Attending in ValidationErrors(f) <==> f.attending == ""
    ensures Email in ValidationErrors(f) <==> Trim(f.email) == "" || !EmailPattern(f.email)
    ensures AllSpace(f.email) ==> ValidationErrors(f)[Email] == "Email is required"
    ensures !AllSpace(f.email) && Email in ValidationErrors(f) ==>
              ValidationErrors(f)[Email] == "Please enter a valid email address"
  {
    TrimEmptyIffAllSpace(f.name);
    TrimEmptyIffAllSpace(f.email);
    var e := ValidationErrors(f);
    if !Acceptable(f) {
      assert Name in e || Email in e || Attending in e;
    }
  }

  class RsvpForm {
    var formData: FormData
    var errors: map<Field, string>
    var isSubmitting: bool
    var isSubmitted: bool

    constructor ()
      ensures formData == InitialForm && errors == map[] && !isSubmitting && !isSubmitted
    {
      formData := InitialForm;
      errors := map[];
      isSubmitting, isSubmitted := false, false;
    }

    /** `validateForm`: rebuild the error map field by field and say whether
        it came out empty. */
    method ValidateForm() returns (valid: bool)
      modifies this`errors
      ensures errors == ValidationErrors(formData)
      ensures valid <==> Acceptable(formData)
    {
      var newErrors: map<Field, string> := map[];
      if Trim(formData.name) == "" {
        newErrors := newErrors[Name := "Name is required"];
      }
      if Trim(formData.email) == "" {
        newErrors := newErrors[Email := "Email is required"];
      } else if !EmailPattern(formData.email) {
        newErrors := newErrors[Email := "Please enter a valid email address"];
      }
      if formData.attending == "" {
        newErrors := newErrors[Attending := "Please let us know if you can attend"];
      }
      errors := newErrors;
      valid := |newErrors| == 0;
      ValidationErrorsMeaning(formData);
    }

    /** `handleSubmit` up to its simulated delay. The form is on screen only
        until it has been submitted, and its button is disabled while
        submitting. An unacceptable form only shows its errors. */
    method BeginSubmit() returns (accepted: bool)
      requires !isSubmitting && !isSubmitted
      modifies this
      ensures formData == old(formData) && !isSubmitted
      ensures errors == ValidationErrors(formData)
      ensures accepted <==> Acceptable(formData)
      ensures isSubmitting == accepted
    {
      accepted := ValidateForm();
      if !accepted {
        return;
      }
      isSubmitting := true;
    }

    /** The simulated submission finishes: the form is reset to its initial
        contents and the thank-you view replaces it. */
    method SubmitSettled()
      requires isSubmitting
      modifies this
      ensures isSubmitted && !isSubmitting
      ensures formData == InitialForm && errors == old(errors)
    {
      isSubmitted := true;
      formData := InitialForm;
      isSubmitting := false;
    }

    /** `handleInputChange`: store the value in its field and blank that
        field's error if it had a non-empty one. */
    method HandleInputChange(field: Field, value: string)
      modifies this
      ensures formData == old(formData).With(field, value)
      ensures field in old(errors) && old(errors)[field] != "" ==> errors == old(errors)[field := ""]
      ensures !(field in old(errors) && old(errors)[field] != "") ==> errors == old(errors)
      ensures isSubmitting == old(isSubmitting) && isSubmitted == old(isSubmitted)
    {
      formData := formData.With(field, value);
      if field in errors && errors[field] != "" {
        errors := errors[field := ""];
      }
    }
  }

  /** A guest fills in name, e-mail and attendance and submits. The form goes
      through exactly when all three are acceptable, and then comes back
      empty with one guest selected. */
  method FillAndSubmit(name: string, email: string, attending: string)
    returns (accepted: bool, after: FormData)
    ensures accepted <==> !AllSpace(name) && EmailPattern(email) && attending != ""
    ensures accepted ==> after == InitialForm
    ensures !accepted ==> after.name == name && after.email == email && after.attending == attending
  {
    var form := new RsvpForm();
    form.HandleInputChange(Name, name);
    form.HandleInputChange(Email, email);
    form.HandleInputChange(Attending, attending);
    accepted := form.BeginSubmit();
    TrimEmptyIffAllSpace(name);
    if accepted {
      EmailPatternIsTrimmed(email);
      form.SubmitSettled();
    } else if EmailPattern(email) {
      EmailPatternIsTrimmed(email);
    }
    after := form.formData;
  }
}
