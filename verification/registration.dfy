/** The guest registration page of app/routes/init.tsx: look the code up,
    show the name form or report that the code is already registered, then
    submit the trimmed name once. The `code` query parameter is fixed for the
    page; the backend replies and the redirect timer are parameters/events. */
module Registration {
  import opened Wrappers
  import opened JsText
  import Api

  datatype InitStatus = Loading | Form | Success | Error | AlreadyInitialized

  /** What an awaited `handleSubmit` holds on to: the code, the trimmed name
      it sent, and the QR number it read from the state when it was called. */
  datatype Submission = Submission(codeId: string, name: string, qrNumber: Option<int>)

  /** `!codeId` for the value of `searchParams.get('code')`. */
  predicate HasCode(codeId: Option<string>) {
    codeId.Some? && codeId.value != ""
  }


  class InitPage {
    const codeId: Option<string>
    var formName: string
    var status: InitStatus
    var message: string
    var qrNumber: Option<int>
    var isSubmitting: bool
    var pending: Option<Submission>
    /** Whether a redirect to the landing page has been scheduled. */
    var redirectScheduled: bool

    ghost predicate Valid()
      reads this
    {
      isSubmitting <==> pending.Some?
    }

    constructor (codeId: Option<string>)
      ensures Valid()
      ensures this.codeId == codeId && formName == ""
      ensures status == Loading && message == "Loading..." && qrNumber.None?
      ensures !isSubmitting && !redirectScheduled
    {
      this.codeId := codeId;
      formName := "";
      status, message, qrNumber := Loading, "Loading...", None;
      isSubmitting, pending := false, None;
      redirectScheduled := false;
    }

    /** The mount effect. Without a code it fails at once and asks nothing;
        otherwise it calls `getCodeInfo(codeId)` (`lookup`) and, by `reply`,
        reports the code as taken, shows the form, or shows the error. */
    method LoadCode(reply: Result<Api.QRCode, Api.Exc>) returns (lookup: Option<string>)
      requires Valid()
      modifies this
      ensures Valid()
      ensures formName == old(formName) && isSubmitting == old(isSubmitting) && pending == old(pending)
      ensures !HasCode(codeId) ==>
        lookup.None? && status == Error && message == "Invalid QR code. No code parameter found." &&
        qrNumber.None? && redirectScheduled == old(redirectScheduled)
      ensures HasCode(codeId) ==> lookup == codeId
      ensures HasCode(codeId) && reply.Ok? && reply.value.name.Truthy() ==>
        status == AlreadyInitialized && qrNumber == Some(reply.value.qrNumber) && redirectScheduled &&
        message == "This QR code is already registered to: " + reply.value.name.s +
                   ". Redirecting to wedding invitation..."
      ensures HasCode(codeId) && reply.Ok? && !reply.value.name.Truthy() ==>
        status == Form && message == "" && qrNumber == Some(reply.value.qrNumber) &&
        redirectScheduled == old(redirectScheduled)
      ensures HasCode(codeId) && reply.Err? ==>
        status == Error && message == Api.ErrorText(reply.error, "Failed to load QR code information") &&
        qrNumber.None? && redirectScheduled == old(redirectScheduled)
    {
      if !HasCode(codeId) {
        status, message, qrNumber := Error, "Invalid QR code. No code parameter found.", None;
        lookup := None;
        return;
      }
      lookup := codeId;
      match reply {
        case Ok(qrCode) =>
          if qrCode.name.Truthy() {
            status := AlreadyInitialized;
            message := "This QR code is already registered to: " + qrCode.name.s +
                       ". Redirecting to wedding invitation...";
            qrNumber := Some(qrCode.qrNumber);
            redirectScheduled := true;
          } else {
            status, message, qrNumber := Form, "", Some(qrCode.qrNumber);
          }
        case Err(e) =>
          status, message, qrNumber := Error, Api.ErrorText(e, "Failed to load QR code information"), None;
      }
    }

    /** `handleInputChange` on the name field. */
    method EditName(value: string)
      modifies this
      ensures formName == value
      ensures status == old(status) && message == old(message) && qrNumber == old(qrNumber)
      ensures isSubmitting == old(isSubmitting) && pending == old(pending) && redirectScheduled == old(redirectScheduled)
    {
      formName := value;
    }

    /** `handleSubmit` up to its `await`. The form (and so its submit event)
        exists only in the `Form` status, and its button is disabled while a
        submission is awaited. `sent` is the `initializeQR` call made, if any. */
    method BeginSubmit() returns (sent: Option<(string, string)>)
      requires Valid() && status == Form && !isSubmitting
      modifies this
      ensures Valid()
      ensures formName == old(formName) && redirectScheduled == old(redirectScheduled)
      ensures !HasCode(codeId) ==> sent.None? && status == old(status) && message == old(message) && qrNumber == old(qrNumber) && isSubmitting == old(isSubmitting) && pending == old(pending)
      ensures HasCode(codeId) && Trim(formName) == "" ==>
        sent.None? && status == Error && message == "Please enter your name" && qrNumber.None? && !isSubmitting
      ensures HasCode(codeId) && Trim(formName) != "" ==>
        sent == Some((codeId.value, Trim(formName))) && isSubmitting &&
        pending == Some(Submission(codeId.value, Trim(formName), old(qrNumber))) &&
        status == old(status) && message == old(message) && qrNumber == old(qrNumber)
    {
      sent := None;
      if !HasCode(codeId) {
        return;
      }
      var name := Trim(formName);
      if name == "" {
        status, message, qrNumber := Error, "Please enter your name", None;
        return;
      }
      isSubmitting, pending := true, Some(Submission(codeId.value, name, qrNumber));
      sent := Some((codeId.value, name));
    }

    /** The awaited `initializeQR` call settles with `reply` (the registered
        name on success); `finally` clears `isSubmitting` either way. */
    method SubmitSettled(reply: Result<string, Api.Exc>)
      requires Valid() && pending.Some?
      modifies this
      ensures Valid()
      ensures !isSubmitting && formName == old(formName)
      ensures reply.Ok? ==>
        status == Success && qrNumber == old(pending.value.qrNumber) && redirectScheduled &&
        message == "Welcome " + reply.value +
                   "! Your QR code has been successfully registered. Redirecting to wedding invitation..."
      ensures reply.Err? ==>
        status == Error && message == Api.ErrorText(reply.error, "Failed to initialize QR code") &&
        qrNumber.None? && redirectScheduled == old(redirectScheduled)
    {
      var submission := pending.value;
      match reply {
        case Ok(name) =>
          status := Success;
          message := "Welcome " + name +
                     "! Your QR code has been successfully registered. Redirecting to wedding invitation...";
          qrNumber := submission.qrNumber;
          redirectScheduled := true;
        case Err(e) =>
          status, message, qrNumber := Error, Api.ErrorText(e, "Failed to initialize QR code"), None;
      }
      isSubmitting, pending := false, None;
    }
  }

  /** A guest opens the page for an unregistered code and submits what they
      typed: a blank (all white space) entry makes no `initializeQR` call and
      reports the missing name; anything else sends the trimmed name, once. */
  method RegisterUnclaimedCode(codeId: string, code: Api.QRCode, typed: string)
    returns (lookup: Option<string>, sent: Option<(string, string)>, status: InitStatus)
    requires codeId != "" && !code.name.Truthy()
    ensures lookup == Some(codeId)
    ensures sent.None? <==> AllSpace(typed)
    ensures sent.None? ==> status == Error
    ensures sent.Some? ==> sent.value == (codeId, Trim(typed)) && status == Form &&
                           Trim(sent.value.1) == sent.value.1
  {
    var page := new InitPage(Some(codeId));
    lookup := page.LoadCode(Ok(code));
    page.EditName(typed);
    sent := page.BeginSubmit();
    status := page.status;
    TrimEmptyIffAllSpace(typed);
    TrimIdempotent(typed);
  }

  /** A code that already carries a name is reported as taken after one
      lookup, with its QR number, and never reaches the name form. */
  method VisitRegisteredCode(codeId: string, code: Api.QRCode)
    returns (lookup: Option<string>, status: InitStatus, qrNumber: Option<int>)
    requires codeId != "" && code.name.Truthy()
    ensures lookup == Some(codeId)
    ensures status == AlreadyInitialized && status != Form && qrNumber == Some(code.qrNumber)
  {
    var page := new InitPage(Some(codeId));
    lookup := page.LoadCode(Ok(code));
    status, qrNumber := page.status, page.qrNumber;
  }
}
