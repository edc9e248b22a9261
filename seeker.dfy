/** The job seeker's page script: the stored e-mail, the own-status list,
    the submission handler with its per-field error slots, and the message
    pop-up. The page is a `SeekerView` object; `localStorage` is its
    `userEmail` field and fetch outcomes are inputs. */
module Seeker {
  import opened Util
  import opened ApplicationModel
  import opened Browser

  // ---------------------------------------------------------------------
  // Page elements as values
  // ---------------------------------------------------------------------

  /** A `.field-error` span, the element with id `error-<field>`. */
  datatype Slot = Slot(field: string, text: string)

  /** Element ids are unique on the page. */
  predicate DistinctFields(slots: seq<Slot>) {
    forall i, j :: 0 <= i < j < |slots| ==> slots[i].field != slots[j].field
  }

  predicate HasSlot(slots: seq<Slot>, field: string) {
    exists i :: 0 <= i < |slots| && slots[i].field == field
  }

  /** `getElementById("error-" + field).textContent = text`, when the
      element exists; otherwise nothing changes. */
  function SetSlotText(slots: seq<Slot>, field: string, text: string): (r: seq<Slot>)
    ensures |r| == |slots|
    ensures forall i :: 0 <= i < |slots| ==>
      r[i] == if slots[i].field == field then Slot(field, text) else slots[i]
  {
    seq(|slots|, i requires 0 <= i < |slots| => if slots[i].field == field then Slot(field, text) else slots[i])
  }

  /** Every slot emptied, none added or removed. */
  function Cleared(slots: seq<Slot>): (r: seq<Slot>)
    ensures |r| == |slots|
    ensures forall i :: 0 <= i < |slots| ==> r[i].field == slots[i].field && r[i].text == ""
  {
    seq(|slots|, i requires 0 <= i < |slots| => Slot(slots[i].field, ""))
  }

  /** The slots after the messages of the fields in `done` were written
      into their slots. */
  function FilledWith(slots: seq<Slot>, errors: map<string, string>, done: set<string>): (r: seq<Slot>)
    requires done <= errors.Keys
    ensures |r| == |slots|
    ensures forall i :: 0 <= i < |slots| ==>
      r[i].field == slots[i].field
      && r[i].text == if slots[i].field in done then errors[slots[i].field] else slots[i].text
  {
    seq(|slots|, i requires 0 <= i < |slots| =>
      if slots[i].field in done then Slot(slots[i].field, errors[slots[i].field]) else slots[i])
  }

  /** The chosen resume file. */
  datatype ResumeFile = ResumeFile(name: string, size: nat)

  /** The form's input values. */
  datatype Form = Form(name: string, emailId: string, mobileNumber: string, experienceRange: string,
                       jobRole: string, jobLink: string, notes: string, resume: Option<ResumeFile>)

  /** The JSON `application` part of the submission. */
  datatype Submission = Submission(name: string, emailId: string, mobileNumber: string,
                                   experienceRange: string, jobRole: string, jobLink: string,
                                   notes: string, status: string)

  /** The payload built from the form: its text fields as typed, and the
      status always "Applied". */
  function Payload(f: Form): (p: Submission)
    ensures p.status == DEFAULT_STATUS && p.emailId == f.emailId
    ensures p.(status := "") == Submission(f.name, f.emailId, f.mobileNumber, f.experienceRange,
                                           f.jobRole, f.jobLink, f.notes, "")
  {
    Submission(f.name, f.emailId, f.mobileNumber, f.experienceRange, f.jobRole, f.jobLink, f.notes, DEFAULT_STATUS)
  }

  /** A pop-up message. */
  datatype Popup = Popup(message: string, isError: bool)

  /** ASCII `toLowerCase`. */
  function LowerAscii(s: string): (r: string)
    ensures |r| == |s|
    ensures forall i :: 0 <= i < |s| ==> r[i] == if 'A' <= s[i] <= 'Z' then (s[i] as int + 32) as char else s[i]
    ensures forall i :: 0 <= i < |r| ==> !('A' <= r[i] <= 'Z')
  {
    seq(|s|, i requires 0 <= i < |s| => if 'A' <= s[i] <= 'Z' then (s[i] as int + 32) as char else s[i])
  }

  /** A row of the own-status table. */
  datatype StatusRow = StatusRow(id: Option<int>, jobRole: Option<string>, jobLink: Option<string>,
                                 status: string, statusClass: string)

  /** A row shows the application's id, role, link and status; the status
      cell's class is "status-" followed by the status lower-cased. */
  function StatusRowFor(app: Record): (row: StatusRow)
    ensures row.id == app.id && row.jobRole == app.jobRole && row.jobLink == app.jobLink
    ensures row.status == app.status
    ensures |row.statusClass| == 7 + |app.status| && row.statusClass[..7] == "status-"
    ensures forall i :: 0 <= i < |app.status| ==>
      (if 'A' <= app.status[i] <= 'Z' then row.statusClass[7 + i] as int == app.status[i] as int + 32
       else row.statusClass[7 + i] == app.status[i])
  {
    StatusRow(app.id, app.jobRole, app.jobLink, app.status, "status-" + LowerAscii(app.status))
  }

  /** What the status area shows: a message or the table. */
  datatype StatusList = Message(text: string) | StatusTable(rows: seq<StatusRow>)

  const NO_EMAIL_TEXT: string := "Please submit an application to view its status."
  const NONE_FOUND_TEXT: string := "No applications found for this email address."
  const LOAD_FAILED_TEXT: string := "Could not load application status."
  const LIST_CONNECT_TEXT: string := "Could not connect to the API server to load status."

  /** The list response: an exception (no connection, or a body that is not
      JSON), a non-ok response, or the parsed body of an ok one. */
  datatype ListFetch = ListThrew | ListNotOk | ListOk(body: JsonList)

  /** What `loadStatusList` shows once a request was sent. */
  function LoadedStatusList(result: ListFetch): (v: StatusList)
    ensures v.StatusTable? <==> result.ListOk? && result.body.JsonArray? && |result.body.items| > 0
    ensures v.StatusTable? ==>
      |v.rows| == |result.body.items|
      && forall i :: 0 <= i < |v.rows| ==> v.rows[i] == StatusRowFor(result.body.items[i])
    ensures v.Message? ==> v.text != NO_EMAIL_TEXT
    ensures result.ListOk? && !v.StatusTable? ==> v == Message(NONE_FOUND_TEXT)
  {
    match result
    case ListThrew => Message(LIST_CONNECT_TEXT)
    case ListNotOk => Message(LOAD_FAILED_TEXT)
    case ListOk(json) =>
      if json.JsonArray? && |json.items| > 0 then
        StatusTable(seq(|json.items|, i requires 0 <= i < |json.items| => StatusRowFor(json.items[i])))
      else
        Message(NONE_FOUND_TEXT)
  }

  // ---------------------------------------------------------------------
  // Submission outcome
  // ---------------------------------------------------------------------

  /** The POST response: an exception, or the status code with, for a 400,
      the parsed field-to-message object (None when the body is not a JSON
      object, so that `response.json()` or `Object.keys` throws). */
  datatype SubmitFetch = SubmitThrew | SubmitResponse(status: int, errors: Option<map<string, string>>)

  const NO_RESUME_TEXT: string := "Resume file is required."
  const NO_RESUME_MESSAGE: string := "Submission failed: Please select a resume file."
  const SUCCESS_MESSAGE: string := "Application submitted successfully! Your Job ID is now visible in the status list below."
  const CONFLICT_MESSAGE: string := "Failed to submit application. Email ID was already exists. Check your status below."
  const FIELDS_FALLBACK_MESSAGE: string := "Submission failed. Please check the highlighted fields."
  const SERVER_ERROR_MESSAGE: string := "Failed to submit application. Server returned an unexpected error."
  const CONNECT_MESSAGE: string := "Could not connect to the API server. Please check if the backend is running."

  /** `response.ok`. */
  predicate IsOk(r: SubmitFetch) {
    r.SubmitResponse? && 200 <= r.status < 300
  }

  /** A 400 whose body holds field messages. */
  predicate HasFieldErrors(r: SubmitFetch) {
    r.SubmitResponse? && r.status == 400 && r.errors.Some?
  }

  /** The message the source shows for a response, as written: success
      for ok, the conflict text for 409, the server's "general" text (or a
      fallback) for a 400 with field messages, the generic failure for
      other codes, and the connectivity text when anything threw -- which
      includes a 400 whose body is not JSON, since `response.json()` then
      throws inside the same `try`. */
  function SubmitPopupAsWritten(r: SubmitFetch): (p: Popup)
    ensures p.isError <==> !IsOk(r)
    ensures r.SubmitResponse? && r.status == 400 && r.errors.None? ==> p.message == CONNECT_MESSAGE
  {
    match r
    case SubmitThrew => Popup(CONNECT_MESSAGE, true)
    case SubmitResponse(code, errors) =>
      if 200 <= code < 300 then Popup(SUCCESS_MESSAGE, false)
      else if code == 409 then Popup(CONFLICT_MESSAGE, true)
      else if code == 400 then
        match errors
        case None => Popup(CONNECT_MESSAGE, true)
        case Some(e) => Popup(FieldsMessage(errors), true)
      else Popup(SERVER_ERROR_MESSAGE, true)
  }

  /** `errors.general || fallback`; a body without field messages has no
      "general" entry either. */
  function FieldsMessage(errors: Option<map<string, string>>): (message: string)
    ensures message != ""
    ensures errors.Some? && "general" in errors.value && errors.value["general"] != "" ==>
      message == errors.value["general"]
    ensures !(errors.Some? && "general" in errors.value && errors.value["general"] != "") ==>
      message == FIELDS_FALLBACK_MESSAGE
  {
    if errors.Some? && "general" in errors.value && errors.value["general"] != "" then errors.value["general"]
    else FIELDS_FALLBACK_MESSAGE
  }

  /** The message shown for a response, corrected: a 400 whose body holds no
      field messages shows the validation fallback instead of claiming the
      server is unreachable. The connectivity text is then shown only when
      the request itself threw. */
  function SubmitPopup(r: SubmitFetch): (p: Popup)
    ensures p.isError <==> !IsOk(r)
    ensures IsOk(r) ==> p.message == SUCCESS_MESSAGE
    ensures r.SubmitResponse? && r.status == 409 ==> p.message == CONFLICT_MESSAGE
    ensures r.SubmitResponse? && r.status == 400 ==> p.message == FieldsMessage(r.errors)
    ensures r.SubmitResponse? && !IsOk(r) && r.status != 409 && r.status != 400 ==> p.message == SERVER_ERROR_MESSAGE
    ensures r.SubmitThrew? ==> p.message == CONNECT_MESSAGE
    ensures r.SubmitResponse? && p.message == CONNECT_MESSAGE ==> r.status == 400 && r.errors.Some?
    ensures r != SubmitResponse(400, None) ==> p == SubmitPopupAsWritten(r)
  {
    match r
    case SubmitThrew => Popup(CONNECT_MESSAGE, true)
    case SubmitResponse(code, errors) =>
      if 200 <= code < 300 then Popup(SUCCESS_MESSAGE, false)
      else if code == 409 then Popup(CONFLICT_MESSAGE, true)
      else if code == 400 then Popup(FieldsMessage(errors), true)
      else Popup(SERVER_ERROR_MESSAGE, true)
  }

  /** Requests the page sends, in order. */
  datatype Request = GetTotal | GetByEmail(email: string) | PostApplication(application: Submission, resume: ResumeFile)

  /** Everything the page shows or keeps. */
  datatype PageState = PageState(userEmail: Option<string>, slots: seq<Slot>, form: Form, popups: seq<Popup>,
                                 statusList: StatusList, totalText: string, requests: seq<Request>)

  class SeekerView {
    /** `localStorage.getItem("userEmail")`. */
    var userEmail: Option<string>
    var slots: seq<Slot>
    var form: Form
    var popups: seq<Popup>
    var statusList: StatusList
    var totalText: string
    var requests: seq<Request>
    /** The values `form.reset()` restores. */
    const blankForm: Form

    function State(): PageState
      reads this
    {
      PageState(userEmail, slots, form, popups, statusList, totalText, requests)
    }

    /** The page has unique element ids and an `error-resume` slot. */
    ghost predicate Valid()
      reads this
    {
      DistinctFields(slots) && HasSlot(slots, "resume")
    }

    constructor (storedEmail: Option<string>, slots: seq<Slot>, blankForm: Form)
      requires DistinctFields(slots) && HasSlot(slots, "resume")
      ensures Valid() && this.blankForm == blankForm
      ensures State() == PageState(storedEmail, slots, blankForm, [], Message(""), "", [])
    {
      userEmail := storedEmail;
      this.slots := slots;
      form := blankForm;
      popups := [];
      statusList := Message("");
      totalText := "";
      requests := [];
      this.blankForm := blankForm;
    }

    /** `getCurrentEmail`: the stored e-mail, or "" when none is stored. */
    function CurrentEmail(): (email: string)
      reads this
      ensures userEmail.None? ==> email == ""
      ensures userEmail.Some? ==> email == userEmail.value
    {
      userEmail.GetOr("")
    }

    /** `setCurrentEmail`; reading it back gives the value set. */
    method SetCurrentEmail(email: string)
      modifies this
      ensures CurrentEmail() == email
      ensures State() == old(State()).(userEmail := Some(email))
    {
      userEmail := Some(email);
    }

    /** `showMessage`: removes every earlier pop-up, then appends the new
        one, so exactly one is present. */
    method ShowMessage(message: string, isError: bool)
      modifies this
      ensures popups == [Popup(message, isError)]
      ensures State() == old(State()).(popups := [Popup(message, isError)])
    {
      while popups != []
        invariant State() == old(State()).(popups := popups)
        decreases |popups|
      {
        popups := popups[1..];
      }
      popups := popups + [Popup(message, isError)];
    }

    /** `clearFieldErrors`: empties every error slot. */
    method ClearFieldErrors()
      requires Valid()
      modifies this
      ensures Valid()
      ensures slots == Cleared(old(slots))
      ensures State() == old(State()).(slots := slots)
    {
      for i := 0 to |slots|
        invariant |slots| == |old(slots)|
        invariant forall k :: 0 <= k < |slots| ==> slots[k].field == old(slots)[k].field
        invariant forall k :: 0 <= k < i ==> slots[k].text == ""
        invariant forall k :: i <= k < |slots| ==> slots[k] == old(slots)[k]
        invariant State() == old(State()).(slots := slots)
      {
        slots := slots[i := Slot(slots[i].field, "")];
      }
    }

    /** The 400 branch: writes each message into the slot named by its key,
        where such a slot exists. */
    method FillFieldErrors(errors: map<string, string>)
      requires Valid()
      modifies this
      ensures Valid()
      ensures slots == FilledWith(old(slots), errors, errors.Keys)
      ensures State() == old(State()).(slots := slots)
    {
      var keys := errors.Keys;
      while keys != {}
        invariant keys <= errors.Keys
        invariant slots == FilledWith(old(slots), errors, errors.Keys - keys)
        invariant State() == old(State()).(slots := slots)
        decreases keys
      {
        var key :| key in keys;
        slots := SetSlotText(slots, key, errors[key]);
        keys := keys - {key};
      }
    }

    /** `loadTotalStatistics`. */
    method LoadTotalStatistics(total: TextFetch)
      modifies this
      ensures totalText == (if total.TextThrew? then "0" else TotalText(total.text))
      ensures State() == old(State()).(totalText := totalText, requests := old(requests) + [GetTotal])
    {
      requests := requests + [GetTotal];
      totalText := if total.TextThrew? then "0" else TotalText(total.text);
    }

    /** `loadStatusList`: with no stored e-mail, shows the prompt and sends
        nothing; otherwise asks for exactly the stored e-mail. */
    method LoadStatusList(result: ListFetch)
      modifies this
      ensures old(CurrentEmail()) == "" ==> State() == old(State()).(statusList := Message(NO_EMAIL_TEXT))
      ensures old(CurrentEmail()) != "" ==>
        State() == old(State()).(statusList := LoadedStatusList(result),
                                 requests := old(requests) + [GetByEmail(old(CurrentEmail()))])
    {
      var email := CurrentEmail();
      if email == "" {
        statusList := Message(NO_EMAIL_TEXT);
        return;
      }
      requests := requests + [GetByEmail(email)];
      statusList := LoadedStatusList(result);
    }

    /** `handleFormSubmit`. Clears every error slot first. Without a resume:
        fills `error-resume`, shows an error, stores nothing and sends
        nothing. With one: stores the form's e-mail, posts the payload, and
        dispatches on the response as the script is written (a 400 without
        a JSON body ends in the connectivity message); only an ok response
        resets the form and reloads the total and then the status list. */
    method HandleFormSubmit(response: SubmitFetch, total: TextFetch, list: ListFetch)
      requires Valid()
      modifies this
      ensures Valid()
      ensures old(form).resume.None? ==>
        State() == old(State()).(slots := SetSlotText(Cleared(old(slots)), "resume", NO_RESUME_TEXT),
                                 popups := [Popup(NO_RESUME_MESSAGE, true)])
      ensures old(form).resume.Some? ==>
        var post := PostApplication(Payload(old(form)), old(form).resume.value);
        && userEmail == Some(old(form).emailId)
        && popups == [SubmitPopupAsWritten(response)]
        && slots == (if HasFieldErrors(response) then FilledWith(Cleared(old(slots)), response.errors.value, response.errors.value.Keys)
                     else Cleared(old(slots)))
        && if IsOk(response) then
             && form == blankForm
             && totalText == (if total.TextThrew? then "0" else TotalText(total.text))
             && (old(form).emailId == "" ==>
                   statusList == Message(NO_EMAIL_TEXT) && requests == old(requests) + [post, GetTotal])
             && (old(form).emailId != "" ==>
                   statusList == LoadedStatusList(list)
                   && requests == old(requests) + [post, GetTotal, GetByEmail(old(form).emailId)])
           else
             && form == old(form) && totalText == old(totalText) && statusList == old(statusList)
             && requests == old(requests) + [post]
    {
      ClearFieldErrors();
      if form.resume.None? {
        slots := SetSlotText(slots, "resume", NO_RESUME_TEXT);
        ShowMessage(NO_RESUME_MESSAGE, true);
        return;
      }
      var emailValue := form.emailId;
      SetCurrentEmail(emailValue);
      requests := requests + [PostApplication(Payload(form), form.resume.value)];
      var popup := SubmitPopupAsWritten(response);
      if IsOk(response) {
        ShowMessage(popup.message, popup.isError);
        form := blankForm;
        LoadTotalStatistics(total);
        LoadStatusList(list);
      } else if HasFieldErrors(response) {
        FillFieldErrors(response.errors.value);
        ShowMessage(popup.message, popup.isError);
      } else {
        ShowMessage(popup.message, popup.isError);
      }
    }
  }

  /** Without a resume, the required-file message shows in exactly one
      slot: `error-resume`, which the page has once. */
  lemma ResumeErrorShownOnce(slots: seq<Slot>)
    requires DistinctFields(slots) && HasSlot(slots, "resume")
    ensures var r := SetSlotText(Cleared(slots), "resume", NO_RESUME_TEXT);
      && (exists i :: 0 <= i < |r| && r[i] == Slot("resume", NO_RESUME_TEXT))
      && (forall i :: 0 <= i < |r| && r[i].text != "" ==> r[i] == Slot("resume", NO_RESUME_TEXT))
      && (forall i, j :: 0 <= i < j < |r| ==> r[i].text == "" || r[j].text == "")
  {
    var r := SetSlotText(Cleared(slots), "resume", NO_RESUME_TEXT);
    var k :| 0 <= k < |slots| && slots[k].field == "resume";
    assert r[k] == Slot("resume", NO_RESUME_TEXT);
  }

  /** A 400 fills exactly the slots its keys name: those show the server's
      message, every other slot stays empty after the clearing. */
  lemma FieldErrorsFillNamedSlots(slots: seq<Slot>, errors: map<string, string>, i: int)
    requires 0 <= i < |slots|
    ensures var r := FilledWith(Cleared(slots), errors, errors.Keys);
      && r[i].field == slots[i].field
      && (slots[i].field in errors ==> r[i].text == errors[slots[i].field])
      && (slots[i].field !in errors ==> r[i].text == "")
  {
  }
}
