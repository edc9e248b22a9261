/** A discrepancy between the seeker script and the create endpoint, shown
    end to end on a zero-byte resume. */
module Findings {
  import opened Util
  import opened ApplicationModel
  import opened ApplicationStore
  import Controller
  import Seeker
  import Browser

  /** The server receives the page's payload as `application`, and the
      record is valid. A zero-byte resume passes the script's `!resumeFile` check (a File
      object is truthy whatever its size), so the page posts the form. The
      endpoint answers a valid record with an empty resume by 400 with an
      empty body, and the page as written then reports that the server
      cannot be reached. The corrected dispatch reports a validation
      failure instead. */
  method ZeroByteResumeReportedAsUnreachable(f: Seeker.Form, fileName: string, slots: seq<Seeker.Slot>,
                                             t: Table, isEmail: string -> bool, application: Application,
                                             token: string, copySucceeds: bool,
                                             total: Browser.TextFetch, list: Seeker.ListFetch)
    returns (server: Controller.CreateResult, requests: seq<Seeker.Request>, popups: seq<Seeker.Popup>)
    requires f.resume == Some(Seeker.ResumeFile(fileName, 0))
    requires Seeker.DistinctFields(slots) && Seeker.HasSlot(slots, "resume")
    requires Controller.StoreInvariant(t, isEmail)
    requires application.Snapshot() ==
      Record(None, Some(f.name), Some(f.emailId), Some(f.mobileNumber), Some(f.experienceRange), None,
             Some(f.jobRole), Some(f.jobLink), Some(f.notes), DEFAULT_STATUS, application.applicationTimestamp)
    requires IsValid(application.Snapshot(), isEmail)
    modifies application
    ensures requests == [Seeker.PostApplication(Seeker.Payload(f), Seeker.ResumeFile(fileName, 0))]
    ensures server == Controller.CreateResult.MissingResume && server.StatusCode() == 400
    ensures popups == [Seeker.Popup(Seeker.CONNECT_MESSAGE, true)]
    ensures Seeker.SubmitPopup(Seeker.SubmitResponse(server.StatusCode(), None))
            == Seeker.Popup(Seeker.FIELDS_FALLBACK_MESSAGE, true)
  {
    var page := new Seeker.SeekerView(None, slots, f);
    var api := new Controller.ApplicationController(t, isEmail);
    server := api.CreateApplication(application, Some(Controller.ResumeUpload(Some(fileName), 0)), token, copySucceeds);
    page.HandleFormSubmit(Seeker.SubmitResponse(server.StatusCode(), None), total, list);
    requests := page.requests;
    popups := page.popups;
  }
}
