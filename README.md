# Job application tracker: a Dafny model

The job application tracker is a Spring Boot REST API for job applications
with two browser pages on top of it. A job seeker submits an application
with a resume file and then watches its status. A recruiter sees every
application, the counts by status, and moves an application to Interview,
Offer or Rejected after a confirmation.

This project models the core of that system and proves properties of it:

- `ApplicationModel` (`application.dfy`): the `Application` entity as a
  class whose setters change one field each, and its Bean Validation
  constraints as a function from a record to its list of violations.
- `FileStorage` (`file_storage.dfy`): how `storeFile` names a stored resume.
  The name is a generated token followed by the extension of the original
  file name. The token and the outcome of the disk copy are inputs.
- `ApplicationStore` (`store.dfy`): the repository table as a map from id to
  record, plus the pure parts of the controller. These are the e-mail
  lookup, the counts by status, the validation-error map and the random id
  generator.
- `Controller` (`controller.dfy`): the REST controller as a class over the
  table, with one method per modelled endpoint. Its invariant says that
  e-mails are unique, that every record is valid and has a stored resume,
  and that keys match ids.
- `Browser`, `Recruiter`, `Seeker` (`browser.dfy`, `recruiter.dfy`,
  `seeker.dfy`): the two page scripts as classes whose fields are what the
  page shows. What each `fetch` chain yields is an input value, and every
  request a page sends is appended to a `requests` log.
- `Findings` (`findings.dfy`): one discrepancy, shown end to end for a zero-byte resume.

Things outside the program become parameters. The `@Email` validator is a
function `isEmail`, because it is a library validator. The random id draw is
a nondeterministic choice. The UUID, the clock reading, the success of the
file copy and every HTTP response seen by the scripts are passed in as
arguments.

Where the written description of the system and the code differ, the model
follows the code:
- `status` is any string, not a fixed set of values. The update endpoint
  stores exactly the string it receives.
- A DELETE endpoint exists. It answers 204 whether or not the id exists.
- The recruiter page shows the total exactly as the server's body text.
  Only an empty body is shown as "0".
- The seeker page shows the "cannot connect" message for a 400 answer
  whose body is not JSON (see Findings).
- `@NotBlank` follows Hibernate Validator: a value is blank when
  `String.trim` leaves nothing, so only characters up to U+0020 count as
  blank.

## Model

| member | source | states |
|---|---|---|
| `ApplicationModel.Application.constructor` | job-application-tracker-api/src/main/java/com/application/tracker/job_application_tracker_api/model/Application.java:55-63 | a new bean has every field null except `status`, which is "Applied", and the creation timestamp |
| `ApplicationModel.Application.SetId` | job-application-tracker-api/src/main/java/com/application/tracker/job_application_tracker_api/model/Application.java:70-72 | changes `id` only; reading it back gives the value set |
| `ApplicationModel.Application.SetName` | job-application-tracker-api/src/main/java/com/application/tracker/job_application_tracker_api/model/Application.java:78-80 | changes `name` only; reading it back gives the value set |
| `ApplicationModel.Application.SetEmailId` | job-application-tracker-api/src/main/java/com/application/tracker/job_application_tracker_api/model/Application.java:86-88 | changes `emailId` only; reading it back gives the value set |
| `ApplicationModel.Application.SetMobileNumber` | job-application-tracker-api/src/main/java/com/application/tracker/job_application_tracker_api/model/Application.java:94-96 | changes `mobileNumber` only; reading it back gives the value set |
| `ApplicationModel.Application.SetExperienceRange` | job-application-tracker-api/src/main/java/com/application/tracker/job_application_tracker_api/model/Application.java:102-104 | changes `experienceRange` only; reading it back gives the value set |
| `ApplicationModel.Application.SetResumeFilename` | job-application-tracker-api/src/main/java/com/application/tracker/job_application_tracker_api/model/Application.java:110-112 | changes `resumeFilename` only; reading it back gives the value set |
| `ApplicationModel.Application.SetJobRole` | job-application-tracker-api/src/main/java/com/application/tracker/job_application_tracker_api/model/Application.java:118-120 | changes `jobRole` only; reading it back gives the value set |
| `ApplicationModel.Application.SetJobLink` | job-application-tracker-api/src/main/java/com/application/tracker/job_application_tracker_api/model/Application.java:126-128 | changes `jobLink` only; reading it back gives the value set |
| `ApplicationModel.Application.SetNotes` | job-application-tracker-api/src/main/java/com/application/tracker/job_application_tracker_api/model/Application.java:134-136 | changes `notes` only; reading it back gives the value set |
| `ApplicationModel.Application.SetStatus` | job-application-tracker-api/src/main/java/com/application/tracker/job_application_tracker_api/model/Application.java:142-144 | changes `status` only; reading it back gives the value set |
| `ApplicationModel.Application.SetApplicationTimestamp` | job-application-tracker-api/src/main/java/com/application/tracker/job_application_tracker_api/model/Application.java:150-152 | changes the timestamp only; reading it back gives the value set |
| `ApplicationModel.NotBlank` | job-application-tracker-api/src/main/java/com/application/tracker/job_application_tracker_api/model/Application.java:23-24 | `@NotBlank` reports its field exactly when the value is null or holds only characters up to U+0020, which is what `String.trim` removes |
| `ApplicationModel.Violations` | job-application-tracker-api/src/main/java/com/application/tracker/job_application_tracker_api/model/Application.java:23-47 | every reported violation names one of the five constrained fields |
| `ApplicationModel.IsValid` | job-application-tracker-api/src/main/java/com/application/tracker/job_application_tracker_api/model/Application.java:23-47 | `@Valid` accepts a record iff name, e-mail, mobile number, experience range and job role are non-blank, the e-mail passes `@Email` and the mobile number matches `^\d{10}$` |
| `ApplicationModel.ValidMobileIsTenDigits` | job-application-tracker-api/src/main/java/com/application/tracker/job_application_tracker_api/model/Application.java:32-33 | a valid mobile number is exactly ten characters, each 0-9 |
| `ApplicationModel.BlankMobileReportedTwice` | job-application-tracker-api/src/main/java/com/application/tracker/job_application_tracker_api/model/Application.java:32-33 | an empty mobile number fails both `@NotBlank` and `@Pattern`, so that field has two messages |
| `ApplicationModel.UnconstrainedFieldsIgnored` | job-application-tracker-api/src/main/java/com/application/tracker/job_application_tracker_api/model/Application.java:41-59 | `id`, `resumeFilename`, `jobLink`, `notes`, `status` and the timestamp never affect validation |
| `FileStorage.LastIndexOf` | job-application-tracker-api/src/main/java/com/application/tracker/job_application_tracker_api/service/FileStorageService.java:36 | the result is -1 iff the character is absent, otherwise a position holding it with none after it |
| `FileStorage.Extension` | job-application-tracker-api/src/main/java/com/application/tracker/job_application_tracker_api/service/FileStorageService.java:32-37 | a null name or a name without '.' gives ""; otherwise a suffix of the name that starts with '.' and holds no other '.' |
| `FileStorage.ExtensionIsUniqueDotSuffix` | job-application-tracker-api/src/main/java/com/application/tracker/job_application_tracker_api/service/FileStorageService.java:35-36 | the extension is the only suffix starting with '.' that holds no other '.' |
| `FileStorage.StoredName` | job-application-tracker-api/src/main/java/com/application/tracker/job_application_tracker_api/service/FileStorageService.java:40 | the stored name starts with the generated token and ends with the extension |
| `FileStorage.StoredNameKeepsExtension` | job-application-tracker-api/src/main/java/com/application/tracker/job_application_tracker_api/service/FileStorageService.java:33-40 | for a token without '.', the extension of the stored name is the original's extension |
| `FileStorage.UuidHasNoDot` | job-application-tracker-api/src/main/java/com/application/tracker/job_application_tracker_api/service/FileStorageService.java:40 | a UUID text has no '.', so a stored name keeps the original's extension |
| `FileStorage.StoreFile` | job-application-tracker-api/src/main/java/com/application/tracker/job_application_tracker_api/service/FileStorageService.java:31-53 | a name is returned iff the copy succeeded; a failed copy raises the "Could not store file" error instead |
| `ApplicationStore.FindByEmailId` | job-application-tracker-api/src/main/java/com/application/tracker/job_application_tracker_api/controller/JobApplicationController.java:97 | finds a record iff some stored record has that e-mail, and what it finds is stored and has that e-mail |
| `ApplicationStore.ApplicationsByEmail` | job-application-tracker-api/src/main/java/com/application/tracker/job_application_tracker_api/controller/JobApplicationController.java:136-148 | the list has at most one element, exactly one iff the e-mail is stored, and every element carries the queried e-mail |
| `ApplicationStore.CountByStatus` | job-application-tracker-api/src/main/java/com/application/tracker/job_application_tracker_api/controller/JobApplicationController.java:221-232 | the keys are exactly the statuses of stored records and every count is at least 1 and counts those records |
| `ApplicationStore.SumOfCounts` | job-application-tracker-api/src/main/java/com/application/tracker/job_application_tracker_api/controller/JobApplicationController.java:221-232 | summed over any set of statuses, the counts give the number of records with one of them |
| `ApplicationStore.CountsSumToTotal` | job-application-tracker-api/src/main/java/com/application/tracker/job_application_tracker_api/controller/JobApplicationController.java:210-232 | the counts by status add up to the total count |
| `ApplicationStore.FirstMessages` | job-application-tracker-api/src/main/java/com/application/tracker/job_application_tracker_api/controller/JobApplicationController.java:77-82 | one entry per failing field, holding the message of that field's first error |
| `ApplicationStore.ValidationErrorMap` | job-application-tracker-api/src/main/java/com/application/tracker/job_application_tracker_api/controller/JobApplicationController.java:76-85 | keys are the failing fields plus "general"; "general" holds the fixed text; every other field keeps its first message |
| `ApplicationStore.ErrorMapOfViolations` | job-application-tracker-api/src/main/java/com/application/tracker/job_application_tracker_api/controller/JobApplicationController.java:74-85 | for a submitted record the map names only constrained fields, and is just {"general"} iff the record is valid |
| `ApplicationStore.GenerateUniqueId` | job-application-tracker-api/src/main/java/com/application/tracker/job_application_tracker_api/controller/JobApplicationController.java:64-71 | returns an id in 1000..9999 that is not taken; callable only while such an id exists |
| `Controller.CreateResult.StatusCode` | job-application-tracker-api/src/main/java/com/application/tracker/job_application_tracker_api/controller/JobApplicationController.java:74-114 | 201 only for a saved record, 400 for a validation failure or an empty resume, 409 for a stored e-mail, 500 when storing the file threw |
| `Controller.UpdateResult.StatusCode` | job-application-tracker-api/src/main/java/com/application/tracker/job_application_tracker_api/controller/JobApplicationController.java:157-164 | 200 with the updated record, 404 for an unknown id |
| `Controller.ApplicationController.constructor` | job-application-tracker-api/src/main/java/com/application/tracker/job_application_tracker_api/controller/JobApplicationController.java:59-62 | starts from a repository table that satisfies the store invariant |
| `Controller.ApplicationController.CreateApplication` | job-application-tracker-api/src/main/java/com/application/tracker/job_application_tracker_api/controller/JobApplicationController.java:87-114 | checks in order validation (400 with the error map), a non-empty resume (400), an unused e-mail (409), the file copy (500); only a 201 changes the table, adding exactly one record under a fresh id with the stored file name; the invariant (unique e-mails, valid records) is kept |
| `Controller.ApplicationController.GetApplicationsByEmail` | job-application-tracker-api/src/main/java/com/application/tracker/job_application_tracker_api/controller/JobApplicationController.java:135-148 | a list of zero or one record, each with the queried e-mail |
| `Controller.ApplicationController.UpdateApplicationStatus` | job-application-tracker-api/src/main/java/com/application/tracker/job_application_tracker_api/controller/JobApplicationController.java:150-165 | an existing id gets exactly the requested status, nothing else changes; an unknown id is a 404 with the table unchanged |
| `Controller.ApplicationController.DeleteApplication` | job-application-tracker-api/src/main/java/com/application/tracker/job_application_tracker_api/controller/JobApplicationController.java:167-176 | the record with that id is gone, all others stay; always 204 |
| `Controller.ApplicationController.GetTotalApplications` | job-application-tracker-api/src/main/java/com/application/tracker/job_application_tracker_api/controller/JobApplicationController.java:210-219 | the number of stored records |
| `Controller.ApplicationController.GetApplicationsByStatus` | job-application-tracker-api/src/main/java/com/application/tracker/job_application_tracker_api/controller/JobApplicationController.java:221-232 | each count is at least 1 and belongs to a stored status; the counts add up to the total |
| `Browser.TotalText` | job-application-tracker-api/src/main/resources/static/recruiter.js:68 | an empty total body shows "0", any other body shows as it is |
| `Recruiter.CountOrZero` | job-application-tracker-api/src/main/resources/static/recruiter.js:74-76 | a missing key reads as 0 |
| `Recruiter.StatisticsFigures` | job-application-tracker-api/src/main/resources/static/recruiter.js:64-83 | an exception shows 0, 0, 0; otherwise selected is Selected + Offer and rejected is Rejected, missing keys as 0, and a non-ok response as {} |
| `Recruiter.NotOkCountsShowZero` | job-application-tracker-api/src/main/resources/static/recruiter.js:71 | a non-ok by-status response shows selected and rejected as 0 |
| `Recruiter.OnlyThreeKeysMatter` | job-application-tracker-api/src/main/resources/static/recruiter.js:73-76 | keys other than Selected, Offer and Rejected never change the figures |
| `Recruiter.SummaryExample` | job-application-tracker-api/src/main/resources/static/recruiter.js:73-76 | Selected 3, Offer 2, Rejected 1 and total "10" show 10, 5 and 1 |
| `Recruiter.StatusClassSuffix` | job-application-tracker-api/src/main/resources/static/recruiter.js:137 | the suffix is made only of ASCII letters and is no longer than the status |
| `Recruiter.StatusClassSuffixAppend` | job-application-tracker-api/src/main/resources/static/recruiter.js:137 | the filter distributes over concatenation, so letters keep their order |
| `Recruiter.LettersKept` | job-application-tracker-api/src/main/resources/static/recruiter.js:137 | a status made only of letters is kept unchanged |
| `Recruiter.StatusClassSuffixIdempotent` | job-application-tracker-api/src/main/resources/static/recruiter.js:137 | filtering twice is filtering once |
| `Recruiter.LetterCountsPreserved` | job-application-tracker-api/src/main/resources/static/recruiter.js:137 | every letter occurs as often as in the status, every other character not at all |
| `Recruiter.RowFor` | job-application-tracker-api/src/main/resources/static/recruiter.js:115-141 | a row keeps its application and gets the class `status-cell-` plus the letters of its status |
| `Recruiter.LoadedBody` | job-application-tracker-api/src/main/resources/static/recruiter.js:191-207 | an exception shows the error row; rows iff the result is a non-empty array; any other result shows "No applications yet." |
| `Recruiter.StatisticsRequests` | job-application-tracker-api/src/main/resources/static/recruiter.js:66-70 | the total is asked first, and the list is never asked by the statistics load |
| `Recruiter.RecruiterView.constructor` | job-application-tracker-api/src/main/resources/static/recruiter.js:3-14 | an empty page with a hidden modal and no request sent |
| `Recruiter.RecruiterView.LoadStatistics` | job-application-tracker-api/src/main/resources/static/recruiter.js:64-83 | the three figures are overwritten with the statistics figures; table and modal untouched |
| `Recruiter.RecruiterView.RenderApplications` | job-application-tracker-api/src/main/resources/static/recruiter.js:111-188 | the table is cleared, then holds exactly one row per application in input order |
| `Recruiter.RecruiterView.LoadApplications` | job-application-tracker-api/src/main/resources/static/recruiter.js:191-207 | sends one list request; the body then shows rows for a non-empty array, "No applications yet." for any other JSON, the error row for an exception |
| `Recruiter.RecruiterView.ShowModal` | job-application-tracker-api/src/main/resources/static/recruiter.js:16-38 | the modal shows the message, with Cancel/Confirm exactly when a change is pending |
| `Recruiter.RecruiterView.UpdateApplicationStatus` | job-application-tracker-api/src/main/resources/static/recruiter.js:86-87 | only opens the confirmation; no request is sent |
| `Recruiter.RecruiterView.CloseModal` | job-application-tracker-api/src/main/resources/static/recruiter.js:20-23 | Close or Cancel hides the modal and sends nothing |
| `Recruiter.RecruiterView.Confirm` | job-application-tracker-api/src/main/resources/static/recruiter.js:26-33 | the PATCH is sent only from a pending confirmation; an ok response reloads the list and the statistics once each, any other outcome reloads neither and shows the failure |
| `Seeker.Payload` | job-application-tracker-api/target/classes/static/seeker.js:113-122 | the payload carries the form's text fields and always status "Applied" |
| `Seeker.LowerAscii` | job-application-tracker-api/target/classes/static/seeker.js:77 | same length, upper-case ASCII letters lowered, no upper-case ASCII letter left |
| `Seeker.StatusRowFor` | job-application-tracker-api/target/classes/static/seeker.js:72-79 | a row shows the id, role, link and status of its application; the status class is "status-" plus the status with A-Z lowered |
| `Seeker.LoadedStatusList` | job-application-tracker-api/target/classes/static/seeker.js:55-92 | a table iff the ok result is a non-empty array, one row per application; an empty ok result shows the "No applications found" text, never the no-email text |
| `Seeker.SetSlotText` | job-application-tracker-api/target/classes/static/seeker.js:143-146 | the slot named by the key gets the text and every other slot is unchanged; with no such slot nothing changes |
| `Seeker.SubmitPopupAsWritten` | job-application-tracker-api/target/classes/static/seeker.js:128-156 | a 400 whose body is not JSON shows the connectivity text |
| `Seeker.FieldsMessage` | job-application-tracker-api/target/classes/static/seeker.js:149 | the server's non-empty "general" text, else the fallback |
| `Seeker.SubmitPopup` | job-application-tracker-api/target/classes/static/seeker.js:128-156 | ok shows success, 409 the conflict text, 400 the general text or fallback, other codes the generic failure, an exception the connectivity text; agrees with the source except on a 400 without a JSON body |
| `Seeker.SeekerView.constructor` | job-application-tracker-api/target/classes/static/seeker.js:1-5 | the page starts with the stored e-mail, its error slots and the blank form |
| `Seeker.SeekerView.CurrentEmail` | job-application-tracker-api/target/classes/static/seeker.js:31-33 | the stored e-mail, or "" when none is stored |
| `Seeker.SeekerView.SetCurrentEmail` | job-application-tracker-api/target/classes/static/seeker.js:34-36 | only the stored e-mail changes, and reading it back gives the value set |
| `Seeker.SeekerView.ShowMessage` | job-application-tracker-api/target/classes/static/seeker.js:8-22 | after the call exactly one pop-up is present, the new one; nothing else changes |
| `Seeker.SeekerView.ClearFieldErrors` | job-application-tracker-api/target/classes/static/seeker.js:24-28 | every error slot is emptied, no slot added or removed |
| `Seeker.SeekerView.FillFieldErrors` | job-application-tracker-api/target/classes/static/seeker.js:142-147 | each message lands in the slot its key names, where one exists; other slots are untouched |
| `Seeker.SeekerView.LoadTotalStatistics` | job-application-tracker-api/target/classes/static/seeker.js:38-46 | sends one total request; an exception or empty body shows "0" |
| `Seeker.SeekerView.LoadStatusList` | job-application-tracker-api/target/classes/static/seeker.js:48-93 | with no stored e-mail shows the prompt and sends nothing; otherwise sends one request for exactly the stored e-mail |
| `Seeker.SeekerView.HandleFormSubmit` | job-application-tracker-api/target/classes/static/seeker.js:98-157 | clears all slots first; without a resume fills `error-resume`, stores and sends nothing; with one stores the form e-mail and posts status "Applied"; the pop-up is the as-written dispatch, so a 400 without a JSON body shows the connectivity text; only ok resets the form and reloads total then list; 409 leaves the form intact; a 400 with field messages fills exactly the named slots |
| `Seeker.ResumeErrorShownOnce` | job-application-tracker-api/target/classes/static/seeker.js:104-106 | without a resume, "Resume file is required." shows in exactly one slot, `error-resume`, and every other slot is empty |
| `Seeker.FieldErrorsFillNamedSlots` | job-application-tracker-api/target/classes/static/seeker.js:139-147 | after a 400 a slot shows the server's message iff its key is in the body, every other slot is empty |
| `Findings.ZeroByteResumeReportedAsUnreachable` | job-application-tracker-api/target/classes/static/seeker.js:104-156 | for a valid payload with a zero-byte resume, the page posts it, the endpoint answers 400 with no body, the page shows the connectivity text, and the corrected dispatch would show the validation fallback |

## Left out

- The page endpoints `candidatePage` and `hrPage`, `downloadFile`, `getAllApplications` and `getApplicationById` are not modelled. They only read the table or serve files.
- The `Application` getters are not separate members. They are the fields of `ApplicationModel.Application.Snapshot`.
- `status` and `applicationTimestamp` are never null in the model. A request body can set them to JSON null, which the database then rejects with a 500. That path is not modelled.
- The 500-character limit of `notes` and other database errors on save are not modelled. Neither are `@GeneratedValue(IDENTITY)` and the id assigned before `save`. The model stores the record under the drawn id.
- `ApplicationStore.GenerateUniqueId`: each draw is a choice among ids not drawn before, not a uniform random draw with repeats. Both give the same set of possible results. When every id is taken the source loops forever. The model reports this as `NeverResponds` and draws nothing.
- `ApplicationModel.Violations`: the validator's order of violations is unspecified. The model uses declaration order, which only decides the message kept when a field fails twice.
- `Seeker.LowerAscii`: JavaScript `toLowerCase` is modelled for ASCII letters only.
- The `@Email` check is a parameter and is not modelled further.
- `Controller.ApplicationController.DeleteApplication`: the 500 answer when the repository throws is not modelled.
- An update request body without a `status` key deserialises to status "Applied". The model takes the resulting status string as its argument.
- Timers are not modelled: the seeker's 10-second polling, the 5-second hiding of a pop-up and the page-load handlers.
- The theme toggle, `localStorage` beyond the stored e-mail, HTML escaping and the row cells other than the status class are not modelled. Neither are the resume link and date formatting.
- The recruiter's reload after a status change starts two unawaited fetches. The model runs them one after the other, list first. Interleavings are not modelled.
- The recruiter offers three fixed statuses (Interview, Offer, Rejected). `Recruiter.RecruiterView.UpdateApplicationStatus` accepts any status string.
- The `FileStorageService` constructor (which creates the upload directory) and `getFileLocation` are not modelled. The copy to disk is the input `copySucceeds`.
- Spring's request binding is not modelled, including the 400 it sends for a missing `resume` part.

## Findings

| source | as written | input that shows it | evidently intended | confidence | as-written member | corrected member |
|---|---|---|---|---|---|---|
| job-application-tracker-api/target/classes/static/seeker.js:139-156 | on a 400 the script calls `response.json()`. The create endpoint answers 400 with an empty body when the resume is empty (JobApplicationController.java:93-95). The parse then throws, and the catch shows "Could not connect to the API server" | a zero-byte resume file: it passes the script's `!resumeFile` check, and the server answers 400 with no body | a 400 without field messages shows the validation fallback "Submission failed. Please check the highlighted fields." | medium, not executed | `Seeker.SubmitPopupAsWritten`, `Seeker.SeekerView.HandleFormSubmit`, `Findings.ZeroByteResumeReportedAsUnreachable` | `Seeker.SubmitPopup` |
