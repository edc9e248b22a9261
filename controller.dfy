/** The REST controller for `/api/applications` over the repository table.
    Each endpoint becomes a method of `ApplicationController`, whose one
    field is the table; the random draws, the generated file token and the
    outcome of the file copy are inputs. */
module Controller {
  import opened Util
  import opened ApplicationModel
  import opened ApplicationStore
  import FileStorage

  /** The uploaded `resume` part: its original file name and its size. */
  datatype ResumeUpload = ResumeUpload(originalFilename: Option<string>, size: nat)

  /** A resume part was sent and it holds at least one byte. */
  predicate HasContent(resume: Option<ResumeUpload>) {
    resume.Some? && resume.value.size > 0
  }

  /** Responses of the create endpoint. */
  datatype CreateResult =
    | Created(saved: Record)                      // 201 with the saved record
    | InvalidFields(errors: map<string, string>)  // 400 from the validation handler
    | MissingResume                               // 400 with an empty body
    | DuplicateEmail                              // 409 with an empty body
    | StorageFailed                               // 500: the copy threw
    | NeverResponds                               // every id is taken: the retry loop spins
  {
    /** The HTTP status of the response: 201 only for a saved record,
        400 for both rejections before any lookup, 409 for a stored e-mail
        and 500 when the copy threw. */
    function StatusCode(): (code: int)
      requires !NeverResponds?
      ensures code == 201 <==> Created?
      ensures code == 400 <==> InvalidFields? || MissingResume?
      ensures code == 409 <==> DuplicateEmail?
      ensures code == 500 <==> StorageFailed?
    {
      match this
      case Created(_) => 201
      case InvalidFields(_) => 400
      case MissingResume => 400
      case DuplicateEmail => 409
      case StorageFailed => 500
    }
  }

  /** Responses of the status-update endpoint. */
  datatype UpdateResult = Updated(record: Record) | NotFound {
    /** 200 with the saved record, or 404 for an unknown id. */
    function StatusCode(): (code: int)
      ensures code == 200 <==> Updated?
      ensures code == 404 <==> NotFound?
    {
      if Updated? then 200 else 404
    }
  }

  /** What holds of every table the controller produces: keys match the
      records' ids, every record passed validation and has a stored resume,
      and no two records share an e-mail. */
  ghost predicate StoreInvariant(t: Table, isEmail: string -> bool) {
    && UniqueEmails(t)
    && forall id :: id in t ==> t[id].id == Some(id) && IsValid(t[id], isEmail) && t[id].resumeFilename.Some?
  }

  /** The record passed validation, came with a non-empty resume and its
      e-mail is not yet stored: the create request reaches the file copy. */
  predicate ReachesStorage(before: Record, resume: Option<ResumeUpload>, t: Table, isEmail: string -> bool) {
    IsValid(before, isEmail) && HasContent(resume) && !EmailTaken(t, before.emailId.value)
  }

  class ApplicationController {
    var table: Table
    /** The `@Email` validator. */
    const isEmail: string -> bool

    ghost predicate Valid()
      reads this
    {
      StoreInvariant(table, isEmail)
    }

    constructor (initial: Table, isEmail: string -> bool)
      requires StoreInvariant(initial, isEmail)
      ensures Valid() && table == initial && this.isEmail == isEmail
    {
      table := initial;
      this.isEmail := isEmail;
    }

    /** `createApplication`. Checks, in order: bean validation, a non-empty
        resume, an unused e-mail; then stores the file, draws a fresh id and
        saves. Only a 201 changes the table, by exactly one new record. */
    method CreateApplication(application: Application, resume: Option<ResumeUpload>,
                             token: string, copySucceeds: bool) returns (r: CreateResult)
      requires Valid()
      modifies this, application
      ensures Valid()
      ensures r.InvalidFields? <==> !IsValid(old(application.Snapshot()), isEmail)
      ensures r.InvalidFields? ==> r.errors == ValidationErrorMap(Violations(old(application.Snapshot()), isEmail))
      ensures r.MissingResume? <==> IsValid(old(application.Snapshot()), isEmail) && !HasContent(resume)
      ensures r.DuplicateEmail? <==>
        IsValid(old(application.Snapshot()), isEmail) && HasContent(resume)
        && EmailTaken(old(table), old(application.emailId).value)
      ensures r.StorageFailed? <==> ReachesStorage(old(application.Snapshot()), resume, old(table), isEmail) && !copySucceeds
      ensures r.NeverResponds? <==>
        ReachesStorage(old(application.Snapshot()), resume, old(table), isEmail) && copySucceeds && !HasFreeId(old(table).Keys)
      ensures r.Created? <==>
        ReachesStorage(old(application.Snapshot()), resume, old(table), isEmail) && copySucceeds && HasFreeId(old(table).Keys)
      ensures !r.Created? ==> table == old(table)
      ensures r.Created? ==>
        && r.saved.id.Some?
        && ID_LOW <= r.saved.id.value < ID_HIGH
        && r.saved.id.value !in old(table)
        && r.saved == old(application.Snapshot()).(id := r.saved.id,
             resumeFilename := Some(FileStorage.StoredName(token, resume.value.originalFilename)))
        && table == old(table)[r.saved.id.value := r.saved]
        && application.Snapshot() == r.saved
      ensures r.NeverResponds? ==>
        application.Snapshot() == old(application.Snapshot()).(
          resumeFilename := Some(FileStorage.StoredName(token, resume.value.originalFilename)))
      ensures !r.Created? && !r.NeverResponds? ==> application.Snapshot() == old(application.Snapshot())
    {
      var before := application.Snapshot();
      var errors := Violations(before, isEmail);
      if errors != [] {
        return InvalidFields(ValidationErrorMap(errors));
      }
      if resume.None? || resume.value.size == 0 {
        return MissingResume;
      }
      var existing := FindByEmailId(table, application.emailId.value);
      if existing.Some? {
        return DuplicateEmail;
      }
      var stored := FileStorage.StoreFile(token, resume.value.originalFilename, copySucceeds);
      if stored.StoreFailed? {
        return StorageFailed;
      }
      application.SetResumeFilename(Some(stored.fileName));
      if !HasFreeId(table.Keys) {
        return NeverResponds;
      }
      var newId := GenerateUniqueId(table.Keys);
      application.SetId(Some(newId));
      var saved := application.Snapshot();
      UnconstrainedFieldsIgnored(before, isEmail, saved.id, saved.resumeFilename, saved.jobLink,
                                 saved.notes, saved.status, saved.applicationTimestamp);
      table := table[newId := saved];
      return Created(saved);
    }

    /** `getApplicationsByEmail`: a list of zero or one record. */
    method GetApplicationsByEmail(email: string) returns (r: seq<Record>)
      requires Valid()
      ensures r == ApplicationsByEmail(table, email)
      ensures |r| <= 1 && forall a :: a in r ==> a.emailId == Some(email)
    {
      r := ApplicationsByEmail(table, email);
    }

    /** `updateApplicationStatus`: sets the status of an existing record to
        exactly the requested string; an unknown id is a 404. */
    method UpdateApplicationStatus(id: int, newStatus: string) returns (r: UpdateResult)
      requires Valid()
      modifies this
      ensures Valid()
      ensures r.Updated? <==> id in old(table)
      ensures r.Updated? ==> r.record == old(table)[id].(status := newStatus) && table == old(table)[id := r.record]
      ensures r.NotFound? ==> table == old(table)
    {
      if id in table {
        var a := table[id];
        UnconstrainedFieldsIgnored(a, isEmail, a.id, a.resumeFilename, a.jobLink, a.notes, newStatus, a.applicationTimestamp);
        var updated := a.(status := newStatus);
        table := table[id := updated];
        return Updated(updated);
      }
      return NotFound;
    }

    /** `deleteApplication`: removes the record if present; always a 204. */
    method DeleteApplication(id: int) returns (statusCode: int)
      requires Valid()
      modifies this
      ensures Valid()
      ensures statusCode == 204
      ensures table == old(table) - {id}
    {
      table := table - {id};
      statusCode := 204;
    }

    /** `getTotalApplications`: the repository count. */
    method GetTotalApplications() returns (n: int)
      ensures n == |table|
    {
      n := |table|;
    }

    /** `getApplicationsByStatus`: counts per status, which add up to the
        total count. */
    method GetApplicationsByStatus() returns (counts: map<string, int>)
      ensures counts == CountByStatus(table)
      ensures forall s :: s in counts ==> counts[s] >= 1 && exists id :: id in table && table[id].status == s
      ensures SumOver(counts, counts.Keys) == |table|
    {
      counts := CountByStatus(table);
      CountsSumToTotal(table);
    }
  }
}
