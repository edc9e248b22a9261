/** The `Application` entity: one row of the `applications` table, the
    mutable bean that the controller fills in, and the Jakarta Bean
    Validation constraints declared on its fields. */
module ApplicationModel {
  import opened Util

  /** Creation time. The source reads the wall clock; here it is an input. */
  type Timestamp = int

  /** Initial value of `status` on every new bean. */
  const DEFAULT_STATUS: string := "Applied"

  /** The value of an application record: what the repository stores and
      what the REST API serialises as JSON. String fields that Java allows
      to be `null` are optional. */
  datatype Record = Record(
    id: Option<int>,
    name: Option<string>,
    emailId: Option<string>,
    mobileNumber: Option<string>,
    experienceRange: Option<string>,
    resumeFilename: Option<string>,
    jobRole: Option<string>,
    jobLink: Option<string>,
    notes: Option<string>,
    status: string,
    applicationTimestamp: Timestamp)

  /** The mutable bean. Its getters are the fields of `Snapshot()`. */
  class Application {
    var id: Option<int>
    var name: Option<string>
    var emailId: Option<string>
    var mobileNumber: Option<string>
    var experienceRange: Option<string>
    var resumeFilename: Option<string>
    var jobRole: Option<string>
    var jobLink: Option<string>
    var notes: Option<string>
    var status: string
    var applicationTimestamp: Timestamp

    /** The record this bean currently holds. */
    function Snapshot(): Record
      reads this
    {
      Record(id, name, emailId, mobileNumber, experienceRange, resumeFilename,
             jobRole, jobLink, notes, status, applicationTimestamp)
    }

    /** The no-argument constructor: every field null except `status`,
        which starts as "Applied", and the timestamp, taken at `now`. */
    constructor (now: Timestamp)
      ensures Snapshot().status == DEFAULT_STATUS
      ensures Snapshot() == Record(None, None, None, None, None, None, None, None, None, DEFAULT_STATUS, now)
    {
      id, name, emailId, mobileNumber, experienceRange := None, None, None, None, None;
      resumeFilename, jobRole, jobLink, notes := None, None, None, None;
      status := DEFAULT_STATUS;
      applicationTimestamp := now;
    }

    method SetId(v: Option<int>)
      modifies this
      ensures Snapshot() == old(Snapshot()).(id := v)
    {
      id := v;
    }

    method SetName(v: Option<string>)
      modifies this
      ensures Snapshot() == old(Snapshot()).(name := v)
    {
      name := v;
    }

    method SetEmailId(v: Option<string>)
      modifies this
      ensures Snapshot() == old(Snapshot()).(emailId := v)
    {
      emailId := v;
    }

    method SetMobileNumber(v: Option<string>)
      modifies this
      ensures Snapshot() == old(Snapshot()).(mobileNumber := v)
    {
      mobileNumber := v;
    }

    method SetExperienceRange(v: Option<string>)
      modifies this
      ensures Snapshot() == old(Snapshot()).(experienceRange := v)
    {
      experienceRange := v;
    }

    method SetResumeFilename(v: Option<string>)
      modifies this
      ensures Snapshot() == old(Snapshot()).(resumeFilename := v)
    {
      resumeFilename := v;
    }

    method SetJobRole(v: Option<string>)
      modifies this
      ensures Snapshot() == old(Snapshot()).(jobRole := v)
    {
      jobRole := v;
    }

    method SetJobLink(v: Option<string>)
      modifies this
      ensures Snapshot() == old(Snapshot()).(jobLink := v)
    {
      jobLink := v;
    }

    method SetNotes(v: Option<string>)
      modifies this
      ensures Snapshot() == old(Snapshot()).(notes := v)
    {
      notes := v;
    }

    method SetStatus(v: string)
      modifies this
      ensures Snapshot() == old(Snapshot()).(status := v)
    {
      status := v;
    }

    method SetApplicationTimestamp(v: Timestamp)
      modifies this
      ensures Snapshot() == old(Snapshot()).(applicationTimestamp := v)
    {
      applicationTimestamp := v;
    }
  }

  // ---------------------------------------------------------------------
  // Bean Validation
  // ---------------------------------------------------------------------

  /** One failed constraint: the property name and the constraint's message. */
  datatype FieldError = FieldError(field: string, message: string)

  const NAME_REQUIRED: string := "Candidate name is required."
  const EMAIL_REQUIRED: string := "Email ID is required."
  const EMAIL_FORMAT: string := "Email must be a valid format."
  const MOBILE_REQUIRED: string := "Mobile number is required."
  const MOBILE_FORMAT: string := "Mobile number must be 10 digits."
  const EXPERIENCE_REQUIRED: string := "Experience range is required."
  const JOB_ROLE_REQUIRED: string := "Job role is required."

  /** The properties that carry a constraint. */
  const CONSTRAINED_FIELDS: set<string> := {"name", "emailId", "mobileNumber", "experienceRange", "jobRole"}

  /** What `@NotBlank` rejects: null, or a string that `String.trim()`
      empties, that is one made only of characters up to U+0020. */
  predicate IsBlank(s: Option<string>) {
    s.None? || forall i :: 0 <= i < |s.value| ==> s.value[i] <= ' '
  }

  /** `\d` of `java.util.regex` without UNICODE_CHARACTER_CLASS. */
  predicate IsDigit(c: char) {
    '0' <= c <= '9'
  }

  /** The whole string matches `^\d{10}$`. */
  predicate IsTenDigits(s: string) {
    |s| == 10 && forall i :: 0 <= i < |s| ==> IsDigit(s[i])
  }

  function NotBlank(value: Option<string>, field: string, message: string): (errs: seq<FieldError>)
    ensures errs == [] <==> !IsBlank(value)
    ensures forall e :: e in errs ==> e == FieldError(field, message)
  {
    if IsBlank(value) then [FieldError(field, message)] else []
  }

  /** Every constraint violation of a record, in declaration order.
      `@Email` is a library validator and stays a parameter; like `@Pattern`
      it accepts null. */
  function Violations(r: Record, isEmail: string -> bool): (errs: seq<FieldError>)
    ensures forall e :: e in errs ==> e.field in CONSTRAINED_FIELDS
  {
    NotBlank(r.name, "name", NAME_REQUIRED)
    + NotBlank(r.emailId, "emailId", EMAIL_REQUIRED)
    + (if r.emailId.Some? && !isEmail(r.emailId.value) then [FieldError("emailId", EMAIL_FORMAT)] else [])
    + NotBlank(r.mobileNumber, "mobileNumber", MOBILE_REQUIRED)
    + (if r.mobileNumber.Some? && !IsTenDigits(r.mobileNumber.value) then [FieldError("mobileNumber", MOBILE_FORMAT)] else [])
    + NotBlank(r.experienceRange, "experienceRange", EXPERIENCE_REQUIRED)
    + NotBlank(r.jobRole, "jobRole", JOB_ROLE_REQUIRED)
  }

  /** The record passes `@Valid`: exactly when the five required fields are
      non-blank, the e-mail is accepted by the e-mail validator and the
      mobile number is ten ASCII digits. */
  function IsValid(r: Record, isEmail: string -> bool): (ok: bool)
    ensures ok <==>
      && !IsBlank(r.name)
      && !IsBlank(r.emailId) && isEmail(r.emailId.value)
      && !IsBlank(r.mobileNumber) && IsTenDigits(r.mobileNumber.value)
      && !IsBlank(r.experienceRange)
      && !IsBlank(r.jobRole)
  {
    Violations(r, isEmail) == []
  }

  /** A valid mobile number is exactly ten characters, all digits 0-9. */
  lemma ValidMobileIsTenDigits(r: Record, isEmail: string -> bool)
    requires IsValid(r, isEmail)
    ensures r.mobileNumber.Some? && |r.mobileNumber.value| == 10
    ensures forall i :: 0 <= i < 10 ==> '0' <= r.mobileNumber.value[i] <= '9'
  {
  }

  /** A blank mobile number fails both of its constraints, so the field is
      reported twice. */
  lemma BlankMobileReportedTwice(r: Record, isEmail: string -> bool)
    requires r.mobileNumber == Some("")
    ensures FieldError("mobileNumber", MOBILE_REQUIRED) in Violations(r, isEmail)
    ensures FieldError("mobileNumber", MOBILE_FORMAT) in Violations(r, isEmail)
  {
  }

  /** `id`, `resumeFilename`, `jobLink`, `notes`, `status` and the
      timestamp carry no constraint: changing them never changes the
      validation outcome. */
  lemma UnconstrainedFieldsIgnored(r: Record, isEmail: string -> bool,
                                   id: Option<int>, resume: Option<string>, link: Option<string>,
                                   notes: Option<string>, status: string, at: Timestamp)
    ensures Violations(r.(id := id, resumeFilename := resume, jobLink := link, notes := notes,
                          status := status, applicationTimestamp := at), isEmail)
            == Violations(r, isEmail)
  {
  }
}
