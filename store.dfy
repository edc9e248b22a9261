/** The repository as a finite map from id to record, and the pure parts of
    the controller: the queries it runs against the table, the
    validation-error map, and the random id generator. */
module ApplicationStore {
  import opened Util
  import opened ApplicationModel

  /** The `applications` table, keyed by id. */
  type Table = map<int, Record>

  /** `nextInt(1000, 10000)` draws from [ID_LOW, ID_HIGH). */
  const ID_LOW: int := 1000
  const ID_HIGH: int := 10000

  /** Text always added under "general" by the validation error handler. */
  const GENERAL_MESSAGE: string := "Please correct the errors in the form before submitting."

  /** The `unique = true` constraint of the `email_id` column (SQL unique
      constraints ignore nulls). */
  ghost predicate UniqueEmails(t: Table) {
    forall i, j :: i in t && j in t && t[i].emailId.Some? && t[i].emailId == t[j].emailId ==> i == j
  }

  /** Some stored application has this e-mail address. */
  predicate EmailTaken(t: Table, email: string) {
    exists id :: id in t && t[id].emailId == Some(email)
  }

  // ---------------------------------------------------------------------
  // Lookup by e-mail
  // ---------------------------------------------------------------------

  /** `findByEmailId`: the record with that e-mail, if any. */
  function FindByEmailId(t: Table, email: string): (r: Option<Record>)
    requires UniqueEmails(t)
    ensures r.Some? <==> EmailTaken(t, email)
    ensures r.Some? ==> r.value in t.Values && r.value.emailId == Some(email)
  {
    if EmailTaken(t, email) then
      var id :| id in t && t[id].emailId == Some(email);
      Some(t[id])
    else
      None
  }

  /** `getApplicationsByEmail`: the lookup as a list of zero or one record. */
  function ApplicationsByEmail(t: Table, email: string): (r: seq<Record>)
    requires UniqueEmails(t)
    ensures |r| <= 1
    ensures |r| == 1 <==> EmailTaken(t, email)
    ensures forall a :: a in r ==> a in t.Values && a.emailId == Some(email)
  {
    match FindByEmailId(t, email)
    case Some(a) => [a]
    case None => []
  }

  // ---------------------------------------------------------------------
  // Statistics
  // ---------------------------------------------------------------------

  /** The statuses that occur in the table. */
  function StatusesOf(t: Table): set<string> {
    set id | id in t :: t[id].status
  }

  /** Ids of the records with status `s`. */
  function IdsWithStatus(t: Table, s: string): set<int> {
    set id | id in t && t[id].status == s
  }

  /** `groupingBy(getStatus, counting())` over all records: one entry per
      status that occurs, each at least 1. */
  function CountByStatus(t: Table): (m: map<string, int>)
    ensures m.Keys == StatusesOf(t)
    ensures forall s :: s in m ==> m[s] >= 1 && m[s] == |IdsWithStatus(t, s)|
  {
    assert forall s :: s in StatusesOf(t) ==> |IdsWithStatus(t, s)| >= 1 by {
      forall s | s in StatusesOf(t) ensures |IdsWithStatus(t, s)| >= 1 {
        var id :| id in t && t[id].status == s;
        assert id in IdsWithStatus(t, s);
      }
    }
    map s | s in StatusesOf(t) :: |IdsWithStatus(t, s)|
  }

  ghost function Pick(keys: set<string>): string
    requires keys != {}
  {
    var k :| k in keys; k
  }

  /** The sum of `m`'s values over `keys`. */
  ghost function SumOver(m: map<string, int>, keys: set<string>): int
    requires keys <= m.Keys
    decreases keys
  {
    if keys == {} then 0
    else
      var k := Pick(keys);
      m[k] + SumOver(m, keys - {k})
  }

  /** Summed over any set of statuses, the counts give the number of
      records having one of those statuses. */
  lemma {:induction false} SumOfCounts(t: Table, statuses: set<string>)
    requires statuses <= StatusesOf(t)
    ensures SumOver(CountByStatus(t), statuses) == |set id | id in t && t[id].status in statuses|
    decreases statuses
  {
    var counted := set id | id in t && t[id].status in statuses;
    if statuses == {} {
      assert counted == {};
    } else {
      var s := Pick(statuses);
      var rest := statuses - {s};
      SumOfCounts(t, rest);
      var restIds := set id | id in t && t[id].status in rest;
      assert counted == IdsWithStatus(t, s) + restIds;
      assert IdsWithStatus(t, s) !! restIds;
    }
  }

  /** The counts by status add up to the total count. */
  lemma CountsSumToTotal(t: Table)
    ensures SumOver(CountByStatus(t), StatusesOf(t)) == |t|
  {
    SumOfCounts(t, StatusesOf(t));
    assert forall id :: id in t ==> t[id].status in StatusesOf(t);
    assert (set id | id in t && t[id].status in StatusesOf(t)) == t.Keys;
  }

  // ---------------------------------------------------------------------
  // Validation error map
  // ---------------------------------------------------------------------

  /** No earlier error names the same field as `errors[i]`. */
  predicate IsFirstForField(errors: seq<FieldError>, i: int)
    requires 0 <= i < |errors|
  {
    forall j :: 0 <= j < i ==> errors[j].field != errors[i].field
  }

  function FieldsOf(errors: seq<FieldError>): set<string> {
    set e | e in errors :: e.field
  }

  /** `toMap(getField, getDefaultMessage, (existing, replacement) -> existing)`:
      one entry per field, holding the message of its first error. */
  function FirstMessages(errors: seq<FieldError>): (m: map<string, string>)
    ensures m.Keys == FieldsOf(errors)
    ensures forall i :: 0 <= i < |errors| && IsFirstForField(errors, i) ==> m[errors[i].field] == errors[i].message
  {
    if errors == [] then map[]
    else
      var rest := FirstMessages(errors[1..]);
      assert forall i :: 1 <= i < |errors| && IsFirstForField(errors, i) ==> IsFirstForField(errors[1..], i - 1);
      assert FieldsOf(errors) == FieldsOf(errors[1..]) + {errors[0].field};
      rest[errors[0].field := errors[0].message]
  }

  /** `handleValidationExceptions`: the per-field messages plus the fixed
      "general" entry, which wins over a field of that name. */
  function ValidationErrorMap(errors: seq<FieldError>): (m: map<string, string>)
    ensures m.Keys == FieldsOf(errors) + {"general"}
    ensures m["general"] == GENERAL_MESSAGE
    ensures forall i :: 0 <= i < |errors| && IsFirstForField(errors, i) && errors[i].field != "general" ==>
              m[errors[i].field] == errors[i].message
  {
    FirstMessages(errors)["general" := GENERAL_MESSAGE]
  }

  /** For a record, the error map names exactly its failing constrained
      fields, plus "general". */
  lemma ErrorMapOfViolations(r: Record, isEmail: string -> bool)
    ensures ValidationErrorMap(Violations(r, isEmail)).Keys - {"general"} <= CONSTRAINED_FIELDS
    ensures (ValidationErrorMap(Violations(r, isEmail)).Keys == {"general"}) <==> IsValid(r, isEmail)
  {
    var errs := Violations(r, isEmail);
    if errs != [] {
      assert errs[0].field in FieldsOf(errs);
      assert errs[0].field in CONSTRAINED_FIELDS;
    }
  }

  // ---------------------------------------------------------------------
  // Id generation
  // ---------------------------------------------------------------------

  /** Some id in [ID_LOW, ID_HIGH) is not taken. */
  predicate HasFreeId(taken: set<int>) {
    exists id :: ID_LOW <= id < ID_HIGH && id !in taken
  }

  /** The integers in [lo, hi). */
  function Range(lo: int, hi: int): (r: set<int>)
    ensures forall x :: x in r <==> lo <= x < hi
    decreases hi - lo
  {
    if hi <= lo then {} else Range(lo, hi - 1) + {hi - 1}
  }

  /** `generateUniqueId`: draw an id from [1000, 9999] until one is not
      taken. Each draw is a nondeterministic choice; the model draws only
      among ids not drawn before, which yields the same possible results
      as the source's retries and makes termination evident. The source's
      loop never ends when every id is taken, hence the precondition. */
  method GenerateUniqueId(taken: set<int>) returns (newId: int)
    requires HasFreeId(taken)
    ensures ID_LOW <= newId < ID_HIGH
    ensures newId !in taken
  {
    var untried := Range(ID_LOW, ID_HIGH);
    assert ID_LOW in untried;
    newId :| newId in untried;
    untried := untried - {newId};
    while newId in taken
      invariant ID_LOW <= newId < ID_HIGH
      invariant forall id :: ID_LOW <= id < ID_HIGH && id !in taken && id != newId ==> id in untried
      invariant forall id :: id in untried ==> ID_LOW <= id < ID_HIGH
      decreases untried
    {
      var free :| ID_LOW <= free < ID_HIGH && free !in taken;
      assert free in untried;
      newId :| newId in untried;
      untried := untried - {newId};
    }
  }
}
