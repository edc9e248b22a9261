/** The recruiter dashboard script: the statistics summary, the
    applications table with its status-class sanitiser, and the
    confirm-then-PATCH status change. The page is a `RecruiterView` object;
    fetch outcomes are inputs. */
module Recruiter {
  import opened Util
  import opened ApplicationModel
  import opened Browser

  // ---------------------------------------------------------------------
  // Statistics summary
  // ---------------------------------------------------------------------

  /** The by-status response: an exception (no connection, or a body that
      is not JSON), a non-ok response, or the parsed mapping. */
  datatype CountsFetch = CountsThrew | CountsNotOk | CountsOk(counts: map<string, int>)

  /** The three figures of the summary: the total as text, selected and
      rejected as numbers. */
  datatype Figures = Figures(total: string, selected: int, rejected: int)

  /** `m.key || 0`: a missing key reads as 0 (a stored 0 is falsy and also
      reads as 0). */
  function CountOrZero(m: map<string, int>, key: string): (n: int)
    ensures key !in m ==> n == 0
    ensures key in m ==> n == m[key]
  {
    if key in m && m[key] != 0 then m[key] else 0
  }

  /** The mapping used for the figures: a non-ok response counts as `{}`. */
  function CountsUsed(byStatus: CountsFetch): map<string, int>
    requires !byStatus.CountsThrew?
  {
    if byStatus.CountsOk? then byStatus.counts else map[]
  }

  /** `loadStatistics`' figures. Any exception shows all three as 0;
      otherwise selected is `Selected + Offer` and rejected is `Rejected`,
      missing keys counting as 0. */
  function StatisticsFigures(total: TextFetch, byStatus: CountsFetch): (f: Figures)
    ensures total.TextThrew? || byStatus.CountsThrew? ==> f == Figures("0", 0, 0)
    ensures total.TextBody? && !byStatus.CountsThrew? ==>
      var m := CountsUsed(byStatus);
      && f.total == TotalText(total.text)
      && f.selected == CountOrZero(m, "Selected") + CountOrZero(m, "Offer")
      && f.rejected == CountOrZero(m, "Rejected")
  {
    if total.TextThrew? || byStatus.CountsThrew? then Figures("0", 0, 0)
    else
      var m := CountsUsed(byStatus);
      Figures(TotalText(total.text), CountOrZero(m, "Selected") + CountOrZero(m, "Offer"), CountOrZero(m, "Rejected"))
  }

  /** A non-ok by-status response shows selected and rejected as 0. */
  lemma NotOkCountsShowZero(total: TextFetch)
    ensures StatisticsFigures(total, CountsNotOk).selected == 0
    ensures StatisticsFigures(total, CountsNotOk).rejected == 0
  {
  }

  /** With no Selected, Offer or Rejected key the figures are 0, and only
      those three keys matter. */
  lemma OnlyThreeKeysMatter(body: string, m: map<string, int>, key: string, v: int)
    requires key !in {"Selected", "Offer", "Rejected"}
    ensures StatisticsFigures(TextBody(body), CountsOk(m[key := v])) == StatisticsFigures(TextBody(body), CountsOk(m))
  {
  }

  /** Selected = 3, Offer = 2, Rejected = 1 with a total body of "10" shows
      10, 5 and 1. */
  lemma SummaryExample()
    ensures StatisticsFigures(TextBody("10"), CountsOk(map["Selected" := 3, "Offer" := 2, "Rejected" := 1]))
            == Figures("10", 5, 1)
  {
  }

  // ---------------------------------------------------------------------
  // Status class
  // ---------------------------------------------------------------------

  predicate IsAsciiLetter(c: char) {
    'a' <= c <= 'z' || 'A' <= c <= 'Z'
  }

  /** `status.replace(/[^a-zA-Z]/g, "")`: the ASCII letters of the status,
      in their original order. */
  function StatusClassSuffix(status: string): (suffix: string)
    ensures |suffix| <= |status|
    ensures forall i :: 0 <= i < |suffix| ==> IsAsciiLetter(suffix[i])
  {
    if status == [] then []
    else if IsAsciiLetter(status[0]) then [status[0]] + StatusClassSuffix(status[1..])
    else StatusClassSuffix(status[1..])
  }

  /** The filter distributes over concatenation, so it keeps the letters in
      order: the letters of a prefix come before those of the rest. */
  lemma {:induction false} StatusClassSuffixAppend(a: string, b: string)
    ensures StatusClassSuffix(a + b) == StatusClassSuffix(a) + StatusClassSuffix(b)
  {
    if a == [] {
      assert a + b == b;
    } else {
      assert (a + b)[1..] == a[1..] + b;
      StatusClassSuffixAppend(a[1..], b);
    }
  }

  /** A status made only of letters is kept as it is; in particular the
      filter is idempotent. */
  lemma {:induction false} LettersKept(s: string)
    requires forall i :: 0 <= i < |s| ==> IsAsciiLetter(s[i])
    ensures StatusClassSuffix(s) == s
  {
    if s != [] {
      LettersKept(s[1..]);
    }
  }

  lemma StatusClassSuffixIdempotent(s: string)
    ensures StatusClassSuffix(StatusClassSuffix(s)) == StatusClassSuffix(s)
  {
    LettersKept(StatusClassSuffix(s));
  }

  /** Exactly the letters are kept: a character is dropped iff it is not a
      letter (every occurrence count of a letter is preserved). */
  lemma {:induction false} LetterCountsPreserved(s: string, c: char)
    ensures multiset(StatusClassSuffix(s))[c] == (if IsAsciiLetter(c) then multiset(s)[c] else 0)
  {
    if s != [] {
      LetterCountsPreserved(s[1..], c);
      assert s == [s[0]] + s[1..];
    }
  }

  // ---------------------------------------------------------------------
  // The view
  // ---------------------------------------------------------------------

  /** A table row: the application and the CSS class of its status cell. */
  datatype Row = Row(app: Record, statusClass: string)

  function RowFor(app: Record): (row: Row)
    ensures row.app == app
    ensures row.statusClass == "status-cell-" + StatusClassSuffix(app.status)
  {
    Row(app, "status-cell-" + StatusClassSuffix(app.status))
  }

  /** What the table body shows. */
  datatype TableBody = Loading | Rows(rows: seq<Row>) | NoApplications | LoadError

  /** One row per application, in input order. */
  function RowsFor(apps: seq<Record>): (rows: seq<Row>)
    ensures |rows| == |apps|
    ensures forall i :: 0 <= i < |apps| ==> rows[i] == RowFor(apps[i])
  {
    seq(|apps|, i requires 0 <= i < |apps| => RowFor(apps[i]))
  }

  /** The list response: an exception (no connection, or a body that is not
      JSON) or the parsed body. */
  datatype ListFetch = ListThrew | ListJson(body: JsonList)

  /** What `loadApplications` leaves in the table: rows for a non-empty
      array, the "No applications yet." row for an empty array or any
      other JSON value, the error row for an exception. */
  function LoadedBody(result: ListFetch): (b: TableBody)
    ensures result.ListThrew? <==> b == LoadError
    ensures b.Rows? <==> result.ListJson? && result.body.JsonArray? && |result.body.items| > 0
    ensures b.Rows? ==> b.rows == RowsFor(result.body.items) && |b.rows| > 0
    ensures b != Loading
  {
    match result
    case ListThrew => LoadError
    case ListJson(json) =>
      if json.JsonArray? && |json.items| > 0 then Rows(RowsFor(json.items)) else NoApplications
  }

  /** The PATCH response: an exception, or whether it was ok. */
  datatype PatchFetch = PatchThrew | PatchResponse(ok: bool)

  /** Requests the page sends, in order. */
  datatype Request = GetAll | GetTotal | GetByStatus | PatchStatus(id: int, status: string)

  /** The action behind a confirmation's Confirm button. */
  datatype PendingChange = PendingChange(id: int, newStatus: string, name: string)

  /** The modal: hidden, or showing a message with Close (then `confirm` is
      None) or with Cancel and Confirm. */
  datatype Modal = Hidden | Shown(message: string, confirm: Option<PendingChange>)

  const CONNECT_FAILED: string := "Could not connect to the API server to update status."

  function ConfirmMessage(c: PendingChange): string {
    "Change status for " + c.name + " to " + c.newStatus + "?"
  }

  function UpdatedMessage(c: PendingChange): string {
    "Status for " + c.name + " updated to " + c.newStatus + "."
  }

  function FailedMessage(c: PendingChange): string {
    "Failed to update status for " + c.name + "."
  }

  /** The requests `loadStatistics` sends: the total, then the by-status
      counts unless the first one threw. */
  function StatisticsRequests(total: TextFetch): (rs: seq<Request>)
    ensures |rs| >= 1 && rs[0] == GetTotal && GetAll !in rs
  {
    if total.TextThrew? then [GetTotal] else [GetTotal, GetByStatus]
  }

  class RecruiterView {
    var figures: Figures
    var body: TableBody
    var modal: Modal
    var requests: seq<Request>

    constructor ()
      ensures figures == Figures("", 0, 0) && body == Loading && modal == Hidden && requests == []
    {
      figures := Figures("", 0, 0);
      body := Loading;
      modal := Hidden;
      requests := [];
    }

    /** `loadStatistics`: overwrites the three figures. */
    method LoadStatistics(total: TextFetch, byStatus: CountsFetch)
      modifies this
      ensures figures == StatisticsFigures(total, byStatus)
      ensures requests == old(requests) + StatisticsRequests(total)
      ensures body == old(body) && modal == old(modal)
    {
      requests := requests + StatisticsRequests(total);
      figures := StatisticsFigures(total, byStatus);
    }

    /** `renderApplications`: clears the table, then appends one row per
        application, in input order. */
    method RenderApplications(apps: seq<Record>)
      modifies this
      ensures body == Rows(RowsFor(apps))
      ensures figures == old(figures) && modal == old(modal) && requests == old(requests)
    {
      body := Rows([]);
      for i := 0 to |apps|
        invariant body.Rows? && |body.rows| == i
        invariant forall k :: 0 <= k < i ==> body.rows[k] == RowFor(apps[k])
        invariant figures == old(figures) && modal == old(modal) && requests == old(requests)
      {
        body := Rows(body.rows + [RowFor(apps[i])]);
      }
    }

    /** `loadApplications`: a non-empty array renders rows, any other
        result the "No applications yet." row, an exception the error row. */
    method LoadApplications(result: ListFetch)
      modifies this
      ensures requests == old(requests) + [GetAll]
      ensures body == LoadedBody(result)
      ensures figures == old(figures) && modal == old(modal)
    {
      body := Loading;
      requests := requests + [GetAll];
      match result
      case ListThrew =>
        body := LoadError;
      case ListJson(json) =>
        if json.JsonArray? && |json.items| > 0 {
          RenderApplications(json.items);
        } else {
          body := NoApplications;
        }
    }

    /** `showModal`: replaces the modal's message and buttons. */
    method ShowModal(message: string, confirm: Option<PendingChange>)
      modifies this
      ensures modal == Shown(message, confirm)
      ensures figures == old(figures) && body == old(body) && requests == old(requests)
    {
      modal := Shown(message, confirm);
    }

    /** `updateApplicationStatus`: only asks for confirmation; nothing is
        sent yet. */
    method UpdateApplicationStatus(id: int, newStatus: string, name: string)
      modifies this
      ensures modal == Shown(ConfirmMessage(PendingChange(id, newStatus, name)), Some(PendingChange(id, newStatus, name)))
      ensures figures == old(figures) && body == old(body) && requests == old(requests)
    {
      var change := PendingChange(id, newStatus, name);
      ShowModal(ConfirmMessage(change), Some(change));
    }

    /** The Close or Cancel button: hides the modal and sends nothing. */
    method CloseModal()
      modifies this
      ensures modal == Hidden
      ensures figures == old(figures) && body == old(body) && requests == old(requests)
    {
      modal := Hidden;
    }

    /** The Confirm button of a confirmation: hides the modal and sends the
        PATCH. An ok response reloads the list and the statistics, each
        once; otherwise neither is reloaded and a failure is shown. Without
        a pending confirmation there is no Confirm button and nothing
        happens. The reload responses are inputs too. */
    method Confirm(patch: PatchFetch, list: ListFetch, total: TextFetch, byStatus: CountsFetch)
      modifies this
      ensures !(old(modal).Shown? && old(modal).confirm.Some?) ==>
        modal == old(modal) && figures == old(figures) && body == old(body) && requests == old(requests)
      ensures old(modal).Shown? && old(modal).confirm.Some? ==>
        var c := old(modal).confirm.value;
        if patch == PatchResponse(true) then
          && requests == old(requests) + [PatchStatus(c.id, c.newStatus), GetAll] + StatisticsRequests(total)
          && modal == Shown(UpdatedMessage(c), None)
          && body == LoadedBody(list)
          && figures == StatisticsFigures(total, byStatus)
        else
          && requests == old(requests) + [PatchStatus(c.id, c.newStatus)]
          && modal == Shown(if patch.PatchThrew? then CONNECT_FAILED else FailedMessage(c), None)
          && figures == old(figures) && body == old(body)
    {
      if modal.Shown? && modal.confirm.Some? {
        var c := modal.confirm.value;
        modal := Hidden;
        requests := requests + [PatchStatus(c.id, c.newStatus)];
        match patch
        case PatchThrew =>
          ShowModal(CONNECT_FAILED, None);
        case PatchResponse(ok) =>
          if ok {
            ShowModal(UpdatedMessage(c), None);
            LoadApplications(list);
            LoadStatistics(total, byStatus);
          } else {
            ShowModal(FailedMessage(c), None);
          }
      }
    }
  }
}
