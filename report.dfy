/**
  The report page (src/pages/Report.jsx): it fetches the report named by the
  `report` query parameter, for the stored e-mail or for one the visitor
  types into a modal, and renders its grants as a table.
 */
module Report {
  import opened Js
  import opened Text

  import opened Headers

  /** The list-valued columns of one grant row; an absent list is None. */
  datatype Grant = Grant(interests: Option<seq<string>>, eligibilities: Option<seq<string>>)

  /** The `data` member of a successful response body. */
  datatype ReportData = ReportData(customerEmail: string, createdAt: string, report: seq<Grant>)

  /** How a report fetch ends: a response whose `ok` is false, an ok
      response whose body has (Some) or lacks (None) a truthy `data` member,
      or a thrown error (network failure or a body that is not JSON). */
  datatype FetchOutcome = NotOk | Ok(data: Option<ReportData>) | Thrown

  /** The request a fetch issues: the report id (before URI encoding) and
      the headers. */
  datatype FetchRequest = FetchRequest(reportId: string, headers: map<string, string>)

  /** The fetch headers: `X-User-Email` exactly when the e-mail is non-empty,
      and nothing else. */
  function RequestHeaders(userEmail: string): (h: map<string, string>)
    ensures UserEmailHeader in h <==> userEmail != ""
    ensures UserEmailHeader in h ==> h[UserEmailHeader] == userEmail
    ensures h.Keys <= {UserEmailHeader}
  {
    if Truthy(Str(userEmail)) then map[UserEmailHeader := userEmail] else map[]
  }

  /** The report a completed fetch shows: the response's `data` on success,
      nothing when the response is not ok, lacks `data` or the fetch threw. */
  function ReportOf(outcome: FetchOutcome): (r: Option<ReportData>)
    ensures r.Some? <==> outcome.Ok? && outcome.data.Some?
    ensures r.Some? ==> r == outcome.data
  {
    match outcome
    case Ok(data) => data
    case NotOk => None
    case Thrown => None
  }

  /** The text of a list cell: the list joined with ", ", or "" when the
      list is absent. */
  function CellText(list: Option<seq<string>>): (r: string)
    ensures list == None || list == Some([]) ==> r == ""
    ensures list.Some? && |list.value| == 1 ==> r == list.value[0]
  {
    Join(if list.Some? then list.value else [], ", ")
  }

  /** Each further item adds ", " and itself at the end of the cell. */
  lemma CellTextAppend(items: seq<string>, item: string)
    requires items != []
    ensures CellText(Some(items + [item])) == CellText(Some(items)) + ", " + item
  {
    JoinSnoc(items, item, ", ");
  }

  /** The cell text of a present list is as long as its items plus one ", "
      between each two neighbours. */
  lemma CellTextLength(items: seq<string>)
    ensures |CellText(Some(items))| == TotalLength(items) + if items == [] then 0 else 2 * (|items| - 1)
  {
    JoinLength(items, ", ");
  }

  /** The report page's React state. */
  class ReportPage {
    /** The `report` query parameter. */
    const reportId: Option<string>
    /** The e-mail typed into the modal. */
    var email: string
    var showModal: bool
    var reportData: Option<ReportData>
    var loading: bool
    var noReport: bool

    constructor (reportId: Option<string>)
      ensures this.reportId == reportId
      ensures email == "" && !showModal && reportData == None && !loading && !noReport
    {
      this.reportId := reportId;
      email := "";
      showModal := false;
      reportData := None;
      loading := false;
      noReport := false;
    }

    /** The first, synchronous part of `fetchReportData`: without a report id
        it only sets `noReport` and issues nothing; otherwise it turns loading
        on, clears `noReport` and issues the request. */
    method FetchReportData(userEmail: string) returns (request: Option<FetchRequest>)
      modifies this
      ensures !Truthy(OfNullable(reportId)) ==>
        && request == None && noReport
        && loading == old(loading) && reportData == old(reportData)
      ensures Truthy(OfNullable(reportId)) ==>
        && request == Some(FetchRequest(reportId.value, RequestHeaders(userEmail)))
        && loading && !noReport && reportData == old(reportData)
      ensures email == old(email) && showModal == old(showModal)
    {
      if !Truthy(OfNullable(reportId)) {
        noReport := true;
        request := None;
        return;
      }
      loading := true;
      noReport := false;
      var headers: map<string, string> := map[];
      if Truthy(Str(userEmail)) {
        headers := headers[UserEmailHeader := userEmail];
      }
      request := Some(FetchRequest(reportId.value, headers));
    }

    /** The rest of `fetchReportData`, once the request has settled: the
        report is shown exactly when the outcome carries one, `noReport` is
        its negation, and loading is off. */
    method CompleteFetch(outcome: FetchOutcome)
      modifies this
      ensures reportData == ReportOf(outcome)
      ensures noReport <==> reportData == None
      ensures !loading
      ensures email == old(email) && showModal == old(showModal)
    {
      match outcome {
        case NotOk =>
          reportData := None;
          noReport := true;
        case Ok(data) =>
          if data.Some? {
            reportData := data;
            noReport := false;
          } else {
            reportData := None;
            noReport := true;
          }
        case Thrown =>
          reportData := None;
          noReport := true;
      }
      loading := false;
    }

    /** The mount effect: without a report id it shows "no report" and hides
        the modal; with one it fetches for the stored e-mail when that is
        truthy, and otherwise opens the modal and issues nothing. */
    method MountEffect(storedEmail: Option<string>) returns (request: Option<FetchRequest>)
      modifies this
      ensures !Truthy(OfNullable(reportId)) ==>
        request == None && noReport && !showModal && loading == old(loading)
      ensures Truthy(OfNullable(reportId)) && Truthy(OfNullable(storedEmail)) ==>
        && !showModal && loading && !noReport
        && request == Some(FetchRequest(reportId.value, RequestHeaders(storedEmail.value)))
      ensures Truthy(OfNullable(reportId)) && !Truthy(OfNullable(storedEmail)) ==>
        request == None && showModal && noReport == old(noReport) && loading == old(loading)
      ensures reportData == old(reportData) && email == old(email)
    {
      if !Truthy(OfNullable(reportId)) {
        noReport := true;
        showModal := false;
        request := None;
        return;
      }
      if Truthy(OfNullable(storedEmail)) {
        showModal := false;
        request := FetchReportData(storedEmail.value);
      } else {
        showModal := true;
        request := None;
      }
    }

    /** The modal's e-mail field change handler. */
    method SetEmail(text: string)
      modifies this
      ensures email == text
      ensures showModal == old(showModal) && reportData == old(reportData)
      ensures loading == old(loading) && noReport == old(noReport)
    {
      email := text;
    }

    /** `handleEmailSubmit`: a blank e-mail changes nothing; otherwise the
        modal closes and the report is fetched for the trimmed e-mail. */
    method HandleEmailSubmit() returns (request: Option<FetchRequest>)
      modifies this
      ensures AllWhitespace(old(email)) ==>
        && request == None && showModal == old(showModal)
        && loading == old(loading) && noReport == old(noReport)
      ensures !AllWhitespace(old(email)) ==>
        && !showModal
        && (Truthy(OfNullable(reportId)) ==>
             && request == Some(FetchRequest(reportId.value, RequestHeaders(Trim(old(email)))))
             && loading && !noReport)
        && (!Truthy(OfNullable(reportId)) ==> request == None && noReport && loading == old(loading))
      ensures reportData == old(reportData) && email == old(email)
    {
      var trimmed := Trim(email);
      if trimmed == "" {
        request := None;
        return;
      }
      showModal := false;
      request := FetchReportData(trimmed);
    }
  }
}
