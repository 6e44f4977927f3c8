/**
 * The workflow list page: its `workflows` / `loading` / `error` state, the
 * transitions the initial fetch, the Refresh button and the Dismiss button
 * make, and what the page shows for a state.
 */
module WorkflowListPage {
  import opened Common
  import opened Text
  import Port

  /**
   * A workflow as the API returns it; a missing field and an empty one are
   * both the empty string. The cells only test them for truthiness; the
   * details link, which interpolates the id, is where the two would differ.
   */
  datatype Workflow = Workflow(id: string, workflowName: string, status: string, createdAt: string)

  /**
   * The response body: `Malformed` when reading it throws (invalid JSON, or
   * JSON `null`, whose `workflows` cannot be read), with the thrown message;
   * otherwise the `workflows` member, `None` when absent or null.
   */
  datatype Body = Malformed(message: string) | Parsed(workflows: Option<seq<Workflow>>)

  /** How a `fetch` settles: rejected with a message, or a response with its status. */
  datatype FetchOutcome = NetworkError(message: string) | Response(status: int, body: Body)

  datatype PageState = PageState(workflows: seq<Workflow>, loading: bool, error: Option<string>)

  const Initial: PageState := PageState([], true, None)

  /** `res.ok`: a status in the 2xx range. */
  predicate Ok(status: int) {
    200 <= status <= 299
  }

  function HttpErrorMessage(status: int): string {
    "HTTP error! status: " + Decimal(status)
  }

  /** Reading the body: `data.workflows || []`, or the thrown message. */
  function Read(body: Body): Result<seq<Workflow>, string> {
    match body
    case Malformed(message) => Failure(message)
    case Parsed(workflows) => Success(workflows.GetOr([]))
  }

  /** Storing what was read and clearing `loading`; an error keeps the old list. */
  function Settle(st: PageState, read: Result<seq<Workflow>, string>): PageState {
    match read
    case Success(workflows) => st.(workflows := workflows, loading := false)
    case Failure(message) => st.(error := Some(message), loading := false)
  }

  /** The mount-time fetch settles: a non-2xx status is turned into an error before the body is read. */
  function InitialFetchSettled(st: PageState, outcome: FetchOutcome): (r: PageState)
    ensures !r.loading
    ensures outcome.Response? && !Ok(outcome.status) ==>
              r == st.(error := Some(HttpErrorMessage(outcome.status)), loading := false)
    ensures outcome.NetworkError? ==> r == st.(error := Some(outcome.message), loading := false)
    ensures outcome.Response? && Ok(outcome.status) ==> r == Settle(st, Read(outcome.body))
  {
    match outcome
    case NetworkError(message) => Settle(st, Failure(message))
    case Response(status, body) =>
      if !Ok(status) then Settle(st, Failure(HttpErrorMessage(status)))
      else Settle(st, Read(body))
  }

  /** `refreshData`, first step: `loading` is set before the request is sent. */
  function RefreshStarted(st: PageState): (r: PageState)
    ensures r.loading && r.workflows == st.workflows && r.error == st.error
  {
    st.(loading := true)
  }

  /** `refreshData`, second step: the status is never checked, the body is read whatever it is. */
  function RefreshSettled(st: PageState, outcome: FetchOutcome): (r: PageState)
    ensures !r.loading
    ensures outcome.NetworkError? ==> r == st.(error := Some(outcome.message), loading := false)
    ensures outcome.Response? ==> r == Settle(st, Read(outcome.body))
  {
    match outcome
    case NetworkError(message) => Settle(st, Failure(message))
    case Response(_, body) => Settle(st, Read(body))
  }

  /** Dismiss: only the error is cleared. */
  function Dismissed(st: PageState): (r: PageState)
    ensures r.error.None? && r.workflows == st.workflows && r.loading == st.loading
  {
    st.(error := None)
  }

  class HomePage {
    var workflows: seq<Workflow>
    var loading: bool
    var error: Option<string>

    constructor ()
      ensures State() == Initial
    {
      workflows, loading, error := [], true, None;
    }

    function State(): PageState
      reads this
    {
      PageState(workflows, loading, error)
    }

    method InitialFetchDone(outcome: FetchOutcome)
      modifies this
      ensures State() == InitialFetchSettled(old(State()), outcome)
    {
      match outcome
      case NetworkError(message) =>
        error := Some(message);
        loading := false;
      case Response(status, body) =>
        if !Ok(status) {
          error := Some(HttpErrorMessage(status));
          loading := false;
          return;
        }
        match body
        case Malformed(message) =>
          error := Some(message);
          loading := false;
        case Parsed(data) =>
          workflows := data.GetOr([]);
          loading := false;
    }

    method RefreshData()
      modifies this
      ensures State() == RefreshStarted(old(State()))
    {
      loading := true;
    }

    method RefreshDone(outcome: FetchOutcome)
      modifies this
      ensures State() == RefreshSettled(old(State()), outcome)
    {
      match outcome
      case NetworkError(message) =>
        error := Some(message);
        loading := false;
      case Response(_, body) =>
        match body
        case Malformed(message) =>
          error := Some(message);
          loading := false;
        case Parsed(data) =>
          workflows := data.GetOr([]);
          loading := false;
    }

    method Dismiss()
      modifies this
      ensures State() == Dismissed(old(State()))
    {
      error := None;
    }
  }

  datatype Badge = Green | Red | Yellow | Gray

  /** The status badge colour: a total classification of any string. */
  function BadgeFor(status: string): (b: Badge)
    ensures b == Green <==> status == "COMPLETED"
    ensures b == Red <==> status == "FAILED"
    ensures b == Yellow <==> status == "RUNNING"
    ensures b == Gray <==> status != "COMPLETED" && status != "FAILED" && status != "RUNNING"
  {
    if status == "COMPLETED" then Green
    else if status == "FAILED" then Red
    else if status == "RUNNING" then Yellow
    else Gray
  }

  /** JavaScript's `s || fallback` on strings. */
  function OrElse(s: string, fallback: string): string {
    if s != "" then s else fallback
  }

  /**
   * One table row: React key, ID cell, name cell, badge and its caption, the
   * creation time (`None` shows "N/A") and the details link.
   */
  datatype Row =
    | EmptyRow
    | WorkflowRow(key: string, id: string, name: string, badge: Badge, caption: string,
                  createdAt: Option<string>, link: string)

  function RowFor(w: Workflow, index: nat): Row {
    WorkflowRow(OrElse(w.id, "workflow-" + Decimal(index)), OrElse(w.id, "N/A"), OrElse(w.workflowName, "N/A"),
                BadgeFor(w.status), OrElse(w.status, "UNKNOWN"),
                if w.createdAt != "" then Some(w.createdAt) else None,
                "/workflows/" + w.id)
  }

  /** The table body: the "No workflows found" row, or one row per workflow in order. */
  function Rows(workflows: seq<Workflow>): (r: seq<Row>)
    ensures workflows == [] ==> r == [EmptyRow]
    ensures workflows != [] ==> |r| == |workflows| && forall i :: 0 <= i < |r| ==> r[i].WorkflowRow?
    ensures workflows != [] ==> forall i :: 0 <= i < |workflows| ==>
              && r[i].badge == BadgeFor(workflows[i].status)
              && (workflows[i].id != "" ==> r[i].key == workflows[i].id && r[i].id == workflows[i].id)
              && (workflows[i].id == "" ==> r[i].key == "workflow-" + Decimal(i) && r[i].id == "N/A")
              && r[i].name == (if workflows[i].workflowName != "" then workflows[i].workflowName else "N/A")
              && r[i].caption == (if workflows[i].status != "" then workflows[i].status else "UNKNOWN")
              && (r[i].createdAt.None? <==> workflows[i].createdAt == "")
              && r[i].link == "/workflows/" + workflows[i].id
  {
    if workflows == [] then [EmptyRow]
    else seq(|workflows|, i requires 0 <= i < |workflows| => RowFor(workflows[i], i))
  }

  datatype View = LoadingView | ErrorView(message: string) | TableView(rows: seq<Row>)

  /** The render order: loading first, then a truthy error, then the table. */
  function ViewOf(st: PageState): (v: View)
    ensures v.LoadingView? <==> st.loading
    ensures v.ErrorView? <==> !st.loading && st.error.Some? && st.error.value != ""
    ensures v.ErrorView? ==> v.message == st.error.value
    ensures v.TableView? ==> v.rows == Rows(st.workflows)
  {
    if st.loading then LoadingView
    else if st.error.Some? && st.error.value != "" then ErrorView(st.error.value)
    else TableView(Rows(st.workflows))
  }

  /** Two rows never share a React key when the non-empty ids are distinct and none looks like a fallback key. */
  lemma RowKeysDistinct(workflows: seq<Workflow>)
    requires forall i, j :: 0 <= i < j < |workflows| && workflows[i].id != "" ==> workflows[i].id != workflows[j].id
    requires forall i, k: nat :: 0 <= i < |workflows| ==> workflows[i].id != "workflow-" + Decimal(k)
    ensures forall i, j :: 0 <= i < j < |Rows(workflows)| ==> Rows(workflows)[i] != Rows(workflows)[j]
    ensures workflows != [] ==> forall i, j :: 0 <= i < j < |workflows| ==> Rows(workflows)[i].key != Rows(workflows)[j].key
  {
    var r := Rows(workflows);
    if workflows != [] {
      forall i, j | 0 <= i < j < |workflows| ensures r[i].key != r[j].key {
        if workflows[i].id == "" && workflows[j].id == "" {
          var p := "workflow-";
          assert (p + Decimal(i))[|p|..] == Decimal(i);
          assert (p + Decimal(j))[|p|..] == Decimal(j);
          if Decimal(i) == Decimal(j) {
            DecimalInjective(i, j);
          }
        }
      }
    }
  }

  /**
   * The two loads treat an error status differently: the initial one shows
   * the status, the refresh reads the body and shows its list.
   */
  lemma ErrorStatusHandledOnlyInitially(st: PageState, status: int, workflows: seq<Workflow>)
    requires !Ok(status) && st.error.None?
    ensures var outcome := Response(status, Parsed(Some(workflows)));
            && ViewOf(InitialFetchSettled(st, outcome)) == ErrorView(HttpErrorMessage(status))
            && ViewOf(RefreshSettled(RefreshStarted(st), outcome)) == TableView(Rows(workflows))
  {
    assert HttpErrorMessage(status) != "";
  }

  /** A rejection with an empty message is recorded but, being falsy, shows the table instead. */
  lemma EmptyErrorMessageShowsTable(st: PageState)
    ensures ViewOf(InitialFetchSettled(st, NetworkError(""))) == TableView(Rows(st.workflows))
  {
  }

  /** Mounting and a successful load show one row per workflow, or the empty row. */
  lemma FirstLoadShowsRows(status: int, workflows: Option<seq<Workflow>>)
    requires Ok(status)
    ensures ViewOf(InitialFetchSettled(Initial, Response(status, Parsed(workflows)))) == TableView(Rows(workflows.GetOr([])))
  {
  }

  /** Dismissing a failed first load shows the still-empty table. */
  lemma DismissAfterFailedLoad(outcome: FetchOutcome)
    requires InitialFetchSettled(Initial, outcome).error.Some?
    ensures ViewOf(Dismissed(InitialFetchSettled(Initial, outcome))) == TableView([EmptyRow])
  {
  }

  /**
   * The engine only ever writes PENDING, COMPLETED and FAILED, so a
   * workflow it wrote is never shown with the RUNNING (yellow) badge.
   */
  lemma EngineStatusesNeverYellow(st: Port.WorkflowStatus)
    ensures BadgeFor(st.Name()) != Yellow
    ensures BadgeFor(st.Name()) == match st
                                   case WorkflowPending => Gray
                                   case WorkflowCompleted => Green
                                   case WorkflowFailed => Red
  {
  }
}
