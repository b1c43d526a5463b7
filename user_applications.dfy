/** The customer's own application list: status filter, badges and icons, and deleting a pending application. */
module UserApplications {
  import opened Wrappers
  import Status
  import Seqs

  /** A row of the customer's list, newest first as fetched. */
  datatype Application = Application(id: string, status: string, totalPriceCents: int, createdAt: string,
                                     formTypeName: Option<string>)

  /** A status the admin list never offers but this page still styles. */
  const InProgress: string := "in_progress"

  /** `statusFilter === "all" || app.status === statusFilter`. */
  predicate Shown(app: Application, statusFilter: string) {
    statusFilter == "all" || app.status == statusFilter
  }

  /** The rows shown: "all" keeps every row; any other filter keeps exactly the rows with that status. */
  function FilterByStatus(apps: seq<Application>, statusFilter: string): (r: seq<Application>)
    ensures statusFilter == "all" ==> r == apps
    ensures forall a :: a in r <==> a in apps && (statusFilter == "all" || a.status == statusFilter)
  {
    var keep := (a: Application) => Shown(a, statusFilter);
    if statusFilter == "all" then Seqs.FilterAll(apps, keep); Seqs.Filter(apps, keep)
    else Seqs.Filter(apps, keep)
  }

  /** The filter keeps the list's order: filtering a concatenation concatenates the filtered parts. */
  lemma FilterByStatusAppend(a: seq<Application>, b: seq<Application>, statusFilter: string)
    ensures FilterByStatus(a + b, statusFilter) == FilterByStatus(a, statusFilter) + FilterByStatus(b, statusFilter)
  {
    Seqs.FilterAppend(a, b, (x: Application) => Shown(x, statusFilter));
  }

  /** A single row is shown exactly when the filter is "all" or names its status. */
  lemma FilterByStatusSingle(app: Application, statusFilter: string)
    ensures FilterByStatus([app], statusFilter) == if Shown(app, statusFilter) then [app] else []
  {
    assert [app][1..] == [];
  }

  /** The delete button is offered only for pending applications. */
  predicate CanDelete(app: Application) {
    app.status == Status.Pending
  }

  /** This page's badge map: the shared one, plus "in_progress" styled as "in_review". */
  function Badge(status: string): (r: string)
    ensures status != InProgress ==> r == Status.Badge(status)
    ensures status == InProgress ==> r == Status.Badge(Status.InReview)
  {
    if status == "pending" then "status-badge status-pending"
    else if status == "in_review" then "status-badge status-in-review"
    else if status == "in_progress" then "status-badge status-in-review"
    else if status == "approved" then "status-badge status-approved"
    else if status == "rejected" then "status-badge status-rejected"
    else if status == "completed" then "status-badge status-completed"
    else "status-badge"
  }

  /** This page's icon choice. */
  function StatusIcon(status: string): (r: Status.Icon)
    ensures r == Status.Waiting <==> status in {"pending", "in_review", "in_progress"}
    ensures r == Status.Done <==> status in {"approved", "completed"}
    ensures r == Status.Refused <==> status == "rejected"
  {
    match status
    case "pending" => Status.Waiting
    case "in_review" => Status.Waiting
    case "in_progress" => Status.Waiting
    case "approved" => Status.Done
    case "completed" => Status.Done
    case "rejected" => Status.Refused
    case _ => Status.Generic
  }

  class ApplicationsList {
    var applications: seq<Application>
    var statusFilter: string
    var loading: bool
    var deleteDialogOpen: bool
    var applicationToDelete: Option<Application>
    var deleting: bool

    /** Only a pending application is ever the deletion target. */
    ghost predicate Valid()
      reads this
    {
      applicationToDelete.Some? ==> CanDelete(applicationToDelete.value)
    }

    constructor ()
      ensures Valid()
      ensures applications == [] && statusFilter == "all" && loading
      ensures !deleteDialogOpen && applicationToDelete == None && !deleting
    {
      applications, statusFilter, loading := [], "all", true;
      deleteDialogOpen, applicationToDelete, deleting := false, None, false;
    }

    function Visible(): (r: seq<Application>)
      reads this
      ensures forall a :: a in r <==> a in applications && Shown(a, statusFilter)
    {
      FilterByStatus(applications, statusFilter)
    }

    /** `fetchApplications`: the user's rows on success, the old ones on failure; loading ends. */
    method Load(result: Option<seq<Application>>)
      modifies this`applications, this`loading
      ensures applications == if result.Some? then result.value else old(applications)
      ensures !loading
    {
      if result.Some? {
        applications := result.value;
      }
      loading := false;
    }

    method SetStatusFilter(filter: string)
      modifies this`statusFilter
      ensures statusFilter == filter
    {
      statusFilter := filter;
    }

    /** `confirmDelete`, reachable only from a pending row's delete button. */
    method ConfirmDelete(app: Application)
      requires CanDelete(app)
      modifies this`applicationToDelete, this`deleteDialogOpen
      ensures Valid()
      ensures applicationToDelete == Some(app) && deleteDialogOpen
    {
      applicationToDelete := Some(app);
      deleteDialogOpen := true;
    }

    /**
     * `deleteApplication`: nothing without a target; otherwise the target's id
     * is sent (`ok` is the delete's result), and only success closes the dialog,
     * clears the target and asks for the list again (`reload`).
     */
    method DeleteApplication(ok: bool) returns (sent: Option<string>, reload: bool)
      requires Valid()
      modifies this`applicationToDelete, this`deleteDialogOpen, this`deleting
      ensures Valid()
      ensures sent == if old(applicationToDelete).Some? then Some(old(applicationToDelete).value.id) else None
      ensures sent.Some? ==> CanDelete(old(applicationToDelete).value)
      ensures applicationToDelete == if sent.Some? && ok then None else old(applicationToDelete)
      ensures deleteDialogOpen == (old(deleteDialogOpen) && !(sent.Some? && ok))
      ensures deleting == (old(deleting) && sent.None?)
      ensures reload <==> sent.Some? && ok
    {
      if applicationToDelete.None? {
        return None, false;
      }
      deleting := true;
      sent := Some(applicationToDelete.value.id);
      reload := false;
      if ok {
        deleteDialogOpen := false;
        applicationToDelete := None;
        reload := true;
      }
      deleting := false;
    }
  }
}
