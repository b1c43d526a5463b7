/** The customer's dashboard: four counters and the five most recent applications. */
module UserDashboard {
  import Status
  import Seqs
  import UserApplications

  type Application = UserApplications.Application

  datatype Stats = Stats(total: nat, pending: nat, approved: nat, completed: nat)

  /** The "Pending" counter includes applications under review. */
  predicate CountedPending(a: Application) { a.status == Status.Pending || a.status == Status.InReview }
  predicate CountedApproved(a: Application) { a.status == Status.Approved }
  predicate CountedCompleted(a: Application) { a.status == Status.Completed }

  /** An application that appears in no counter but the total: rejected, in progress or unknown. */
  predicate Uncounted(a: Application) { !CountedPending(a) && !CountedApproved(a) && !CountedCompleted(a) }

  /** The four counters over the fetched rows. */
  function ComputeStats(apps: seq<Application>): (r: Stats)
    ensures r.total == |apps|
    ensures r.pending + r.approved + r.completed <= r.total
  {
    StatsPartition(apps);
    Stats(|apps|, |Seqs.Filter(apps, CountedPending)|, |Seqs.Filter(apps, CountedApproved)|,
          |Seqs.Filter(apps, CountedCompleted)|)
  }

  /** Every application lands in exactly one of the three counters or among the uncounted ones. */
  lemma {:induction false} StatsPartition(apps: seq<Application>)
    ensures |Seqs.Filter(apps, CountedPending)| + |Seqs.Filter(apps, CountedApproved)|
            + |Seqs.Filter(apps, CountedCompleted)| + |Seqs.Filter(apps, Uncounted)| == |apps|
  {
    if apps != [] {
      StatsPartition(apps[1..]);
    }
  }

  /** A new application moves the total by one and exactly the counter its status belongs to. */
  lemma StatsOfNewApplication(apps: seq<Application>, a: Application)
    ensures var before, after := ComputeStats(apps), ComputeStats([a] + apps);
            after.total == before.total + 1 &&
            after.pending == before.pending + (if CountedPending(a) then 1 else 0) &&
            after.approved == before.approved + (if CountedApproved(a) then 1 else 0) &&
            after.completed == before.completed + (if CountedCompleted(a) then 1 else 0)
  {
    assert ([a] + apps)[1..] == apps;
  }

  /** The "Recent Applications" card: the first five fetched rows, newest first. */
  function Recent(apps: seq<Application>): (r: seq<Application>)
    ensures |r| == if |apps| < 5 then |apps| else 5
    ensures r == apps[..|r|]
  {
    Seqs.Take(apps, 5)
  }

  /** This page's icon choice: like the application list's, but without "in_progress". */
  function StatusIcon(status: string): (r: Status.Icon)
    ensures r == Status.Waiting <==> status in {"pending", "in_review"}
    ensures r == Status.Done <==> status in {"approved", "completed"}
    ensures r == Status.Refused <==> status == "rejected"
  {
    match status
    case "pending" => Status.Waiting
    case "in_review" => Status.Waiting
    case "approved" => Status.Done
    case "completed" => Status.Done
    case "rejected" => Status.Refused
    case _ => Status.Generic
  }

  /** The dashboard and the application list draw the same icon for every status except "in_progress". */
  lemma IconsAgreeExceptInProgress(status: string)
    ensures status != UserApplications.InProgress ==> StatusIcon(status) == UserApplications.StatusIcon(status)
    ensures StatusIcon(UserApplications.InProgress) == Status.Generic
    ensures UserApplications.StatusIcon(UserApplications.InProgress) == Status.Waiting
  {
  }

  /** The dashboard's badge map is the shared one, so "in_progress" gets only the base class here. */
  lemma BadgesAgreeExceptInProgress(status: string)
    ensures status != UserApplications.InProgress ==> Status.Badge(status) == UserApplications.Badge(status)
    ensures Status.Badge(UserApplications.InProgress) == Status.BaseBadge
    ensures UserApplications.Badge(UserApplications.InProgress) != Status.BaseBadge
  {
  }

}
