/**
 * Application status names and the status-badge class map that the admin
 * application list and both dashboards define identically.
 */
module Status {
  import Text

  const Pending: string := "pending"
  const InReview: string := "in_review"
  const Approved: string := "approved"
  const Rejected: string := "rejected"
  const Completed: string := "completed"

  /** The icon a status is drawn with: a clock, a check mark, a cross, or a plain document. */
  datatype Icon = Waiting | Done | Refused | Generic

  /** The class every badge carries; an unknown status gets only this one. */
  const BaseBadge: string := "status-badge"

  predicate IsKnown(status: string) {
    status == Pending || status == InReview || status == Approved ||
    status == Rejected || status == Completed
  }

  /** The badge class for a status: one class per known status, the base class otherwise. */
  function Badge(status: string): (r: string)
    ensures Text.IsPrefix(BaseBadge, r)
    ensures r == BaseBadge <==> !IsKnown(status)
  {
    if status == Pending then "status-badge status-pending"
    else if status == InReview then "status-badge status-in-review"
    else if status == Approved then "status-badge status-approved"
    else if status == Rejected then "status-badge status-rejected"
    else if status == Completed then "status-badge status-completed"
    else BaseBadge
  }
}
