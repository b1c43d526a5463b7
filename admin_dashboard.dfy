/** The admin dashboard: platform-wide counters, revenue from completed work, and the completion rate. */
module AdminDashboard {
  import opened Wrappers
  import Status
  import Seqs
  import UserDashboard

  /** A fetched application row; prices are in cents. */
  datatype Application = Application(id: string, status: string, totalPriceCents: int, createdAt: string)

  datatype Stats = Stats(totalUsers: nat, totalApplications: nat, pending: nat, completed: nat, revenueCents: int)

  /** The admin "Pending" counter counts only "pending", unlike the customer dashboard's. */
  predicate IsPending(a: Application) { a.status == Status.Pending }
  predicate IsCompleted(a: Application) { a.status == Status.Completed }

  /** `reduce((sum, a) => sum + a.total_price, 0)`. */
  function SumPrices(apps: seq<Application>): int {
    if apps == [] then 0 else apps[0].totalPriceCents + SumPrices(apps[1..])
  }

  lemma {:induction false} SumPricesAppend(a: seq<Application>, b: seq<Application>)
    ensures SumPrices(a + b) == SumPrices(a) + SumPrices(b)
  {
    if a == [] {
      assert a + b == b;
    } else {
      assert (a + b)[0] == a[0] && (a + b)[1..] == a[1..] + b;
      SumPricesAppend(a[1..], b);
    }
  }

  /** Total revenue: the prices of completed applications only. */
  function Revenue(apps: seq<Application>): (r: int)
    ensures (forall a :: a in apps ==> a.totalPriceCents >= 0) ==> r >= 0
  {
    RevenueNonNegative(Seqs.Filter(apps, IsCompleted));
    SumPrices(Seqs.Filter(apps, IsCompleted))
  }

  lemma {:induction false} RevenueNonNegative(apps: seq<Application>)
    ensures (forall a :: a in apps ==> a.totalPriceCents >= 0) ==> SumPrices(apps) >= 0
  {
    if apps != [] {
      RevenueNonNegative(apps[1..]);
    }
  }

  /** Appending an application adds its price to the revenue exactly when it is completed. */
  lemma RevenueOfAppended(apps: seq<Application>, a: Application)
    ensures Revenue(apps + [a]) == Revenue(apps) + (if IsCompleted(a) then a.totalPriceCents else 0)
  {
    Seqs.FilterAppend(apps, [a], IsCompleted);
    SumPricesAppend(Seqs.Filter(apps, IsCompleted), Seqs.Filter([a], IsCompleted));
  }

  /** The dashboard's counters over the fetched rows; a missing user count shows as 0. */
  function ComputeStats(usersCount: Option<nat>, apps: seq<Application>): (r: Stats)
    ensures r.totalUsers == usersCount.GetOr(0) && r.totalApplications == |apps|
    ensures r.pending <= r.totalApplications && r.completed <= r.totalApplications
    ensures r.revenueCents == Revenue(apps)
  {
    Stats(usersCount.GetOr(0), |apps|, |Seqs.Filter(apps, IsPending)|, |Seqs.Filter(apps, IsCompleted)|, Revenue(apps))
  }

  /** With no applications every application counter and the revenue are zero. */
  lemma StatsOfNoApplications(usersCount: Option<nat>)
    ensures ComputeStats(usersCount, []) == Stats(usersCount.GetOr(0), 0, 0, 0, 0)
  {
  }

  /**
   * One more application moves the total by one, the "pending" counter exactly when
   * its status is "pending", the "completed" counter and the revenue exactly when it
   * is "completed"; the user count is untouched.
   */
  lemma StatsOfNewApplication(usersCount: Option<nat>, apps: seq<Application>, a: Application)
    ensures var before, after := ComputeStats(usersCount, apps), ComputeStats(usersCount, [a] + apps);
            after.totalUsers == before.totalUsers &&
            after.totalApplications == before.totalApplications + 1 &&
            after.pending == before.pending + (if IsPending(a) then 1 else 0) &&
            after.completed == before.completed + (if IsCompleted(a) then 1 else 0) &&
            after.revenueCents == before.revenueCents + (if IsCompleted(a) then a.totalPriceCents else 0)
  {
    assert ([a] + apps)[1..] == apps;
    assert ([a] + apps)[0] == a;
    var done := Seqs.Filter(apps, IsCompleted);
    if IsCompleted(a) {
      assert Seqs.Filter([a] + apps, IsCompleted) == [a] + done;
      assert ([a] + done)[1..] == done;
    } else {
      assert Seqs.Filter([a] + apps, IsCompleted) == done;
    }
  }

  /** `Math.round(completed / total * 100)` in exact arithmetic, and 0 for no applications. */
  function CompletionRate(completed: nat, total: nat): (r: int)
    ensures total == 0 ==> r == 0
    ensures total > 0 ==> 2 * total * r <= 200 * completed + total < 2 * total * (r + 1)
  {
    if total > 0 then (200 * completed + total) / (2 * total) else 0
  }

  lemma CancelFactor(k: int, x: int, y: int)
    requires k > 0 && k * x < k * y
    ensures x < y
  {
    assert k * (y - x) == k * y - k * x;
  }

  /** The displayed rate is a percentage. */
  lemma CompletionRateIsPercentage(completed: nat, total: nat)
    requires completed <= total
    ensures 0 <= CompletionRate(completed, total) <= 100
  {
    if total > 0 {
      var r := CompletionRate(completed, total);
      CancelFactor(2 * total, -1, r);
      assert 200 * completed + total <= 2 * total * 101 - 1;
      CancelFactor(2 * total, r, 101);
    }
  }

  /** All applications completed shows 100%, none completed shows 0%. */
  lemma CompletionRateExtremes(total: nat)
    ensures CompletionRate(total, total) == (if total > 0 then 100 else 0)
    ensures CompletionRate(0, total) == 0
  {
    if total > 0 {
      var k := 2 * total;
      var full, none := CompletionRate(total, total), CompletionRate(0, total);
      CancelFactor(k, full, 101);
      CancelFactor(k, 100, full + 1);
      CancelFactor(k, none, 1);
      CancelFactor(k, 0, none + 1);
    }
  }

  /** The rate on the dashboard is always a percentage, whatever the rows. */
  lemma DashboardRateIsPercentage(usersCount: Option<nat>, apps: seq<Application>)
    ensures var s := ComputeStats(usersCount, apps);
            0 <= CompletionRate(s.completed, s.totalApplications) <= 100
  {
    var s := ComputeStats(usersCount, apps);
    CompletionRateIsPercentage(s.completed, s.totalApplications);
  }

  /** An application under review counts as pending for its owner but not for the admin. */
  lemma PendingDefinitionsDiffer(id: string, price: int, createdAt: string)
    ensures ComputeStats(None, [Application(id, Status.InReview, price, createdAt)]).pending == 0
    ensures UserDashboard.ComputeStats([UserDashboard.UserApplications.Application(id, Status.InReview, price, createdAt, None)]).pending == 1
  {
  }

}
