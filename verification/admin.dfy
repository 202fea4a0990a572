/** The admin moderation console: a role gate, counts over the fetched tables, and the
    three moderation actions, each an update by id followed by a full re-fetch. */
module Admin {
  import opened Market

  /** The four counters at the top of the console. */
  datatype Stats = Stats(users: nat, products: nat, pending: nat, reports: nat)

  /** `roles?.some(r => r.role === "admin")`, with a missing reply meaning no role. */
  function HasAdminRole(roles: Option<seq<string>>): (b: bool)
    ensures b <==> roles.Some? && exists i :: 0 <= i < |roles.value| && roles.value[i] == "admin"
  {
    roles.Some? && AnyAdmin(roles.value)
  }

  function AnyAdmin(roles: seq<string>): (b: bool)
    ensures b <==> exists i :: 0 <= i < |roles| && roles[i] == "admin"
  {
    if roles == [] then false
    else
      assert forall i :: 0 < i < |roles| ==> roles[i] == roles[1..][i - 1];
      roles[0] == "admin" || AnyAdmin(roles[1..])
  }

  /** The approval column of the products table. */
  ghost function ApprovalColumn(products: seq<Listing>): (r: seq<ApprovalStatus>)
    ensures |r| == |products| && forall i :: 0 <= i < |products| ==> r[i] == products[i].approvalStatus
  {
    seq(|products|, i requires 0 <= i < |products| => products[i].approvalStatus)
  }

  /** The status column of the reports table. */
  ghost function ReportColumn(reports: seq<Report>): (r: seq<ReportStatus>)
    ensures |r| == |reports| && forall i :: 0 <= i < |reports| ==> r[i] == reports[i].status
  {
    seq(|reports|, i requires 0 <= i < |reports| => reports[i].status)
  }

  /** `products.filter(p => p.approval_status === "pending").length`: how many times
      "pending" occurs in the approval column. */
  function CountPending(products: seq<Listing>): (n: nat)
    ensures n <= |products|
    ensures n == multiset(ApprovalColumn(products))[Pending]
  {
    if products == [] then 0
    else
      assert ApprovalColumn(products) == [products[0].approvalStatus] + ApprovalColumn(products[1..]);
      (if products[0].approvalStatus == Pending then 1 else 0) + CountPending(products[1..])
  }

  /** `reports.filter(r => r.status === "pending").length`: how many times "pending"
      occurs in the status column. */
  function CountOpenReports(reports: seq<Report>): (n: nat)
    ensures n <= |reports|
    ensures n == multiset(ReportColumn(reports))[ReportPending]
  {
    if reports == [] then 0
    else
      assert ReportColumn(reports) == [reports[0].status] + ReportColumn(reports[1..]);
      (if reports[0].status == ReportPending then 1 else 0) + CountOpenReports(reports[1..])
  }

  /** Counting distributes over concatenation. */
  lemma {:induction false} CountPendingAppend(a: seq<Listing>, b: seq<Listing>)
    ensures CountPending(a + b) == CountPending(a) + CountPending(b)
  {
    if a == [] {
      assert a + b == b;
    } else {
      assert (a + b)[1..] == a[1..] + b;
      CountPendingAppend(a[1..], b);
    }
  }

  lemma {:induction false} CountOpenReportsAppend(a: seq<Report>, b: seq<Report>)
    ensures CountOpenReports(a + b) == CountOpenReports(a) + CountOpenReports(b)
  {
    if a == [] {
      assert a + b == b;
    } else {
      assert (a + b)[1..] == a[1..] + b;
      CountOpenReportsAppend(a[1..], b);
    }
  }

  /** The four counters over the fetched replies; a missing reply counts as an empty table. */
  function ComputeStats(users: Option<seq<Profile>>, products: Option<seq<Listing>>, reports: Option<seq<Report>>): (s: Stats)
    ensures s.users == |users.GetOr([])| && s.products == |products.GetOr([])|
    ensures s.pending == multiset(ApprovalColumn(products.GetOr([])))[Pending] && s.pending <= s.products
    ensures s.reports == multiset(ReportColumn(reports.GetOr([])))[ReportPending] && s.reports <= |reports.GetOr([])|
  {
    Stats(|users.GetOr([])|, |products.GetOr([])|, CountPending(products.GetOr([])), CountOpenReports(reports.GetOr([])))
  }

  /** `update({approval_status: status}).eq("id", id)` on the products table. */
  function SetApproval(products: seq<Listing>, id: string, status: ApprovalStatus): (r: seq<Listing>)
    ensures |r| == |products|
    ensures forall i :: 0 <= i < |products| && products[i].id != id ==> r[i] == products[i]
    ensures forall i :: 0 <= i < |products| && products[i].id == id ==> r[i] == products[i].(approvalStatus := status)
  {
    if products == [] then []
    else
      var head := if products[0].id == id then products[0].(approvalStatus := status) else products[0];
      [head] + SetApproval(products[1..], id, status)
  }

  /** `update({status: "resolved", resolved_at: now, resolved_by: resolver}).eq("id", id)`. */
  function ResolveRows(reports: seq<Report>, id: string, now: int, resolver: Option<UserId>): (r: seq<Report>)
    ensures |r| == |reports|
    ensures forall i :: 0 <= i < |reports| && reports[i].id != id ==> r[i] == reports[i]
    ensures forall i :: 0 <= i < |reports| && reports[i].id == id ==>
      r[i] == reports[i].(status := ReportResolved, resolvedAt := Some(now), resolvedBy := resolver)
  {
    if reports == [] then []
    else
      var head := if reports[0].id == id
        then reports[0].(status := ReportResolved, resolvedAt := Some(now), resolvedBy := resolver)
        else reports[0];
      [head] + ResolveRows(reports[1..], id, now, resolver)
  }

  /** Approve and Reject are shown only on pending listings. */
  predicate OffersModeration(p: Listing) {
    p.approvalStatus == Pending
  }

  /** Resolve is shown only on pending reports. */
  predicate OffersResolve(r: Report) {
    r.status == ReportPending
  }

  /** `id` names exactly the row at index `k`. */
  ghost predicate OnlyRowWithId(products: seq<Listing>, k: int, id: string) {
    0 <= k < |products| && products[k].id == id && forall i :: 0 <= i < |products| && i != k ==> products[i].id != id
  }

  /** Approving or rejecting a listing whose buttons are shown (it is pending, and its id
      is the key of one row) lowers the pending count by exactly one. */
  lemma {:induction false} ModerationLowersPending(products: seq<Listing>, k: int, status: ApprovalStatus)
    requires 0 <= k < |products| && OnlyRowWithId(products, k, products[k].id) && OffersModeration(products[k])
    requires status != Pending
    ensures CountPending(SetApproval(products, products[k].id, status)) == CountPending(products) - 1
  {
    var id := products[k].id;
    var after := SetApproval(products, id, status);
    assert after[0] == if k == 0 then products[0].(approvalStatus := status) else products[0];
    if k == 0 {
      var rest := SetApproval(products[1..], id, status);
      assert rest == products[1..];
    } else {
      ModerationLowersPending(products[1..], k - 1, status);
    }
  }

  /** `id` names exactly the report at index `k`. */
  ghost predicate OnlyReportWithId(reports: seq<Report>, k: int, id: string) {
    0 <= k < |reports| && reports[k].id == id && forall i :: 0 <= i < |reports| && i != k ==> reports[i].id != id
  }

  /** Resolving a report whose button is shown (it is pending, and its id is the key of
      one row) lowers the open-report count by exactly one. */
  lemma {:induction false} ResolveLowersOpenReports(reports: seq<Report>, k: int, now: int, resolver: Option<UserId>)
    requires 0 <= k < |reports| && OnlyReportWithId(reports, k, reports[k].id) && OffersResolve(reports[k])
    ensures CountOpenReports(ResolveRows(reports, reports[k].id, now, resolver)) == CountOpenReports(reports) - 1
  {
    var id := reports[k].id;
    var after := ResolveRows(reports, id, now, resolver);
    assert after[0] == if k == 0 then reports[0].(status := ReportResolved, resolvedAt := Some(now), resolvedBy := resolver) else reports[0];
    if k == 0 {
      var rest := ResolveRows(reports[1..], id, now, resolver);
      assert rest == reports[1..];
    } else {
      ResolveLowersOpenReports(reports[1..], k - 1, now, resolver);
    }
  }

  /** Resolving never raises the open-report count. */
  lemma {:induction false} ResolveNeverRaisesOpenReports(reports: seq<Report>, id: string, now: int, resolver: Option<UserId>)
    ensures CountOpenReports(ResolveRows(reports, id, now, resolver)) <= CountOpenReports(reports)
  {
    if reports != [] {
      ResolveNeverRaisesOpenReports(reports[1..], id, now, resolver);
    }
  }

  /** Which of the three dashboard queries came back with data. */
  datatype Fetched = Fetched(users: bool, products: bool, reports: bool)

  /** A query's reply: the table when it came back with data, nothing otherwise. */
  function Read<T>(ok: bool, table: seq<T>): (r: Option<seq<T>>)
    ensures r.GetOr([]) == if ok then table else []
  {
    if ok then Some(table) else None
  }

  /** The console's state. */
  class AdminConsole {
    var isAdmin: bool
    var loading: bool
    var stats: Stats
    var users: seq<Profile>
    var products: seq<Listing>
    var reports: seq<Report>

    constructor ()
      ensures !isAdmin && loading && stats == Stats(0, 0, 0, 0)
      ensures users == [] && products == [] && reports == []
    {
      isAdmin := false;
      loading := true;
      stats := Stats(0, 0, 0, 0);
      users, products, reports := [], [], [];
    }

    /** Stores the three replies and recomputes the stats from them. */
    method FetchDashboardData(usersRes: Option<seq<Profile>>, productsRes: Option<seq<Listing>>, reportsRes: Option<seq<Report>>)
      modifies this
      ensures users == usersRes.GetOr([]) && products == productsRes.GetOr([]) && reports == reportsRes.GetOr([])
      ensures stats == ComputeStats(usersRes, productsRes, reportsRes)
      ensures isAdmin == old(isAdmin) && loading == old(loading)
    {
      var usersData := usersRes.GetOr([]);
      var productsData := productsRes.GetOr([]);
      var reportsData := reportsRes.GetOr([]);
      users, products, reports := usersData, productsData, reportsData;
      stats := Stats(|usersData|, |productsData|, CountPending(productsData), CountOpenReports(reportsData));
    }

    /** The gate: no session sends the caller to /auth; no admin role sends the caller
        home with an error toast; otherwise the data is fetched. Loading ends on every path. */
    method CheckAdminAccess(session: Option<UserId>, roles: Option<seq<string>>,
                            usersRes: Option<seq<Profile>>, productsRes: Option<seq<Listing>>, reportsRes: Option<seq<Report>>)
      returns (nav: Nav, notice: Notice)
      modifies this
      ensures !loading
      ensures session.None? ==> nav == GoTo(Auth) && notice == Silent
      ensures session.Some? && !HasAdminRole(roles) ==> nav == GoTo(Home) && notice == ErrorToast
      ensures !(session.Some? && HasAdminRole(roles)) ==>
        (isAdmin == old(isAdmin) && users == old(users) && products == old(products)
         && reports == old(reports) && stats == old(stats))
      ensures session.Some? && HasAdminRole(roles) ==>
        (nav == Stay && notice == Silent && isAdmin
         && users == usersRes.GetOr([]) && products == productsRes.GetOr([]) && reports == reportsRes.GetOr([])
         && stats == ComputeStats(usersRes, productsRes, reportsRes))
    {
      if session.None? {
        nav, notice := GoTo(Auth), Silent;
      } else if !HasAdminRole(roles) {
        nav, notice := GoTo(Home), ErrorToast;
      } else {
        isAdmin := true;
        FetchDashboardData(usersRes, productsRes, reportsRes);
        nav, notice := Stay, Silent;
      }
      loading := false;
    }

    /** The re-fetch after a successful mutation: the three queries again, each of which
        may come back without data (and then reads as an empty table). */
    method Refetch(db: Backend, got: Fetched)
      modifies this
      ensures users == Read(got.users, db.profiles).GetOr([])
      ensures products == Read(got.products, db.products).GetOr([])
      ensures reports == Read(got.reports, db.reports).GetOr([])
      ensures stats == ComputeStats(Read(got.users, db.profiles), Read(got.products, db.products), Read(got.reports, db.reports))
      ensures isAdmin == old(isAdmin) && loading == old(loading)
    {
      FetchDashboardData(Read(got.users, db.profiles), Read(got.products, db.products), Read(got.reports, db.reports));
    }

    /** Approve (`status == Approved`) or reject (`status == Rejected`) one listing; on
        success the console re-fetches, on failure nothing changes. */
    method Moderate(db: Backend, productId: string, status: ApprovalStatus, failed: bool, got: Fetched) returns (notice: Notice)
      requires status != Pending
      modifies this, db`products
      ensures failed ==>
        (notice == ErrorToast && db.products == old(db.products)
         && users == old(users) && products == old(products) && reports == old(reports) && stats == old(stats))
      ensures !failed ==>
        (notice == SuccessToast && db.products == SetApproval(old(db.products), productId, status) && Shows(db, got))
      ensures isAdmin == old(isAdmin) && loading == old(loading)
    {
      if failed {
        notice := ErrorToast;
      } else {
        db.products := SetApproval(db.products, productId, status);
        notice := SuccessToast;
        Refetch(db, got);
      }
    }

    /** The console shows what the re-fetch read from the tables. */
    ghost predicate Shows(db: Backend, got: Fetched)
      reads this, db
    {
      && users == Read(got.users, db.profiles).GetOr([])
      && products == Read(got.products, db.products).GetOr([])
      && reports == Read(got.reports, db.reports).GetOr([])
      && stats == ComputeStats(Read(got.users, db.profiles), Read(got.products, db.products), Read(got.reports, db.reports))
    }

    method ApproveProduct(db: Backend, productId: string, failed: bool, got: Fetched) returns (notice: Notice)
      modifies this, db`products
      ensures failed ==>
        (notice == ErrorToast && db.products == old(db.products)
         && users == old(users) && products == old(products) && reports == old(reports) && stats == old(stats))
      ensures !failed ==>
        (notice == SuccessToast && db.products == SetApproval(old(db.products), productId, Approved) && Shows(db, got))
      ensures isAdmin == old(isAdmin) && loading == old(loading)
    {
      notice := Moderate(db, productId, Approved, failed, got);
    }

    method RejectProduct(db: Backend, productId: string, failed: bool, got: Fetched) returns (notice: Notice)
      modifies this, db`products
      ensures failed ==>
        (notice == ErrorToast && db.products == old(db.products)
         && users == old(users) && products == old(products) && reports == old(reports) && stats == old(stats))
      ensures !failed ==>
        (notice == SuccessToast && db.products == SetApproval(old(db.products), productId, Rejected) && Shows(db, got))
      ensures isAdmin == old(isAdmin) && loading == old(loading)
    {
      notice := Moderate(db, productId, Rejected, failed, got);
    }

    /** Marks one report resolved, stamped with the time and the signed-in user (absent
        when there is no session); on success the console re-fetches. */
    method ResolveReport(db: Backend, reportId: string, session: Option<UserId>, now: int, failed: bool, got: Fetched)
      returns (notice: Notice)
      modifies this, db`reports
      ensures failed ==>
        (notice == ErrorToast && db.reports == old(db.reports)
         && users == old(users) && products == old(products) && reports == old(reports) && stats == old(stats))
      ensures !failed ==>
        (notice == SuccessToast && db.reports == ResolveRows(old(db.reports), reportId, now, session) && Shows(db, got))
      ensures isAdmin == old(isAdmin) && loading == old(loading)
    {
      if failed {
        notice := ErrorToast;
      } else {
        db.reports := ResolveRows(db.reports, reportId, now, session);
        notice := SuccessToast;
        Refetch(db, got);
      }
    }
  }

  /** Approving the pending listing in the console, when the products re-fetch returns
      data, shows a pending count one lower than before. */
  method ApproveShownListing(console: AdminConsole, db: Backend, k: int, got: Fetched)
    requires 0 <= k < |db.products| && OnlyRowWithId(db.products, k, db.products[k].id)
    requires OffersModeration(db.products[k]) && got.products
    modifies console, db`products
    ensures console.stats.pending == CountPending(old(db.products)) - 1
  {
    ModerationLowersPending(db.products, k, Approved);
    var notice := console.ApproveProduct(db, db.products[k].id, false, got);
  }

  /** Resolving the pending report in the console, when the reports re-fetch returns
      data, shows an open-report count one lower than before. */
  method ResolveShownReport(console: AdminConsole, db: Backend, k: int, session: Option<UserId>, now: int, got: Fetched)
    requires 0 <= k < |db.reports| && OnlyReportWithId(db.reports, k, db.reports[k].id)
    requires OffersResolve(db.reports[k]) && got.reports
    modifies console, db`reports
    ensures console.stats.reports == CountOpenReports(old(db.reports)) - 1
  {
    ResolveLowersOpenReports(db.reports, k, now, session);
    var notice := console.ResolveReport(db, db.reports[k].id, session, now, false, got);
  }
}
