/** The administrator dashboard (src/app/admin/dashboard/page.tsx): it lets a
    signed-in user in only when the `admin_users` lookup finds a row for
    them, loads every application, shows three counters, and lets the
    administrator open an application and set its status. The backend's
    replies are parameters of the handlers; what the page asked the backend
    for is kept as a log of requests. */
module AdminDashboard {
  import opened Types
  import Lists

  /** An application as the dashboard reads it from the `applications` table. */
  datatype MerchantApplication = MerchantApplication(
    id: string,
    businessName: string,
    dbaName: string,
    email: string,
    status: SubmissionStatus,
    createdAt: string,
    ownerFirstName: string,
    ownerLastName: string,
    taxId: string,
    businessWebsite: string,
    businessPhone: string,
    ssn: string,
    driversLicenseUrl: Option<string>,
    businessLicenseUrl: Option<string>,
    voidCheckUrl: Option<string>)

  /** One request the page sends to the backend. */
  datatype Request =
    | AdminLookup(userId: string)
    | FetchApplications
    | StatusUpdate(id: string, status: SubmissionStatus)

  /** What the `applications` query answered. */
  datatype FetchReply = FetchReply(data: Option<seq<MerchantApplication>>, error: Option<string>)

  /** The text of the alert shown when a status update fails. */
  const UpdateFailedPrefix: string := "Status update failed: "

  /** The page a non-administrator is sent to. */
  const HomePage: string := "/"

  /** The decision buttons, in the order they are shown. Every status is
      offered, whatever the current one. */
  const StatusOptions: seq<SubmissionStatus> := [Pending, Approved, Rejected]

  // ---------------------------------------------------------------------
  // The status replacement
  // ---------------------------------------------------------------------

  function HasId(id: string): MerchantApplication -> bool {
    (a: MerchantApplication) => a.id == id
  }

  function SetStatus(s: SubmissionStatus): MerchantApplication -> MerchantApplication {
    (a: MerchantApplication) => a.(status := s)
  }

  /** `prev.map(a => a.id === id ? { ...a, status: newStatus } : a)`: every
      entry with that id gets the new status and keeps all its other fields;
      every other entry, the length and the order are unchanged. */
  function ApplyUpdate(apps: seq<MerchantApplication>, id: string, s: SubmissionStatus): (r: seq<MerchantApplication>)
    ensures |r| == |apps|
    ensures forall i :: 0 <= i < |apps| ==> r[i].id == apps[i].id
    ensures forall i :: 0 <= i < |apps| && apps[i].id == id ==> r[i].status == s && r[i] == apps[i].(status := s)
    ensures forall i :: 0 <= i < |apps| && apps[i].id != id ==> r[i] == apps[i]
  {
    Lists.UpdateWhere(apps, HasId(id), SetStatus(s))
  }

  /** Choosing the same status twice is the same as choosing it once. */
  lemma ApplyUpdateRepeat(apps: seq<MerchantApplication>, id: string, s: SubmissionStatus)
    ensures ApplyUpdate(ApplyUpdate(apps, id, s), id, s) == ApplyUpdate(apps, id, s)
  {
    Lists.UpdateWhereIdempotent(apps, HasId(id), SetStatus(s));
  }

  /** The lifecycle is open: whatever status was chosen before, the last
      choice is what the list shows. */
  lemma ApplyUpdateLastWins(apps: seq<MerchantApplication>, id: string, s: SubmissionStatus, t: SubmissionStatus)
    ensures ApplyUpdate(ApplyUpdate(apps, id, s), id, t) == ApplyUpdate(apps, id, t)
  {
    var once := ApplyUpdate(apps, id, s);
    var twice := ApplyUpdate(once, id, t);
    var direct := ApplyUpdate(apps, id, t);
    forall i | 0 <= i < |apps| ensures twice[i] == direct[i] {
      if apps[i].id == id {
        assert once[i] == apps[i].(status := s);
      }
    }
  }

  /** The selected application after a successful update: it follows the
      update only when its id is the one updated. */
  function UpdateSelected(selected: Option<MerchantApplication>, id: string, s: SubmissionStatus): (r: Option<MerchantApplication>)
    ensures r.Some? <==> selected.Some?
    ensures selected.Some? && selected.value.id == id ==> r == Some(selected.value.(status := s))
    ensures selected.Some? && selected.value.id != id ==> r == selected
  {
    if selected.Some? && selected.value.id == id then Some(selected.value.(status := s)) else selected
  }

  // ---------------------------------------------------------------------
  // The counters
  // ---------------------------------------------------------------------

  /** The counters above the table. */
  datatype Stats = Stats(total: nat, pending: nat, approved: nat)

  predicate IsPending(a: MerchantApplication) { a.status == Pending }
  predicate IsApproved(a: MerchantApplication) { a.status == Approved }

  /** The number of applications in a given status, counted one by one. */
  function CountStatus(apps: seq<MerchantApplication>, s: SubmissionStatus): (n: nat)
    ensures n <= |apps|
  {
    if apps == [] then 0 else (if apps[0].status == s then 1 else 0) + CountStatus(apps[1..], s)
  }

  /** Every application is in exactly one of the three statuses. */
  lemma {:induction false} StatusCountsPartition(apps: seq<MerchantApplication>)
    ensures CountStatus(apps, Pending) + CountStatus(apps, Approved) + CountStatus(apps, Rejected) == |apps|
  {
    if apps != [] {
      StatusCountsPartition(apps[1..]);
    }
  }

  /** Filtering on a status keeps exactly the applications in that status. */
  lemma {:induction false} FilterCountsPending(apps: seq<MerchantApplication>)
    ensures |Lists.Filter(apps, IsPending)| == CountStatus(apps, Pending)
  {
    if apps != [] {
      FilterCountsPending(apps[1..]);
    }
  }

  lemma {:induction false} FilterCountsApproved(apps: seq<MerchantApplication>)
    ensures |Lists.Filter(apps, IsApproved)| == CountStatus(apps, Approved)
  {
    if apps != [] {
      FilterCountsApproved(apps[1..]);
    }
  }

  /** `stats`: the list length and the two filter counts. The pending and
      approved counters never add up to more than the total; what they miss
      is exactly the rejected applications. */
  function ComputeStats(apps: seq<MerchantApplication>): (st: Stats)
    ensures st.total == |apps|
    ensures st.pending == CountStatus(apps, Pending)
    ensures st.approved == CountStatus(apps, Approved)
    ensures st.pending + st.approved <= st.total
    ensures st.total - st.pending - st.approved == CountStatus(apps, Rejected)
  {
    FilterCountsPending(apps);
    FilterCountsApproved(apps);
    StatusCountsPartition(apps);
    Stats(|apps|, |Lists.Filter(apps, IsPending)|, |Lists.Filter(apps, IsApproved)|)
  }

  /** Setting a status never lowers the number of applications in that
      status. */
  lemma {:induction false} UpdateRaisesCount(apps: seq<MerchantApplication>, id: string, s: SubmissionStatus)
    ensures CountStatus(ApplyUpdate(apps, id, s), s) >= CountStatus(apps, s)
  {
    if apps != [] {
      var r := ApplyUpdate(apps, id, s);
      assert r[1..] == ApplyUpdate(apps[1..], id, s);
      UpdateRaisesCount(apps[1..], id, s);
    }
  }

  /** For an id that is listed once with a different status, an update
      moves exactly one application into the new status. */
  lemma {:induction false} UpdateMovesOne(apps: seq<MerchantApplication>, id: string, s: SubmissionStatus, k: nat)
    requires k < |apps| && apps[k].id == id && apps[k].status != s
    requires forall i :: 0 <= i < |apps| && i != k ==> apps[i].id != id
    ensures CountStatus(ApplyUpdate(apps, id, s), s) == CountStatus(apps, s) + 1
  {
    var r := ApplyUpdate(apps, id, s);
    var tail := apps[1..];
    assert r[1..] == ApplyUpdate(tail, id, s);
    assert CountStatus(r, s) == (if r[0].status == s then 1 else 0) + CountStatus(r[1..], s);
    assert CountStatus(apps, s) == (if apps[0].status == s then 1 else 0) + CountStatus(tail, s);
    if k == 0 {
      assert forall i :: 0 <= i < |tail| ==> tail[i] == apps[i + 1];
      UnlistedUnchanged(tail, id, s);
    } else {
      assert r[0] == apps[0];
      assert forall i :: 0 <= i < |tail| && i != k - 1 ==> tail[i] == apps[i + 1];
      UpdateMovesOne(tail, id, s, k - 1);
    }
  }

  /** An update for an id that is not listed changes nothing. */
  lemma UnlistedUnchanged(apps: seq<MerchantApplication>, id: string, s: SubmissionStatus)
    requires forall i :: 0 <= i < |apps| ==> apps[i].id != id
    ensures ApplyUpdate(apps, id, s) == apps
  {
  }

  // ---------------------------------------------------------------------
  // The page
  // ---------------------------------------------------------------------

  class AdminDashboardPage {
    var apps: seq<MerchantApplication>
    var selectedApp: Option<MerchantApplication>
    var dataLoading: bool
    /** Where the page sent the browser, if anywhere. */
    var redirect: Option<string>
    /** The alerts shown, in order. */
    var alerts: seq<string>
    /** The requests sent to the backend, in order. */
    var requests: seq<Request>

    constructor ()
      ensures apps == [] && selectedApp.None? && dataLoading
      ensures redirect.None? && alerts == [] && requests == []
    {
      apps := [];
      selectedApp := None;
      dataLoading := true;
      redirect := None;
      alerts := [];
      requests := [];
    }

    /** `fetchApps`: on a reply without error the list becomes the rows
        returned (none when there are none); on an error it is kept. The
        loader is cleared either way. */
    method FetchApps(reply: FetchReply)
      modifies this`apps, this`dataLoading, this`requests
      ensures requests == old(requests) + [FetchApplications]
      ensures reply.error.None? ==> apps == reply.data.GetOr([])
      ensures reply.error.Some? ==> apps == old(apps)
      ensures !dataLoading
    {
      requests := requests + [FetchApplications];
      if reply.error.None? {
        apps := reply.data.GetOr([]);
      }
      dataLoading := false;
    }

    /** `checkAdminAndLoad`, run when a user is known: look the user up in
        `admin_users`; without a row, go home and fetch nothing; with one,
        fetch the applications. `adminRow` is the lookup's answer. */
    method CheckAdminAndLoad(user: Option<User>, adminRow: Option<string>, reply: FetchReply)
      modifies this`apps, this`dataLoading, this`requests, this`redirect
      ensures user.None? ==>
        && requests == old(requests) && apps == old(apps)
        && dataLoading == old(dataLoading) && redirect == old(redirect)
      ensures user.Some? && adminRow.None? ==>
        && requests == old(requests) + [AdminLookup(user.value.id)]
        && redirect == Some(HomePage)
        && apps == old(apps) && dataLoading == old(dataLoading)
      ensures user.Some? && adminRow.Some? ==>
        && requests == old(requests) + [AdminLookup(user.value.id), FetchApplications]
        && redirect == old(redirect)
        && (reply.error.None? ==> apps == reply.data.GetOr([]))
        && (reply.error.Some? ==> apps == old(apps))
        && !dataLoading
    {
      if user.None? {
        return;
      }
      requests := requests + [AdminLookup(user.value.id)];
      if adminRow.None? {
        redirect := Some(HomePage);
        return;
      }
      FetchApps(reply);
    }

    /** The REVIEW FILE button of row `i`. */
    method Review(i: nat)
      requires i < |apps|
      modifies this`selectedApp
      ensures selectedApp == Some(apps[i])
    {
      selectedApp := Some(apps[i]);
    }

    /** The close button of the detail view. */
    method CloseReview()
      modifies this`selectedApp
      ensures selectedApp.None?
    {
      selectedApp := None;
    }

    /** `updateStatus(id, newStatus)` with `error` the update's reply. Any
        status may be requested, whatever the current one. On success the
        list and the selected application follow the update; on failure
        both are kept and an alert is shown. */
    method UpdateStatus(id: string, newStatus: SubmissionStatus, error: Option<string>)
      modifies this`apps, this`selectedApp, this`alerts, this`requests
      ensures requests == old(requests) + [StatusUpdate(id, newStatus)]
      ensures error.None? ==>
        && apps == ApplyUpdate(old(apps), id, newStatus)
        && selectedApp == UpdateSelected(old(selectedApp), id, newStatus)
        && alerts == old(alerts)
      ensures error.Some? ==>
        && apps == old(apps) && selectedApp == old(selectedApp)
        && alerts == old(alerts) + [UpdateFailedPrefix + error.value]
    {
      requests := requests + [StatusUpdate(id, newStatus)];
      if error.None? {
        apps := ApplyUpdate(apps, id, newStatus);
        if selectedApp.Some? && selectedApp.value.id == id {
          selectedApp := Some(selectedApp.value.(status := newStatus));
        }
      } else {
        alerts := alerts + [UpdateFailedPrefix + error.value];
      }
    }
  }
}
