/** The applicant's dashboard (src/app/dashboard/page.tsx): it loads the
    signed-in user's applications and shows each one with a title, a
    reference label, a coloured status pill and a status indicator. The
    query's answer is a parameter of the loader. */
module UserDashboard {
  import opened Types
  import Strings

  /** An application as the dashboard reads it. The title columns may be
      missing, so they are optional. */
  datatype Application = Application(
    id: string,
    businessName: Option<string>,
    dbaName: Option<string>,
    status: string,
    createdAt: string)

  // ---------------------------------------------------------------------
  // The status pill
  // ---------------------------------------------------------------------

  const ApprovedStyle: string := "bg-emerald-50 text-emerald-600 border-emerald-100 ring-4 ring-emerald-50/50"
  const PendingStyle: string := "bg-amber-50 text-amber-600 border-amber-100 ring-4 ring-amber-50/50"
  const RejectedStyle: string := "bg-rose-50 text-rose-600 border-rose-100 ring-4 ring-rose-50/50"
  const DefaultStyle: string := "bg-stone-50 text-stone-600 border-stone-100"

  /** `getStatusStyles(status)`: the pill's classes, chosen on the
      lower-cased status. Each of the three statuses has its own style and
      every other string gets the default one. */
  function StatusStyles(status: string): (style: string)
    ensures style == ApprovedStyle <==> Strings.Lower(status) == "approved"
    ensures style == PendingStyle <==> Strings.Lower(status) == "pending"
    ensures style == RejectedStyle <==> Strings.Lower(status) == "rejected"
    ensures style == DefaultStyle <==>
      Strings.Lower(status) !in {"approved", "pending", "rejected"}
  {
    var key := Strings.Lower(status);
    if key == "approved" then ApprovedStyle
    else if key == "pending" then PendingStyle
    else if key == "rejected" then RejectedStyle
    else DefaultStyle
  }

  /** The pill does not depend on letter case: a status and its lower-case
      or upper-case spelling get the same style. */
  lemma StatusStylesIgnoreCase(status: string)
    ensures StatusStyles(Strings.Lower(status)) == StatusStyles(status)
    ensures StatusStyles(Strings.Upper(status)) == StatusStyles(status)
  {
    Strings.LowerIdempotent(status);
    Strings.LowerOfUpper(status);
  }

  /** A string made of lower-case letters and other characters that are not
      upper-case letters is its own lower-case form. */
  lemma LowerOfLower(s: string)
    requires forall i :: 0 <= i < |s| ==> !Strings.IsUpperAscii(s[i])
    ensures Strings.Lower(s) == s
  {
  }

  /** Each stored status gets its own style. */
  lemma StoredStatusStyles()
    ensures StatusStyles(StatusName(Pending)) == PendingStyle
    ensures StatusStyles(StatusName(Approved)) == ApprovedStyle
    ensures StatusStyles(StatusName(Rejected)) == RejectedStyle
  {
    LowerOfLower("pending");
    LowerOfLower("approved");
    LowerOfLower("rejected");
  }

  // ---------------------------------------------------------------------
  // The indicator
  // ---------------------------------------------------------------------

  /** The colour of the status indicator. */
  datatype Colour = Emerald | Rose | Amber

  /** The indicator's colour, chosen on the status exactly as stored (no
      lower-casing here): emerald for approved, rose for rejected, amber for
      anything else. */
  function IndicatorColour(status: string): (c: Colour)
    ensures c == Emerald <==> status == "approved"
    ensures c == Rose <==> status == "rejected"
    ensures c == Amber <==> status != "approved" && status != "rejected"
  {
    if status == "approved" then Emerald
    else if status == "rejected" then Rose
    else Amber
  }

  /** The class of one of the indicator's two dots: the pinging halo uses
      shade 400, the solid dot shade 500. */
  function IndicatorClass(status: string, solid: bool): (cls: string)
    ensures IndicatorColour(status) == Emerald ==> cls == (if solid then "bg-emerald-500" else "bg-emerald-400")
    ensures IndicatorColour(status) == Rose ==> cls == (if solid then "bg-rose-500" else "bg-rose-400")
    ensures IndicatorColour(status) == Amber ==> cls == (if solid then "bg-amber-500" else "bg-amber-400")
  {
    var shade := if solid then "500" else "400";
    match IndicatorColour(status)
    case Emerald => "bg-emerald-" + shade
    case Rose => "bg-rose-" + shade
    case Amber => "bg-amber-" + shade
  }

  /** The pill and the indicator agree on the stored spellings, but not on
      others: any other spelling of `approved` (in capitals, say) gets the
      approved pill and an amber indicator. */
  lemma PillAndIndicatorDiffer(status: string)
    requires Strings.Lower(status) == "approved" && status != "approved"
    ensures StatusStyles(status) == ApprovedStyle
    ensures IndicatorColour(status) == Amber
  {
    assert Strings.LowerChar(status[0]) == 'a';
    assert status != "rejected";
  }

  /** `APPROVED` is such a spelling. */
  lemma ApprovedInCapitals()
    ensures Strings.Lower("APPROVED") == "approved"
  {
    var key := Strings.Lower("APPROVED");
    assert key[0] == 'a' && key[1] == 'p' && key[2] == 'p' && key[3] == 'r';
    assert key[4] == 'o' && key[5] == 'v' && key[6] == 'e' && key[7] == 'd';
  }

  // ---------------------------------------------------------------------
  // The title and the reference label
  // ---------------------------------------------------------------------

  const FallbackTitle: string := "Merchant Business"

  /** `app.business_name || app.dba_name || "Merchant Business"`: the first
      of the two names that is present and not empty, else the fallback.
      The title is never empty. */
  function Title(app: Application): (t: string)
    ensures t != ""
    ensures Truthy(app.businessName) ==> t == app.businessName.value
    ensures !Truthy(app.businessName) && Truthy(app.dbaName) ==> t == app.dbaName.value
    ensures !Truthy(app.businessName) && !Truthy(app.dbaName) ==> t == FallbackTitle
  {
    if Truthy(app.businessName) then app.businessName.value
    else if Truthy(app.dbaName) then app.dbaName.value
    else FallbackTitle
  }

  /** `app.id.slice(0, 8).toUpperCase()`: the first eight characters of the
      id (all of it when shorter), upper-cased. */
  function RefLabel(id: string): (tag: string)
    ensures |tag| == if |id| < 8 then |id| else 8
    ensures forall i :: 0 <= i < |tag| ==> tag[i] == Strings.UpperChar(id[i])
    ensures forall i :: 0 <= i < |tag| ==> !Strings.IsLowerAscii(tag[i])
  {
    var n := if |id| < 8 then |id| else 8;
    Strings.Upper(id[..n])
  }

  /** Ids that agree on their first eight characters get the same label. */
  lemma RefLabelPrefix(a: string, b: string)
    requires |a| >= 8 && |b| >= 8 && a[..8] == b[..8]
    ensures RefLabel(a) == RefLabel(b)
  {
  }

  // ---------------------------------------------------------------------
  // The page
  // ---------------------------------------------------------------------

  class UserDashboardPage {
    var applications: seq<Application>
    var dataLoading: bool
    /** The user ids whose applications were requested, in order. */
    var requests: seq<string>

    constructor ()
      ensures applications == [] && dataLoading && requests == []
    {
      applications := [];
      dataLoading := true;
      requests := [];
    }

    /** `loadData` with `data` the query's answer: with nobody signed in it
        does nothing; otherwise it asks for that user's applications and
        shows the rows returned (none when there are none). */
    method LoadData(user: Option<User>, data: Option<seq<Application>>)
      modifies this`applications, this`dataLoading, this`requests
      ensures user.None? ==>
        && applications == old(applications)
        && dataLoading == old(dataLoading) && requests == old(requests)
      ensures user.Some? ==>
        && requests == old(requests) + [user.value.id]
        && applications == data.GetOr([]) && !dataLoading
    {
      if user.None? {
        return;
      }
      requests := requests + [user.value.id];
      applications := data.GetOr([]);
      dataLoading := false;
    }
  }
}
