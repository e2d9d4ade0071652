/** Shared vocabulary of the onboarding application: the status lifecycle,
    the records of the data layer, and small result wrappers. */
module Types {

  /** A value that may be absent (`undefined` / `null` in the application). */
  datatype Option<+T> = None | Some(value: T) {
    function GetOr(default: T): T {
      match this
      case Some(v) => v
      case None => default
    }
  }

  /** A JavaScript string is truthy exactly when it is present and non-empty. */
  predicate Truthy(s: Option<string>) {
    s.Some? && s.value != ""
  }

  /** The three states of a submission. The lifecycle is an open graph:
      any state may be set from any other. */
  datatype SubmissionStatus = Pending | Approved | Rejected

  /** The three statuses in the order the data layer iterates them. */
  const AllStatuses: seq<SubmissionStatus> := [Pending, Approved, Rejected]

  /** The status as it is stored in the record store. */
  function StatusName(s: SubmissionStatus): (r: string)
    ensures r == "pending" || r == "approved" || r == "rejected"
  {
    match s
    case Pending => "pending"
    case Approved => "approved"
    case Rejected => "rejected"
  }

  /** Reads a stored status back; any other string is not a status. */
  function ParseStatus(s: string): (r: Option<SubmissionStatus>)
    ensures r.Some? ==> StatusName(r.value) == s
    ensures r.None? ==> forall t: SubmissionStatus :: StatusName(t) != s
  {
    if s == "pending" then Some(Pending)
    else if s == "approved" then Some(Approved)
    else if s == "rejected" then Some(Rejected)
    else None
  }

  lemma StatusNameRoundTrip(s: SubmissionStatus)
    ensures ParseStatus(StatusName(s)) == Some(s)
  {
  }

  /** The signed-in identity, as far as this application uses it. */
  datatype User = User(id: string, email: string)

  /** A row of the `submissions` table used by the data layer. */
  datatype Submission = Submission(
    id: string,
    userId: string,
    dbaName: string,
    businessPhone: string,
    website: Option<string>,
    businessAddress: string,
    shippingAddress: string,
    tinEin: string,
    ownerFirstName: string,
    ownerLastName: string,
    cellphone: string,
    email: string,
    ssn: string,
    driverLicenseUrl: Option<string>,
    businessLicenseUrl: Option<string>,
    voidCheckUrl: Option<string>,
    additionalDocsUrl: Option<string>,
    status: SubmissionStatus,
    adminNotes: Option<string>,
    createdAt: string,
    updatedAt: string)

  /** A persisted notification tied to a status change. */
  datatype Message = Message(
    id: string,
    userId: string,
    submissionId: string,
    message: string,
    status: SubmissionStatus,
    createdAt: string)

  /** A message before the store assigns its identifier and creation time. */
  datatype NewMessage = NewMessage(
    submissionId: string,
    userId: string,
    message: string,
    status: SubmissionStatus)
}
