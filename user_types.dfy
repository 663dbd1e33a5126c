/**
  The two record shapes the application persists: a `User` profile and a
  `Visitor` entry, with the role and status enumerations they use.

  A role is stored and compared as text: the profile document is
  schemaless, and every consumer switches on the text with a default
  branch for names outside the enumeration. `Role` is the enumeration and
  `ParseRole` decodes the text. A visitor's status is kept as the
  enumeration; `StatusName` gives the stored text.
 */
module UserTypes {
  import opened Wrappers

  datatype Role = Resident | Watchman | Committee

  function RoleName(r: Role): string {
    match r
    case Resident => "resident"
    case Watchman => "watchman"
    case Committee => "committee"
  }

  /** Decodes a stored role; exactly the three names of the enumeration decode. */
  function ParseRole(s: string): (r: Option<Role>)
    ensures r.Some? ==> RoleName(r.value) == s
    ensures r.None? ==> forall role: Role :: RoleName(role) != s
  {
    if s == "resident" then Some(Resident)
    else if s == "watchman" then Some(Watchman)
    else if s == "committee" then Some(Committee)
    else None
  }

  lemma RoleRoundTrip(r: Role)
    ensures ParseRole(RoleName(r)) == Some(r)
  {
  }

  datatype Status = Pending | Approved | Rejected

  function StatusName(s: Status): string {
    match s
    case Pending => "pending"
    case Approved => "approved"
    case Rejected => "rejected"
  }

  /** Decodes a stored status; exactly the three names of the enumeration decode. */
  function ParseStatus(s: string): (r: Option<Status>)
    ensures r.Some? ==> StatusName(r.value) == s
    ensures r.None? ==> forall st: Status :: StatusName(st) != s
  {
    if s == "pending" then Some(Pending)
    else if s == "approved" then Some(Approved)
    else if s == "rejected" then Some(Rejected)
    else None
  }

  lemma StatusRoundTrip(s: Status)
    ensures ParseStatus(StatusName(s)) == Some(s)
  {
  }

  /** `timestamp.getHours()` ranges over the 24 hours of the day. */
  type Hour = h: int | 0 <= h < 24

  /**
    A visitor's timestamp, as the dashboards read it: the calendar date that
    `toISOString().split("T")[0]` yields (UTC) and the local hour that
    `getHours()` yields. The clock and the time zone are not modelled.
   */
  datatype Stamp = Stamp(date: string, hour: Hour)

  /** A user profile. `apartment`, `phoneNumber`, `residentId`, `societyId` are optional. */
  datatype User = User(
    uid: string,
    email: string,
    role: string,
    name: string,
    apartment: Option<string>,
    phoneNumber: Option<string>,
    emailVerified: bool,
    residentId: Option<string>,
    societyId: Option<string>)

  /** A user whose stored role is one of the enumeration's names. */
  predicate WellTyped(u: User) {
    ParseRole(u.role).Some?
  }

  /** A visitor entry. `vehicleNumber`, `imageUrl`, `societyId` are optional. */
  datatype Visitor = Visitor(
    id: string,
    name: string,
    phoneNumber: string,
    purpose: string,
    vehicleNumber: Option<string>,
    imageUrl: Option<string>,
    timestamp: Stamp,
    residentId: string,
    residentName: string,
    status: Status,
    addedBy: string,
    societyId: Option<string>)

  /**
    A `users/{uid}` document as read back from the database: every field
    may be absent, including those the sign-up form always writes.
   */
  datatype ProfileDoc = ProfileDoc(
    name: Option<string>,
    email: Option<string>,
    role: Option<string>,
    residentName: Option<string>,
    residentId: Option<string>,
    phoneNumber: Option<string>,
    apartment: Option<string>,
    societyId: Option<string>)
}
