/** The organisation being simulated: its closed enumerations of roles,
    regions and activity features, the per-day activity record that the
    generator writes and the analyses read, and small arithmetic helpers
    shared by every module. */
module Org {

  datatype Option<T> = None | Some(value: T)

  /** The six roles of the simulated bank. */
  datatype Role = CLevel | Trader | ITAdmin | Analyst | Contractor | ExecAssistant

  /** The three regions a user can be placed in. */
  datatype Region = NA | EU | APAC

  /** The nine daily behaviour counters. */
  datatype Feature =
    | AfterHoursLogons
    | SensitiveFileReads
    | UsbDeviceMounts
    | ExternalEmailsSent
    | EmailsWithAttachments
    | CloudUploadEvents
    | FailedLogins
    | FilesDeleted
    | HttpCompetitorVisits

  /** The role names as they are written in the dataset. */
  function RoleName(r: Role): string {
    match r
    case CLevel => "C_Level"
    case Trader => "Trader"
    case ITAdmin => "IT_Admin"
    case Analyst => "Analyst"
    case Contractor => "Contractor"
    case ExecAssistant => "Exec_Assistant"
  }

  /** Looks a role up by its dataset name; any other name is no role. */
  function ParseRole(name: string): (r: Option<Role>)
    ensures r.Some? ==> RoleName(r.value) == name
  {
    if name == "C_Level" then Some(CLevel)
    else if name == "Trader" then Some(Trader)
    else if name == "IT_Admin" then Some(ITAdmin)
    else if name == "Analyst" then Some(Analyst)
    else if name == "Contractor" then Some(Contractor)
    else if name == "Exec_Assistant" then Some(ExecAssistant)
    else None
  }

  lemma ParseRoleName(r: Role)
    ensures ParseRole(RoleName(r)) == Some(r)
  {
  }

  /** ROLE_HEADCOUNT: the number of seats per role, the same table in every
      part of the system. It names all six roles, so a lookup by a role never
      misses. */
  function RoleHeadcount(r: Role): nat {
    match r
    case CLevel => 9
    case Analyst => 700
    case Trader => 100
    case ITAdmin => 50
    case ExecAssistant => 20
    case Contractor => 130
  }

  /** The nine behaviour counters of one user-day, one named field per feature. */
  datatype Counters = Counters(
    afterHoursLogons: int,
    sensitiveFileReads: int,
    usbDeviceMounts: int,
    externalEmailsSent: int,
    emailsWithAttachments: int,
    cloudUploadEvents: int,
    failedLogins: int,
    filesDeleted: int,
    httpCompetitorVisits: int)
  {
    /** row[f] */
    function Get(f: Feature): int {
      match f
      case AfterHoursLogons => afterHoursLogons
      case SensitiveFileReads => sensitiveFileReads
      case UsbDeviceMounts => usbDeviceMounts
      case ExternalEmailsSent => externalEmailsSent
      case EmailsWithAttachments => emailsWithAttachments
      case CloudUploadEvents => cloudUploadEvents
      case FailedLogins => failedLogins
      case FilesDeleted => filesDeleted
      case HttpCompetitorVisits => httpCompetitorVisits
    }

    /** row[f] += k: feature f grows by k and no other feature moves. */
    function Add(f: Feature, k: int): (c: Counters)
      ensures c.Get(f) == Get(f) + k
      ensures forall g :: g != f ==> c.Get(g) == Get(g)
    {
      match f
      case AfterHoursLogons => this.(afterHoursLogons := afterHoursLogons + k)
      case SensitiveFileReads => this.(sensitiveFileReads := sensitiveFileReads + k)
      case UsbDeviceMounts => this.(usbDeviceMounts := usbDeviceMounts + k)
      case ExternalEmailsSent => this.(externalEmailsSent := externalEmailsSent + k)
      case EmailsWithAttachments => this.(emailsWithAttachments := emailsWithAttachments + k)
      case CloudUploadEvents => this.(cloudUploadEvents := cloudUploadEvents + k)
      case FailedLogins => this.(failedLogins := failedLogins + k)
      case FilesDeleted => this.(filesDeleted := filesDeleted + k)
      case HttpCompetitorVisits => this.(httpCompetitorVisits := httpCompetitorVisits + k)
    }

    /** Every counter is at least zero. */
    predicate NonNegative() {
      forall f :: Get(f) >= 0
    }
  }

  /** One row of the activity dataset: a user-day. */
  datatype Record = Record(
    userId: string,
    role: Role,
    region: Region,
    day: string,
    counters: Counters,
    isHrFlagged: int,
    conscientiousness: real,
    neuroticism: real,
    isMalicious: int)

  function Min(a: real, b: real): real { if a <= b then a else b }
  function Max(a: real, b: real): real { if a >= b then a else b }

  /** min(max(x, lo), hi), the clamp written the way the source nests it. */
  function Clamp(x: real, lo: real, hi: real): (r: real)
    requires lo <= hi
    ensures lo <= r <= hi
    ensures lo <= x <= hi ==> r == x
    ensures x < lo ==> r == lo
    ensures x > hi ==> r == hi
  {
    Min(Max(x, lo), hi)
  }

  /** The sum of a sequence of reals, added front to back. */
  function SumReal(xs: seq<real>): real
    decreases |xs|
  {
    if xs == [] then 0.0 else SumReal(xs[..|xs| - 1]) + xs[|xs| - 1]
  }

  /** The sum of a sequence of naturals, added front to back. */
  function SumNat(xs: seq<nat>): nat
    decreases |xs|
  {
    if xs == [] then 0 else SumNat(xs[..|xs| - 1]) + xs[|xs| - 1]
  }
}
