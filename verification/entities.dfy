/**
 * The repair ticket record and its three enumerated fields. Each enumeration
 * is a datatype, so a value outside the listed strings cannot be built; the
 * `...Name` functions give the wire string and the `Parse...` functions read
 * one back.
 */
module Entities {
  import opened Wrappers

  datatype ProblemType = Hardware | Software | Network | Other
  datatype Status = Pending | InProgress | Completed | Cancelled
  datatype Priority = Low | Medium | High | Urgent

  /**
   * One repair request. `attachments` and `technicianNote` are optional
   * (absent keys in the stored row); every other field is always present.
   */
  datatype RepairRequest = RepairRequest(
    id: string,
    name: string,
    position: string,
    department: string,
    email: string,
    phone: string,
    problemType: ProblemType,
    problemDetail: string,
    attachments: Option<seq<string>>,
    location: string,
    status: Status,
    priority: Priority,
    technicianNote: Option<string>,
    createdAt: string)

  function ProblemTypeName(t: ProblemType): string {
    match t
    case Hardware => "hardware"
    case Software => "software"
    case Network => "network"
    case Other => "other"
  }

  function StatusName(s: Status): string {
    match s
    case Pending => "pending"
    case InProgress => "in_progress"
    case Completed => "completed"
    case Cancelled => "cancelled"
  }

  function PriorityName(p: Priority): string {
    match p
    case Low => "low"
    case Medium => "medium"
    case High => "high"
    case Urgent => "urgent"
  }

  function ParseProblemType(v: string): (r: Option<ProblemType>)
    ensures r.Some? ==> ProblemTypeName(r.value) == v
    ensures r.None? ==> forall t :: ProblemTypeName(t) != v
  {
    if v == "hardware" then Some(Hardware)
    else if v == "software" then Some(Software)
    else if v == "network" then Some(Network)
    else if v == "other" then Some(Other)
    else None
  }

  function ParseStatus(v: string): (r: Option<Status>)
    ensures r.Some? ==> StatusName(r.value) == v
    ensures r.None? ==> forall s :: StatusName(s) != v
  {
    if v == "pending" then Some(Pending)
    else if v == "in_progress" then Some(InProgress)
    else if v == "completed" then Some(Completed)
    else if v == "cancelled" then Some(Cancelled)
    else None
  }

  function ParsePriority(v: string): (r: Option<Priority>)
    ensures r.Some? ==> PriorityName(r.value) == v
    ensures r.None? ==> forall p :: PriorityName(p) != v
  {
    if v == "low" then Some(Low)
    else if v == "medium" then Some(Medium)
    else if v == "high" then Some(High)
    else if v == "urgent" then Some(Urgent)
    else None
  }

  /** Every problem type reads back from its name, so distinct types have distinct names. */
  lemma ProblemTypeRoundTrip(t: ProblemType)
    ensures ParseProblemType(ProblemTypeName(t)) == Some(t)
  {
  }

  /** Every status reads back from its name, so distinct statuses have distinct names. */
  lemma StatusRoundTrip(s: Status)
    ensures ParseStatus(StatusName(s)) == Some(s)
  {
  }

  /** Every priority reads back from its name, so distinct priorities have distinct names. */
  lemma PriorityRoundTrip(p: Priority)
    ensures ParsePriority(PriorityName(p)) == Some(p)
  {
  }
}
