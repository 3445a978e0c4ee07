/** The records of the dashboard (src/types.ts) and a few small value types shared by the pages. */
module Types {

  datatype Option<T> = None | Some(value: T)

  /** A project as stored: `locations` is an optional comma-separated list of ward names. */
  datatype Project = Project(
    id: int,
    code: string,
    name: string,
    investorId: int,
    investorName: string,
    isPriority: int,
    legalStatus: string,
    totalInvestment: int,
    totalCompensationCapital: int,
    startDate: string,
    endDate: string,
    handoverDeadline: string,
    locations: Option<string>)

  /** The closed severity enumeration of an issue. */
  datatype Severity = Low | Medium | High

  /** The closed status enumeration of an issue. */
  datatype Status = Pending | Processing | Resolved

  /** The string under which a status is stored and compared. */
  function StatusName(s: Status): (r: string)
    ensures r in {"Pending", "Processing", "Resolved"}
  {
    match s
    case Pending => "Pending"
    case Processing => "Processing"
    case Resolved => "Resolved"
  }

  /** Distinct statuses have distinct names, and none of them is the filter value "All". */
  lemma StatusNameInjective(a: Status, b: Status)
    ensures StatusName(a) == StatusName(b) <==> a == b
    ensures StatusName(a) != "All"
  {
  }

  /** An issue (a "vướng mắc") raised against a project. */
  datatype Issue = Issue(
    id: int,
    projectId: int,
    projectName: Option<string>,
    kind: string,
    description: string,
    severity: Severity,
    assignedUnit: string,
    deadline: string,
    status: Status,
    result: string,
    createdAt: string)

  /**
   * The colour families the pages pick between. Each page maps them onto its own
   * Tailwind classes or hex values (Emerald is also '#10b981', Blue '#3b82f6', Red '#ef4444').
   */
  datatype Tone = Emerald | Blue | Amber | Red

  /** How good a tone reads on the pages' three-tier scales: red, then amber, then blue, then emerald. */
  function Rank(t: Tone): (r: nat)
    ensures r <= 3
    ensures (r == 0 <==> t == Red) && (r == 3 <==> t == Emerald)
  {
    match t
    case Red => 0
    case Amber => 1
    case Blue => 2
    case Emerald => 3
  }
}
