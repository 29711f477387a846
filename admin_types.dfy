/**
 * The lead record shared by the admin dashboard: the six-value status
 * lifecycle, its display table, and the shapes of a lead, a note and an
 * action item. Timestamps are milliseconds since the epoch; `None` is a
 * missing or null timestamp.
 */
module AdminTypes {
  import opened Wrappers

  datatype LeadStatus = New | Contacted | Qualified | Scheduled | Completed | Lost

  /** The lifecycle in display order. */
  const LeadStatuses: seq<LeadStatus> := [New, Contacted, Qualified, Scheduled, Completed, Lost]

  /** The string under which a status is stored and compared. */
  function StatusName(s: LeadStatus): string {
    match s
    case New => "new"
    case Contacted => "contacted"
    case Qualified => "qualified"
    case Scheduled => "scheduled"
    case Completed => "completed"
    case Lost => "lost"
  }

  /** The status stored under `name`, if `name` is one of the six. */
  function ParseStatus(name: string): (r: Option<LeadStatus>)
    ensures r.Some? ==> StatusName(r.value) == name
    ensures r.None? ==> forall s :: StatusName(s) != name
  {
    if name == "new" then Some(New)
    else if name == "contacted" then Some(Contacted)
    else if name == "qualified" then Some(Qualified)
    else if name == "scheduled" then Some(Scheduled)
    else if name == "completed" then Some(Completed)
    else if name == "lost" then Some(Lost)
    else None
  }

  /** `LEAD_STATUSES` lists each status exactly once, in lifecycle order, and nothing else. */
  lemma LeadStatusesEnumerate()
    ensures |LeadStatuses| == 6
    ensures forall s :: s in LeadStatuses
    ensures forall i, j :: 0 <= i < j < |LeadStatuses| ==> LeadStatuses[i] != LeadStatuses[j]
    ensures seq(6, i requires 0 <= i < 6 => StatusName(LeadStatuses[i]))
         == ["new", "contacted", "qualified", "scheduled", "completed", "lost"]
  {
    forall s: LeadStatus ensures s in LeadStatuses {
      match s
      case New => assert LeadStatuses[0] == s;
      case Contacted => assert LeadStatuses[1] == s;
      case Qualified => assert LeadStatuses[2] == s;
      case Scheduled => assert LeadStatuses[3] == s;
      case Completed => assert LeadStatuses[4] == s;
      case Lost => assert LeadStatuses[5] == s;
    }
  }

  /** Stored names identify statuses: reading a written status gives it back. */
  lemma StatusNameRoundTrip(s: LeadStatus)
    ensures ParseStatus(StatusName(s)) == Some(s)
  {
  }

  datatype StatusStyle = StatusStyle(labelText: string, color: string, bgColor: string)

  /** The first letter upper-cased (ASCII), the rest unchanged. */
  function Capitalized(name: string): string {
    if name != [] && 'a' <= name[0] <= 'z' then [(name[0] as int - 32) as char] + name[1..] else name
  }

  /** `STATUS_CONFIG`: every status has a label, which is its capitalised name, and two non-empty styles. */
  function StatusConfig(s: LeadStatus): (c: StatusStyle)
    ensures c.labelText == Capitalized(StatusName(s))
    ensures c.color != "" && c.bgColor != ""
  {
    match s
    case New => StatusStyle("New", "text-blue-400", "bg-blue-400/10 border-blue-400/20")
    case Contacted => StatusStyle("Contacted", "text-amber", "bg-amber/10 border-amber/20")
    case Qualified => StatusStyle("Qualified", "text-orange", "bg-orange/10 border-orange/20")
    case Scheduled => StatusStyle("Scheduled", "text-purple-400", "bg-purple-400/10 border-purple-400/20")
    case Completed => StatusStyle("Completed", "text-green-400", "bg-green-400/10 border-green-400/20")
    case Lost => StatusStyle("Lost", "text-red-400", "bg-red-400/10 border-red-400/20")
  }

  /** A free-text annotation; it has no completion flag. */
  datatype Note = Note(id: string, text: string, createdAt: Option<int>)

  /** A checklist entry. */
  datatype ActionItem = ActionItem(id: string, text: string, completed: bool, createdAt: Option<int>)

  /**
   * One homeowner submission. `lastContactedAt` and `updatedAt` are nullable;
   * `createdAt` is declared non-null but may still be absent in a document
   * whose server timestamp is pending, so it is optional here too.
   */
  datatype Lead = Lead(
    id: string,
    name: string,
    email: string,
    phone: string,
    address: string,
    homeAge: string,
    isHomeowner: string,
    concerns: string,
    createdAt: Option<int>,
    status: LeadStatus,
    notes: seq<Note>,
    actionItems: seq<ActionItem>,
    lastContactedAt: Option<int>,
    updatedAt: Option<int>)

  /** Milliseconds of an optional timestamp, missing counted as 0: `t?.toMillis?.() ?? 0`. */
  function Millis(t: Option<int>): int {
    t.GetOr(0)
  }
}
