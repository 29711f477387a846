/** The leads table: relative creation times, the empty placeholder, rows, and the sortable headers. */
module LeadsTable {
  import opened Wrappers
  import opened Text
  import opened AdminTypes
  import opened Dashboard

  const MinuteMs := 60000
  const HourMs := 3600000
  const DayMs := 86400000

  /** How a creation time is shown; `OnDate` is the locale-formatted calendar date. */
  datatype RelativeTime = NoTime | JustNow | MinutesAgo(m: nat) | HoursAgo(h: nat) | DaysAgo(d: nat) | OnDate(ms: int)

  /**
   * `formatRelativeTime` at clock reading `now`. The buckets use floor
   * division; Dafny's `/` by a positive divisor is floor division.
   */
  function FormatRelativeTime(ts: Option<int>, now: int): (r: RelativeTime)
    ensures ts.None? <==> r.NoTime?
    ensures ts.Some? ==> (r.JustNow? <==> now - ts.value < MinuteMs)
    ensures r.MinutesAgo? ==> ts.Some? && 1 <= r.m < 60 && r.m * MinuteMs <= now - ts.value < (r.m + 1) * MinuteMs
    ensures r.HoursAgo? ==> ts.Some? && 1 <= r.h < 24 && r.h * HourMs <= now - ts.value < (r.h + 1) * HourMs
    ensures r.DaysAgo? ==> ts.Some? && 1 <= r.d < 7 && r.d * DayMs <= now - ts.value < (r.d + 1) * DayMs
    ensures r.OnDate? ==> ts == Some(r.ms) && now - r.ms >= 7 * DayMs
  {
    if ts.None? then NoTime
    else
      var diffMs := now - ts.value;
      var diffMin := diffMs / MinuteMs;
      var diffHr := diffMs / HourMs;
      var diffDay := diffMs / DayMs;
      if diffMin < 1 then JustNow
      else if diffMin < 60 then MinutesAgo(diffMin)
      else if diffHr < 24 then HoursAgo(diffHr)
      else if diffDay < 7 then DaysAgo(diffDay)
      else OnDate(ts.value)
  }

  /** A timestamp in the future is shown as "just now". */
  lemma FutureIsJustNow(ts: int, now: int)
    requires ts > now
    ensures FormatRelativeTime(Some(ts), now) == JustNow
  {
  }

  /** The text of a relative time; a calendar date is formatted by the locale and is not modelled. */
  function RelativeTimeText(t: RelativeTime): (r: Option<string>)
    ensures r.None? <==> t.OnDate?
    ensures t.NoTime? ==> r == Some("\U{2014}")
    ensures t.JustNow? ==> r == Some("just now")
    ensures t.MinutesAgo? ==> AgoReadsBack(r.value, "m ago", t.m)
    ensures t.HoursAgo? ==> AgoReadsBack(r.value, "h ago", t.h)
    ensures t.DaysAgo? ==> AgoReadsBack(r.value, "d ago", t.d)
  {
    match t
    case NoTime => Some("\U{2014}")
    case JustNow => Some("just now")
    case MinutesAgo(m) => AgoText(m, "m ago"); Some(Decimal(m) + "m ago")
    case HoursAgo(h) => AgoText(h, "h ago"); Some(Decimal(h) + "h ago")
    case DaysAgo(d) => AgoText(d, "d ago"); Some(Decimal(d) + "d ago")
    case OnDate(_) => None
  }

  /** `text` is a decimal number followed by `unit`, and the number reads back as `n`. */
  predicate AgoReadsBack(text: string, unit: string, n: nat) {
    && EndsWith(text, unit)
    && (forall i :: 0 <= i < |text| - |unit| ==> IsDigit(text[i]))
    && |text| > |unit| && DecimalValue(text[..|text| - |unit|]) == n
  }

  lemma AgoText(n: nat, unit: string)
    ensures AgoReadsBack(Decimal(n) + unit, unit, n)
  {
    var text := Decimal(n) + unit;
    DecimalRoundTrip(n);
    assert text[..|text| - |unit|] == Decimal(n);
    assert text[|text| - |unit|..] == unit;
  }

  /** One table row (and one mobile card): the lead it opens and what it shows. */
  datatype Row = Row(leadId: string, selected: bool, name: string, homeownerLabel: string,
                     homeAgeSuffix: Option<string>, status: LeadStatus, created: RelativeTime)

  datatype TableView = NoLeadsFound | Rows(rows: seq<Row>)

  function LeadRow(l: Lead, selectedLeadId: Option<string>, now: int): Row {
    Row(l.id, selectedLeadId == Some(l.id), l.name,
        if l.isHomeowner == "yes" then "Homeowner" else "Not homeowner",
        if l.homeAge != "" then Some(" \U{00B7} " + l.homeAge + " yrs") else None,
        l.status, FormatRelativeTime(l.createdAt, now))
  }

  /** An empty list shows the placeholder and no rows; otherwise one row per lead, in order. */
  function Table(leads: seq<Lead>, selectedLeadId: Option<string>, now: int): (v: TableView)
    ensures v.NoLeadsFound? <==> leads == []
    ensures v.Rows? ==> |v.rows| == |leads|
    ensures v.Rows? ==> forall i :: 0 <= i < |leads| ==>
      && v.rows[i].leadId == leads[i].id
      && (v.rows[i].selected <==> selectedLeadId == Some(leads[i].id))
      && v.rows[i].created == FormatRelativeTime(leads[i].createdAt, now)
  {
    if |leads| == 0 then NoLeadsFound
    else Rows(seq(|leads|, i requires 0 <= i < |leads| => LeadRow(leads[i], selectedLeadId, now)))
  }

  /** The clickable column headers, left to right. */
  const SortableHeaders: seq<SortField> := [ByName, ByEmail, ByAddress, ByStatus, ByCreatedAt]

  /** Every sort field has exactly one header. */
  lemma SortableHeadersEnumerate()
    ensures forall f :: f in SortableHeaders
    ensures forall i, j :: 0 <= i < j < |SortableHeaders| ==> SortableHeaders[i] != SortableHeaders[j]
  {
    forall f: SortField ensures f in SortableHeaders {
      match f
      case ByName => assert SortableHeaders[0] == f;
      case ByEmail => assert SortableHeaders[1] == f;
      case ByAddress => assert SortableHeaders[2] == f;
      case ByStatus => assert SortableHeaders[3] == f;
      case ByCreatedAt => assert SortableHeaders[4] == f;
    }
  }

  datatype Chevron = Up | Down

  /** `SortIcon`: only the active column has one, pointing up for ascending and down for descending. */
  function SortIcon(field: SortField, sortField: SortField, dir: SortDirection): (r: Option<Chevron>)
    ensures r.Some? <==> field == sortField
    ensures r.Some? ==> (r.value == Up <==> dir == Asc)
  {
    if field != sortField then None
    else if dir == Asc then Some(Up) else Some(Down)
  }

  /** Exactly one header carries the icon. */
  lemma ExactlyOneSortIcon(sortField: SortField, dir: SortDirection)
    ensures exists i :: 0 <= i < |SortableHeaders| && SortIcon(SortableHeaders[i], sortField, dir).Some?
    ensures forall i, j ::
      (0 <= i < |SortableHeaders| && 0 <= j < |SortableHeaders|
       && SortIcon(SortableHeaders[i], sortField, dir).Some? && SortIcon(SortableHeaders[j], sortField, dir).Some?) ==> i == j
  {
    SortableHeadersEnumerate();
    assert sortField in SortableHeaders;
    var i :| 0 <= i < |SortableHeaders| && SortableHeaders[i] == sortField;
  }

  /** Clicking a header asks the dashboard to sort by that header's field. */
  method ClickHeader(d: DashboardState, i: nat)
    requires i < |SortableHeaders|
    modifies d`sortField, d`sortDirection
    ensures (d.sortField, d.sortDirection) == NextSort(old(d.sortField), old(d.sortDirection), SortableHeaders[i])
  {
    d.HandleSort(SortableHeaders[i]);
  }
}
