/**
 * The admin dashboard's lead feed and triage view: how a stored document
 * becomes a lead, the status filter, the search, the sort comparator and its
 * key/direction state, and the lookup of the selected lead.
 */
module Dashboard {
  import opened Wrappers
  import opened Text
  import opened Lists
  import opened AdminTypes
  import opened LeadStore

  // ---------------------------------------------------------------------
  // Reading a snapshot document as a lead

  /** A string field; missing, empty or not a string reads as "". */
  function StringField(d: Document, k: string): string {
    if k in d && d[k].Str? then d[k].s else ""
  }

  /** A timestamp field; anything but a timestamp reads as null. */
  function TimeField(d: Document, k: string): Option<int> {
    if k in d && d[k].Time? then Some(d[k].ms) else None
  }

  /** The status field; missing or empty reads as `new`. */
  function StatusField(d: Document): LeadStatus {
    if "status" in d && d["status"].Str? && ParseStatus(d["status"].s).Some?
    then ParseStatus(d["status"].s).value
    else New
  }

  /** The lead a snapshot document denotes, with the dashboard's defaults for absent fields. */
  function ToLead(id: string, d: Document): (r: Lead)
    ensures r.id == id
    ensures r.status != New ==> "status" in d && d["status"] == Str(StatusName(r.status))
  {
    Lead(
      id := id,
      name := StringField(d, "name"),
      email := StringField(d, "email"),
      phone := StringField(d, "phone"),
      address := StringField(d, "address"),
      homeAge := StringField(d, "homeAge"),
      isHomeowner := StringField(d, "isHomeowner"),
      concerns := StringField(d, "concerns"),
      createdAt := TimeField(d, "createdAt"),
      status := StatusField(d),
      notes := if "notes" in d && d["notes"].NoteList? then d["notes"].notes else [],
      actionItems := if "actionItems" in d && d["actionItems"].ItemList? then d["actionItems"].items else [],
      lastContactedAt := TimeField(d, "lastContactedAt"),
      updatedAt := TimeField(d, "updatedAt"))
  }

  /** An empty document reads as a fresh lead: empty strings, status new, no lists, no timestamps. */
  lemma EmptyDocumentDefaults(id: string)
    ensures ToLead(id, map[]) == Lead(id, "", "", "", "", "", "", "", None, New, [], [], None, None)
  {
  }

  /** A field the document does not hold, or holds as null: falsy, so `||` falls to its default. */
  predicate Absent(d: Document, k: string) {
    k !in d || d[k] == Null
  }

  /** A field holding a value of the expected kind. */
  predicate HoldsStr(d: Document, k: string) {
    k in d && d[k].Str?
  }

  predicate HoldsTime(d: Document, k: string) {
    k in d && d[k].Time?
  }

  /**
   * Field by field, for any document: an absent or null field reads as its
   * default ("", null, "new" or []), and a present field of the right kind
   * passes through unchanged.
   */
  lemma FieldDefaults(id: string, d: Document)
    ensures var l := ToLead(id, d);
      && (Absent(d, "name") ==> l.name == "") && (HoldsStr(d, "name") ==> l.name == d["name"].s)
      && (Absent(d, "email") ==> l.email == "") && (HoldsStr(d, "email") ==> l.email == d["email"].s)
      && (Absent(d, "phone") ==> l.phone == "") && (HoldsStr(d, "phone") ==> l.phone == d["phone"].s)
      && (Absent(d, "address") ==> l.address == "") && (HoldsStr(d, "address") ==> l.address == d["address"].s)
      && (Absent(d, "homeAge") ==> l.homeAge == "") && (HoldsStr(d, "homeAge") ==> l.homeAge == d["homeAge"].s)
      && (Absent(d, "isHomeowner") ==> l.isHomeowner == "")
      && (HoldsStr(d, "isHomeowner") ==> l.isHomeowner == d["isHomeowner"].s)
      && (Absent(d, "concerns") ==> l.concerns == "") && (HoldsStr(d, "concerns") ==> l.concerns == d["concerns"].s)
    ensures var l := ToLead(id, d);
      && (Absent(d, "createdAt") ==> l.createdAt == None)
      && (HoldsTime(d, "createdAt") ==> l.createdAt == Some(d["createdAt"].ms))
      && (Absent(d, "lastContactedAt") ==> l.lastContactedAt == None)
      && (HoldsTime(d, "lastContactedAt") ==> l.lastContactedAt == Some(d["lastContactedAt"].ms))
      && (Absent(d, "updatedAt") ==> l.updatedAt == None)
      && (HoldsTime(d, "updatedAt") ==> l.updatedAt == Some(d["updatedAt"].ms))
    ensures var l := ToLead(id, d);
      && (Absent(d, "notes") ==> l.notes == [])
      && ("notes" in d && d["notes"].NoteList? ==> l.notes == d["notes"].notes)
      && (Absent(d, "actionItems") ==> l.actionItems == [])
      && ("actionItems" in d && d["actionItems"].ItemList? ==> l.actionItems == d["actionItems"].items)
    ensures Absent(d, "status") || ("status" in d && d["status"] == Str("")) ==> ToLead(id, d).status == New
    ensures forall s :: "status" in d && d["status"] == Str(StatusName(s)) ==> ToLead(id, d).status == s
  {
    forall s | "status" in d && d["status"] == Str(StatusName(s))
      ensures ToLead(id, d).status == s
    {
      StatusNameRoundTrip(s);
    }
  }

  function TimeValue(t: Option<int>): Value {
    if t.Some? then Time(t.value) else Null
  }

  /** A document holding every field of `l` (the id is the document's key, not a field). */
  function LeadToDocument(l: Lead): Document {
    map[
      "name" := Str(l.name), "email" := Str(l.email), "phone" := Str(l.phone),
      "address" := Str(l.address), "homeAge" := Str(l.homeAge),
      "isHomeowner" := Str(l.isHomeowner), "concerns" := Str(l.concerns),
      "createdAt" := TimeValue(l.createdAt), "status" := Str(StatusName(l.status)),
      "notes" := NoteList(l.notes), "actionItems" := ItemList(l.actionItems),
      "lastContactedAt" := TimeValue(l.lastContactedAt), "updatedAt" := TimeValue(l.updatedAt)]
  }

  /** Present fields pass through unchanged: a stored lead reads back as itself. */
  lemma ReadBack(l: Lead)
    ensures ToLead(l.id, LeadToDocument(l)) == l
  {
    StatusNameRoundTrip(l.status);
  }

  /** Each snapshot becomes the whole lead list, one lead per document, in snapshot order. */
  function SnapshotLeads(docs: seq<(string, Document)>): (r: seq<Lead>)
    ensures |r| == |docs|
    ensures forall i :: 0 <= i < |docs| ==> r[i] == ToLead(docs[i].0, docs[i].1)
  {
    seq(|docs|, i requires 0 <= i < |docs| => ToLead(docs[i].0, docs[i].1))
  }

  // ---------------------------------------------------------------------
  // Filter and search

  datatype StatusFilter = All | Only(status: LeadStatus)

  predicate StatusPasses(l: Lead, f: StatusFilter) {
    f.All? || l.status == f.status
  }

  function StatusTest(f: StatusFilter): Lead -> bool {
    l => StatusPasses(l, f)
  }

  /** With "all" nothing is removed; otherwise exactly the leads with that status stay. */
  function ApplyStatusFilter(leads: seq<Lead>, f: StatusFilter): (r: seq<Lead>)
    ensures f.All? ==> r == leads
    ensures forall i :: 0 <= i < |r| ==> StatusPasses(r[i], f)
    ensures r == Filter(leads, StatusTest(f))
  {
    if f.All? then
      FilterKeepsAll(leads, StatusTest(f));
      leads
    else Filter(leads, StatusTest(f))
  }

  /** The lower-cased, untrimmed query occurs in the lower-cased name, email, phone or address. */
  predicate MatchesSearch(l: Lead, query: string) {
    var q := Lower(query);
    Contains(Lower(l.name), q) || Contains(Lower(l.email), q)
    || Contains(Lower(l.phone), q) || Contains(Lower(l.address), q)
  }

  predicate SearchPasses(l: Lead, query: string) {
    Blank(query) || MatchesSearch(l, query)
  }

  function SearchTest(query: string): Lead -> bool {
    l => SearchPasses(l, query)
  }

  /** A blank query removes nothing; any other keeps exactly the matching leads. */
  function ApplySearch(leads: seq<Lead>, query: string): (r: seq<Lead>)
    ensures Blank(query) ==> r == leads
    ensures forall i :: 0 <= i < |r| ==> SearchPasses(r[i], query)
    ensures r == Filter(leads, SearchTest(query))
  {
    if Trim(query) != "" then Filter(leads, SearchTest(query))
    else
      FilterKeepsAll(leads, SearchTest(query));
      leads
  }

  // ---------------------------------------------------------------------
  // Sorting

  datatype SortField = ByName | ByEmail | ByAddress | ByStatus | ByCreatedAt
  datatype SortDirection = Asc | Desc

  /** JavaScript's `<` on strings: lexicographic order of the characters. */
  predicate LexLess(a: string, b: string) {
    if a == [] then b != []
    else if b == [] then false
    else if a[0] != b[0] then a[0] < b[0]
    else LexLess(a[1..], b[1..])
  }

  lemma {:induction false} LexLessIrreflexive(a: string)
    ensures !LexLess(a, a)
  {
    if a != [] { LexLessIrreflexive(a[1..]); }
  }

  lemma {:induction false} LexLessTransitive(a: string, b: string, c: string)
    requires LexLess(a, b) && LexLess(b, c)
    ensures LexLess(a, c)
  {
    if a != [] && a[0] == b[0] && b[0] == c[0] {
      LexLessTransitive(a[1..], b[1..], c[1..]);
    }
  }

  lemma {:induction false} LexLessTrichotomy(a: string, b: string)
    ensures a == b || LexLess(a, b) || LexLess(b, a)
  {
    if a != [] && b != [] && a[0] == b[0] {
      LexLessTrichotomy(a[1..], b[1..]);
      if a[1..] == b[1..] {
        assert a == [a[0]] + a[1..] && b == [b[0]] + b[1..];
      }
    }
  }

  datatype SortKey = NumberKey(n: int) | TextKey(t: string)

  /** The value compared: milliseconds for `createdAt` (missing as 0), else the lower-cased field ("" if empty). */
  function KeyOf(l: Lead, field: SortField): SortKey {
    match field
    case ByCreatedAt => NumberKey(Millis(l.createdAt))
    case ByName => TextKey(Lower(l.name))
    case ByEmail => TextKey(Lower(l.email))
    case ByAddress => TextKey(Lower(l.address))
    case ByStatus => TextKey(Lower(StatusName(l.status)))
  }

  predicate KeyLess(x: SortKey, y: SortKey) {
    match (x, y)
    case (NumberKey(m), NumberKey(n)) => m < n
    case (TextKey(s), TextKey(t)) => LexLess(s, t)
    case _ => false
  }

  /** The sort comparator: negative when `a` goes first, positive when `b` does, 0 on a tie. */
  function Compare(a: Lead, b: Lead, field: SortField, dir: SortDirection): (c: int)
    ensures -1 <= c <= 1
    ensures c == 0 ==> KeyOf(a, field) == KeyOf(b, field)
  {
    var x, y := KeyOf(a, field), KeyOf(b, field);
    if KeyLess(x, y) then (if dir == Asc then -1 else 1)
    else if KeyLess(y, x) then (if dir == Asc then 1 else -1)
    else
      KeyTrichotomy(x, y, field, a, b);
      0
  }

  lemma KeyTrichotomy(x: SortKey, y: SortKey, field: SortField, a: Lead, b: Lead)
    requires x == KeyOf(a, field) && y == KeyOf(b, field)
    ensures x == y || KeyLess(x, y) || KeyLess(y, x)
  {
    if x.TextKey? {
      LexLessTrichotomy(x.t, y.t);
    }
  }

  lemma KeyLessIrreflexive(x: SortKey)
    ensures !KeyLess(x, x)
  {
    if x.TextKey? { LexLessIrreflexive(x.t); }
  }

  lemma KeyLessTransitive(x: SortKey, y: SortKey, z: SortKey)
    requires KeyLess(x, y) && KeyLess(y, z)
    ensures KeyLess(x, z)
  {
    if x.TextKey? { LexLessTransitive(x.t, y.t, z.t); }
  }

  /** Swapping the arguments negates the answer; so does flipping the direction. */
  lemma CompareAntisymmetric(a: Lead, b: Lead, field: SortField, dir: SortDirection)
    ensures Compare(b, a, field, dir) == -Compare(a, b, field, dir)
    ensures Compare(a, b, field, Desc) == -Compare(a, b, field, Asc)
  {
    var x, y := KeyOf(a, field), KeyOf(b, field);
    if KeyLess(x, y) && KeyLess(y, x) {
      KeyLessTransitive(x, y, x);
      KeyLessIrreflexive(x);
    }
  }

  /** "May go no later than": the comparator does not put `b` first. */
  function GoesFirst(field: SortField, dir: SortDirection): (Lead, Lead) -> bool {
    (a, b) => Compare(a, b, field, dir) <= 0
  }

  lemma KeyLessThroughLeft(x: SortKey, y: SortKey, z: SortKey)
    requires x == y || KeyLess(x, y)
    ensures KeyLess(z, x) ==> KeyLess(z, y)
  {
    if KeyLess(z, x) && KeyLess(x, y) { KeyLessTransitive(z, x, y); }
  }

  lemma KeyLessThroughRight(x: SortKey, y: SortKey, z: SortKey)
    requires y == z || KeyLess(z, y)
    ensures KeyLess(x, z) ==> KeyLess(x, y)
  {
    if KeyLess(x, z) && KeyLess(z, y) { KeyLessTransitive(x, z, y); }
  }

  /** What "`a` may go no later than `b`" means for the keys. */
  lemma GoesFirstMeaning(a: Lead, b: Lead, field: SortField, dir: SortDirection)
    ensures Compare(a, b, field, dir) <= 0 <==>
      if dir == Asc then !KeyLess(KeyOf(b, field), KeyOf(a, field)) else !KeyLess(KeyOf(a, field), KeyOf(b, field))
  {
    var x, y := KeyOf(a, field), KeyOf(b, field);
    if KeyLess(x, y) && KeyLess(y, x) {
      KeyLessTransitive(x, y, x);
      KeyLessIrreflexive(x);
    }
  }

  lemma CompareTransitive(a: Lead, b: Lead, c: Lead, field: SortField, dir: SortDirection)
    requires Compare(a, b, field, dir) <= 0 && Compare(b, c, field, dir) <= 0
    ensures Compare(a, c, field, dir) <= 0
  {
    var x, y, z := KeyOf(a, field), KeyOf(b, field), KeyOf(c, field);
    GoesFirstMeaning(a, b, field, dir);
    GoesFirstMeaning(b, c, field, dir);
    GoesFirstMeaning(a, c, field, dir);
    if dir == Asc {
      KeyTrichotomy(x, y, field, a, b);
      KeyLessThroughLeft(x, y, z);
    } else {
      KeyTrichotomy(y, z, field, b, c);
      KeyLessThroughRight(x, y, z);
    }
  }

  /** The comparator is consistent, so the sort it drives is well defined. */
  lemma ComparatorIsTotalPreorder(field: SortField, dir: SortDirection)
    ensures TotalPreorder(GoesFirst(field, dir))
  {
    var le := GoesFirst(field, dir);
    forall a, b ensures le(a, b) || le(b, a) {
      CompareAntisymmetric(a, b, field, dir);
    }
    forall a, b, c | le(a, b) && le(b, c) ensures le(a, c) {
      CompareTransitive(a, b, c, field, dir);
    }
  }

  /** `[...result].sort(comparator)`. */
  function SortLeads(leads: seq<Lead>, field: SortField, dir: SortDirection): seq<Lead> {
    Sort(leads, GoesFirst(field, dir))
  }

  // ---------------------------------------------------------------------
  // The pipeline

  predicate Kept(l: Lead, f: StatusFilter, query: string) {
    StatusPasses(l, f) && SearchPasses(l, query)
  }

  function KeptTest(f: StatusFilter, query: string): Lead -> bool {
    l => Kept(l, f, query)
  }

  /** `filteredLeads`: status filter, then search, then sort. */
  function FilteredLeads(leads: seq<Lead>, f: StatusFilter, query: string, field: SortField, dir: SortDirection): (r: seq<Lead>)
    ensures |r| <= |leads|
    ensures forall l :: l in r ==> l in leads && Kept(l, f, query)
  {
    var byStatus := ApplyStatusFilter(leads, f);
    var kept := ApplySearch(byStatus, query);
    var r := SortLeads(kept, field, dir);
    forall l | l in r ensures l in leads && Kept(l, f, query) {
      assert multiset(r)[l] == multiset(kept)[l];
      FilterMember(byStatus, SearchTest(query), l);
      FilterMember(leads, StatusTest(f), l);
    }
    r
  }

  /** The pipeline is one filter by both tests, then the sort. */
  lemma {:induction false} FilteredLeadsIsSortedKept(leads: seq<Lead>, f: StatusFilter, query: string, field: SortField, dir: SortDirection)
    ensures FilteredLeads(leads, f, query, field, dir) == SortLeads(Filter(leads, KeptTest(f, query)), field, dir)
  {
    var p, t := StatusTest(f), SearchTest(query);
    assert ApplySearch(ApplyStatusFilter(leads, f), query) == Filter(Filter(leads, p), t);
    FilterFilter(leads, p, t, KeptTest(f, query));
  }

  /**
   * The view is the sorted rearrangement of the subsequence of leads that pass
   * both the status filter and the search; ties keep their input order.
   */
  lemma {:induction false} FilteredLeadsSpec(leads: seq<Lead>, f: StatusFilter, query: string, field: SortField, dir: SortDirection)
    ensures var r := FilteredLeads(leads, f, query, field, dir);
      && IsSubsequence(Filter(leads, KeptTest(f, query)), leads)
      && multiset(r) == multiset(Filter(leads, KeptTest(f, query)))
      && (forall l :: multiset(r)[l] == if Kept(l, f, query) then multiset(leads)[l] else 0)
      && SortedBy(r, GoesFirst(field, dir))
      && (forall k :: Filter(r, TiedWith(GoesFirst(field, dir), k))
                   == Filter(Filter(leads, KeptTest(f, query)), TiedWith(GoesFirst(field, dir), k)))
  {
    var kept := Filter(leads, KeptTest(f, query));
    var le := GoesFirst(field, dir);
    FilteredLeadsIsSortedKept(leads, f, query, field, dir);
    FilterIsSubsequence(leads, KeptTest(f, query));
    ComparatorIsTotalPreorder(field, dir);
    SortSorted(kept, le);
    forall k ensures Filter(Sort(kept, le), TiedWith(le, k)) == Filter(kept, TiedWith(le, k)) {
      SortStable(kept, le, k);
    }
  }

  /** With a specific status filter every lead shown has that status; "all" shows every lead. */
  lemma StatusFilterExact(leads: seq<Lead>, s: LeadStatus, field: SortField, dir: SortDirection)
    ensures forall l :: l in FilteredLeads(leads, Only(s), "", field, dir) ==> l.status == s
    ensures multiset(FilteredLeads(leads, All, "", field, dir)) == multiset(leads)
  {
    var r := FilteredLeads(leads, Only(s), "", field, dir);
    FilteredLeadsSpec(leads, Only(s), "", field, dir);
    forall l | l in r ensures l.status == s {
      assert multiset(r)[l] > 0;
    }
    FilteredLeadsSpec(leads, All, "", field, dir);
  }

  // ---------------------------------------------------------------------
  // Sort state and selection

  /** `handleSort`: the active field flips direction; another field becomes active, ascending. */
  function NextSort(field: SortField, dir: SortDirection, clicked: SortField): (r: (SortField, SortDirection))
    ensures r.0 == clicked
    ensures clicked == field ==> r.1 != dir
    ensures clicked != field ==> r.1 == Asc
  {
    if clicked == field then (field, if dir == Asc then Desc else Asc) else (clicked, Asc)
  }

  /** Clicking the same header twice restores the sort state. */
  lemma NextSortTwice(field: SortField, dir: SortDirection)
    ensures var (f1, d1) := NextSort(field, dir, field); NextSort(f1, d1, field) == (field, dir)
  {
  }

  /** `leads.find(l => l.id === selectedLeadId) ?? null`. */
  function FindById(leads: seq<Lead>, id: Option<string>): (r: Option<Lead>)
    ensures r.None? <==> forall i :: 0 <= i < |leads| ==> Some(leads[i].id) != id
    ensures r.Some? ==> exists i :: 0 <= i < |leads| && leads[i] == r.value && Some(r.value.id) == id
                                   && forall j :: 0 <= j < i ==> Some(leads[j].id) != id
  {
    if leads == [] then None
    else if Some(leads[0].id) == id then Some(leads[0])
    else
      FindById(leads[1..], id)
  }

  /** The dashboard component's state. */
  class DashboardState {
    var leads: seq<Lead>
    var loading: bool
    var selectedLeadId: Option<string>
    var searchQuery: string
    var statusFilter: StatusFilter
    var sortField: SortField
    var sortDirection: SortDirection

    /** Nothing loaded yet; newest leads first. */
    constructor ()
      ensures leads == [] && loading && selectedLeadId == None && searchQuery == ""
      ensures statusFilter == All && sortField == ByCreatedAt && sortDirection == Desc
    {
      leads := [];
      loading := true;
      selectedLeadId := None;
      searchQuery := "";
      statusFilter := All;
      sortField := ByCreatedAt;
      sortDirection := Desc;
    }

    /** A snapshot replaces the whole list, whatever was there before. */
    method OnSnapshot(docs: seq<(string, Document)>)
      modifies this
      ensures leads == SnapshotLeads(docs) && !loading
      ensures selectedLeadId == old(selectedLeadId) && searchQuery == old(searchQuery)
      ensures statusFilter == old(statusFilter) && sortField == old(sortField) && sortDirection == old(sortDirection)
    {
      leads := SnapshotLeads(docs);
      loading := false;
    }

    /** A subscription error stops the loading indicator and keeps the last list. */
    method OnSnapshotError()
      modifies this`loading
      ensures !loading
    {
      loading := false;
    }

    method HandleSort(clicked: SortField)
      modifies this`sortField, this`sortDirection
      ensures (sortField, sortDirection) == NextSort(old(sortField), old(sortDirection), clicked)
    {
      if sortField == clicked {
        sortDirection := if sortDirection == Asc then Desc else Asc;
      } else {
        sortField := clicked;
        sortDirection := Asc;
      }
    }

    method SetSearchQuery(q: string)
      modifies this`searchQuery
      ensures searchQuery == q
    {
      searchQuery := q;
    }

    method SetStatusFilter(f: StatusFilter)
      modifies this`statusFilter
      ensures statusFilter == f
    {
      statusFilter := f;
    }

    method SelectLead(id: string)
      modifies this`selectedLeadId
      ensures selectedLeadId == Some(id)
    {
      selectedLeadId := Some(id);
    }

    /** Closing the detail panel clears the selection. */
    method CloseDetail()
      modifies this`selectedLeadId
      ensures selectedLeadId == None
    {
      selectedLeadId := None;
    }

    /** The rows the table shows. */
    function Visible(): seq<Lead>
      reads this
    {
      FilteredLeads(leads, statusFilter, searchQuery, sortField, sortDirection)
    }

    /** The selected lead is looked up in the unfiltered list. */
    function SelectedLead(): Option<Lead>
      reads this
    {
      FindById(leads, selectedLeadId)
    }
  }
}
