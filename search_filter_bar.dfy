/** The search box's companions: the count label and the status filter buttons. */
module SearchFilterBar {
  import opened Text
  import opened AdminTypes
  import opened Dashboard

  /** "N leads" when nothing is hidden, else "F of T". */
  function CountLabel(filteredCount: nat, totalCount: nat): (r: string)
    ensures filteredCount == totalCount <==> EndsWith(r, " leads")
    ensures StartsWith(r, Decimal(filteredCount)) && DecimalValue(r[..|Decimal(filteredCount)|]) == filteredCount
    ensures filteredCount != totalCount ==>
      EndsWith(r, Decimal(totalCount)) && DecimalValue(r[|r| - |Decimal(totalCount)|..]) == totalCount
    ensures filteredCount == totalCount ==> |r| == |Decimal(totalCount)| + |" leads"|
    ensures filteredCount != totalCount ==>
      && |r| == |Decimal(filteredCount)| + |" of "| + |Decimal(totalCount)|
      && r[|Decimal(filteredCount)|..|Decimal(filteredCount)| + |" of "|] == " of "
  {
    if filteredCount == totalCount then
      TotalLabelShape(totalCount);
      Decimal(totalCount) + " leads"
    else
      PartLabelShape(filteredCount, totalCount);
      Decimal(filteredCount) + " of " + Decimal(totalCount)
  }

  lemma TotalLabelShape(n: nat)
    ensures var r := Decimal(n) + " leads";
      && EndsWith(r, " leads") && |r| == |Decimal(n)| + |" leads"|
      && StartsWith(r, Decimal(n)) && DecimalValue(r[..|Decimal(n)|]) == n
  {
    var r := Decimal(n) + " leads";
    DecimalRoundTrip(n);
    assert r[..|Decimal(n)|] == Decimal(n);
    assert r[|r| - |" leads"|..] == " leads";
  }

  lemma PartLabelShape(f: nat, t: nat)
    ensures var r := Decimal(f) + " of " + Decimal(t);
      && !EndsWith(r, " leads")
      && |r| == |Decimal(f)| + |" of "| + |Decimal(t)|
      && StartsWith(r, Decimal(f)) && DecimalValue(r[..|Decimal(f)|]) == f
      && r[|Decimal(f)|..|Decimal(f)| + |" of "|] == " of "
      && EndsWith(r, Decimal(t)) && DecimalValue(r[|r| - |Decimal(t)|..]) == t
  {
    var r := Decimal(f) + " of " + Decimal(t);
    DecimalRoundTrip(f);
    DecimalRoundTrip(t);
    assert r[|r| - 1] == Decimal(t)[|Decimal(t)| - 1];
    assert r[..|Decimal(f)|] == Decimal(f);
    assert r[|Decimal(f)|..|Decimal(f)| + |" of "|] == " of ";
    assert r[|r| - |Decimal(t)|..] == Decimal(t);
  }

  /** With "all" and a blank search nothing is hidden, so the dashboard's label is "N leads". */
  lemma UnfilteredShowsTotal(leads: seq<Lead>, query: string, field: SortField, dir: SortDirection)
    requires Blank(query)
    ensures var r := FilteredLeads(leads, All, query, field, dir);
      |r| == |leads| && EndsWith(CountLabel(|r|, |leads|), " leads")
  {
    var r := FilteredLeads(leads, All, query, field, dir);
    FilteredLeadsSpec(leads, All, query, field, dir);
    assert multiset(r) == multiset(leads);
    assert |r| == |multiset(r)| == |multiset(leads)| == |leads|;
  }

  /** The filter buttons: "all", then one per status in lifecycle order. */
  function FilterOptions(): (r: seq<StatusFilter>)
    ensures |r| == 1 + |LeadStatuses| && r[0] == All
    ensures forall i :: 0 <= i < |LeadStatuses| ==> r[i + 1] == Only(LeadStatuses[i])
  {
    [All] + seq(|LeadStatuses|, i requires 0 <= i < |LeadStatuses| => Only(LeadStatuses[i]))
  }

  /** Every filter value has exactly one button. */
  lemma FilterOptionsEnumerate()
    ensures forall f :: f in FilterOptions()
    ensures forall i, j :: 0 <= i < j < |FilterOptions()| ==> FilterOptions()[i] != FilterOptions()[j]
  {
    var r := FilterOptions();
    LeadStatusesEnumerate();
    forall f ensures f in r {
      if f.Only? {
        assert f.status in LeadStatuses;
        var i :| 0 <= i < |LeadStatuses| && LeadStatuses[i] == f.status;
        assert r[i + 1] == f;
      }
    }
    forall i, j | 0 <= i < j < |r| ensures r[i] != r[j] {
      if i > 0 { assert LeadStatuses[i - 1] != LeadStatuses[j - 1]; }
    }
  }

  function OptionLabel(option: StatusFilter): string {
    match option
    case All => "All"
    case Only(s) => StatusConfig(s).labelText
  }

  /** A button is highlighted exactly when its value is the current filter. */
  predicate Highlighted(option: StatusFilter, current: StatusFilter) {
    option == current
  }

  /** Whatever the current filter, exactly one button is highlighted. */
  lemma ExactlyOneHighlighted(current: StatusFilter)
    ensures exists i :: 0 <= i < |FilterOptions()| && Highlighted(FilterOptions()[i], current)
    ensures forall i, j ::
      (0 <= i < |FilterOptions()| && 0 <= j < |FilterOptions()|
       && Highlighted(FilterOptions()[i], current) && Highlighted(FilterOptions()[j], current)) ==> i == j
  {
    FilterOptionsEnumerate();
    assert current in FilterOptions();
    var i :| 0 <= i < |FilterOptions()| && FilterOptions()[i] == current;
  }

  /** Clicking a button passes its own value to the dashboard. */
  method ClickOption(d: DashboardState, option: StatusFilter)
    modifies d`statusFilter
    ensures d.statusFilter == option
    ensures Highlighted(option, d.statusFilter)
  {
    d.SetStatusFilter(option);
  }
}
