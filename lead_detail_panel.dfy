/** The slide-over panel for one lead: its status buttons and the status write, and the detail fields. */
module LeadDetailPanel {
  import opened Wrappers
  import opened Text
  import opened AdminTypes
  import opened LeadStore
  import opened Dashboard

  /**
   * The fields a status change writes: the status and the update time, and
   * the last-contact time too when the new status is `contacted`.
   */
  function StatusUpdate(status: LeadStatus): (u: Document)
    ensures "status" in u && u["status"] == Str(StatusName(status))
    ensures "updatedAt" in u && u["updatedAt"] == ServerTimestamp
    ensures "lastContactedAt" in u <==> status == Contacted
    ensures "lastContactedAt" in u ==> u["lastContactedAt"] == ServerTimestamp
    ensures u.Keys <= {"status", "updatedAt", "lastContactedAt"}
  {
    var update := map["status" := Str(StatusName(status)), "updatedAt" := ServerTimestamp];
    if status == Contacted then update["lastContactedAt" := ServerTimestamp] else update
  }

  /**
   * After a status change, the lead reads back with the new status and the
   * server time as its update time (and as its last-contact time when the
   * status is `contacted`); nothing else about it changes.
   */
  lemma StatusUpdateEffect(id: string, d: Document, status: LeadStatus, now: int)
    ensures var before, after := ToLead(id, d), ToLead(id, Merge(d, StatusUpdate(status), now));
      after == before.(status := status, updatedAt := Some(now),
                       lastContactedAt := if status == Contacted then Some(now) else before.lastContactedAt)
  {
    StatusNameRoundTrip(status);
  }

  /** `updateLeadStatus`: one partial write of the lead's document. */
  method UpdateLeadStatus(store: Store, leadId: string, status: LeadStatus, now: int, fail: bool) returns (ok: bool)
    modifies store
    ensures ok == (!fail && leadId in old(store.docs))
    ensures store.docs == if ok then old(store.docs)[leadId := Merge(old(store.docs)[leadId], StatusUpdate(status), now)]
                          else old(store.docs)
  {
    ok := store.Update(leadId, StatusUpdate(status), now, fail);
  }

  /** One status button: the status it sets, whether it is the lead's current one, and its label. */
  datatype StatusButton = StatusButton(status: LeadStatus, active: bool, labelText: string)

  /** One button per status, in the configured order; the lead's own status is the active one. */
  function StatusButtons(lead: Lead): (bs: seq<StatusButton>)
    ensures |bs| == |LeadStatuses|
    ensures forall i :: 0 <= i < |bs| ==>
      bs[i].status == LeadStatuses[i] && (bs[i].active <==> LeadStatuses[i] == lead.status)
      && bs[i].labelText == StatusConfig(LeadStatuses[i]).labelText
  {
    seq(|LeadStatuses|, i requires 0 <= i < |LeadStatuses| =>
      StatusButton(LeadStatuses[i], LeadStatuses[i] == lead.status, StatusConfig(LeadStatuses[i]).labelText))
  }

  /** Exactly one status button is active, whatever the lead's status. */
  lemma ExactlyOneActiveButton(lead: Lead)
    ensures exists i :: 0 <= i < |StatusButtons(lead)| && StatusButtons(lead)[i].active
    ensures forall i, j :: (0 <= i < |StatusButtons(lead)| && 0 <= j < |StatusButtons(lead)|
      && StatusButtons(lead)[i].active && StatusButtons(lead)[j].active) ==> i == j
  {
    LeadStatusesEnumerate();
    assert lead.status in LeadStatuses;
    var i :| 0 <= i < |LeadStatuses| && LeadStatuses[i] == lead.status;
    assert StatusButtons(lead)[i].active;
  }

  /** The homeowner answer as shown: "Yes", "No", or a dash for anything else. */
  function HomeownerText(isHomeowner: string): (r: string)
    ensures r == "Yes" <==> isHomeowner == "yes"
    ensures r == "No" <==> isHomeowner == "no"
    ensures r != "Yes" && r != "No" ==> r == "\U{2014}"
  {
    if isHomeowner == "yes" then "Yes" else if isHomeowner == "no" then "No" else "\U{2014}"
  }

  /** The home age as shown: the stored answer followed by " years", or a dash when it is empty. */
  function HomeAgeText(homeAge: string): (r: string)
    ensures homeAge == "" <==> r == "\U{2014}"
    ensures homeAge != "" ==> StartsWith(r, homeAge) && EndsWith(r, " years") && |r| == |homeAge| + |" years"|
  {
    if homeAge != "" then homeAge + " years" else "\U{2014}"
  }

  /** The header's date line: a calendar date (formatted by the locale) or "Unknown date". */
  datatype DateLine = CalendarDate(ms: int) | UnknownDate

  /** What the panel shows for a lead; the notes and action items are their own components. */
  datatype PanelView = PanelView(
    name: string, date: DateLine, buttons: seq<StatusButton>,
    mailto: string, tel: string, address: string,
    homeowner: string, homeAge: string, concerns: Option<string>,
    leadId: string, notes: seq<Note>, actionItems: seq<ActionItem>)

  /** The panel is rendered only when a lead is selected. */
  function DetailPanel(lead: Option<Lead>): (v: Option<PanelView>)
    ensures v.Some? <==> lead.Some?
    ensures v.Some? ==> v.value.leadId == lead.value.id && v.value.buttons == StatusButtons(lead.value)
    ensures v.Some? ==> (v.value.concerns.Some? <==> lead.value.concerns != "")
    ensures v.Some? ==> (v.value.date == UnknownDate <==> lead.value.createdAt.None?)
    ensures v.Some? ==> v.value.mailto == "mailto:" + lead.value.email && v.value.tel == "tel:" + lead.value.phone
    ensures v.Some? ==> v.value.name == lead.value.name && v.value.address == lead.value.address
    ensures v.Some? ==> v.value.homeowner == HomeownerText(lead.value.isHomeowner)
    ensures v.Some? ==> v.value.homeAge == HomeAgeText(lead.value.homeAge)
    ensures v.Some? && lead.value.createdAt.Some? ==> v.value.date == CalendarDate(lead.value.createdAt.value)
    ensures v.Some? ==> v.value.notes == lead.value.notes && v.value.actionItems == lead.value.actionItems
  {
    if lead.None? then None
    else
      var l := lead.value;
      Some(PanelView(
        l.name, if l.createdAt.Some? then CalendarDate(l.createdAt.value) else UnknownDate,
        StatusButtons(l), "mailto:" + l.email, "tel:" + l.phone, l.address,
        HomeownerText(l.isHomeowner), HomeAgeText(l.homeAge),
        if l.concerns != "" then Some(l.concerns) else None,
        l.id, l.notes, l.actionItems))
  }
}
