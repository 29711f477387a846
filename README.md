# Horizon Energy South — lead triage and site chat, modelled in Dafny

Horizon Energy South's site collects homeowner leads through its contact
form. A chat assistant on the site answers visitors' questions; it never
records a lead. Staff triage the leads on an admin dashboard that shows:

- a live list of leads, with a status filter, a free-text search and sortable columns;
- stats cards;
- a detail panel for one lead, where staff change its status, append and delete notes, and keep a checklist of action items.

This project models that core in Dafny.

- **Lead types** (`AdminTypes`): the lead, note and action-item records, the six statuses in lifecycle order, and their display configuration.
- **Lead store** (`LeadStore`): the schemaless document store the dashboard reads and the panels write to. Writes take the store's two sentinels into account:
  - the server timestamp becomes the server's clock;
  - an array union appends a note unless an equal one is already there.
- **Dashboard** (`Dashboard`):
  - how a document becomes a lead, with the defaults applied;
  - the filter → search → stable-sort pipeline and its comparator;
  - the sort toggle and the selection lookup;
  - the dashboard state as a class.
- **Dashboard views** (`SearchFilterBar`, `LeadsTable`, `StatsCards`, `LeadDetailPanel`): the count label, the filter buttons, the relative-time buckets, the table rows, the sort chevrons, the stats counters, and the detail panel's status buttons and fields.
- **Notes and action items** (`LeadNotes`, `LeadActionItems`): the writes each edit makes, the effect of each write on the lead as read back, and the sort order of each list.
- **Contact form** (`ContactForm`):
  - field validation, including the e-mail pattern, proved equal to a direct structural reading;
  - the submitted document, which reads back as a new lead;
  - the form's state as a class.
- **Chat widget** (`Chatbot`): sending a message, the three kinds of outcome, and the typewriter reveal with its caret.
- **Chat endpoint** (`ChatRoute`): the ladder of error responses, including the two malformed bodies that make the handler throw, and the upstream request it builds.
- **Button** (`Button`): how the shared button chooses between an anchor, a client-side link and a `<button>`.

The model's parameters stand in for what it cannot see:

- the store's failures are a `fail` flag on each write;
- the clocks are `now` parameters;
- fresh document ids are `newId` parameters;
- the network and the language model are an outcome parameter.

Modules `Text` and `Lists` hold the JavaScript string and array operations the components use: `trim`, `toLowerCase`, `includes`, `filter`, and a stable `sort`.

## Model

| member | source | states |
|---|---|---|
| AdminTypes.ParseStatus | lib/admin-types.ts:3-12 | a name parses to a status exactly when it is that status's name; otherwise no status has that name |
| AdminTypes.LeadStatusesEnumerate | lib/admin-types.ts:3-10 | the status list has six distinct entries, contains every status, and its names are new, contacted, qualified, scheduled, completed, lost in that order |
| AdminTypes.StatusNameRoundTrip | lib/admin-types.ts:3-12 | parsing a status's name gives back that status |
| AdminTypes.StatusConfig | lib/admin-types.ts:14-48 | every status's label is its capitalised name, and both its colour classes are non-empty |
| LeadStore.Resolve | components/admin/LeadNotes.tsx:26-33 | a written value never stores a sentinel; a server timestamp becomes the server clock; an array union appends the note only when an equal note is not already in the stored list; any other value is stored as given |
| LeadStore.Merge | components/admin/LeadDetailPanel.tsx:25-34 | an update keeps every field it does not name, resolves every field it names against the stored value, and adds no other key |
| LeadStore.Store.constructor | components/admin/AdminDashboard.tsx:29 | the collection starts empty |
| LeadStore.Store.Update | components/admin/LeadDetailPanel.tsx:33 | an update succeeds exactly when the store does not fail and the document exists; on success only that document changes, merged with the fields; on failure nothing changes |
| LeadStore.Store.Add | components/forms/ContactForm.tsx:60-65 | adding a document under a fresh id stores the merged fields exactly when the store does not fail, and changes nothing otherwise |
| Dashboard.ToLead | components/admin/AdminDashboard.tsx:33-50 | a document reads as the lead with the document's id, and a status other than "new" is read only from a stored status string with that name (FieldDefaults gives the rule for every other field) |
| Dashboard.FieldDefaults | components/admin/AdminDashboard.tsx:35-49 | for any document, field by field: a missing or null field reads as its default ("", null, "new" or an empty list); a present field of the expected kind passes through unchanged; an empty status string reads as "new", and a stored status name reads as that status |
| Dashboard.EmptyDocumentDefaults | components/admin/AdminDashboard.tsx:33-50 | an empty document reads as a lead with empty strings, status "new", no notes or items and no timestamps |
| Dashboard.ReadBack | components/admin/AdminDashboard.tsx:33-50 | writing a lead's fields into a document and reading it back gives the same lead |
| Dashboard.SnapshotLeads | components/admin/AdminDashboard.tsx:33-52 | a snapshot becomes one lead per document, in snapshot order, each read with the defaults |
| Dashboard.ApplyStatusFilter | components/admin/AdminDashboard.tsx:67-70 | "all" keeps every lead; otherwise every kept lead has the chosen status, and the result is the order-preserving filter |
| Dashboard.ApplySearch | components/admin/AdminDashboard.tsx:72-82 | a blank query keeps every lead; otherwise every kept lead contains the lower-cased query in its lower-cased name, email, phone or address |
| Dashboard.LexLessIrreflexive | components/admin/AdminDashboard.tsx:99-100 | no string sorts before itself |
| Dashboard.LexLessTransitive | components/admin/AdminDashboard.tsx:99-100 | string order is transitive |
| Dashboard.LexLessTrichotomy | components/admin/AdminDashboard.tsx:99-100 | two strings are equal or one sorts before the other |
| Dashboard.Compare | components/admin/AdminDashboard.tsx:85-102 | the comparator returns -1, 0 or 1, and 0 only when both leads have the same sort key |
| Dashboard.KeyTrichotomy | components/admin/AdminDashboard.tsx:89-101 | two sort keys of the same column are equal or ordered one way or the other |
| Dashboard.KeyLessIrreflexive | components/admin/AdminDashboard.tsx:99-101 | no sort key is less than itself |
| Dashboard.KeyLessTransitive | components/admin/AdminDashboard.tsx:99-101 | the order on sort keys is transitive |
| Dashboard.CompareAntisymmetric | components/admin/AdminDashboard.tsx:99-101 | swapping the two leads negates the comparison, and so does switching between ascending and descending |
| Dashboard.KeyLessThroughLeft | components/admin/AdminDashboard.tsx:99-101 | a key below x is below every key at or above x |
| Dashboard.KeyLessThroughRight | components/admin/AdminDashboard.tsx:99-101 | a key above z is above every key at or below z |
| Dashboard.GoesFirstMeaning | components/admin/AdminDashboard.tsx:99-101 | a lead may go first exactly when the other lead's key is not strictly before its own in the chosen direction |
| Dashboard.CompareTransitive | components/admin/AdminDashboard.tsx:85-102 | "may go first" is transitive |
| Dashboard.ComparatorIsTotalPreorder | components/admin/AdminDashboard.tsx:85-102 | the comparator is a total preorder for every column and direction, so the sort is well defined |
| Dashboard.FilteredLeads | components/admin/AdminDashboard.tsx:64-105 | the visible list is no longer than the lead list, and every lead on it is one of the leads and passes both the status filter and the search (FilteredLeadsSpec gives the full characterisation) |
| Dashboard.FilteredLeadsIsSortedKept | components/admin/AdminDashboard.tsx:64-105 | status filtering followed by search is one filter by "status passes and search passes", then sorted |
| Dashboard.FilteredLeadsSpec | components/admin/AdminDashboard.tsx:64-105 | the visible list holds exactly the kept leads, each as often as in the input, is sorted by the comparator, and keeps tied leads in their input order |
| Dashboard.StatusFilterExact | components/admin/AdminDashboard.tsx:67-70 | a status filter with no search shows only leads of that status; "all" with no search shows every lead |
| Dashboard.NextSort | components/admin/AdminDashboard.tsx:109-116 | clicking a column always makes it the sort column; clicking the current column flips the direction; clicking another column sorts ascending |
| Dashboard.NextSortTwice | components/admin/AdminDashboard.tsx:109-116 | clicking the current column twice restores the original sort |
| Dashboard.FindById | components/admin/AdminDashboard.tsx:107 | the selected lead is the first lead with the selected id, and there is none exactly when no lead has that id |
| Dashboard.DashboardState.constructor | components/admin/AdminDashboard.tsx:19-25 | the dashboard starts loading, with no leads, no selection, an empty search, "all" and newest first |
| Dashboard.DashboardState.OnSnapshot | components/admin/AdminDashboard.tsx:32-54 | a snapshot replaces the leads with the read documents and ends loading; no other state changes |
| Dashboard.DashboardState.OnSnapshotError | components/admin/AdminDashboard.tsx:55-58 | a listener error ends loading and changes nothing else |
| Dashboard.DashboardState.HandleSort | components/admin/AdminDashboard.tsx:109-116 | the sort state becomes NextSort of the old state and the clicked column |
| Dashboard.DashboardState.SetSearchQuery | components/admin/AdminDashboard.tsx:167 | typing in the search box sets the query |
| Dashboard.DashboardState.SetStatusFilter | components/admin/AdminDashboard.tsx:169 | choosing a filter sets it |
| Dashboard.DashboardState.SelectLead | components/admin/AdminDashboard.tsx:177 | clicking a row selects that lead's id |
| Dashboard.DashboardState.CloseDetail | components/admin/AdminDashboard.tsx:187 | closing the panel clears the selection |
| SearchFilterBar.CountLabel | components/admin/SearchFilterBar.tsx:64-67 | the label ends in " leads" exactly when nothing is filtered out, and is then exactly the total's decimal text followed by " leads"; otherwise it is exactly the shown count's decimal text, " of ", and the total's decimal text; both numbers read back as the counts |
| SearchFilterBar.TotalLabelShape | components/admin/SearchFilterBar.tsx:65-66 | the "N leads" text is the count's digits, which read back as the count, followed by " leads" and nothing else |
| SearchFilterBar.PartLabelShape | components/admin/SearchFilterBar.tsx:65-67 | the "F of T" text is F's digits, " of ", and T's digits, with both numbers reading back, and it never ends in " leads" |
| SearchFilterBar.UnfilteredShowsTotal | components/admin/AdminDashboard.tsx:64-105 | with "all" and a blank search the visible list is as long as the lead list, so the label reads "N leads" |
| SearchFilterBar.FilterOptions | components/admin/SearchFilterBar.tsx:37-60 | the buttons are "all" followed by every status in lifecycle order |
| SearchFilterBar.FilterOptionsEnumerate | components/admin/SearchFilterBar.tsx:37-60 | every filter has exactly one button |
| SearchFilterBar.ExactlyOneHighlighted | components/admin/SearchFilterBar.tsx:40-55 | exactly one filter button is highlighted whatever the current filter |
| SearchFilterBar.ClickOption | components/admin/SearchFilterBar.tsx:39-51 | clicking a button sets that filter, which is then the highlighted one |
| LeadsTable.FormatRelativeTime | components/admin/LeadsTable.tsx:18-32 | no timestamp gives the placeholder; under a minute (future included) is "just now"; otherwise whole minutes below an hour, whole hours below a day, whole days below a week, and a calendar date from a week on |
| LeadsTable.RelativeTimeText | components/admin/LeadsTable.tsx:19-31 | no timestamp shows a dash and under a minute shows "just now"; a calendar date is the only bucket left to the locale; a minute, hour or day count is shown as its decimal digits followed by "m ago", "h ago" or "d ago", and the digits read back as the count |
| LeadsTable.AgoText | components/admin/LeadsTable.tsx:28-30 | a count's digits followed by a unit suffix read back as that count |
| LeadsTable.FutureIsJustNow | components/admin/LeadsTable.tsx:20-22 | a timestamp in the future is shown as "just now" |
| LeadsTable.Table | components/admin/LeadsTable.tsx:59-137 | "no leads found" exactly when the list is empty; otherwise one row per lead in order, carrying its id, its relative creation time, and the selection mark exactly on the selected lead |
| LeadsTable.SortableHeadersEnumerate | components/admin/LeadsTable.tsx:81-99 | every sortable column has exactly one header |
| LeadsTable.SortIcon | components/admin/LeadsTable.tsx:34-49 | a header shows a chevron exactly when it is the sort column, pointing up exactly when ascending |
| LeadsTable.ExactlyOneSortIcon | components/admin/LeadsTable.tsx:34-49 | exactly one header shows a chevron |
| LeadsTable.ClickHeader | components/admin/LeadsTable.tsx:81-99 | clicking a header applies the dashboard's sort toggle for that column |
| StatsCards.ComputeStats | components/admin/StatsCards.tsx:14-19 | the total is the number of leads; "new" is the number of leads with status new, "qualified" the number with status qualified or scheduled, "completed" the number with status completed; each is at most the total |
| StatsCards.Statuses | components/admin/StatsCards.tsx:15-19 | the statuses of the leads, one per lead in list order |
| StatsCards.FilterCountsStatus | components/admin/StatsCards.tsx:15-19 | a filter on one status keeps as many leads as have that status |
| StatsCards.StatsPartition | components/admin/StatsCards.tsx:14-19 | the new, qualified-or-scheduled and completed counters plus the contacted-or-lost leads add up to the total |
| StatsCards.StatsBound | components/admin/StatsCards.tsx:14-19 | the three counters together never exceed the total |
| LeadDetailPanel.StatusUpdate | components/admin/LeadDetailPanel.tsx:25-32 | a status change writes the status and a server timestamp for updatedAt, and lastContactedAt exactly when the new status is "contacted"; nothing else |
| LeadDetailPanel.StatusUpdateEffect | components/admin/LeadDetailPanel.tsx:25-34 | after the write the lead reads back with the new status and updatedAt at the server clock, lastContactedAt at the server clock only for "contacted", and otherwise unchanged |
| LeadDetailPanel.UpdateLeadStatus | components/admin/LeadDetailPanel.tsx:25-34 | the store changes exactly by that write when the lead exists and the store does not fail |
| LeadDetailPanel.StatusButtons | components/admin/LeadDetailPanel.tsx:105-121 | one button per status in lifecycle order, labelled from the status configuration, active exactly for the lead's status |
| LeadDetailPanel.ExactlyOneActiveButton | components/admin/LeadDetailPanel.tsx:105-121 | exactly one status button is active |
| LeadDetailPanel.HomeownerText | components/admin/LeadDetailPanel.tsx:165 | "Yes" exactly for "yes", "No" exactly for "no", a dash otherwise |
| LeadDetailPanel.HomeAgeText | components/admin/LeadDetailPanel.tsx:176 | a dash exactly when the home age is empty; otherwise exactly the age followed by " years" |
| LeadDetailPanel.DetailPanel | components/admin/LeadDetailPanel.tsx:54-190 | the panel shows exactly when a lead is selected, with its status buttons, mailto and tel links, the concerns block exactly when concerns are non-empty, "Unknown date" exactly when createdAt is missing and otherwise that date; the name, address, notes and action items are the lead's own, and the homeowner and home-age lines are the lead's answers as HomeownerText and HomeAgeText show them |
| LeadNotes.AddNoteWrite | components/admin/LeadNotes.tsx:26-33 | adding a note writes an array union of the note and a server timestamp for updatedAt, nothing else |
| LeadNotes.AddNoteEffect | components/admin/LeadNotes.tsx:18-38 | after the write the lead's notes gain the note at the end unless an equal note is already there, updatedAt is the server clock, and nothing else changes |
| LeadNotes.RemoveNote | components/admin/LeadNotes.tsx:41 | the remaining list is no longer than the notes and holds no note with that id |
| LeadNotes.RemoveNoteSpec | components/admin/LeadNotes.tsx:40-50 | removing keeps no note with that id, keeps every other note as often as before and in order, and changes nothing when no note has that id |
| LeadNotes.DeleteNoteWrite | components/admin/LeadNotes.tsx:40-50 | deleting writes the remaining notes and a server timestamp for updatedAt, nothing else |
| LeadNotes.DeleteNoteEffect | components/admin/LeadNotes.tsx:40-50 | after the write the lead's notes are the rendered list minus the note, updatedAt is the server clock, and nothing else changes |
| LeadNotes.NoteListWriteEffect | components/admin/LeadNotes.tsx:43-46 | writing a whole note list with the server timestamp replaces the lead's notes, sets updatedAt to the server clock, and changes nothing else |
| LeadNotes.NewestFirstIsTotalPreorder | components/admin/LeadNotes.tsx:52-56 | newest-first is a total preorder on notes |
| LeadNotes.SortedNotes | components/admin/LeadNotes.tsx:52-56 | the displayed notes are the lead's notes, each as often, in some order |
| LeadNotes.SortedNotesSpec | components/admin/LeadNotes.tsx:52-56 | the displayed notes are a permutation of the notes, newest first, with equal timestamps in their stored order |
| LeadNotes.NotesEditor.constructor | components/admin/LeadNotes.tsx:14-16 | the editor starts with empty text and not saving |
| LeadNotes.NotesEditor.AddNote | components/admin/LeadNotes.tsx:18-38 | a note is written exactly when the trimmed text is non-empty, no save is running, the lead exists and the store does not fail; the note holds the trimmed text, and the text box is cleared exactly when the write happened |
| LeadNotes.NotesEditor.DeleteNote | components/admin/LeadNotes.tsx:40-50 | the store changes exactly by the delete write when the lead exists and the store does not fail |
| LeadActionItems.ItemsWrite | components/admin/LeadActionItems.tsx:21-68 | every checklist edit writes the whole new list and a server timestamp for updatedAt, nothing else |
| LeadActionItems.ItemsWriteEffect | components/admin/LeadActionItems.tsx:21-68 | after the write the lead's items are the new list, updatedAt is the server clock, and nothing else changes |
| LeadActionItems.ToggleItem | components/admin/LeadActionItems.tsx:44-56 | toggling keeps the list's length, ids, texts and dates, and flips the completion flag exactly on items with that id |
| LeadActionItems.ToggleTwice | components/admin/LeadActionItems.tsx:44-56 | toggling the same id twice restores the list |
| LeadActionItems.ToggleAbsent | components/admin/LeadActionItems.tsx:44-56 | toggling an id no item has changes nothing |
| LeadActionItems.RemoveItem | components/admin/LeadActionItems.tsx:59 | the remaining list is no longer than the items and holds no item with that id |
| LeadActionItems.RemoveItemSpec | components/admin/LeadActionItems.tsx:58-68 | removing keeps no item with that id, keeps every other item as often as before and in order, and changes nothing when no item has that id |
| LeadActionItems.OpenThenNewestIsTotalPreorder | components/admin/LeadActionItems.tsx:71-76 | "open before completed, then newest first" is a total preorder |
| LeadActionItems.SortedItems | components/admin/LeadActionItems.tsx:71-76 | the displayed items are the lead's items, each as often, in some order |
| LeadActionItems.SortedItemsSpec | components/admin/LeadActionItems.tsx:71-76 | the displayed items are a permutation of the items, every open item before every completed one, newest first within each group, with ties in stored order |
| LeadActionItems.ItemsEditor.constructor | components/admin/LeadActionItems.tsx:17-19 | the editor starts with empty text and not saving |
| LeadActionItems.ItemsEditor.AddItem | components/admin/LeadActionItems.tsx:21-42 | an item is written exactly when the trimmed text is non-empty, no save is running, the lead exists and the store does not fail; it is appended open with the trimmed text, and the text box is cleared exactly when the write happened |
| LeadActionItems.ItemsEditor.ToggleItemAt | components/admin/LeadActionItems.tsx:44-56 | the store receives the toggled list exactly when the lead exists and the store does not fail |
| LeadActionItems.ItemsEditor.DeleteItem | components/admin/LeadActionItems.tsx:58-68 | the store receives the list without the item exactly when the lead exists and the store does not fail |
| ContactForm.With | components/forms/ContactForm.tsx:80-81 | changing one field leaves every other field as it was |
| ContactForm.FirstAt | components/forms/ContactForm.tsx:41 | the position of the first '@', or the length when there is none |
| ContactForm.PatternImpliesValid | components/forms/ContactForm.tsx:41 | every split of an address into plain local part, '@', plain name, '.', plain suffix passes the structural check |
| ContactForm.ValidImpliesPattern | components/forms/ContactForm.tsx:41 | every address passing the structural check matches the e-mail pattern |
| ContactForm.ValidEmailShape | components/forms/ContactForm.tsx:41 | a valid address has no whitespace and exactly one '@' |
| ContactForm.ValidEmailMatchesPattern | components/forms/ContactForm.tsx:41 | the structural check accepts exactly the addresses the e-mail pattern matches |
| ContactForm.ErrorsFor | components/forms/ContactForm.tsx:35-49 | errors are only ever set on name, email, phone, address and the homeowner answer (ErrorsForSpec gives each field's condition and message) |
| ContactForm.ErrorsForSpec | components/forms/ContactForm.tsx:35-51 | each required field has an error exactly when it is blank (the e-mail also when it does not match the pattern), with the source's messages; home age and concerns never have one |
| ContactForm.ValidForm | components/forms/ContactForm.tsx:35-51 | the form has no errors exactly when name, phone and address are non-blank, the e-mail is non-blank and matches the pattern, and a homeowner answer is chosen |
| ContactForm.FormDocument | components/forms/ContactForm.tsx:60-65 | the submitted document holds the seven form fields and a server timestamp for createdAt |
| ContactForm.SubmittedFormReadsAsNewLead | components/forms/ContactForm.tsx:60-65 | a submitted form reads on the dashboard as a lead with status "new", the form's fields, no notes or items, and createdAt at the server clock |
| ContactForm.ContactFormState.constructor | components/forms/ContactForm.tsx:28-33 | the form starts with the initial data, no errors, not submitted, not submitting, no submit error |
| ContactForm.ContactFormState.Validate | components/forms/ContactForm.tsx:35-51 | validation stores the form's errors and reports valid exactly when there are none |
| ContactForm.ContactFormState.HandleSubmit | components/forms/ContactForm.tsx:53-73 | an invalid form only shows its errors; a valid one adds the document unless the store fails, marks it submitted on success, shows the failure message on failure, and ends not submitting |
| ContactForm.ContactFormState.HandleChange | components/forms/ContactForm.tsx:75-85 | editing a field sets it and clears only that field's error |
| Chatbot.ErrorOr | components/chat/Chatbot.tsx:132-137 | a non-empty server error is shown as is; otherwise the fallback text |
| Chatbot.Reply | components/chat/Chatbot.tsx:127-158 | the assistant's reply is the answer, the server's error or the busy fallback for a rejected request, or the unreachable message for a network failure |
| Chatbot.ErrorAfter | components/chat/Chatbot.tsx:109-159 | an answer clears the error; a rejection sets the server's error or "Request failed"; a network failure sets "Network error" |
| Chatbot.Slice | components/chat/Chatbot.tsx:242 | the shown text is the prefix of the content of the typed length, or all of it |
| Chatbot.DisplayContent | components/chat/Chatbot.tsx:239-243 | a message shows a prefix of its text, and shows less than all of it only while it is the assistant message being typed, cut at the typed length |
| Chatbot.CaretMeansPartial | components/chat/Chatbot.tsx:239-244 | the shown text is a prefix of the message, and the caret shows exactly when it is a strict prefix |
| Chatbot.TypewriterStep | components/chat/Chatbot.tsx:84-97 | a tick does nothing unless an assistant message is being typed; then it stops once the whole message is shown and otherwise reveals one more character |
| Chatbot.TypewriterFinishes | components/chat/Chatbot.tsx:84-97 | from any valid position, typing stops with the whole message shown after one step per remaining character (a timer firing each) plus one immediate re-run of the effect that stops typing |
| Chatbot.Chat.constructor | components/chat/Chatbot.tsx:21-28 | the chat starts with only the welcome message, empty input, not loading, no error, not typing |
| Chatbot.Chat.ClearChat | components/chat/Chatbot.tsx:99-104 | clearing restores the welcome message alone, stops typing and clears the error |
| Chatbot.Chat.TypewriterTick | components/chat/Chatbot.tsx:84-97 | one run of the typing effect advances the typewriter by one step and keeps the chat's invariant |
| Chatbot.Chat.Send | components/chat/Chatbot.tsx:106-163 | nothing happens when the trimmed input is empty or a request is pending; otherwise the history plus the trimmed user message is sent, the reply is appended, the input is cleared, loading ends, the error follows the outcome, and only an answer starts the typewriter on the new message |
| ChatRoute.UpstreamMessages | app/api/chat/route.ts:62-68 | the upstream conversation is the system prompt followed by the client's elements unchanged |
| ChatRoute.Post | app/api/chat/route.ts:33-82 | a missing key gives 503 and an unparseable body 400; a `null` body throws at the destructuring, outside any try, and gets the framework's bare 500; a missing or empty message list gives 400; a `null` element throws while the request is built and gives the handler's 500 without calling the model; the model is called exactly when the key is set, the list is non-empty and has no `null`; a thrown call gives 500; otherwise 200 with the first choice's content or the fallback text |
| ChatRoute.PostStatusMatchesBody | app/api/chat/route.ts:33-82 | a response carries a message exactly when its status is 200, every error response of the handler's own is a 400, 500 or 503, and the uncaught-exception page is a 500 |
| Button.SpecialMeansPrefixed | components/ui/Button.tsx:30-38 | the chain of prefix tests accepts exactly the hrefs that start with one of the listed schemes or "#" |
| Button.SitePathIsNotSpecial | components/ui/Button.tsx:30-38 | an href starting with "/" is a site path, not a special one |
| Button.Render | components/ui/Button.tsx:40-73 | a non-empty href starting with a listed scheme or "#" renders an anchor, another non-empty href a client-side link, and no href a button with the given or default type; all three carry the class list for the variant and size, primary and medium by default |
| Lists.Filter | components/admin/AdminDashboard.tsx:69-81 | the filtered list keeps exactly the elements that pass, each as often as before |
| Lists.FilterMember | components/admin/AdminDashboard.tsx:69-81 | whatever a filter keeps was in the list and passes the test |
| Lists.FilterIsSubsequence | components/admin/AdminDashboard.tsx:69-81 | a filtered list is a subsequence of the original |
| Lists.FilterFilter | components/admin/AdminDashboard.tsx:67-82 | two filters in a row equal one filter by both tests |
| Lists.FilterKeepsAll | components/admin/StatsCards.tsx:14 | a filter that every element passes keeps the whole list |
| Lists.FilterCountDisjoint | components/admin/StatsCards.tsx:15-19 | counts under two exclusive tests add up to the count under either test |
| Lists.Sort | components/admin/AdminDashboard.tsx:85 | sorting gives a permutation of the input |
| Lists.SortSorted | components/admin/AdminDashboard.tsx:85-102 | under a total preorder the sorted list is ordered |
| Lists.SortStable | components/admin/AdminDashboard.tsx:85-102 | elements that compare equal keep their input order |
| Text.Trim | components/forms/ContactForm.tsx:38 | trimming gives no longer a string with no whitespace at either end, and empty exactly for a blank string |
| Text.TrimIsFactor | components/forms/ContactForm.tsx:38 | the trimmed string is a factor of the input with only whitespace before and after it |
| Text.TrimBlank | components/forms/ContactForm.tsx:38 | stripping whitespace from both ends leaves nothing exactly when every character is whitespace |
| Text.Lower | components/admin/AdminDashboard.tsx:74-80 | lower-casing keeps the length, maps each character on its own, and leaves no ASCII capital letter |
| Text.DecimalRoundTrip | components/admin/SearchFilterBar.tsx:66-67 | reading back a count's decimal digits gives the count |
| Text.DecimalInjective | components/admin/SearchFilterBar.tsx:66-67 | different counts have different decimal texts |

## Left out

- Query order: the dashboard's query orders by createdAt, newest first, and drops documents that have no createdAt. Neither is modelled. A snapshot is any sequence of documents, in the order given.
- Dashboard.StatusField: a stored status outside the six values is read as "new". The source passes such a value through unchanged. The model's status type has only the six values.
- Dashboard.ToLead: a field whose stored value has the wrong type is read as its default. The source passes it through.
- Dashboard.FieldDefaults: states nothing about a present field of the wrong kind, for the reason given for Dashboard.ToLead.
- Dashboard.LexLess: compares strings by code point. JavaScript's `<` compares UTF-16 code units. The two orders differ only outside the Basic Multilingual Plane.
- Text.Lower: lower-cases ASCII letters only. JavaScript's `toLowerCase` follows full Unicode case mapping.
- Locale-formatted dates are a tag carrying the timestamp, not the text `toLocaleDateString` produces. This covers the table's OnDate, the panel's CalendarDate and the dates shown on notes and items.
- Concurrency is not modelled, so several interleavings are missing:
  - the snapshot listener's timing;
  - lost updates when two panels write from stale note or item lists;
  - clicks that land while `saving`, `submitting` or `loading` are mid-flight;
  - clearChat during a pending send.

  Each operation is one atomic step.
- Chatbot.Chat.Send: the `setTimeout(0)` that starts the typewriter takes effect at once.
- Chatbot.Chat.TypewriterTick: a call is one run of the typing effect. When it reveals a character it stands for a firing of the 20 ms timer. When it stops typing it stands for the effect's immediate re-run after the last character, which sets no timer.
- Chatbot.Slice: counts Unicode code points. JavaScript's `slice` counts UTF-16 code units, so in the source a character outside the Basic Multilingual Plane (an emoji in a reply) is revealed in two steps, briefly showing a lone surrogate. The model reveals it in one.
- Chatbot.DisplayContent: the shown prefix is measured in code points, for the reason given for Chatbot.Slice.
- Chatbot.CaretMeansPartial: the caret test compares the typed length with the length in code points, where the source uses the UTF-16 `length`.
- Chatbot.TypewriterStep: the target length is the content's length in code points, where the source uses the UTF-16 `length`. A reply with characters outside the Basic Multilingual Plane takes one tick per code point in the model, one per code unit in the source.
- Chatbot.TypewriterFinishes: the step count it proves is one per code point plus the final re-run. In the source it is one per UTF-16 code unit plus one, which is more when the reply has characters outside the Basic Multilingual Plane.
- ChatRoute.Post: the framework's error page for the uncaught exception a `null` body raises is an opaque 500, not its content. An element that is neither `null` nor a message object is passed upstream as it is, and what the completion service makes of it is the `complete` parameter.
- Chatbot.Reply: an OK response whose body has no message field is not modelled. A response body that is not JSON counts as the network-failure outcome.
- The rate-limited chat route under app/(site)/api/chat/route.ts is not part of this model. Only app/api/chat/route.ts is.
- Rendering, focus handling, the Escape key, scrolling and animations are not modelled, and neither are the login screen, the navigation bar, the count-up animation or the marketing pages.
- Button.Classes and Button.IsExternalOrSpecialHref carry no contract of their own. They are string assembly and prefix tests, and their meaning is stated by Button.Render and Button.SpecialMeansPrefixed.
- Dashboard.CompareAntisymmetric: descending order is the reverse of ascending only among leads whose keys differ. The sort is stable, so tied leads keep their input order in both directions.
- Phone and address validation checks only that the field is non-blank. The source checks nothing more, so nothing more is modelled.
