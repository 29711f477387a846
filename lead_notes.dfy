/** Notes on a lead: adding one (as an array union), deleting one, and the newest-first list. */
module LeadNotes {
  import opened Wrappers
  import opened Text
  import opened Lists
  import opened AdminTypes
  import opened LeadStore
  import opened Dashboard

  /** The write that adds `note`: a union into the note list, and the server's update time. */
  function AddNoteWrite(note: Note): (w: Document)
    ensures w.Keys == {"notes", "updatedAt"}
    ensures w["notes"] == UnionNote(note) && w["updatedAt"] == ServerTimestamp
  {
    map["notes" := UnionNote(note), "updatedAt" := ServerTimestamp]
  }

  /**
   * Adding a note appends it to the stored list unless an equal note is
   * already there, stamps the update time, and changes nothing else.
   */
  lemma AddNoteEffect(id: string, d: Document, note: Note, now: int)
    ensures var before, after := ToLead(id, d), ToLead(id, Merge(d, AddNoteWrite(note), now));
      after == before.(notes := if note in before.notes then before.notes else before.notes + [note],
                       updatedAt := Some(now))
  {
  }

  /** The test "is not the note with id `noteId`". */
  function OtherThan(noteId: string): Note -> bool {
    (n: Note) => n.id != noteId
  }

  /** `notes.filter((n) => n.id !== noteId)`. */
  function RemoveNote(notes: seq<Note>, noteId: string): (r: seq<Note>)
    ensures |r| <= |notes| && forall i :: 0 <= i < |r| ==> r[i].id != noteId
  {
    Filter(notes, OtherThan(noteId))
  }

  /**
   * Deleting removes every note with that id and keeps every other note,
   * as often as before and in the same order; an id that is not there
   * leaves the list as it was.
   */
  lemma RemoveNoteSpec(notes: seq<Note>, noteId: string)
    ensures forall n :: n in RemoveNote(notes, noteId) ==> n.id != noteId
    ensures forall n: Note :: n.id != noteId ==> multiset(RemoveNote(notes, noteId))[n] == multiset(notes)[n]
    ensures IsSubsequence(RemoveNote(notes, noteId), notes)
    ensures (forall i :: 0 <= i < |notes| ==> notes[i].id != noteId) ==> RemoveNote(notes, noteId) == notes
  {
    FilterIsSubsequence(notes, OtherThan(noteId));
    if forall i :: 0 <= i < |notes| ==> notes[i].id != noteId {
      FilterKeepsAll(notes, OtherThan(noteId));
    }
  }

  /** The write that deletes a note: the whole filtered list, and the server's update time. */
  function DeleteNoteWrite(notes: seq<Note>, noteId: string): (w: Document)
    ensures w.Keys == {"notes", "updatedAt"}
    ensures w["notes"] == NoteList(RemoveNote(notes, noteId)) && w["updatedAt"] == ServerTimestamp
  {
    map["notes" := NoteList(RemoveNote(notes, noteId)), "updatedAt" := ServerTimestamp]
  }

  /**
   * After a delete the stored list is the panel's list without the note,
   * whatever the store held before: the write replaces the list.
   */
  lemma DeleteNoteEffect(id: string, d: Document, notes: seq<Note>, noteId: string, now: int)
    ensures var before, after := ToLead(id, d), ToLead(id, Merge(d, DeleteNoteWrite(notes, noteId), now));
      after == before.(notes := RemoveNote(notes, noteId), updatedAt := Some(now))
  {
    var remaining := RemoveNote(notes, noteId);
    assert DeleteNoteWrite(notes, noteId) == map["notes" := NoteList(remaining), "updatedAt" := ServerTimestamp];
    NoteListWriteEffect(id, d, remaining, now);
  }

  /** Writing a whole note list replaces the stored one and stamps the update time; nothing else changes. */
  lemma NoteListWriteEffect(id: string, d: Document, ns: seq<Note>, now: int)
    ensures var before, after := ToLead(id, d), ToLead(id, Merge(d, map["notes" := NoteList(ns), "updatedAt" := ServerTimestamp], now));
      after == before.(notes := ns, updatedAt := Some(now))
  {
  }

  /** The comparator `bMs - aMs <= 0`: `a` may go first when it is no older than `b`. */
  function NewestFirst(): (Note, Note) -> bool {
    (a: Note, b: Note) => Millis(b.createdAt) <= Millis(a.createdAt)
  }

  lemma NewestFirstIsTotalPreorder()
    ensures TotalPreorder(NewestFirst())
  {
  }

  /** The displayed list: newest first, a note without a time counting as time 0. */
  function SortedNotes(notes: seq<Note>): (r: seq<Note>)
    ensures |r| == |notes| && multiset(r) == multiset(notes)
  {
    Sort(notes, NewestFirst())
  }

  /**
   * The displayed list holds exactly the lead's notes, newest first, and
   * notes with the same time keep their stored order.
   */
  lemma SortedNotesSpec(notes: seq<Note>)
    ensures multiset(SortedNotes(notes)) == multiset(notes)
    ensures forall i, j :: 0 <= i < j < |SortedNotes(notes)| ==>
      Millis(SortedNotes(notes)[j].createdAt) <= Millis(SortedNotes(notes)[i].createdAt)
    ensures forall k :: Filter(SortedNotes(notes), TiedWith(NewestFirst(), k)) == Filter(notes, TiedWith(NewestFirst(), k))
  {
    NewestFirstIsTotalPreorder();
    SortSorted(notes, NewestFirst());
    forall k {
      SortStable(notes, NewestFirst(), k);
    }
  }

  /** The note editor of one lead's panel: the draft text and whether a write is in flight. */
  class NotesEditor {
    const leadId: string
    var text: string
    var saving: bool

    constructor (leadId: string)
      ensures this.leadId == leadId && text == "" && !saving
    {
      this.leadId := leadId;
      text := "";
      saving := false;
    }

    /** The send button is enabled exactly when the draft has non-blank text and no write is in flight. */
    predicate CanAdd()
      reads this
    {
      Trim(text) != "" && !saving
    }

    /**
     * `addNote`: with a non-blank draft and no write in flight, unions a note
     * holding the trimmed draft, the fresh id `newId` and the client time
     * into the document. The draft is cleared only when the write succeeds;
     * `saving` is back to what it was once the call is over.
     */
    method AddNote(store: Store, newId: string, clientNow: int, serverNow: int, fail: bool) returns (written: bool)
      modifies this`text, this`saving, store
      ensures written == (old(CanAdd()) && !fail && leadId in old(store.docs))
      ensures store.docs == if written
        then old(store.docs)[leadId := Merge(old(store.docs)[leadId], AddNoteWrite(Note(newId, Trim(old(text)), Some(clientNow))), serverNow)]
        else old(store.docs)
      ensures text == if written then "" else old(text)
      ensures saving == old(saving)
    {
      var trimmed := Trim(text);
      if trimmed == "" || saving {
        return false;
      }
      saving := true;
      var note := Note(newId, trimmed, Some(clientNow));
      written := store.Update(leadId, AddNoteWrite(note), serverNow, fail);
      if written {
        text := "";
      }
      saving := false;
    }

    /** `deleteNote`: writes the panel's list without the note; the draft is untouched. */
    method DeleteNote(store: Store, notes: seq<Note>, noteId: string, serverNow: int, fail: bool) returns (written: bool)
      modifies store
      ensures written == (!fail && leadId in old(store.docs))
      ensures store.docs == if written
        then old(store.docs)[leadId := Merge(old(store.docs)[leadId], DeleteNoteWrite(notes, noteId), serverNow)]
        else old(store.docs)
    {
      written := store.Update(leadId, DeleteNoteWrite(notes, noteId), serverNow, fail);
    }
  }
}
