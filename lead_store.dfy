/**
 * The schemaless document store the leads live in. A document maps field
 * names to values; a write names some fields and leaves the others alone.
 * Two write-time placeholders are resolved by the store itself: the server
 * timestamp, which becomes the server clock's reading, and the array union
 * of one note, which appends the note unless an equal one is present.
 */
module LeadStore {
  import opened Wrappers
  import opened AdminTypes

  datatype Value =
    | Str(s: string)
    | Time(ms: int)
    | Null
    | NoteList(notes: seq<Note>)
    | ItemList(items: seq<ActionItem>)
    | ServerTimestamp
    | UnionNote(note: Note)

  type Document = map<string, Value>

  /** What a written value becomes in the stored document. */
  function Resolve(previous: Option<Value>, v: Value, now: int): (r: Value)
    ensures !r.ServerTimestamp? && !r.UnionNote?
    ensures v.ServerTimestamp? ==> r == Time(now)
    ensures v.UnionNote? && previous.Some? && previous.value.NoteList? ==>
      r.NoteList? && r.notes == (if v.note in previous.value.notes then previous.value.notes
                                  else previous.value.notes + [v.note])
    ensures !v.ServerTimestamp? && !v.UnionNote? ==> r == v
  {
    match v
    case ServerTimestamp => Time(now)
    case UnionNote(n) =>
      var existing := if previous.Some? && previous.value.NoteList? then previous.value.notes else [];
      NoteList(if n in existing then existing else existing + [n])
    case _ => v
  }

  /** A partial update: the written fields are resolved, every other field is kept. */
  function Merge(doc: Document, fields: Document, now: int): (r: Document)
    ensures r.Keys == doc.Keys + fields.Keys
    ensures forall k :: k in doc && k !in fields ==> r[k] == doc[k]
    ensures forall k :: k in fields ==>
      r[k] == Resolve(if k in doc then Some(doc[k]) else None, fields[k], now)
  {
    map k | k in doc.Keys + fields.Keys ::
      if k in fields then Resolve(if k in doc then Some(doc[k]) else None, fields[k], now) else doc[k]
  }

  /** The collection of lead documents, keyed by document id. */
  class Store {
    var docs: map<string, Document>

    constructor ()
      ensures docs == map[]
    {
      docs := map[];
    }

    /**
     * A partial update of one document. It fails when the document does not
     * exist or the write is rejected (`fail`, the network's answer), and then
     * nothing changes.
     */
    method Update(id: string, fields: Document, now: int, fail: bool) returns (ok: bool)
      modifies this
      ensures ok == (!fail && id in old(docs))
      ensures docs == if ok then old(docs)[id := Merge(old(docs)[id], fields, now)] else old(docs)
    {
      ok := !fail && id in docs;
      if ok {
        docs := docs[id := Merge(docs[id], fields, now)];
      }
    }

    /** Creates a document under a fresh id chosen by the store. */
    method Add(id: string, fields: Document, now: int, fail: bool) returns (ok: bool)
      requires id !in docs
      modifies this
      ensures ok == !fail
      ensures docs == if ok then old(docs)[id := Merge(map[], fields, now)] else old(docs)
    {
      ok := !fail;
      if ok {
        docs := docs[id := Merge(map[], fields, now)];
      }
    }
  }
}
