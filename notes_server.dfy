/**
 * The Express notes server: a module-level `notes` array served under
 * `/api/notes`, reassigned by DELETE (a filter) and POST (a concat), with
 * new ids one above the current maximum.
 */
module NotesServer {
  import opened Wrappers
  import opened Seqs
  import opened Text
  import opened Json

  /** `content` and `important` are taken from the body as they are, so they stay untyped. */
  datatype Note = Note(id: int, content: Json, important: Json)

  datatype NoteResponse =
    | NoteList(notes: seq<Note>)
    | NoteJson(note: Note)
    | ErrorJson(status: int, error: string)
    | TextReply(status: int, text: string)
    | NoContent(status: int)

  function InitialNotes(): seq<Note> {
    [ Note(1, JStr("HTML is easy"), JBool(true)),
      Note(2, JStr("Browser can execute only JavaScript"), JBool(false)),
      Note(3, JStr("GET and POST are the most important methods of HTTP protocol"), JBool(true)) ]
  }

  /** `Math.max(...notes.map(n => n.id))` */
  function MaxId(notes: seq<Note>): (m: int)
    requires notes != []
    ensures forall i :: 0 <= i < |notes| ==> notes[i].id <= m
    ensures exists i :: 0 <= i < |notes| && notes[i].id == m
  {
    if |notes| == 1 then notes[0].id
    else
      var rest := MaxId(notes[1..]);
      assert forall i :: 1 <= i < |notes| ==> notes[i] == notes[1..][i - 1];
      if notes[0].id >= rest then notes[0].id else rest
  }

  /** `generateId`: 1 for an empty store, otherwise one above the largest id. */
  function GenerateId(notes: seq<Note>): (r: int)
    ensures notes == [] ==> r == 1
    ensures forall i :: 0 <= i < |notes| ==> notes[i].id < r
    ensures notes != [] ==> exists i :: 0 <= i < |notes| && notes[i].id == r - 1
  {
    (if |notes| > 0 then MaxId(notes) else 0) + 1
  }

  predicate DistinctIds(notes: seq<Note>) {
    forall i, j :: 0 <= i < j < |notes| ==> notes[i].id != notes[j].id
  }

  /** `notes.filter(note => note.id !== Number(id))`; a `Number` that is NaN removes nothing. */
  function RemoveId(notes: seq<Note>, target: Option<nat>): seq<Note> {
    Filter(notes, KeepUnless(target))
  }

  /** The filter's callback: keep a note unless its id is the target. */
  function KeepUnless(target: Option<nat>): Note -> bool {
    (n: Note) => !(target.Some? && n.id == target.value)
  }

  /** DELETE keeps, in order, every note but those with the id, and drops all of those. */
  lemma RemoveIdEffect(notes: seq<Note>, id: nat)
    ensures forall i :: 0 <= i < |RemoveId(notes, Some(id))| ==> RemoveId(notes, Some(id))[i].id != id
    ensures forall i :: 0 <= i < |notes| && notes[i].id != id ==> notes[i] in RemoveId(notes, Some(id))
    ensures forall i :: 0 <= i < |RemoveId(notes, Some(id))| ==> RemoveId(notes, Some(id))[i] in notes
    ensures RemoveId(notes, None) == notes
  {
    FilterAll(notes, KeepUnless(None));
  }

  /** Deleting twice is deleting once. */
  lemma RemoveIdIdempotent(notes: seq<Note>, target: Option<nat>)
    ensures RemoveId(RemoveId(notes, target), target) == RemoveId(notes, target)
  {
    FilterIdempotent(notes, KeepUnless(target));
  }

  /** Filtering keeps ids distinct. */
  lemma {:induction false} FilterKeepsDistinct(notes: seq<Note>, p: Note -> bool)
    requires DistinctIds(notes)
    ensures DistinctIds(Filter(notes, p))
  {
    if notes != [] {
      var init, last := notes[..|notes| - 1], notes[|notes| - 1];
      FilterKeepsDistinct(init, p);
      var f := Filter(init, p);
      forall i | 0 <= i < |f| ensures f[i].id != last.id {
        var k :| 0 <= k < |init| && init[k] == f[i];
        assert notes[k] == f[i];
      }
    }
  }

  /** A note with the generated id can be appended without repeating an id. */
  lemma AppendGeneratedKeepsDistinct(notes: seq<Note>, n: Note)
    requires DistinctIds(notes) && n.id == GenerateId(notes)
    ensures DistinctIds(notes + [n])
  {
    var s := notes + [n];
    forall i, j | 0 <= i < j < |s| ensures s[i].id != s[j].id {
      if j == |notes| { assert s[i] == notes[i]; } else { assert s[i] == notes[i] && s[j] == notes[j]; }
    }
  }

  /** Ids are not reserved: after the note with the largest id is deleted, the next POST reuses that id. */
  lemma IdReusedAfterDeletingMax()
    ensures GenerateId(InitialNotes()) == 4
    ensures GenerateId(RemoveId(InitialNotes(), Some(3))) == 3
  {
    var rest := RemoveId(InitialNotes(), Some(3));
    assert rest == InitialNotes()[..2] by {
      assert InitialNotes()[..2][..1] == InitialNotes()[..1];
      assert InitialNotes()[..1][..0] == [];
    }
  }

  class NotesServer {
    var notes: seq<Note>

    /** The invariant every handler keeps: ids are pairwise distinct. */
    ghost predicate Valid()
      reads this
    {
      DistinctIds(notes)
    }

    constructor ()
      ensures Valid() && notes == InitialNotes()
    {
      notes := InitialNotes();
    }

    /** GET `/api/notes` */
    method GetAll() returns (res: NoteResponse)
      ensures res == NoteList(notes)
    {
      res := NoteList(notes);
    }

    /** GET `/api/notes/:id`: the first note with `Number(id)`, otherwise 404 'Note not found'. */
    method GetById(id: string) returns (res: NoteResponse)
      ensures res.NoteJson? <==> NumberOf(id).Some? && exists i :: 0 <= i < |notes| && notes[i].id == NumberOf(id).value
      ensures res.NoteJson? ==> res.note.id == NumberOf(id).value
      ensures res.NoteJson? ==> exists i :: 0 <= i < |notes| && notes[i] == res.note &&
                                  forall k :: 0 <= k < i ==> notes[k].id != res.note.id
      ensures !res.NoteJson? ==> res == TextReply(404, "Note not found")
    {
      var target := NumberOf(id);
      var i := IndexOf(notes, (n: Note) => target.Some? && n.id == target.value);
      if i.Some? {
        res := NoteJson(notes[i.value]);
      } else {
        res := TextReply(404, "Note not found");
      }
    }

    /** DELETE `/api/notes/:id`: always 204; removes every note with `Number(id)`. */
    method Delete(id: string) returns (res: NoteResponse)
      requires Valid()
      modifies this
      ensures Valid()
      ensures notes == RemoveId(old(notes), NumberOf(id))
      ensures res == NoContent(204)
    {
      FilterKeepsDistinct(notes, KeepUnless(NumberOf(id)));
      notes := RemoveId(notes, NumberOf(id));
      res := NoContent(204);
    }

    /**
     * POST `/api/notes`: 400 'content missing' for a falsy `content`;
     * otherwise appends the note with a generated id and `important || false`.
     */
    method Post(body: Json) returns (res: NoteResponse)
      requires Valid()
      modifies this
      ensures Valid()
      ensures !Truthy(Lookup(body, "content")) ==>
                notes == old(notes) && res == ErrorJson(400, "content missing")
      ensures Truthy(Lookup(body, "content")) ==>
                var important := Lookup(body, "important");
                var n := Note(GenerateId(old(notes)), Lookup(body, "content").value,
                              if Truthy(important) then important.value else JBool(false));
                notes == old(notes) + [n] && res == NoteJson(n)
    {
      var content := Lookup(body, "content");
      if !Truthy(content) {
        return ErrorJson(400, "content missing");
      }
      var important := Lookup(body, "important");
      var n := Note(GenerateId(notes), content.value, if Truthy(important) then important.value else JBool(false));
      AppendGeneratedKeepsDistinct(notes, n);
      notes := notes + [n];
      res := NoteJson(n);
    }
  }
}
