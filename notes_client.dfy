/**
 * The four versions of the notes front end. All of them keep `notes`,
 * `newNote` and `showAll` in component state and show either every note
 * or the important ones. The first two add notes locally with the id
 * `String(notes.length + 1)`; the last two post the note and append what
 * the server returns, and also toggle importance through the server. The
 * deployed version drops a note whose update fails and sets an error
 * message. Server answers are parameters: `Some` for a fulfilled request,
 * `None` for a rejected one.
 */
module NotesClient {
  import opened Wrappers
  import opened Seqs
  import opened Text

  datatype ClientNote = ClientNote(id: string, content: string, important: bool)

  /** The object `addNote` posts: no id, the server chooses it. */
  datatype NoteObject = NoteObject(content: string, important: bool)

  /** The text field's initial value in every version. */
  const InitialNewNote: string := "a new note..."

  function IsImportant(n: ClientNote): bool {
    n.important
  }

  /** `showAll ? notes : notes.filter(note => note.important)` */
  function NotesToShow(notes: seq<ClientNote>, showAll: bool): (r: seq<ClientNote>)
    ensures showAll ==> r == notes
    ensures !showAll ==> forall i :: 0 <= i < |r| ==> r[i].important && r[i] in notes
    ensures !showAll ==> forall i :: 0 <= i < |notes| && notes[i].important ==> notes[i] in r
  {
    if showAll then notes else Filter(notes, IsImportant)
  }

  /** Showing only the important notes twice is showing them once, and drops exactly the others. */
  lemma ImportantOnlyIdempotent(notes: seq<ClientNote>)
    ensures NotesToShow(NotesToShow(notes, false), false) == NotesToShow(notes, false)
    ensures |NotesToShow(notes, false)| + |Filter(notes, (n: ClientNote) => !n.important)| == |notes|
  {
    FilterIdempotent(notes, IsImportant);
    FilterPartition(notes, IsImportant, (n: ClientNote) => !n.important);
  }

  /** `{ ...note, important: !note.important }` */
  function Toggled(n: ClientNote): (r: ClientNote)
    ensures r.important == !n.important
    ensures r.(important := n.important) == n
  {
    n.(important := !n.important)
  }

  /** Toggling twice gives the note back. */
  lemma ToggledTwice(n: ClientNote)
    ensures Toggled(Toggled(n)) == n
  {
  }

  /** `notes.find(n => n.id === id)`, as the index of the first match. */
  function FindNote(notes: seq<ClientNote>, id: string): (r: Option<nat>)
    ensures r.Some? ==> r.value < |notes| && notes[r.value].id == id
    ensures r.Some? ==> forall k :: 0 <= k < r.value ==> notes[k].id != id
    ensures r.None? <==> forall k :: 0 <= k < |notes| ==> notes[k].id != id
  {
    IndexOf(notes, (n: ClientNote) => n.id == id)
  }

  /** `notes.map(note => note.id === id ? returned : note)` */
  function ReplaceById(notes: seq<ClientNote>, id: string, returned: ClientNote): (r: seq<ClientNote>)
    ensures |r| == |notes|
    ensures forall i :: 0 <= i < |notes| && notes[i].id == id ==> r[i] == returned
    ensures forall i :: 0 <= i < |notes| && notes[i].id != id ==> r[i] == notes[i]
  {
    seq(|notes|, i requires 0 <= i < |notes| => if notes[i].id == id then returned else notes[i])
  }

  function KeepOther(id: string): ClientNote -> bool {
    (n: ClientNote) => n.id != id
  }

  /** `notes.filter(n => n.id !== id)` */
  function RemoveById(notes: seq<ClientNote>, id: string): (r: seq<ClientNote>)
    ensures forall i :: 0 <= i < |r| ==> r[i].id != id && r[i] in notes
    ensures forall i :: 0 <= i < |notes| && notes[i].id != id ==> notes[i] in r
  {
    Filter(notes, KeepOther(id))
  }

  /** Removing an id that is not there keeps the list as it is. */
  lemma RemoveAbsentId(notes: seq<ClientNote>, id: string)
    requires FindNote(notes, id).None?
    ensures RemoveById(notes, id) == notes
  {
    FilterAll(notes, KeepOther(id));
  }

  /** The local id `String(notes.length + 1)`. */
  function LocalId(notes: seq<ClientNote>): string {
    NatToString(|notes| + 1)
  }

  /** Ids given by position: the note at index `i` has id `String(i + 1)`. */
  predicate PositionalIds(notes: seq<ClientNote>) {
    forall i :: 0 <= i < |notes| ==> notes[i].id == NatToString(i + 1)
  }

  /**
   * Adding locally from positional ids keeps them positional, so the local
   * ids stay distinct as long as notes are only ever added.
   */
  lemma LocalAddKeepsIds(notes: seq<ClientNote>, n: ClientNote)
    requires PositionalIds(notes) && n.id == LocalId(notes)
    ensures PositionalIds(notes + [n])
    ensures forall i, j :: 0 <= i < j < |notes| + 1 ==> (notes + [n])[i].id != (notes + [n])[j].id
  {
    var s := notes + [n];
    forall i | 0 <= i < |s| ensures s[i].id == NatToString(i + 1) {
      if i < |notes| { assert s[i] == notes[i]; }
    }
    forall i, j | 0 <= i < j < |s| ensures s[i].id != s[j].id {
      NatToStringInjective(i + 1, j + 1);
    }
  }

  /** A local id reads back as the count it was made from. */
  lemma LocalIdReadsBack(notes: seq<ClientNote>)
    ensures NumberOf(LocalId(notes)) == Some(|notes| + 1)
  {
    NumberOfNatToString(|notes| + 1);
  }

  /** Part 2, forms: notes come in as a prop and are added locally. */
  class FormsApp {
    var notes: seq<ClientNote>
    var newNote: string
    var showAll: bool

    constructor (initial: seq<ClientNote>)
      ensures notes == initial && newNote == InitialNewNote && showAll
    {
      notes, newNote, showAll := initial, InitialNewNote, true;
    }

    method HandleNoteChange(value: string)
      modifies this
      ensures newNote == value && notes == old(notes) && showAll == old(showAll)
    {
      newNote := value;
    }

    /** The "show important" / "show all" button. */
    method ToggleShowAll()
      modifies this
      ensures showAll == !old(showAll) && notes == old(notes) && newNote == old(newNote)
    {
      showAll := !showAll;
    }

    /** `addNote`, with `Math.random() > 0.5` as `randomImportant`. */
    method AddNote(randomImportant: bool)
      modifies this
      ensures notes == old(notes) + [ClientNote(LocalId(old(notes)), old(newNote), randomImportant)]
      ensures newNote == "" && showAll == old(showAll)
    {
      notes := notes + [ClientNote(NatToString(|notes| + 1), newNote, randomImportant)];
      newNote := "";
    }
  }

  /** Part 2, getting data: notes are fetched once and added locally. */
  class FetchingApp {
    var notes: seq<ClientNote>
    var newNote: string
    var showAll: bool

    constructor ()
      ensures notes == [] && newNote == InitialNewNote && showAll
    {
      notes, newNote, showAll := [], InitialNewNote, true;
    }

    /** The effect hook: the fetched list replaces `notes`. */
    method Load(fetched: seq<ClientNote>)
      modifies this
      ensures notes == fetched && newNote == old(newNote) && showAll == old(showAll)
    {
      notes := fetched;
    }

    method HandleNoteChange(value: string)
      modifies this
      ensures newNote == value && notes == old(notes) && showAll == old(showAll)
    {
      newNote := value;
    }

    method ToggleShowAll()
      modifies this
      ensures showAll == !old(showAll) && notes == old(notes) && newNote == old(newNote)
    {
      showAll := !showAll;
    }

    /** `addNote`, with `Math.random() > 0.5` as `randomImportant`. */
    method AddNote(randomImportant: bool)
      modifies this
      ensures notes == old(notes) + [ClientNote(LocalId(old(notes)), old(newNote), randomImportant)]
      ensures newNote == "" && showAll == old(showAll)
    {
      notes := notes + [ClientNote(NatToString(|notes| + 1), newNote, randomImportant)];
      newNote := "";
    }
  }

  /** Part 2, altering data: notes are created and updated on the server; failures are not handled. */
  class AlteringApp {
    var notes: seq<ClientNote>
    var newNote: string
    var showAll: bool

    constructor ()
      ensures notes == [] && newNote == InitialNewNote && showAll
    {
      notes, newNote, showAll := [], InitialNewNote, true;
    }

    method Load(fetched: seq<ClientNote>)
      modifies this
      ensures notes == fetched && newNote == old(newNote) && showAll == old(showAll)
    {
      notes := fetched;
    }

    method HandleNoteChange(value: string)
      modifies this
      ensures newNote == value && notes == old(notes) && showAll == old(showAll)
    {
      newNote := value;
    }

    method ToggleShowAll()
      modifies this
      ensures showAll == !old(showAll) && notes == old(notes) && newNote == old(newNote)
    {
      showAll := !showAll;
    }

    /**
     * `addNote`: posts the text with a random flag; when the server answers
     * with the created note it is appended and the field cleared.
     */
    method AddNote(randomImportant: bool, created: Option<ClientNote>) returns (posted: NoteObject)
      modifies this
      ensures posted == NoteObject(old(newNote), randomImportant)
      ensures created.Some? ==> notes == old(notes) + [created.value] && newNote == ""
      ensures created.None? ==> notes == old(notes) && newNote == old(newNote)
      ensures showAll == old(showAll)
    {
      posted := NoteObject(newNote, randomImportant);
      if created.Some? {
        notes := notes + [created.value];
        newNote := "";
      }
    }

    /**
     * `toggleImportanceOf(id)`, for an id in the list (otherwise `note.important`
     * throws): puts the toggled copy; the server's answer replaces every note
     * with the id.
     */
    method ToggleImportanceOf(id: string, returned: Option<ClientNote>) returns (put: ClientNote)
      requires FindNote(notes, id).Some?
      modifies this
      ensures put == Toggled(old(notes)[FindNote(old(notes), id).value])
      ensures returned.Some? ==> notes == ReplaceById(old(notes), id, returned.value)
      ensures returned.None? ==> notes == old(notes)
      ensures newNote == old(newNote) && showAll == old(showAll)
    {
      var note := notes[FindNote(notes, id).value];
      put := Toggled(note);
      if returned.Some? {
        notes := ReplaceById(notes, id, returned.value);
      }
    }
  }

  /** Part 3, deployed: as the altering version, plus the failure path of the update. */
  class DeployedApp {
    var notes: seq<ClientNote>
    var newNote: string
    var showAll: bool
    var errorMessage: Option<string>

    constructor ()
      ensures notes == [] && newNote == InitialNewNote && showAll && errorMessage.None?
    {
      notes, newNote, showAll, errorMessage := [], InitialNewNote, true, None;
    }

    /** The effect hook: `getAll` replaces `notes`. */
    method Load(fetched: seq<ClientNote>)
      modifies this
      ensures notes == fetched && newNote == old(newNote) && showAll == old(showAll)
      ensures errorMessage == old(errorMessage)
    {
      notes := fetched;
    }

    method HandleNoteChange(value: string)
      modifies this
      ensures newNote == value && notes == old(notes) && showAll == old(showAll)
      ensures errorMessage == old(errorMessage)
    {
      newNote := value;
    }

    method ToggleShowAll()
      modifies this
      ensures showAll == !old(showAll) && notes == old(notes) && newNote == old(newNote)
      ensures errorMessage == old(errorMessage)
    {
      showAll := !showAll;
    }

    /** `addNote` through `notesService.create`. */
    method AddNote(randomImportant: bool, created: Option<ClientNote>) returns (posted: NoteObject)
      modifies this
      ensures posted == NoteObject(old(newNote), randomImportant)
      ensures created.Some? ==> notes == old(notes) + [created.value] && newNote == ""
      ensures created.None? ==> notes == old(notes) && newNote == old(newNote)
      ensures showAll == old(showAll) && errorMessage == old(errorMessage)
    {
      posted := NoteObject(newNote, randomImportant);
      if created.Some? {
        notes := notes + [created.value];
        newNote := "";
      }
    }

    /**
     * `toggleImportanceOf(id)`: on success the returned note replaces every
     * note with the id; on failure the notes with the id are dropped and the
     * error message names the note's content.
     */
    method ToggleImportanceOf(id: string, returned: Option<ClientNote>) returns (put: ClientNote)
      requires FindNote(notes, id).Some?
      modifies this
      ensures put == Toggled(old(notes)[FindNote(old(notes), id).value])
      ensures returned.Some? ==>
                notes == ReplaceById(old(notes), id, returned.value) && errorMessage == old(errorMessage)
      ensures returned.None? ==>
                && notes == RemoveById(old(notes), id)
                && errorMessage == Some("the note '" + old(notes)[FindNote(old(notes), id).value].content +
                                        "' was already deleted from server")
      ensures newNote == old(newNote) && showAll == old(showAll)
    {
      var note := notes[FindNote(notes, id).value];
      put := Toggled(note);
      if returned.Some? {
        notes := ReplaceById(notes, id, returned.value);
      } else {
        errorMessage := Some("the note '" + note.content + "' was already deleted from server");
        notes := RemoveById(notes, id);
      }
    }
  }
}
