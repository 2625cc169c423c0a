/** The tasting-note table of the oldest generation (`src/controllers/note.ts`): lookups and
    filters throw on a missing note or an empty result. How `findByIdAndUpdate` merges a
    partial note into the stored one is the table's `merge` function. */
module LegacyNoteController {
  import opened Wrappers
  import opened Errors
  import Ids

  const NoteNotFound := PlainError("Note was not found")
  const NotesNotFound := PlainError("Notes were not found")

  /** A tasting note: its wine name, the creating user's id, and the remaining tasting
      sections as named values. */
  datatype Note = Note(name: string, creator: Option<string>, tasting: map<string, string>)

  /** A partial note, as `Partial<INote>`: only the given parts are to change. */
  datatype NotePatch = NotePatch(name: Option<string>, creator: Option<string>, tasting: map<string, string>)

  datatype NoteDoc = NoteDoc(id: string, note: Note)

  /** The notes of `notes` whose creator is exactly `userId`. */
  function CreatedBy(notes: map<string, Note>, userId: string): (r: set<NoteDoc>)
    ensures forall id :: id in notes && notes[id].creator == Some(userId) ==> NoteDoc(id, notes[id]) in r
    ensures forall d :: d in r ==> d.id in notes && notes[d.id] == d.note && d.note.creator == Some(userId)
  {
    set id | id in notes && notes[id].creator == Some(userId) :: NoteDoc(id, notes[id])
  }

  class NoteTable {
    var notes: map<string, Note>
    const merge: (Note, NotePatch) -> Note

    constructor (merge: (Note, NotePatch) -> Note)
      ensures notes == map[] && this.merge == merge
    {
      this.merge := merge;
      notes := map[];
    }

    /** `createNote`: stores the given note under a new id and returns it. */
    method CreateNote(note: Note) returns (r: NoteDoc)
      modifies this
      ensures r.id !in old(notes) && r.note == note
      ensures notes == old(notes)[r.id := note]
    {
      Ids.FreshIdExists(notes.Keys);
      var id :| id !in notes.Keys;
      notes := notes[id := note];
      r := NoteDoc(id, note);
    }

    /** `getNoteById`: throws "Note was not found" exactly when the id is absent. */
    function GetNoteById(noteId: string): (r: Result<NoteDoc, Error>)
      reads this
      ensures r.Failure? <==> noteId !in notes
      ensures r.Failure? ==> r.error == NoteNotFound
      ensures r.Success? ==> r.value == NoteDoc(noteId, notes[noteId])
    {
      if noteId in notes then Success(NoteDoc(noteId, notes[noteId])) else Failure(NoteNotFound)
    }

    /** `getNotes`: throws "Notes were not found" on an empty table, else every note. */
    function GetNotes(): (r: Result<set<NoteDoc>, Error>)
      reads this
      ensures r.Failure? <==> notes == map[]
      ensures r.Failure? ==> r.error == NotesNotFound
      ensures r.Success? ==> forall id :: id in notes ==> NoteDoc(id, notes[id]) in r.value
      ensures r.Success? ==> forall d :: d in r.value ==> d.id in notes && notes[d.id] == d.note
    {
      if notes == map[] then Failure(NotesNotFound)
      else Success(set id | id in notes :: NoteDoc(id, notes[id]))
    }

    /** `getNotesByUserId`: exactly the notes created by `userId`; throws "Notes were not
        found" when that user created none. */
    function GetNotesByUserId(userId: string): (r: Result<set<NoteDoc>, Error>)
      reads this
      ensures r.Failure? <==> (forall id :: id in notes ==> notes[id].creator != Some(userId))
      ensures r.Failure? ==> r.error == NotesNotFound
      ensures r.Success? ==> r.value != {} && r.value == CreatedBy(notes, userId)
    {
      var mine := CreatedBy(notes, userId);
      if mine == {} then
        Failure(NotesNotFound)
      else
        Success(mine)
    }

    /** `updateNote`: "Note was not found" for an absent id, nothing changed; otherwise the
        merged note replaces the stored one and is returned (`new: true`). */
    method UpdateNote(noteId: string, patch: NotePatch) returns (r: Result<NoteDoc, Error>)
      modifies this
      ensures r.Failure? <==> noteId !in old(notes)
      ensures r.Failure? ==> r.error == NoteNotFound && notes == old(notes)
      ensures r.Success? ==>
                r.value == NoteDoc(noteId, merge(old(notes)[noteId], patch)) &&
                notes == old(notes)[noteId := r.value.note]
    {
      if noteId !in notes {
        return Failure(NoteNotFound);
      }
      var updated := merge(notes[noteId], patch);
      notes := notes[noteId := updated];
      r := Success(NoteDoc(noteId, updated));
    }

    /** `deleteNote`: "Note was not found" for an absent id; otherwise the removed note,
        which is then no longer in the table. */
    method DeleteNote(noteId: string) returns (r: Result<NoteDoc, Error>)
      modifies this
      ensures notes == old(notes) - {noteId}
      ensures r.Failure? <==> noteId !in old(notes)
      ensures r.Failure? ==> r.error == NoteNotFound
      ensures r.Success? ==> r.value == NoteDoc(noteId, old(notes)[noteId])
    {
      r := if noteId in notes then Success(NoteDoc(noteId, notes[noteId])) else Failure(NoteNotFound);
      notes := notes - {noteId};
    }
  }
}
