/** The notes page (frontend/src/pages/Notes.tsx): a list of notes and the
    id of the note being edited. Ids and timestamps, which the page takes
    from the clock, are parameters. */
module Notes {
  import opened Objects
  import opened Sequences
  import opened Achievements

  datatype Note = Note(id: string, content: string, timestamp: int)

  /** `notes.filter(note => note.id !== id)` */
  function DeleteNote(notes: seq<Note>, id: string): seq<Note>
  {
    Filter(notes, (n: Note) => n.id != id)
  }

  /** `notes.map(note => note.id === id ? { ...note, content } : note)` */
  function UpdateNote(notes: seq<Note>, id: string, content: string): seq<Note>
  {
    Map(notes, (n: Note) => if n.id == id then n.(content := content) else n)
  }

  /** Every note with the id goes; the others stay, in order, each as often
      as before. */
  lemma DeleteRemovesOnlyThatId(notes: seq<Note>, id: string)
    ensures forall n :: n in DeleteNote(notes, id) ==> n.id != id
    ensures forall n: Note :: n.id != id ==> multiset(DeleteNote(notes, id))[n] == multiset(notes)[n]
    ensures IsSubsequence(DeleteNote(notes, id), notes)
  {
  }

  /** Filtering with a test every element passes returns the list. */
  lemma {:induction false} FilterAllKept(notes: seq<Note>, keep: Note -> bool)
    requires forall n :: n in notes ==> keep(n)
    ensures Filter(notes, keep) == notes
  {
    if notes != [] {
      assert notes == [notes[0]] + notes[1..];
      FilterAllKept(notes[1..], keep);
    }
  }

  /** Deleting an id no note has leaves the list as it was. */
  lemma DeleteAbsent(notes: seq<Note>, id: string)
    requires forall n :: n in notes ==> n.id != id
    ensures DeleteNote(notes, id) == notes
  {
    FilterAllKept(notes, (n: Note) => n.id != id);
  }

  /** Only the content of the notes with the id changes; ids, timestamps,
      order and length stay. */
  lemma UpdateChangesOnlyContent(notes: seq<Note>, id: string, content: string)
    ensures |UpdateNote(notes, id, content)| == |notes|
    ensures forall i :: 0 <= i < |notes| ==>
      && UpdateNote(notes, id, content)[i].id == notes[i].id
      && UpdateNote(notes, id, content)[i].timestamp == notes[i].timestamp
      && UpdateNote(notes, id, content)[i].content == if notes[i].id == id then content else notes[i].content
  {
  }

  /** Updating an id no note has leaves the list as it was. */
  lemma UpdateAbsent(notes: seq<Note>, id: string, content: string)
    requires forall n :: n in notes ==> n.id != id
    ensures UpdateNote(notes, id, content) == notes
  {
    var r := UpdateNote(notes, id, content);
    assert forall i :: 0 <= i < |notes| ==> notes[i] in notes;
  }

  const FirstNote: string := "first-note"

  /** The page's state cells and the achievement store it unlocks in. */
  class NotesPage {
    var notes: seq<Note>
    var editingId: Option<string>
    const store: AchievementStore

    constructor (store: AchievementStore)
      ensures notes == [] && editingId == None && this.store == store
    {
      notes := [];
      editingId := None;
      this.store := store;
    }

    /** `addNote`: an empty note is appended and opened for editing, and the
        first-note achievement is unlocked. */
    method AddNote(id: string, timestamp: int)
      modifies this, store
      ensures notes == old(notes) + [Note(id, "", timestamp)]
      ensures editingId == Some(id)
      ensures store.achievements == Unlock(old(store.achievements), FirstNote).0
      ensures store.latest == if Unlock(old(store.achievements), FirstNote).1.Some?
                              then Unlock(old(store.achievements), FirstNote).1 else old(store.latest)
    {
      notes := notes + [Note(id, "", timestamp)];
      editingId := Some(id);
      store.UnlockAchievement(FirstNote);
    }

    /** The `addNote` event handler: a note with the event's content is
        appended; the note being edited does not change. */
    method HandleAddNote(id: string, content: string, timestamp: int)
      modifies this, store
      ensures notes == old(notes) + [Note(id, content, timestamp)]
      ensures editingId == old(editingId)
      ensures store.achievements == Unlock(old(store.achievements), FirstNote).0
      ensures store.latest == if Unlock(old(store.achievements), FirstNote).1.Some?
                              then Unlock(old(store.achievements), FirstNote).1 else old(store.latest)
    {
      notes := notes + [Note(id, content, timestamp)];
      store.UnlockAchievement(FirstNote);
    }

    method Delete(id: string)
      modifies this
      ensures notes == DeleteNote(old(notes), id) && editingId == old(editingId)
    {
      notes := DeleteNote(notes, id);
    }

    method Update(id: string, content: string)
      modifies this
      ensures notes == UpdateNote(old(notes), id, content) && editingId == old(editingId)
    {
      notes := UpdateNote(notes, id, content);
    }
  }
}
