/** The pure reconciliation steps the notes store applies to its collection
    once the remote call has succeeded: prepend (create), replace by id
    (update) and filter by id (delete). */
module NoteList {

  /** Note identifiers are compared with strict equality. */
  type NoteId = string

  /** A note record as the backend returns it. Only `id` is interpreted by
      the store; `body` stands for every other field of the record (the
      caller's data and the creation timestamp), carried along untouched. */
  datatype Note = Note(id: NoteId, body: string)

  /** Number of notes whose id equals `id`. */
  function CountId(notes: seq<Note>, id: NoteId): (n: nat)
    ensures n <= |notes|
    ensures n == 0 <==> forall note :: note in notes ==> note.id != id
  {
    if notes == [] then 0
    else (if notes[0].id == id then 1 else 0) + CountId(notes[1..], id)
  }

  /** `sub` is obtained from `notes` by dropping elements, keeping the order
      of the remaining ones. */
  ghost predicate IsSubsequence(sub: seq<Note>, notes: seq<Note>)
    decreases |notes|
  {
    if notes == [] then sub == []
    else (sub != [] && sub[0] == notes[0] && IsSubsequence(sub[1..], notes[1..]))
         || IsSubsequence(sub, notes[1..])
  }

  /** The collection after a successful create: the new note goes first,
      everything that was there follows in its old order. */
  function Prepend(note: Note, notes: seq<Note>): (r: seq<Note>)
    ensures |r| == |notes| + 1
    ensures r[0] == note && r[1..] == notes
  {
    [note] + notes
  }

  /** The collection after a successful update: every note carrying `id` is
      replaced by the returned record. */
  function ReplaceById(notes: seq<Note>, id: NoteId, updated: Note): (r: seq<Note>)
    ensures |r| == |notes|
  {
    if notes == [] then []
    else [if notes[0].id == id then updated else notes[0]] + ReplaceById(notes[1..], id, updated)
  }

  /** The collection after a successful delete: every note carrying `id` is
      dropped. */
  function RemoveById(notes: seq<Note>, id: NoteId): (r: seq<Note>)
    ensures |r| <= |notes|
    ensures forall i :: 0 <= i < |r| ==> r[i].id != id
  {
    if notes == [] then []
    else if notes[0].id == id then RemoveById(notes[1..], id)
    else [notes[0]] + RemoveById(notes[1..], id)
  }

  // ---------------------------------------------------------------------
  // Update

  /** Update keeps the length and acts position by position: a matching note
      becomes `updated`, any other note stays where it was. */
  lemma {:induction false} ReplaceByIdPointwise(notes: seq<Note>, id: NoteId, updated: Note)
    ensures |ReplaceById(notes, id, updated)| == |notes|
    ensures forall i :: 0 <= i < |notes| ==>
      ReplaceById(notes, id, updated)[i] == (if notes[i].id == id then updated else notes[i])
  {
    if notes != [] {
      ReplaceByIdPointwise(notes[1..], id, updated);
      var r := ReplaceById(notes, id, updated);
      forall i | 0 <= i < |notes|
        ensures r[i] == (if notes[i].id == id then updated else notes[i])
      {
        if i > 0 { assert r[i] == ReplaceById(notes[1..], id, updated)[i - 1]; }
      }
    }
  }

  /** An update for an id no note carries leaves the collection as it was. */
  lemma {:induction false} ReplaceByIdAbsent(notes: seq<Note>, id: NoteId, updated: Note)
    requires CountId(notes, id) == 0
    ensures ReplaceById(notes, id, updated) == notes
  {
    if notes != [] {
      ReplaceByIdAbsent(notes[1..], id, updated);
    }
  }

  /** Repeating an update with the same returned record changes nothing
      more, whatever id that record carries. */
  lemma {:induction false} ReplaceByIdIdempotent(notes: seq<Note>, id: NoteId, updated: Note)
    ensures ReplaceById(ReplaceById(notes, id, updated), id, updated) == ReplaceById(notes, id, updated)
  {
    if notes != [] {
      ReplaceByIdIdempotent(notes[1..], id, updated);
      var r := ReplaceById(notes, id, updated);
      assert r[1..] == ReplaceById(notes[1..], id, updated);
    }
  }

  /** When the returned record keeps its id, the number of notes carrying
      that id is unchanged by the update. */
  lemma {:induction false} ReplaceByIdKeepsCount(notes: seq<Note>, id: NoteId, updated: Note)
    requires updated.id == id
    ensures CountId(ReplaceById(notes, id, updated), id) == CountId(notes, id)
  {
    if notes != [] {
      ReplaceByIdKeepsCount(notes[1..], id, updated);
      var r := ReplaceById(notes, id, updated);
      assert r[1..] == ReplaceById(notes[1..], id, updated);
    }
  }

  // ---------------------------------------------------------------------
  // Delete

  /** After a delete a note is in the collection exactly when it was there
      before and does not carry `id`; in particular no note carries `id`. */
  lemma {:induction false} RemoveByIdMembers(notes: seq<Note>, id: NoteId)
    ensures forall n :: n in RemoveById(notes, id) <==> n in notes && n.id != id
  {
    if notes != [] {
      RemoveByIdMembers(notes[1..], id);
      assert notes == [notes[0]] + notes[1..];
    }
  }

  /** A delete shortens the collection by exactly the number of matches, and
      leaves no match behind. */
  lemma {:induction false} RemoveByIdLength(notes: seq<Note>, id: NoteId)
    ensures |RemoveById(notes, id)| == |notes| - CountId(notes, id)
    ensures CountId(RemoveById(notes, id), id) == 0
  {
    if notes != [] {
      RemoveByIdLength(notes[1..], id);
      var r := RemoveById(notes, id);
      if notes[0].id != id {
        assert r[1..] == RemoveById(notes[1..], id);
      }
    }
  }

  /** The notes that survive a delete keep their relative order. */
  lemma {:induction false} RemoveByIdKeepsOrder(notes: seq<Note>, id: NoteId)
    ensures IsSubsequence(RemoveById(notes, id), notes)
  {
    if notes != [] {
      RemoveByIdKeepsOrder(notes[1..], id);
      var r := RemoveById(notes, id);
      if notes[0].id != id {
        assert r[0] == notes[0] && r[1..] == RemoveById(notes[1..], id);
      }
    }
  }

  /** A delete acts independently on the two halves of a collection, so it
      never reorders anything across them. */
  lemma {:induction false} RemoveByIdAppend(a: seq<Note>, b: seq<Note>, id: NoteId)
    ensures RemoveById(a + b, id) == RemoveById(a, id) + RemoveById(b, id)
  {
    if a != [] {
      RemoveByIdAppend(a[1..], b, id);
      assert (a + b)[1..] == a[1..] + b;
    } else {
      assert a + b == b;
    }
  }

  /** A delete for an id no note carries leaves the collection as it was. */
  lemma {:induction false} RemoveByIdAbsent(notes: seq<Note>, id: NoteId)
    requires CountId(notes, id) == 0
    ensures RemoveById(notes, id) == notes
  {
    if notes != [] {
      RemoveByIdAbsent(notes[1..], id);
      assert notes == [notes[0]] + notes[1..];
    }
  }

  /** Deleting twice is deleting once. */
  lemma {:induction false} RemoveByIdIdempotent(notes: seq<Note>, id: NoteId)
    ensures RemoveById(RemoveById(notes, id), id) == RemoveById(notes, id)
  {
    RemoveByIdLength(notes, id);
    RemoveByIdAbsent(RemoveById(notes, id), id);
  }

  // ---------------------------------------------------------------------
  // Across operations

  /** Deleting a freshly created note's id removes the new note and every
      older note with the same id, and nothing else. */
  lemma CreateThenDelete(note: Note, notes: seq<Note>)
    ensures RemoveById(Prepend(note, notes), note.id) == RemoveById(notes, note.id)
  {
  }

  /** After an update whose returned record keeps its id, deleting that id
      gives the same collection as deleting it straight away. */
  lemma {:induction false} UpdateThenDelete(notes: seq<Note>, id: NoteId, updated: Note)
    requires updated.id == id
    ensures RemoveById(ReplaceById(notes, id, updated), id) == RemoveById(notes, id)
  {
    if notes != [] {
      UpdateThenDelete(notes[1..], id, updated);
      var r := ReplaceById(notes, id, updated);
      assert r[0] == (if notes[0].id == id then updated else notes[0]);
      assert r[1..] == ReplaceById(notes[1..], id, updated);
    }
  }
}
