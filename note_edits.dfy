/** What the sidebar form and the grid's buttons do to the note list: save a new note at
    the front, rewrite every note carrying the edited id, delete by id, and look up the
    note being edited. Ids are `int(timestamp)` and need not be unique, so edit and
    delete act on every note with the id. */
module NoteEdits {

  import opened Wrappers
  import opened Lists
  import opened Cipher
  import opened Notes

  /** `if st.session_state.edit_note_id:`; Python treats None and the id 0 as false. */
  predicate Truthy(editNoteId: Option<int>)
  {
    editNoteId.Some? && editNoteId.value != 0
  }

  /** The fields a save writes into a note. */
  datatype Draft = Draft(title: string, content: string, timestamp: string, secret: bool)

  /** The checkbox value: `st.checkbox(...) if vault_unlocked else False`. */
  function SecretFlag(isUnlocked: bool, checkbox: bool): (secret: bool)
    ensures secret ==> isUnlocked
    ensures isUnlocked ==> secret == checkbox
  {
    isUnlocked && checkbox
  }

  /** The stored fields of a save: the content is encrypted with the session PIN exactly
      when the (forced) secret flag is set; a locked save stores plaintext, not secret. */
  function MakeDraft(suite: Suite, isUnlocked: bool, checkbox: bool, title: string, content: string,
                     timestamp: string, pin: string): (d: Draft)
    ensures d.title == title && d.timestamp == timestamp
    ensures d.secret == SecretFlag(isUnlocked, checkbox)
    ensures d.secret ==> d.content == EncryptData(suite, content, pin)
    ensures !d.secret ==> d.content == content
    ensures !isUnlocked ==> !d.secret && d.content == content
  {
    var secret := SecretFlag(isUnlocked, checkbox);
    Draft(title, if secret then EncryptData(suite, content, pin) else content, timestamp, secret)
  }

  /** `n.update({"title": ..., "content": ..., "timestamp": ..., "secret": ...})` */
  function Edited(n: Note, d: Draft): Note
  {
    n.(title := d.title, content := d.content, timestamp := d.timestamp, secret := Some(d.secret))
  }

  /** The note `notes.insert(0, {...})` adds. */
  function NewNote(id: int, d: Draft): Note
  {
    Note(id, d.title, d.content, d.timestamp, Some(d.secret))
  }

  /** The list after `for n in notes: if n['id'] == edit_id: n.update(...)`. */
  function ApplyEdit(notes: seq<Note>, id: int, d: Draft): (r: seq<Note>)
    ensures |r| == |notes|
  {
    if notes == [] then []
    else [if notes[0].id == id then Edited(notes[0], d) else notes[0]] + ApplyEdit(notes[1..], id, d)
  }

  /** Editing keeps the length and the order; every note with the id gets the draft's
      fields (its id kept), every other note is untouched. */
  lemma {:induction false} ApplyEditAt(notes: seq<Note>, id: int, d: Draft, k: int)
    requires 0 <= k < |notes|
    ensures notes[k].id == id ==> ApplyEdit(notes, id, d)[k] == Edited(notes[k], d)
    ensures notes[k].id != id ==> ApplyEdit(notes, id, d)[k] == notes[k]
    ensures ApplyEdit(notes, id, d)[k].id == notes[k].id
  {
    if k == 0 {
      if |notes| > 1 {
        ApplyEditAt(notes[1..], id, d, 0);
      }
    } else {
      ApplyEditAt(notes[1..], id, d, k - 1);
    }
  }

  /** A pending edit survives "Close Vault", and a save while locked forces the secret
      flag off: the edited notes become plaintext, non-secret notes holding the form's text. */
  lemma LockedEditDeclassifies(suite: Suite, notes: seq<Note>, id: int, checkbox: bool, title: string,
                               content: string, timestamp: string, pin: string, k: int)
    requires 0 <= k < |notes| && notes[k].id == id
    ensures var r := ApplyEdit(notes, id, MakeDraft(suite, false, checkbox, title, content, timestamp, pin));
            r[k].id == id && r[k].secret == Some(false) && !IsSecret(r[k]) && r[k].content == content
  {
    ApplyEditAt(notes, id, MakeDraft(suite, false, checkbox, title, content, timestamp, pin), k);
  }

  /** The note list after a save: an in-place edit when an edit is pending, else a new
      note at the front. */
  function AfterSave(notes: seq<Note>, editNoteId: Option<int>, d: Draft, newId: int): (r: seq<Note>)
    ensures Truthy(editNoteId) ==> r == ApplyEdit(notes, editNoteId.value, d)
    ensures !Truthy(editNoteId) ==> |r| == |notes| + 1 && r[0] == NewNote(newId, d) && r[1..] == notes
  {
    if Truthy(editNoteId) then ApplyEdit(notes, editNoteId.value, d) else [NewNote(newId, d)] + notes
  }

  /** `[x for x in notes if x['id'] != id]`: exactly the notes without the id, in order. */
  function RemoveById(notes: seq<Note>, id: int): (r: seq<Note>)
    ensures forall n :: n in r <==> n in notes && n.id != id
    ensures IsSubsequence(r, notes)
  {
    FilterMembership(notes, (n: Note) => n.id != id);
    FilterIsSubsequence(notes, (n: Note) => n.id != id);
    Filter(notes, (n: Note) => n.id != id)
  }

  /** The delete works note by note: deleting from a concatenation deletes from each part,
      so every kept note stays, copies included, in its order. */
  lemma RemoveByIdAppend(a: seq<Note>, b: seq<Note>, id: int)
    ensures RemoveById(a + b, id) == RemoveById(a, id) + RemoveById(b, id)
  {
    FilterAppend(a, b, (n: Note) => n.id != id);
  }

  /** Deleting an id removes the ids' notes only; a list without the id is left as it is. */
  lemma DeleteAbsentIdKeepsAll(notes: seq<Note>, id: int)
    requires forall i :: 0 <= i < |notes| ==> notes[i].id != id
    ensures RemoveById(notes, id) == notes
  {
    FilterKeepsAll(notes, (n: Note) => n.id != id);
  }

  /** The position `next((x for x in notes if x['id'] == id), None)` stops at. */
  function FirstIndexWithId(notes: seq<Note>, id: int): (r: Option<nat>)
    ensures r.Some? ==> r.value < |notes| && notes[r.value].id == id
    ensures r.Some? ==> forall j :: 0 <= j < r.value ==> notes[j].id != id
    ensures r.None? ==> forall j :: 0 <= j < |notes| ==> notes[j].id != id
  {
    if notes == [] then None
    else if notes[0].id == id then Some(0)
    else match FirstIndexWithId(notes[1..], id)
      case None => None
      case Some(k) => Some(k + 1)
  }
}
