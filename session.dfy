/** The Streamlit script as a session object. Every widget handler becomes a method on
    `VaultSession`, whose fields are the `st.session_state` entries; the notes file is the
    field `savedNotes` and the config file lives in the shared `CredentialStore`. Clock
    readings, generated ids and timestamps, the splitter and the search oracle are
    parameters. The first-run setup page runs before any session state exists, so it is a
    method on the store alone. */
module Session {

  import opened Wrappers
  import opened Lists
  import opened Text
  import opened Cipher
  import opened Credentials
  import opened Notes
  import opened NoteEdits
  import opened Assistant

  const AutoLockSeconds := 150
  const MinPinLength := 4
  const PreviewLength := 200
  const LockMark := "\U{1F512} "

  /** The setup form's check: the two entries agree and have at least four characters
      (of any kind). */
  predicate SetupAccepted(newPin: string, confirmPin: string)
  {
    newPin == confirmPin && |newPin| >= MinPinLength
  }

  /** The first-run form. It is shown only while no config exists; a rejected submission
      writes nothing. */
  method SetupVault(store: CredentialStore, newPin: string, confirmPin: string, recoveryKey: string)
    returns (accepted: bool)
    requires store.config.None?
    modifies store
    ensures accepted <==> SetupAccepted(newPin, confirmPin)
    ensures store.config == if accepted then Some(InitialConfig(store.hash, newPin, recoveryKey)) else None
  {
    accepted := SetupAccepted(newPin, confirmPin);
    if accepted {
      store.InitializeVault(newPin, recoveryKey);
    }
  }

  /** What a grid card shows as the note's text: secret notes are decrypted only while unlocked. */
  function DisplayText(suite: Suite, isUnlocked: bool, pin: string, n: Note): (r: string)
    ensures !(IsSecret(n) && isUnlocked) ==> r == n.content
    ensures IsSecret(n) && isUnlocked ==> r == DecryptData(suite, n.content, pin)
  {
    if IsSecret(n) && isUnlocked then DecryptData(suite, n.content, pin) else n.content
  }

  /** The card's title, marked with a lock when the note is secret. */
  function DisplayTitle(n: Note): (r: string)
    ensures IsSecret(n) ==> r == LockMark + n.title
    ensures !IsSecret(n) ==> r == n.title
  {
    if IsSecret(n) then LockMark + n.title else n.title
  }

  /** `text[:200] + "..." if len(text) > 200 else text` */
  function Preview(text: string): (r: string)
    ensures |r| <= PreviewLength + 3
    ensures |text| <= PreviewLength ==> r == text
    ensures |text| > PreviewLength ==>
              |r| == PreviewLength + 3 && r[..PreviewLength] == text[..PreviewLength] && r[PreviewLength..] == "..."
  {
    if |text| > PreviewLength then text[..PreviewLength] + "..." else text
  }

  /** The text a note contributes to the retrieval context: secret notes are decrypted. */
  function ContextText(suite: Suite, pin: string, n: Note): (r: string)
    ensures IsSecret(n) ==> r == DecryptData(suite, n.content, pin)
    ensures !IsSecret(n) ==> r == n.content
  {
    if IsSecret(n) then DecryptData(suite, n.content, pin) else n.content
  }

  /** `decrypted_texts` as the append loop builds it. */
  function ContextTexts(suite: Suite, pin: string, notes: seq<Note>): (r: seq<string>)
    ensures |r| == |notes|
    ensures forall i :: 0 <= i < |notes| ==> r[i] == ContextText(suite, pin, notes[i])
  {
    seq(|notes|, i requires 0 <= i < |notes| => ContextText(suite, pin, notes[i]))
  }

  /** `"\n".join(context_chunks)`. On an empty vault `query_vault` returns a string, and
      joining a string joins its characters. */
  function ContextString(result: QueryResult): (r: string)
    ensures result.Chunks? ==> r == Join("\n", result.chunks)
    ensures result.Message? ==> r == Join("\n", Chars(result.text))
    ensures result.Chunks? && result.chunks == [] ==> r == ""
    ensures result.Chunks? && |result.chunks| == 1 ==> r == result.chunks[0]
    ensures result.Chunks? && result.chunks != [] ==>
              |r| == TotalLength(result.chunks) + |result.chunks| - 1 && IsPrefix(result.chunks[0], r)
    ensures result.Message? && result.text != [] ==> |r| == 2 * |result.text| - 1
  {
    match result
    case Message(text) =>
      (if text != [] then JoinCharsInterleaves('\n', text); Join("\n", Chars(text)) else Join("\n", Chars(text)))
    case Chunks(chunks) => Join("\n", chunks)
  }

  /** With no notes the context handed to the model is the message spelled out one
      character per line, not the message itself. */
  lemma EmptyVaultContextIsSpelledOut()
    ensures |ContextString(Message(NoNotesMessage))| == 2 * |NoNotesMessage| - 1
    ensures ContextString(Message(NoNotesMessage)) != NoNotesMessage
    ensures ContextString(Message(NoNotesMessage))[..2] == "N\n"
  {
    assert |NoNotesMessage| == 25 && NoNotesMessage[0] == 'N';
    SpelledOut(NoNotesMessage);
  }

  /** A message of two or more characters reaches the model one character per line. */
  lemma SpelledOut(text: string)
    requires |text| >= 2
    ensures |ContextString(Message(text))| == 2 * |text| - 1
    ensures ContextString(Message(text)) != text
    ensures ContextString(Message(text))[..2] == [text[0], '\n']
  {
    var c := ContextString(Message(text));
    JoinCharsInterleaves('\n', text);
    assert c[0] == text[0] && c[1] == '\n';
  }

  /** While unlocked, a card shows exactly the text the retrieval step uses. */
  lemma UnlockedDisplayIsContext(suite: Suite, pin: string, n: Note)
    ensures DisplayText(suite, true, pin, n) == ContextText(suite, pin, n)
  {
  }

  /** End to end: a secret note saved while unlocked is stored encrypted, read back as
      its plaintext while unlocked under the same PIN, and hidden from every locked search. */
  lemma SecretNoteLifecycle(suite: Suite, pin: string, id: int, title: string, content: string,
                            timestamp: string, others: seq<Note>, query: string)
    requires RoundTrips(suite)
    ensures var n := NewNote(id, MakeDraft(suite, true, true, title, content, timestamp, pin));
            n.content == EncryptData(suite, content, pin) && IsSecret(n) &&
            DisplayText(suite, true, pin, n) == content &&
            n !in GetFilteredNotes([n] + others, false, query)
  {
    DecryptEncrypt(suite, content, pin);
  }

  /** The session fields the handlers read and write. */
  datatype SessionState = SessionState(
    notes: seq<Note>,
    editNoteId: Option<int>,
    vaultUnlocked: bool,
    masterPin: string,
    tempContent: string,
    formIteration: nat,
    lastActivity: real,
    showLockAlert: bool)

  /** The values the sidebar form opens with. */
  datatype FormValues = FormValues(title: string, content: string, secret: bool)

  class VaultSession {
    const store: CredentialStore
    const suite: Suite
    var notes: seq<Note>
    var savedNotes: seq<Note>
    var editNoteId: Option<int>
    var vaultUnlocked: bool
    var masterPin: string
    var tempContent: string
    var formIteration: nat
    var lastActivity: real
    var showLockAlert: bool

    ghost function State(): SessionState
      reads this
    {
      SessionState(notes, editNoteId, vaultUnlocked, masterPin, tempContent, formIteration,
                   lastActivity, showLockAlert)
    }

    /** Every change to the list is written through to the notes file, and the vault is
        open only under a PIN the config accepts. */
    ghost predicate Valid()
      reads this, store
    {
      savedNotes == notes &&
      (vaultUnlocked ==> PinAccepted(store.config, store.hash, masterPin))
    }

    /** The defaults the script installs on its first run. */
    constructor (store: CredentialStore, suite: Suite, stored: seq<Note>, now: real)
      ensures Valid() && this.store == store && this.suite == suite
      ensures State() == SessionState(stored, None, false, "", "", 0, now, false)
      ensures savedNotes == stored
    {
      this.store := store;
      this.suite := suite;
      notes := stored;
      savedNotes := stored;
      editNoteId := None;
      vaultUnlocked := false;
      masterPin := "";
      tempContent := "";
      formIteration := 0;
      lastActivity := now;
      showLockAlert := false;
    }

    /** `update_activity()` */
    method UpdateActivity(now: real)
      requires Valid()
      modifies this`lastActivity, this`showLockAlert
      ensures Valid()
      ensures State() == old(State()).(lastActivity := now, showLockAlert := false)
    {
      lastActivity := now;
      showLockAlert := false;
    }

    /** The auto-lock check at the top of every run: it fires only while unlocked and only
        after strictly more than 150 seconds; it keeps the cached PIN. */
    method AutoLock(now: real) returns (locked: bool)
      requires Valid()
      modifies this
      ensures Valid() && savedNotes == old(savedNotes)
      ensures locked <==> old(vaultUnlocked) && now - old(lastActivity) > AutoLockSeconds as real
      ensures State() == if locked
                         then old(State()).(vaultUnlocked := false, editNoteId := None, tempContent := "",
                                            showLockAlert := true)
                         else old(State())
    {
      locked := false;
      if vaultUnlocked {
        var elapsed := now - lastActivity;
        if elapsed > AutoLockSeconds as real {
          vaultUnlocked := false;
          editNoteId := None;
          tempContent := "";
          showLockAlert := true;
          locked := true;
        }
      }
    }

    /** The PIN box, shown while locked: a non-empty PIN the config accepts opens the vault
        and is cached for decryption; anything else changes nothing. */
    method Unlock(pinInput: string, now: real) returns (ok: bool)
      requires Valid() && !vaultUnlocked
      modifies this
      ensures Valid() && savedNotes == old(savedNotes)
      ensures ok <==> pinInput != "" && PinAccepted(store.config, store.hash, pinInput)
      ensures State() == if ok
                         then old(State()).(vaultUnlocked := true, masterPin := pinInput, lastActivity := now,
                                            showLockAlert := false)
                         else old(State())
    {
      ok := false;
      if pinInput != "" {
        var verified := store.VerifyPin(pinInput);
        if verified {
          UpdateActivity(now);
          vaultUnlocked := true;
          masterPin := pinInput;
          ok := true;
        }
      }
    }

    /** The "Close Vault" button: clears the open flag and the cached PIN, and nothing else
        (a pending edit stays pending). */
    method CloseVault()
      requires Valid() && vaultUnlocked
      modifies this
      ensures Valid() && savedNotes == old(savedNotes)
      ensures State() == old(State()).(vaultUnlocked := false, masterPin := "")
    {
      vaultUnlocked := false;
      masterPin := "";
    }

    /** The "Reset Vault PIN" button, shown while locked: a matching recovery key deletes
        the config file; secret notes stay encrypted under the old PIN. */
    method ResetPin(recoveryKey: string) returns (reset: bool)
      requires Valid() && !vaultUnlocked
      modifies store
      ensures Valid()
      ensures reset <==> RecoveryKeyAccepted(old(store.config), store.hash, recoveryKey)
      ensures store.config == if reset then None else old(store.config)
    {
      reset := store.VerifyRecoveryKey(recoveryKey);
      if reset {
        store.DeleteConfig();
      }
    }

    /** The "AI Summarize" button: the summary replaces the form's content on the next run. */
    method Summarize(content: string, now: real, sentences: string -> seq<string>)
      requires Valid()
      modifies this
      ensures Valid() && savedNotes == old(savedNotes)
      ensures State() == old(State()).(lastActivity := now, showLockAlert := false,
                                       tempContent := if content != "" then AiSummarizeText(content, sentences)
                                                      else old(tempContent))
    {
      UpdateActivity(now);
      if content != "" {
        tempContent := AiSummarizeText(content, sentences);
      }
    }

    /** The "Save" button. Nothing is stored when title and content are both empty.
        Otherwise, with an edit pending every note carrying its id is rewritten in place and
        the edit ends; without one a new note goes to the front. The list is then written
        to the notes file. */
    method SaveNote(title: string, content: string, checkbox: bool, now: real, timestamp: string, newId: int)
      returns (saved: bool)
      requires Valid()
      modifies this
      ensures Valid()
      ensures saved <==> title != "" || content != ""
      ensures !saved ==> State() == old(State()).(lastActivity := now, showLockAlert := false)
      ensures saved ==>
                State() == old(State()).(
                  notes := AfterSave(old(notes), old(editNoteId),
                                     MakeDraft(suite, old(vaultUnlocked), checkbox, title, content, timestamp,
                                               old(masterPin)),
                                     newId),
                  editNoteId := if Truthy(old(editNoteId)) then None else old(editNoteId),
                  tempContent := "",
                  formIteration := old(formIteration) + 1,
                  lastActivity := now,
                  showLockAlert := false)
    {
      var draft := MakeDraft(suite, vaultUnlocked, checkbox, title, content, timestamp, masterPin);
      UpdateActivity(now);
      saved := title != "" || content != "";
      if !saved {
        return;
      }
      if Truthy(editNoteId) {
        EditInPlace(editNoteId.value, draft);
        editNoteId := None;
      } else {
        notes := [NewNote(newId, draft)] + notes;
      }
      savedNotes := notes;
      tempContent := "";
      formIteration := formIteration + 1;
    }

    /** The loop `for n in notes: if n['id'] == id: n.update(...)`, rewriting the list in place. */
    method EditInPlace(id: int, draft: Draft)
      modifies this`notes
      ensures notes == ApplyEdit(old(notes), id, draft)
    {
      ghost var before := notes;
      var i := 0;
      while i < |notes|
        invariant 0 <= i <= |notes| == |before|
        invariant forall k :: 0 <= k < i ==>
                    notes[k] == if before[k].id == id then Edited(before[k], draft) else before[k]
        invariant forall k :: i <= k < |notes| ==> notes[k] == before[k]
      {
        if notes[i].id == id {
          notes := notes[i := Edited(notes[i], draft)];
        }
        i := i + 1;
      }
      forall k | 0 <= k < |notes|
        ensures notes[k] == ApplyEdit(before, id, draft)[k]
      {
        ApplyEditAt(before, id, draft, k);
      }
    }

    /** A card's "Edit" button. */
    method StartEdit(id: int, now: real)
      requires Valid()
      modifies this
      ensures Valid() && savedNotes == old(savedNotes)
      ensures State() == old(State()).(editNoteId := Some(id), lastActivity := now, showLockAlert := false)
    {
      UpdateActivity(now);
      editNoteId := Some(id);
    }

    /** A card's "Delete" button: every note with the id goes, and the file is rewritten. */
    method DeleteNote(id: int)
      requires Valid()
      modifies this
      ensures Valid()
      ensures State() == old(State()).(notes := RemoveById(old(notes), id))
    {
      notes := RemoveById(notes, id);
      savedNotes := notes;
    }

    /** The sidebar form's starting values: empty unless an edit is pending and its note is
        found (the first note with the id); summarised text waiting in `temp_content` wins
        over the note's content. */
    function FormDefaults(): (r: FormValues)
      reads this
      ensures tempContent != "" ==> r.content == tempContent
      ensures (!Truthy(editNoteId) || FirstIndexWithId(notes, editNoteId.value).None?) ==>
                r.title == "" && !r.secret && (tempContent == "" ==> r.content == "")
      ensures Truthy(editNoteId) && FirstIndexWithId(notes, editNoteId.value).Some? ==>
                var n := notes[FirstIndexWithId(notes, editNoteId.value).value];
                n.id == editNoteId.value && r.title == n.title && r.secret == IsSecret(n) &&
                (tempContent == "" ==> r.content == DisplayText(suite, vaultUnlocked, masterPin, n))
    {
      var found := if Truthy(editNoteId) then FirstIndexWithId(notes, editNoteId.value) else None;
      var fromNote :=
        if found.Some? then
          var n := notes[found.value];
          FormValues(n.title, DisplayText(suite, vaultUnlocked, masterPin, n), IsSecret(n))
        else FormValues("", "", false);
      if tempContent != "" then fromNote.(content := tempContent) else fromNote
    }

    /** The loop that prepares the retrieval context: one text per note, in list order,
        secret notes decrypted with the cached PIN. */
    method DecryptedTexts() returns (texts: seq<string>)
      ensures |texts| == |notes|
      ensures forall i :: 0 <= i < |notes| ==> texts[i] == ContextText(suite, masterPin, notes[i])
    {
      texts := [];
      for i := 0 to |notes|
        invariant |texts| == i
        invariant forall k :: 0 <= k < i ==> texts[k] == ContextText(suite, masterPin, notes[k])
      {
        texts := texts + [ContextText(suite, masterPin, notes[i])];
      }
    }

    /** The "Ask Your Vault" box, shown while unlocked: for a non-empty question the
        context the model receives is built from the decrypted notes, indexed afresh and
        searched for the two nearest texts. */
    method AskVault(query: string, now: real, search: SearchOracle) returns (context: Option<string>)
      requires Valid() && vaultUnlocked
      requires query != "" && notes != [] ==>
                 SearchRowValid(search(FlatIndex(|notes|), query, DefaultTopK), DefaultTopK, |notes|)
      modifies this
      ensures Valid() && savedNotes == old(savedNotes)
      ensures query == "" ==> context.None? && State() == old(State())
      ensures query != "" ==> State() == old(State()).(lastActivity := now, showLockAlert := false)
      ensures query != "" ==>
                var built := CreateVectorIndex(ContextTexts(suite, masterPin, notes));
                context == Some(ContextString(QueryVault(query, built.index, built.textData, DefaultTopK, search)))
    {
      if query == "" {
        return None;
      }
      UpdateActivity(now);
      var texts := DecryptedTexts();
      assert texts == ContextTexts(suite, masterPin, notes);
      var built := CreateVectorIndex(texts);
      var chunks := QueryVault(query, built.index, built.textData, DefaultTopK, search);
      context := Some(ContextString(chunks));
    }
  }
}
