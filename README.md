# SecureVault-AI in Dafny

A Dafny model of the core of SecureVault-AI, a single-user note vault. The user sets a
PIN once, and the config file keeps SHA-256 digests of the PIN and of a generated
recovery key. Notes can be marked secret. Secret notes are stored encrypted with a key
derived from the PIN (PBKDF2 with a fixed salt, then Fernet). Secret notes stay hidden
while the vault is locked. The vault locks itself after 150 seconds of inactivity. An
"ask your vault" box sends the decrypted notes that the nearest-neighbour search ranks
highest to a hosted language model.

The model has two parts:

- `vault_logic.py`, which holds mostly pure functions and a few file-backed operations:
  - the note filter and the page heading (module `Notes`);
  - the credential store, a class over the config file (`Credentials`);
  - the cipher adapter (`Cipher`);
  - the summary, the index post-processing and the feedback log (`Assistant`);
  - the PDF error payload (`Exports`).
- `main.py`, the Streamlit script. Its `st.session_state` becomes the class
  `Session.VaultSession`, and each widget handler becomes a method. The note-list
  changes those methods make are pure functions in `NoteEdits`. The PDF button's
  classification is in `Exports`.

Foreign code stays uninterpreted:

- SHA-256 is a function `hash` fixed in the store.
- PBKDF2 and Fernet are the three functions of a `Cipher.Suite`. Encryption is one fixed
  token per key and text. Round-trip and wrong-key behaviour are proved only under the
  named assumptions `RoundTrips` and `RejectsOtherKeys`.
- TextBlob's sentence splitter is a function argument.
- The FAISS search is an oracle that returns one row of labels. The model requires
  what FAISS guarantees: exactly `top_k` labels, each either -1 or a stored position.
- Clock readings, note ids and timestamps are parameters.
- The JSON files are fields: `CredentialStore.config`, `VaultSession.savedNotes` and
  `FeedbackLog.entries`.

Quirks of the source that the model keeps:

- Note ids are `int(timestamp)` (main.py:143), so they need not be unique. The edit loop
  rewrites every note with the edited id (main.py:138-140), and the delete comprehension
  removes all of them (main.py:258).
- Auto-lock clears the unlock flag, the pending edit and the temporary content but not
  the cached PIN (main.py:89-92). "Close Vault" clears the flag and the PIN but not the
  pending edit (main.py:178-179). While locked, the edit form is pre-filled with the
  stored content without decrypting it (main.py:115), and a save forces the secret flag
  off (main.py:123). So saving a pending edit of a secret note unchanged while locked
  stores its old ciphertext as a note that is not secret, whose title and ciphertext then
  show in the locked view (`NoteEdits.LockedEditDeclassifies`).
- `edit_note_id` is tested for truth (main.py:111, 137), so an id of 0 counts as "no edit
  pending" (`NoteEdits.Truthy`).
- With no notes, `query_vault` returns a string (vault_logic.py:230), and `"\n".join` of
  a string joins its characters (main.py:214, `Session.EmptyVaultContextIsSpelledOut`).
- The setup page is shown only while no config exists (main.py:14), and nothing else
  initializes the vault. That is why `Session.SetupVault` requires an absent config.

## Model

| member | source | states |
|---|---|---|
| `Credentials.GenerateRecoveryKey` | vault_logic.py:46-49 | the key has exactly 16 characters, each an upper-case ASCII letter or a digit |
| `Credentials.RecoveryAlphabetIsUpperAndDigits` | vault_logic.py:48 | a character is in `ascii_uppercase + digits` iff it is in A-Z or 0-9 |
| `Credentials.CredentialStore.constructor` | vault_logic.py:32 | the store starts with the config file as found on disk (or none) and the hash it was written with |
| `Credentials.CredentialStore.IsVaultInitialized` | vault_logic.py:42-44 | true iff a config exists |
| `Credentials.CredentialStore.InitializeVault` | vault_logic.py:51-56 | the config becomes the two digests of the new PIN and recovery key, whatever was there before |
| `Credentials.CredentialStore.VerifyPin` | vault_logic.py:66-72 | false without a config; otherwise true iff the PIN's digest equals the stored PIN digest |
| `Credentials.CredentialStore.VerifyRecoveryKey` | vault_logic.py:58-64 | false without a config; otherwise true iff the key's digest equals the stored recovery digest |
| `Credentials.CredentialStore.DeleteConfig` | main.py:169 | the config file is gone |
| `Credentials.UninitializedRejects` | vault_logic.py:58-72 | with no config neither a PIN nor a recovery key is accepted |
| `Credentials.InitializedAcceptsExactly` | vault_logic.py:51-72 | after initialization the PIN and the key that were set are accepted, and no input with a different digest is |
| `Cipher.EncryptData` | vault_logic.py:90-93 | the token opens again under the same PIN whenever the cipher round-trips |
| `Cipher.DecryptData` | vault_logic.py:95-101 | never fails: a cipher failure gives exactly "[Decryption Error: Check PIN]", a success gives the plaintext |
| `Cipher.DecryptEncrypt` | vault_logic.py:90-101 | if Fernet round-trips, decrypting with the encrypting PIN returns the original text |
| `Cipher.WrongPinGivesErrorText` | vault_logic.py:75-101 | if Fernet rejects foreign keys, a PIN that derives another key yields the error text |
| `Notes.VisibleNotes` | vault_logic.py:117-120 | when locked, exactly the notes whose `secret` is not true, with a missing key counting as false; when unlocked, all notes; always in stored order |
| `Notes.GetFilteredNotes` | vault_logic.py:117-123 | a note is returned iff it is visible and the lowercased query is in its lowercased title or stored content; locked results hold no secret note; the result is a subsequence of the input |
| `Notes.EmptyQueryShowsAllVisible` | vault_logic.py:122-123 | an empty search returns exactly the visible notes |
| `Notes.FilteredNotesAppend` | vault_logic.py:117-123 | filtering a concatenation is the concatenation of the filtered parts, so input order is kept |
| `Notes.GetPageHeading` | vault_logic.py:114-115 | "Safe Vault" exactly when unlocked, "My Notes" exactly when locked |
| `Lists.Filter` | vault_logic.py:120 | the comprehension never returns more elements than it was given, and every element it keeps meets the condition |
| `Lists.FilterMembership` | vault_logic.py:120-123 | an element is kept iff it is in the input and meets the condition |
| `Text.Lower` | vault_logic.py:122 | `lower()` keeps the length and lowercases each character in place |
| `Text.Contains` | vault_logic.py:123 | a needle at the front is found, and a needle longer than the text never is |
| `Text.ContainsIffOccurs` | vault_logic.py:123 | the substring test holds iff the query occurs at some position |
| `Assistant.AiSummarizeText` | vault_logic.py:126-142 | texts under 50 characters or with at most two sentences come back unchanged; otherwise the header, then the first two sentences as bullet lines |
| `Assistant.Bullets` | vault_logic.py:136 | one bullet line per sentence, each the bullet mark followed by the sentence |
| `Assistant.CreateVectorIndex` | vault_logic.py:209-225 | no index iff there are no notes; the text data are the contents in input order, and the index size equals their number |
| `Assistant.SelectChunks` | vault_logic.py:239 | one chunk per label other than -1, in search order, each the text at that position |
| `Assistant.NoHitsNoChunks` | vault_logic.py:239 | a row of -1 labels gives no chunks |
| `Assistant.QueryVault` | vault_logic.py:227-240 | no index gives the fixed message; otherwise at most `top_k` chunks, each one of the stored texts |
| `Assistant.BuildThenQuery` | vault_logic.py:209-240 | indexing and then querying gives the message iff there are no notes, otherwise at most two of the note texts |
| `Assistant.FeedbackLog.constructor` | vault_logic.py:252-255 | the log starts as the entries already on disk |
| `Assistant.FeedbackLog.LogFeedback` | vault_logic.py:242-259 | the old entries are kept and exactly one entry is appended |
| `Exports.CreatePdfErrorPayload` | vault_logic.py:175-176 | the error payload starts with the tag "PDF Error:" followed by a space and the reason |
| `Exports.ClassifyPdf` | main.py:268-287 | "%PDF" downloads; "PDF_ERROR" fails, and its message is the payload with every "PDF_ERROR:" removed and then stripped; other bytes are invalid format; a non-bytes result is unexpected |
| `Exports.CreatePdfErrorIsInvalidFormat` | main.py:279 | every error payload `create_pdf` produces is classified as invalid format |
| `Exports.ClassifyPdfCorrected` | main.py:268-287 | the same classification, with the tag `create_pdf` actually writes |
| `Exports.CorrectedShowsCreatePdfError` | vault_logic.py:176 | with the corrected tag every `create_pdf` failure reaches the error branch with its reason |
| `Exports.RemoveAll` | main.py:281 | `replace(tag, '')` never lengthens the payload and leaves a payload without the tag's first byte as it is |
| `Exports.RemoveAllLeading` | main.py:281 | an occurrence of the label at the front is deleted and the scan resumes after it |
| `Exports.RemoveAllFree` | main.py:281 | a payload in which the label occurs nowhere is left unchanged |
| `Exports.GridErrorShowsReason` | main.py:279-282 | a "PDF_ERROR: <reason>" payload whose reason does not contain the label fails with the reason stripped |
| `Exports.StripStart` | main.py:281 | drops exactly the leading ASCII whitespace (tab through carriage return, 0x1C-0x1F, space) |
| `Exports.StripEnd` | main.py:281 | drops exactly the trailing ASCII whitespace (tab through carriage return, 0x1C-0x1F, space) |
| `Exports.Strip` | main.py:281 | the result is a slice of the input with only whitespace before and after it, and neither of its ends is whitespace |
| `NoteEdits.SecretFlag` | main.py:123 | the secret flag is forced off while locked and is the checkbox value while unlocked |
| `NoteEdits.MakeDraft` | main.py:123-136 | the stored content is the encryption under the session PIN iff the forced flag is set; a locked save stores plaintext with `secret` false |
| `NoteEdits.ApplyEdit` | main.py:138-140 | editing keeps the list's length |
| `NoteEdits.ApplyEditAt` | main.py:137-141 | editing keeps length, order and ids; each note with the id gets the new title, content, timestamp and secret; all others are untouched |
| `NoteEdits.AfterSave` | main.py:137-143 | with a pending (truthy) edit id the list is the edited list; without one the new note is inserted at index 0 and the rest is the old list |
| `NoteEdits.LockedEditDeclassifies` | main.py:111-141 | a pending edit saved while locked turns the note into a plaintext note that is not secret |
| `NoteEdits.RemoveById` | main.py:258 | exactly the notes without the id remain, in their order |
| `NoteEdits.RemoveByIdAppend` | main.py:258 | the delete distributes over concatenation, so every kept note stays in order, duplicates included |
| `NoteEdits.DeleteAbsentIdKeepsAll` | main.py:258 | deleting an id no note has leaves the list unchanged |
| `NoteEdits.FirstIndexWithId` | main.py:112 | the first position holding the id, or none when no note has it |
| `Session.SetupVault` | main.py:53-60 | accepted iff PIN and confirmation are equal and at least 4 characters long; only then is the config written |
| `Session.VaultSession.constructor` | main.py:63-79 | the session starts locked, with no pending edit, an empty PIN and empty temporary content, counter 0, activity now, and no alert |
| `Session.VaultSession.UpdateActivity` | main.py:82-84 | refreshes the activity time and clears the lock alert, nothing else |
| `Session.VaultSession.AutoLock` | main.py:86-93 | fires iff unlocked and more than 150 s have passed; clears the open flag, the pending edit and the temporary content, raises the alert, and keeps the cached PIN |
| `Session.VaultSession.Unlock` | main.py:152-160 | succeeds iff the PIN is non-empty and verifies; it then opens the vault, caches the PIN, refreshes activity and clears the alert; otherwise nothing changes |
| `Session.VaultSession.ResetPin` | main.py:163-171 | deletes the config iff the recovery key verifies |
| `Session.VaultSession.CloseVault` | main.py:177-180 | clears only the open flag and the cached PIN |
| `Session.VaultSession.Summarize` | main.py:125-130 | refreshes activity; non-empty content puts its summary into the temporary content |
| `Session.VaultSession.SaveNote` | main.py:132-148 | a save with title and content both empty only refreshes activity; otherwise the list becomes the edited or front-inserted list, is written to file, the edit ends, and the temporary content is cleared |
| `Session.VaultSession.EditInPlace` | main.py:138-140 | the in-place update loop leaves the list equal to the edited list (`NoteEdits.ApplyEdit`) |
| `Session.VaultSession.StartEdit` | main.py:252-255 | marks the note id as being edited and refreshes activity |
| `Session.VaultSession.DeleteNote` | main.py:258-259 | the list and the file lose exactly the notes with the id; nothing else changes |
| `Session.VaultSession.FormDefaults` | main.py:110-118 | the form is empty unless an edit is pending and its note is found; the first such note gives title, secret flag and displayed content; pending temporary content wins |
| `Session.VaultSession.DecryptedTexts` | main.py:204-207 | one text per note in list order, with secret notes decrypted under the cached PIN |
| `Session.VaultSession.AskVault` | main.py:197-214 | for a non-empty question, the context is built from the decrypted texts, a fresh index and the two nearest texts |
| `Session.ContextTexts` | main.py:204-207 | the prepared texts, one per note, each the note's context text |
| `Session.ContextText` | main.py:206 | a secret note contributes its decryption, any other note its stored content |
| `Session.EmptyVaultContextIsSpelledOut` | main.py:214 | on an empty vault the context is the message's characters separated by newlines, 49 characters long, not the message |
| `Text.Join` | main.py:214 | no parts give the empty string; otherwise the result starts with the first part and is as long as the parts plus one separator between each pair |
| `Session.ContextString` | main.py:214 | the context is the newline join of the retrieved chunks (of the message's characters on an empty vault): no chunks give the empty string, one chunk gives itself, several give their lengths plus one newline between each pair, starting with the first; a message of n characters becomes 2n-1 characters |
| `Session.SpelledOut` | main.py:214 | a message of two or more characters reaches the model one character per line, never as itself |
| `Text.JoinAppend` | main.py:214 | joining a concatenation is joining each half with one separator between them, which with the one-part case fixes every position of the join |
| `Text.JoinCharsInterleaves` | main.py:214 | joining a string's characters puts them at even positions and the separator at odd ones |
| `Session.DisplayText` | main.py:244 | a secret note's content is decrypted only while unlocked; otherwise the stored content is shown |
| `Session.DisplayTitle` | main.py:246 | secret notes get the lock mark before their title |
| `Session.Preview` | main.py:247 | text of up to 200 characters is shown whole; longer text shows its first 200 characters and "..." |
| `Session.UnlockedDisplayIsContext` | main.py:206-244 | while unlocked a card shows the same text the retrieval step uses |
| `Session.SecretNoteLifecycle` | main.py:136-244 | a secret note saved while unlocked is stored encrypted, reads back as its plaintext under the same PIN, and no locked search returns it |

## Left out

- `track_usage` (vault_logic.py:187-206) and the usage display (main.py:182-191): their token and cost arithmetic is floating-point.
- `get_gemini_response` (vault_logic.py:262-290): a network call with a sleep. `Session.VaultSession.AskVault` returns the context string the call would receive.
- The feedback buttons (main.py:224-232) depend on the model's answer. Only the log they append to is modelled.
- `create_pdf` and `create_docx` rendering (vault_logic.py:146-184) and the download buttons: FPDF and python-docx are foreign code. Only the error payload's shape is kept.
- `load_notes` and `save_notes` JSON I/O: files are fields. A JSON `secret` value that is not a boolean is outside `Notes.Note`.
- Key derivation and Fernet (vault_logic.py:75-93): uninterpreted `Cipher.Suite` functions. The fixed salt shows only in `deriveKey` depending on the PIN alone.
- SHA-256 hex digests: an uninterpreted `hash`. The digest format is not modelled.
- Text.Lower: lowercases only ASCII A-Z, because Python's full Unicode case mapping (which can change length) is not modelled.
- Exports.ClassifyPdf: the error message stays bytes. `decode('utf-8')` raises `UnicodeDecodeError` on a `PDF_ERROR` payload that is not valid UTF-8, where the model returns `Failed`; UTF-8 decoding is not modelled.
- StripStart, StripEnd and Strip: remove the ASCII characters Python's `str.isspace()` accepts, but not the non-ASCII ones (U+0085, U+00A0, U+2000-U+200A, U+3000 and the rest), because the message is not decoded.
- Fernet's random IV and timestamp: each `encrypt_data` call in the source gives a fresh token, while `Cipher.EncryptData` gives one fixed token per key and text. No proved property depends on two tokens being equal or different.
- Exports.CreatePdfErrorPayload: takes the reason already Latin-1 encoded. A reason that cannot be encoded, which would raise inside the handler, is not modelled.
- Clock readings are exact `real` seconds. Floating-point rounding of `time.time()` differences is not modelled.
- Streamlit control flow (`st.rerun`, `st.stop`, form keys, widget rendering, the auto-lock countdown caption at main.py:175-176): UI plumbing. Each handler is one method call.
- The one-time generation of the setup page's recovery key (main.py:31-32): `Session.SetupVault` receives the key as a parameter.
- `nltk` download and `load_dotenv`: environment setup.

## Findings

| source | as written | input that shows it | evidently intended | confidence | as-written member | corrected member |
|---|---|---|---|---|---|---|
| main.py:279 | the grid tests for the tag `PDF_ERROR`, but `create_pdf` writes `PDF Error:` (vault_logic.py:176) | any failure in `create_pdf`, e.g. reason `x`, giving the payload `PDF Error: x` | the grid shows "PDF failed: x" | not executed; high | `Exports.CreatePdfErrorIsInvalidFormat` (about `Exports.ClassifyPdf`) | `Exports.CorrectedShowsCreatePdfError` (about `Exports.ClassifyPdfCorrected`) |
