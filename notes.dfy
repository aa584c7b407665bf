/** The note store's records and the pure queries over them: which notes the grid shows
    (`get_filtered_notes`) and the page heading. */
module Notes {

  import opened Wrappers
  import opened Lists
  import opened Text

  /** One record of `notes.json`. `secret` is None when the key is missing. */
  datatype Note = Note(id: int, title: string, content: string, timestamp: string, secret: Option<bool>)

  /** `n.get('secret', False)`: a missing key counts as not secret. */
  predicate IsSecret(n: Note)
  {
    n.secret == Some(true)
  }

  /** The notes shown before searching: all of them when unlocked, else the non-secret ones. */
  function VisibleNotes(notes: seq<Note>, isUnlocked: bool): (r: seq<Note>)
    ensures forall n :: n in r <==> n in notes && (isUnlocked || !IsSecret(n))
    ensures IsSubsequence(r, notes)
  {
    if isUnlocked then
      FilterKeepsAll(notes, _ => true);
      FilterIsSubsequence(notes, _ => true);
      notes
    else
      FilterMembership(notes, n => !IsSecret(n));
      FilterIsSubsequence(notes, n => !IsSecret(n));
      Filter(notes, n => !IsSecret(n))
  }

  /** `query.lower()` is in the lowercased title or in the lowercased stored content
      (ciphertext for a secret note). */
  predicate MatchesQuery(n: Note, query: string)
  {
    Contains(Lower(n.title), Lower(query)) || Contains(Lower(n.content), Lower(query))
  }

  /** `get_filtered_notes(all_notes, is_unlocked, search_query)` */
  function GetFilteredNotes(notes: seq<Note>, isUnlocked: bool, query: string): (r: seq<Note>)
    ensures forall n :: n in r <==> n in notes && (isUnlocked || !IsSecret(n)) && MatchesQuery(n, query)
    ensures !isUnlocked ==> forall i :: 0 <= i < |r| ==> !IsSecret(r[i])
    ensures IsSubsequence(r, notes)
  {
    var visible := VisibleNotes(notes, isUnlocked);
    var matching := n => MatchesQuery(n, query);
    FilterMembership(visible, matching);
    if isUnlocked then
      FilterIsSubsequence(notes, matching);
      Filter(visible, matching)
    else
      FilterFilter(notes, n => !IsSecret(n), matching, n => !IsSecret(n) && MatchesQuery(n, query));
      FilterIsSubsequence(notes, n => !IsSecret(n) && MatchesQuery(n, query));
      Filter(visible, matching)
  }

  /** An empty search shows every visible note, in stored order. */
  lemma EmptyQueryShowsAllVisible(notes: seq<Note>, isUnlocked: bool)
    ensures GetFilteredNotes(notes, isUnlocked, "") == VisibleNotes(notes, isUnlocked)
  {
    var visible := VisibleNotes(notes, isUnlocked);
    forall i | 0 <= i < |visible|
      ensures MatchesQuery(visible[i], "")
    {
      EmptyIsContained(Lower(visible[i].title));
    }
    FilterKeepsAll(visible, n => MatchesQuery(n, ""));
  }

  /** Searching distributes over a split of the note list, so results keep the stored order. */
  lemma {:induction false} FilteredNotesAppend(a: seq<Note>, b: seq<Note>, isUnlocked: bool, query: string)
    ensures GetFilteredNotes(a + b, isUnlocked, query)
         == GetFilteredNotes(a, isUnlocked, query) + GetFilteredNotes(b, isUnlocked, query)
  {
    var matching := n => MatchesQuery(n, query);
    if !isUnlocked {
      FilterAppend(a, b, n => !IsSecret(n));
      FilterAppend(Filter(a, n => !IsSecret(n)), Filter(b, n => !IsSecret(n)), matching);
    } else {
      FilterAppend(a, b, matching);
    }
  }

  const SafeVaultHeading := "\U{1F6E1}\U{FE0F} Safe Vault"
  const MyNotesHeading := "\U{1F4DD} My Notes"

  /** `get_page_heading(is_unlocked)`: the heading tells the two modes apart. */
  function GetPageHeading(isUnlocked: bool): (r: string)
    ensures r == SafeVaultHeading <==> isUnlocked
    ensures r == MyNotesHeading <==> !isUnlocked
  {
    if isUnlocked then SafeVaultHeading else MyNotesHeading
  }
}
