/** The AI features around the notes: the extractive summary, the retrieval index and its
    query, and the feedback log. Sentence splitting (TextBlob), the embedding model and the
    FAISS nearest-neighbour search are foreign code and stay abstract: the splitter is a
    function argument and the search is an oracle returning one row of labels. */
module Assistant {

  import opened Wrappers
  import opened Lists
  import opened Text

  const MinSummaryLength := 50
  const SummaryHeader := "\U{2728} AI Summary:\n"
  const BulletMark := "\U{2022} "

  /** `[f"• {s}" for s in sentences]` */
  function Bullets(sentences: seq<string>): (r: seq<string>)
    ensures |r| == |sentences|
    ensures forall i :: 0 <= i < |r| ==> r[i] == BulletMark + sentences[i]
  {
    seq(|sentences|, i requires 0 <= i < |sentences| => BulletMark + sentences[i])
  }

  /** `ai_summarize_text(text)`: short texts and texts of at most two sentences come back
      unchanged; otherwise the header and the first two sentences as bullet lines. */
  function AiSummarizeText(text: string, sentences: string -> seq<string>): (r: string)
    ensures |text| < MinSummaryLength ==> r == text
    ensures |text| >= MinSummaryLength && |sentences(text)| <= 2 ==> r == text
    ensures |text| >= MinSummaryLength && |sentences(text)| > 2 ==>
              r == SummaryHeader + BulletMark + sentences(text)[0] + "\n" + BulletMark + sentences(text)[1]
  {
    if |text| < MinSummaryLength then text
    else
      var ss := sentences(text);
      if |ss| > 2 then
        var lines := Bullets(ss[..2]);
        assert Join("\n", lines[1..]) == lines[1];
        SummaryHeader + Join("\n", lines)
      else text
  }

  /** The flat L2 index; only its size matters to the post-processing. */
  datatype FlatIndex = FlatIndex(ntotal: nat)

  /** `(index, text_data)` as `create_vector_index` returns it. */
  datatype IndexBuild = IndexBuild(index: Option<FlatIndex>, textData: seq<string>)

  /** `create_vector_index(notes)`, given the notes' `content` values. */
  function CreateVectorIndex(contents: seq<string>): (r: IndexBuild)
    ensures contents == [] <==> r.index.None?
    ensures r.textData == contents
    ensures r.index.Some? ==> r.index.value.ntotal == |r.textData|
  {
    if contents == [] then IndexBuild(None, [])
    else IndexBuild(Some(FlatIndex(|contents|)), contents)
  }

  /** `index.search(query_vector, top_k)`: one row of labels for the query. */
  type SearchOracle = (FlatIndex, string, nat) -> seq<int>

  /** FAISS fills a row with exactly `top_k` labels, each a stored position or -1. */
  predicate HitsInRange(hits: seq<int>, size: nat)
  {
    forall j :: 0 <= j < |hits| ==> hits[j] == -1 || 0 <= hits[j] < size
  }

  predicate SearchRowValid(hits: seq<int>, topK: nat, size: nat)
  {
    |hits| == topK && HitsInRange(hits, size)
  }

  predicate IsHit(position: int)
  {
    position != -1
  }

  /** `[text_data[i] for i in indices[0] if i != -1]`: the text of each real hit, in the
      order the search ranked them. */
  function SelectChunks(hits: seq<int>, textData: seq<string>): (r: seq<string>)
    requires HitsInRange(hits, |textData|)
    ensures |r| == |Filter(hits, IsHit)| <= |hits|
    ensures forall k :: 0 <= k < |r| ==>
              0 <= Filter(hits, IsHit)[k] < |textData| && r[k] == textData[Filter(hits, IsHit)[k]]
  {
    if hits == [] then []
    else
      assert HitsInRange(hits[1..], |textData|);
      if IsHit(hits[0]) then [textData[hits[0]]] + SelectChunks(hits[1..], textData)
      else SelectChunks(hits[1..], textData)
  }

  /** What `query_vault` returns: a message string or the list of chunks. */
  datatype QueryResult = Message(text: string) | Chunks(chunks: seq<string>)

  const NoNotesMessage := "No notes found to search."
  const DefaultTopK := 2

  /** `query_vault(query, index, text_data, top_k)` */
  function QueryVault(query: string, index: Option<FlatIndex>, textData: seq<string>, topK: nat,
                      search: SearchOracle): (r: QueryResult)
    requires index.Some? ==> SearchRowValid(search(index.value, query, topK), topK, |textData|)
    ensures index.None? <==> r == Message(NoNotesMessage)
    ensures index.Some? ==> r.Chunks? && |r.chunks| <= topK
    ensures index.Some? ==> forall k :: 0 <= k < |r.chunks| ==> r.chunks[k] in textData
    ensures index.Some? ==> r.chunks == SelectChunks(search(index.value, query, topK), textData)
  {
    if index.None? then Message(NoNotesMessage)
    else Chunks(SelectChunks(search(index.value, query, topK), textData))
  }

  /** Building the index and querying it: an empty note list gives the message, otherwise
      at most `top_k` of the note texts, in the search's order. */
  lemma BuildThenQuery(contents: seq<string>, query: string, search: SearchOracle)
    requires contents != [] ==>
               SearchRowValid(search(FlatIndex(|contents|), query, DefaultTopK), DefaultTopK, |contents|)
    ensures var built := CreateVectorIndex(contents);
            var r := QueryVault(query, built.index, built.textData, DefaultTopK, search);
            (contents == [] <==> r == Message(NoNotesMessage)) &&
            (contents != [] ==> r.Chunks? && |r.chunks| <= DefaultTopK &&
                                (forall k :: 0 <= k < |r.chunks| ==> r.chunks[k] in contents))
  {
  }

  /** A search that returns only -1 labels (nothing found) yields no chunks. */
  lemma {:induction false} NoHitsNoChunks(hits: seq<int>, textData: seq<string>)
    requires forall j :: 0 <= j < |hits| ==> hits[j] == -1
    ensures SelectChunks(hits, textData) == []
  {
    if hits != [] {
      NoHitsNoChunks(hits[1..], textData);
    }
  }

  /** The `status` values the feedback buttons pass. */
  datatype Status = Correct | Wrong

  /** One record of `feedback_log.json`. */
  datatype FeedbackEntry = FeedbackEntry(timestamp: string, query: string, answer: string,
                                         contextUsed: string, status: Status)

  /** The feedback log file, an append-only list of entries. */
  class FeedbackLog {
    var entries: seq<FeedbackEntry>

    /** The log as found on disk; a missing file is the empty list. */
    constructor (existing: seq<FeedbackEntry>)
      ensures entries == existing
    {
      entries := existing;
    }

    /** `log_feedback(query, answer, context, status)`: the old entries stay as they
        were and exactly one entry is added at the end. */
    method LogFeedback(timestamp: string, query: string, answer: string, context: string, status: Status)
      modifies this
      ensures entries == old(entries) + [FeedbackEntry(timestamp, query, answer, context, status)]
      ensures |entries| == |old(entries)| + 1 && entries[..|old(entries)|] == old(entries)
    {
      entries := entries + [FeedbackEntry(timestamp, query, answer, context, status)];
    }
  }
}
