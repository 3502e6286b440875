/**
 * Context expansion of a search result (`rag_server/context_expansion.py`):
 * the neighbouring chunks of the same page, the related chunks of the
 * page, or both. The vector store's scroll queries and the embeddings
 * model are functions passed in; a result dictionary that the source
 * updates in place is a `Doc` value the expanders return updated.
 */
module ContextExpansion {
  import opened Wrappers
  import opened Text
  import opened Seqs
  import opened Sorting
  import opened Records

  /**
   * A result dictionary: its `text`, `str(id)`, its `metadata` (`None`
   * when missing, empty or not a dictionary), the metadata's `chunk`
   * number (0 when absent), and the keys the expanders write.
   */
  datatype Doc = Doc(text: string, id: string, metadata: Option<Metadata>, chunk: int,
                     expandedText: Option<string>, contextChunks: Option<int>, mode: Option<string>,
                     contextSize: Option<int>, relatedCount: Option<int>)

  /** A fresh search result, before any expansion. */
  function Fresh(text: string, id: string, metadata: Option<Metadata>, chunk: int): Doc {
    Doc(text, id, metadata, chunk, None, None, None, None, None)
  }

  // ---------------------------------------------------------------------
  // Validation and the default result
  // ---------------------------------------------------------------------

  /**
   * `_validate_result_and_collection`: `(page_id, text, id)` when the
   * result is a dictionary, the collection exists, the metadata is a
   * non-empty dictionary with a non-empty `page_id`, and the text is
   * non-empty; `None` otherwise. `result` is `None` for a non-dictionary.
   */
  function Validate(result: Option<Doc>, hasCollection: bool): (r: Option<(string, string, string)>)
    ensures r.Some? ==> r.value.0 != "" && r.value.1 != ""
  {
    if result.None? || !hasCollection then None
    else
      var d := result.value;
      if d.metadata.None? || Get(d.metadata.value, "page_id") == "" || d.text == "" then None
      else Some((Get(d.metadata.value, "page_id"), d.text, d.id))
  }

  /** `_default_result`: the text as the expansion, one chunk, the given mode; `{}` for a non-dictionary. */
  function DefaultResult(result: Option<Doc>, mode: string): (r: Option<Doc>)
    ensures r.Some? <==> result.Some?
    ensures r.Some? ==>
              r.value.expandedText == Some(result.value.text) && r.value.contextChunks == Some(1) && r.value.mode == Some(mode)
  {
    if result.None? then None
    else Some(result.value.(expandedText := Some(result.value.text), contextChunks := Some(1), mode := Some(mode)))
  }

  // ---------------------------------------------------------------------
  // Bidirectional expansion
  // ---------------------------------------------------------------------

  /** A point's payload: its `chunk` number (0 when absent) and its `text` ("" when absent). */
  datatype Payload = Payload(chunk: int, text: string)

  /**
   * The scroll query for the chunks of a page whose number lies in a range:
   * `None` when it fails; otherwise each point's payload, `None` for an
   * empty payload.
   */
  type RangeScroll = (string, int, int) -> Option<seq<Option<Payload>>>

  /** The positions `_get_bidirectional_chunks_async` asks for. */
  function RequestedRange(chunk: int, size: int): (int, int) {
    (Max(0, chunk - size), chunk + size)
  }

  /** The points with a payload, in the order the store returned them. */
  function Payloads(points: seq<Option<Payload>>): (r: seq<Payload>)
    ensures |r| <= |points|
    ensures forall p :: p in r <==> Some(p) in points
  {
    if points == [] then []
    else
      var rest := Payloads(points[..|points| - 1]);
      var last := points[|points| - 1];
      assert forall o :: o in points <==> o in points[..|points| - 1] || o == last by {
        assert points == points[..|points| - 1] + [last];
      }
      if last.Some? then rest + [last.value] else rest
  }

  /** `chunk_data.sort(key=lambda x: x['chunk_num'])`: ascending, ties in store order. */
  predicate ChunkLe(a: Payload, b: Payload) { a.chunk <= b.chunk }

  /** The chunk data of a scroll: the payloads, ascending by chunk number. */
  function ChunkData(points: Option<seq<Option<Payload>>>): seq<Payload> {
    if points.None? then [] else Sort(Payloads(points.value), ChunkLe)
  }

  /** The non-empty texts of the chunks, in order. */
  function NonEmptyTexts(data: seq<Payload>): (r: seq<string>)
    ensures |r| <= |data|
    ensures forall t :: t in r ==> t != ""
  {
    if data == [] then []
    else NonEmptyTexts(data[..|data| - 1]) + (if data[|data| - 1].text != "" then [data[|data| - 1].text] else [])
  }

  /** `expand_context_bidirectional_async`. */
  function Bidirectional(result: Option<Doc>, hasCollection: bool, size: int, scroll: RangeScroll): Option<Doc> {
    var v := Validate(result, hasCollection);
    if v.None? then DefaultResult(result, "none")
    else
      var d := result.value;
      var range := RequestedRange(d.chunk, size);
      var data := ChunkData(scroll(v.value.0, range.0, range.1));
      if data == [] then DefaultResult(result, "none")
      else
        var joined := Join("\n\n", NonEmptyTexts(data));
        var expanded := if joined == "" then d.text else joined;
        Some(d.(expandedText := Some(expanded), contextChunks := Some(|data|), mode := Some("bidirectional"),
                contextSize := Some(size)))
  }

  /**
   * Bidirectional expansion keeps a dictionary a dictionary; without a
   * valid result or without chunks it is the default result; otherwise
   * it counts every fetched chunk, its expansion is never empty, and the
   * chunks are the fetched payloads, rearranged into ascending chunk
   * order.
   */
  lemma BidirectionalFacts(result: Option<Doc>, hasCollection: bool, size: int, scroll: RangeScroll)
    ensures var r := Bidirectional(result, hasCollection, size, scroll);
            (r.Some? <==> result.Some?)
            && (Validate(result, hasCollection).None? ==> r == DefaultResult(result, "none"))
    ensures var v := Validate(result, hasCollection);
            v.Some? ==>
              var range := RequestedRange(result.value.chunk, size);
              var points := scroll(v.value.0, range.0, range.1);
              var data := ChunkData(points);
              var r := Bidirectional(result, hasCollection, size, scroll);
              range.0 >= 0
              && SortedBy(data, ChunkLe)
              && (points.Some? ==> multiset(data) == multiset(Payloads(points.value)))
              && (data == [] ==> r == DefaultResult(result, "none"))
              && (data != [] ==>
                    r.value.contextChunks == Some(|data|) && r.value.mode == Some("bidirectional")
                    && r.value.expandedText.Some? && r.value.expandedText.value != ""
                    && r.value.contextSize == Some(size))
  {
    var v := Validate(result, hasCollection);
    if v.Some? {
      var range := RequestedRange(result.value.chunk, size);
      var points := scroll(v.value.0, range.0, range.1);
      if points.Some? {
        assert Preorder(ChunkLe);
        SortSorted(Payloads(points.value), ChunkLe);
        SortPermutes(Payloads(points.value), ChunkLe);
      }
    }
  }

  // ---------------------------------------------------------------------
  // Related chunks
  // ---------------------------------------------------------------------

  /** A page's chunks as the store returns them: texts, `str` of the ids, and each payload's chunk number. */
  datatype PageChunks = PageChunks(documents: seq<string>, ids: seq<string>, chunkNums: seq<int>)

  /** A candidate related chunk. */
  datatype Similar = Similar(text: string, similarity: real, chunkNum: int)

  /** `str(ids[i])`, or "" past the end of the ids. */
  function IdAt(pc: PageChunks, i: nat): string {
    if i < |pc.ids| then pc.ids[i] else ""
  }

  /** The chunk number of document `i`, or 0 past the end of the payloads. */
  function ChunkNumAt(pc: PageChunks, i: nat): int {
    if i < |pc.chunkNums| then pc.chunkNums[i] else 0
  }

  /** A document other than the current chunk, with text. */
  predicate IsOther(pc: PageChunks, i: nat, currentId: string)
    requires i < |pc.documents|
  {
    IdAt(pc, i) != currentId && pc.documents[i] != ""
  }

  /** The candidates among the first `n` documents, every one at similarity 0.5. */
  function SimpleCandidates(pc: PageChunks, currentId: string, n: nat): (r: seq<Similar>)
    requires n <= |pc.documents|
    ensures |r| <= n
    ensures forall c :: c in r ==> c.similarity == 0.5 && c.text != ""
  {
    if n == 0 then []
    else
      var rest := SimpleCandidates(pc, currentId, n - 1);
      var i := n - 1;
      if IsOther(pc, i, currentId) then rest + [Similar(pc.documents[i], 0.5, ChunkNumAt(pc, i))] else rest
  }

  /** `_find_similar_chunks_simple`: the loop over the page's documents. */
  method FindSimilarChunksSimple(currentId: string, pc: PageChunks) returns (similar: seq<Similar>)
    ensures similar == SimpleCandidates(pc, currentId, |pc.documents|)
  {
    similar := [];
    var i := 0;
    while i < |pc.documents|
      invariant 0 <= i <= |pc.documents|
      invariant similar == SimpleCandidates(pc, currentId, i)
    {
      var text := pc.documents[i];
      var chunkId := if i < |pc.ids| then pc.ids[i] else "";
      if chunkId != currentId && text != "" {
        var chunkNum := if i < |pc.chunkNums| then pc.chunkNums[i] else 0;
        similar := similar + [Similar(text, 0.5, chunkNum)];
      }
      i := i + 1;
    }
  }

  /**
   * The simple candidates are exactly the other documents with text, in
   * page order, each with its own chunk number.
   */
  lemma {:induction false} SimpleCandidatesFacts(pc: PageChunks, currentId: string, n: nat)
    requires n <= |pc.documents|
    ensures var r := SimpleCandidates(pc, currentId, n);
            (forall i :: 0 <= i < n && IsOther(pc, i, currentId) ==> Similar(pc.documents[i], 0.5, ChunkNumAt(pc, i)) in r)
            && forall c :: c in r ==> exists i :: 0 <= i < n && IsOther(pc, i, currentId) && c == Similar(pc.documents[i], 0.5, ChunkNumAt(pc, i))
    decreases n
  {
    if n > 0 {
      SimpleCandidatesFacts(pc, currentId, n - 1);
    }
  }

  /** `similar_chunks.sort(key=lambda x: x['similarity'], reverse=True)`. */
  predicate SimilarityGe(a: Similar, b: Similar) { a.similarity >= b.similarity }

  function Texts(cs: seq<Similar>): (r: seq<string>)
    ensures |r| == |cs| && forall i :: 0 <= i < |cs| ==> r[i] == cs[i].text
  {
    seq(|cs|, i requires 0 <= i < |cs| => cs[i].text)
  }

  const RelatedMarker: string := "\n\n--- Related chunks ---\n\n"

  /** The page-chunk fetch: `None` when it fails or the collection is of an unknown kind. */
  type PageFetch = string -> Option<PageChunks>

  /**
   * The embeddings model's candidates for a chunk text, its id and its
   * page; `None` stands for no embeddings model.
   */
  type EmbeddingSearch = Option<(string, string, PageChunks) -> seq<Similar>>

  /** The chunks related expansion adds: the `topK` most similar candidates. */
  function TopSimilar(text: string, currentId: string, pc: PageChunks, topK: int, embeddings: EmbeddingSearch): seq<Similar> {
    var similar := if embeddings.Some? then embeddings.value(text, currentId, pc) else SimpleCandidates(pc, currentId, |pc.documents|);
    Take(Sort(similar, SimilarityGe), topK)
  }

  /** `expand_context_with_related_async` with `top_k = topK`. */
  function Related(result: Option<Doc>, hasCollection: bool, topK: int, fetch: PageFetch, embeddings: EmbeddingSearch): Option<Doc> {
    var v := Validate(result, hasCollection);
    if v.None? then DefaultResult(result, "none")
    else
      var pc := fetch(v.value.0);
      if pc.None? || pc.value.documents == [] then DefaultResult(result, "none")
      else
        var top := TopSimilar(v.value.1, v.value.2, pc.value, topK, embeddings);
        if top == [] then DefaultResult(result, "none")
        else
          Some(result.value.(expandedText := Some(v.value.1 + RelatedMarker + Join("\n\n", Texts(top))),
                             contextChunks := Some(1 + |top|), relatedCount := Some(|top|), mode := Some("related")))
  }

  /**
   * Related expansion keeps a dictionary a dictionary; when it adds chunks
   * it adds at most `topK`, most similar first, after the text and the
   * marker, and counts them with the chunk itself.
   */
  lemma RelatedFacts(result: Option<Doc>, hasCollection: bool, topK: int, fetch: PageFetch, embeddings: EmbeddingSearch)
    ensures var r := Related(result, hasCollection, topK, fetch, embeddings);
            (r.Some? <==> result.Some?)
            && (Validate(result, hasCollection).None? ==> r == DefaultResult(result, "none"))
            && (r.Some? && r.value.mode == Some("related") ==>
                  var v := Validate(result, hasCollection).value;
                  var top := TopSimilar(v.1, v.2, fetch(v.0).value, topK, embeddings);
                  r.value.relatedCount == Some(|top|) && r.value.contextChunks == Some(1 + |top|)
                  && 1 <= |top| && (topK >= 0 ==> |top| <= topK)
                  && SortedBy(top, SimilarityGe)
                  && StartsWith(r.value.expandedText.value, result.value.text + RelatedMarker))
  {
    var r := Related(result, hasCollection, topK, fetch, embeddings);
    var v := Validate(result, hasCollection);
    if v.Some? && fetch(v.value.0).Some? {
      var pc := fetch(v.value.0).value;
      var similar := if embeddings.Some? then embeddings.value(v.value.1, v.value.2, pc) else SimpleCandidates(pc, v.value.2, |pc.documents|);
      assert Preorder(SimilarityGe);
      SortSorted(similar, SimilarityGe);
      var sorted := Sort(similar, SimilarityGe);
      var top := Take(sorted, topK);
      assert forall i, j :: 0 <= i < j < |top| ==> top[i] == sorted[i] && top[j] == sorted[j];
      if r.Some? && r.value.mode == Some("related") {
        var e := r.value.expandedText.value;
        var pre := result.value.text + RelatedMarker;
        assert e == pre + Join("\n\n", Texts(top));
        assert e[..|pre|] == pre;
      }
    }
  }

  /**
   * Without an embeddings model every candidate ties at 0.5, so the
   * related chunks are the page's first `topK` other chunks with text, in
   * page order.
   */
  lemma SimpleRelatedInPageOrder(text: string, currentId: string, pc: PageChunks, topK: int)
    ensures TopSimilar(text, currentId, pc, topK, None) == Take(SimpleCandidates(pc, currentId, |pc.documents|), topK)
  {
    var similar := SimpleCandidates(pc, currentId, |pc.documents|);
    assert forall i, j :: 0 <= i < |similar| && 0 <= j < |similar| ==> SimilarityGe(similar[i], similar[j]) by {
      forall i, j | 0 <= i < |similar| && 0 <= j < |similar| ensures SimilarityGe(similar[i], similar[j]) {
        assert similar[i] in similar && similar[j] in similar;
      }
    }
    SortAllTied(similar, SimilarityGe);
  }

  // ---------------------------------------------------------------------
  // The mode switch
  // ---------------------------------------------------------------------

  /** The settings the full expansion reads. */
  datatype Settings = Settings(enabled: bool, mode: string, size: int)

  /**
   * `expand_context_full_async` for a dictionary result: switched off, it
   * marks the result `disabled`; otherwise the requested (or configured)
   * mode picks the expanders, an unknown mode falling back to
   * bidirectional. `related` and `all` use the context size as `top_k`.
   */
  function ExpandFull(d: Doc, hasCollection: bool, settings: Settings, requestedMode: Option<string>, requestedSize: Option<int>,
                      scroll: RangeScroll, fetch: PageFetch, embeddings: EmbeddingSearch): Doc
  {
    if !settings.enabled then
      d.(expandedText := Some(d.text), contextChunks := Some(1), mode := Some("disabled"))
    else
      var mode := if requestedMode.Some? then requestedMode.value else settings.mode;
      var size := if requestedSize.Some? then requestedSize.value else settings.size;
      var bidirectional := Bidirectional(Some(d), hasCollection, size, scroll);
      BidirectionalFacts(Some(d), hasCollection, size, scroll);
      if mode == "related" then
        RelatedFacts(Some(d), hasCollection, size, fetch, embeddings);
        Related(Some(d), hasCollection, size, fetch, embeddings).value
      else if mode == "all" then
        RelatedFacts(bidirectional, hasCollection, size, fetch, embeddings);
        Related(bidirectional, hasCollection, size, fetch, embeddings).value.(mode := Some("all"))
      else bidirectional.value
  }

  /**
   * Switched off, the result is marked `disabled` with its own text and
   * one chunk; `all` always ends marked `all`; any mode other than
   * `related` and `all` (`parent` and unknown ones included) is the
   * bidirectional expansion.
   */
  lemma ExpandFullModes(d: Doc, hasCollection: bool, settings: Settings, requestedMode: Option<string>, requestedSize: Option<int>,
                        scroll: RangeScroll, fetch: PageFetch, embeddings: EmbeddingSearch)
    ensures var r := ExpandFull(d, hasCollection, settings, requestedMode, requestedSize, scroll, fetch, embeddings);
            var mode := if requestedMode.Some? then requestedMode.value else settings.mode;
            var size := if requestedSize.Some? then requestedSize.value else settings.size;
            (!settings.enabled ==> r.mode == Some("disabled") && r.contextChunks == Some(1) && r.expandedText == Some(d.text))
            && (settings.enabled && mode == "all" ==> r.mode == Some("all"))
            && (settings.enabled && mode != "related" && mode != "all" ==>
                  Some(r) == Bidirectional(Some(d), hasCollection, size, scroll))
  {
  }

  // ---------------------------------------------------------------------
  // The `all` mode
  // ---------------------------------------------------------------------

  /**
   * As written, `all` runs the related expansion on the bidirectional
   * result, and that expansion starts again from the chunk's own text
   * (or resets to it): the expanded text is the one `related` alone
   * gives, and the neighbouring chunks are lost.
   */
  lemma AllDropsNeighbours(d: Doc, hasCollection: bool, settings: Settings, requestedSize: Option<int>,
                           scroll: RangeScroll, fetch: PageFetch, embeddings: EmbeddingSearch)
    requires settings.enabled
    ensures ExpandFull(d, hasCollection, settings, Some("all"), requestedSize, scroll, fetch, embeddings).expandedText
            == ExpandFull(d, hasCollection, settings, Some("related"), requestedSize, scroll, fetch, embeddings).expandedText
  {
    var size := if requestedSize.Some? then requestedSize.value else settings.size;
    var b := Bidirectional(Some(d), hasCollection, size, scroll);
    BidirectionalFacts(Some(d), hasCollection, size, scroll);
    assert Validate(b, hasCollection) == Validate(Some(d), hasCollection);
  }

  /** The store in the example: a page of three chunks, whatever range is asked for. */
  function ExampleScroll(pageId: string, lo: int, hi: int): Option<seq<Option<Payload>>> {
    Some([Some(Payload(0, "aaaaaa")), Some(Payload(1, "bbbbbb")), Some(Payload(2, "cccccc"))])
  }

  function ExamplePage(pageId: string): Option<PageChunks> {
    Some(PageChunks(["aaaaaa", "bbbbbb", "cccccc"], ["1", "2", "3"], [0, 1, 2]))
  }

  /** The example's result: the middle chunk of the page. */
  function ExampleDoc(): Doc {
    Fresh("bbbbbb", "2", Some(map["page_id" := "P"]), 1)
  }

  lemma ExampleChunkData()
    ensures ChunkData(ExampleScroll("P", 0, 2)) == [Payload(0, "aaaaaa"), Payload(1, "bbbbbb"), Payload(2, "cccccc")]
  {
    var p0, p1, p2 := Payload(0, "aaaaaa"), Payload(1, "bbbbbb"), Payload(2, "cccccc");
    var points := [Some(p0), Some(p1), Some(p2)];
    assert Payloads(points[..1]) == [p0] by { assert points[..1][..0] == []; }
    assert Payloads(points[..2]) == [p0, p1] by { assert points[..2][..1] == points[..1]; }
    assert Payloads(points) == [p0, p1, p2] by { assert points[..2] == points[..2]; }
    assert Sort([p0], ChunkLe) == [p0] by { assert [p0][..0] == []; }
    assert Sort([p0, p1], ChunkLe) == [p0, p1] by {
      assert [p0, p1][..1] == [p0];
      assert Insert(p1, [p0], ChunkLe) == [p0] + Insert(p1, [], ChunkLe);
    }
    assert Sort([p0, p1, p2], ChunkLe) == [p0, p1, p2] by {
      assert [p0, p1, p2][..2] == [p0, p1];
      assert Insert(p2, [p1], ChunkLe) == [p1] + Insert(p2, [], ChunkLe);
      assert Insert(p2, [p0, p1], ChunkLe) == [p0] + Insert(p2, [p1], ChunkLe);
    }
  }

  lemma ExampleRelated()
    ensures TopSimilar("bbbbbb", "2", ExamplePage("P").value, 1, None) == [Similar("aaaaaa", 0.5, 0)]
  {
    var pc := ExamplePage("P").value;
    assert SimpleCandidates(pc, "2", 1) == [Similar("aaaaaa", 0.5, 0)];
    assert SimpleCandidates(pc, "2", 2) == [Similar("aaaaaa", 0.5, 0)];
    SimpleRelatedInPageOrder("bbbbbb", "2", pc, 1);
  }

  lemma ExampleJoined()
    ensures Join("\n\n", NonEmptyTexts([Payload(0, "aaaaaa"), Payload(1, "bbbbbb"), Payload(2, "cccccc")]))
            == "aaaaaa\n\nbbbbbb\n\ncccccc"
  {
    var texts := ["aaaaaa", "bbbbbb", "cccccc"];
    var data := [Payload(0, "aaaaaa"), Payload(1, "bbbbbb"), Payload(2, "cccccc")];
    assert NonEmptyTexts(data) == texts by {
      assert data[..1][..0] == [] && data[..2][..1] == data[..1];
    }
    assert Join("\n\n", texts) == "aaaaaa\n\nbbbbbb\n\ncccccc" by {
      assert texts[1..][1..] == ["cccccc"];
    }
  }

  lemma ExampleBidirectional()
    ensures Bidirectional(Some(ExampleDoc()), true, 1, ExampleScroll).value.expandedText == Some("aaaaaa\n\nbbbbbb\n\ncccccc")
  {
    var d := ExampleDoc();
    assert Validate(Some(d), true) == Some(("P", "bbbbbb", "2"));
    assert RequestedRange(1, 1) == (0, 2);
    ExampleChunkData();
    ExampleJoined();
  }

  lemma ExampleAll()
    ensures var b := Bidirectional(Some(ExampleDoc()), true, 1, ExampleScroll);
            b.Some? && Related(b, true, 1, ExamplePage, None).value.expandedText == Some("bbbbbb" + RelatedMarker + "aaaaaa")
  {
    var d := ExampleDoc();
    assert Validate(Some(d), true) == Some(("P", "bbbbbb", "2"));
    var b := Bidirectional(Some(d), true, 1, ExampleScroll);
    BidirectionalFacts(Some(d), true, 1, ExampleScroll);
    ExampleRelatedOf(b);
  }

  /** Any result naming the example's page and chunk gets the example's related text. */
  lemma ExampleRelatedOf(b: Option<Doc>)
    requires Validate(b, true) == Some(("P", "bbbbbb", "2"))
    ensures Related(b, true, 1, ExamplePage, None).value.expandedText == Some("bbbbbb" + RelatedMarker + "aaaaaa")
  {
    ExampleRelated();
    assert Texts([Similar("aaaaaa", 0.5, 0)]) == ["aaaaaa"];
  }

  /**
   * A page of three chunks, the middle one found, context size 1 and no
   * embeddings model: bidirectional expansion gives all three texts, but
   * `all` gives the found text and only the first neighbour.
   */
  lemma AllDropsNeighboursExample()
    ensures ExpandFull(ExampleDoc(), true, Settings(true, "bidirectional", 1), Some("bidirectional"), None,
                       ExampleScroll, ExamplePage, None).expandedText
            == Some("aaaaaa\n\nbbbbbb\n\ncccccc")
    ensures ExpandFull(ExampleDoc(), true, Settings(true, "bidirectional", 1), Some("all"), None,
                       ExampleScroll, ExamplePage, None).expandedText
            == Some("bbbbbb" + RelatedMarker + "aaaaaa")
  {
    ExampleBidirectional();
    ExampleAll();
  }

  /**
   * The evidently intended `all`: the related chunks appended to the
   * bidirectional expansion, counted with the neighbouring chunks.
   */
  function ExpandAll(d: Doc, hasCollection: bool, size: int, scroll: RangeScroll, fetch: PageFetch, embeddings: EmbeddingSearch): (r: Doc)
  {
    BidirectionalFacts(Some(d), hasCollection, size, scroll);
    var b := Bidirectional(Some(d), hasCollection, size, scroll).value;
    var v := Validate(Some(d), hasCollection);
    var pc := if v.Some? then fetch(v.value.0) else None;
    var top := if v.Some? && pc.Some? && pc.value.documents != [] then TopSimilar(v.value.1, v.value.2, pc.value, size, embeddings) else [];
    if top == [] then b.(mode := Some("all"))
    else
      b.(expandedText := Some(b.expandedText.value + RelatedMarker + Join("\n\n", Texts(top))),
         contextChunks := Some(b.contextChunks.value + |top|), relatedCount := Some(|top|), mode := Some("all"))
  }

  /**
   * The intended `all` keeps the whole bidirectional expansion as the
   * start of its text, and adds exactly the related chunks' count.
   */
  lemma ExpandAllKeepsNeighbours(d: Doc, hasCollection: bool, size: int, scroll: RangeScroll, fetch: PageFetch, embeddings: EmbeddingSearch)
    ensures var b := Bidirectional(Some(d), hasCollection, size, scroll);
            var r := ExpandAll(d, hasCollection, size, scroll, fetch, embeddings);
            b.Some? && r.mode == Some("all")
            && b.value.expandedText.Some? && r.expandedText.Some?
            && StartsWith(r.expandedText.value, b.value.expandedText.value)
            && b.value.contextChunks.Some? && r.contextChunks.Some?
            && r.contextChunks.value >= b.value.contextChunks.value
  {
    BidirectionalFacts(Some(d), hasCollection, size, scroll);
    var b := Bidirectional(Some(d), hasCollection, size, scroll).value;
    var r := ExpandAll(d, hasCollection, size, scroll, fetch, embeddings);
    var e := b.expandedText.value;
    if r.expandedText != b.expandedText {
      assert r.expandedText.value[..|e|] == e;
    }
  }
}
