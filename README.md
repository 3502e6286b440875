# Confluence RAG server: a verified model of its retrieval, ranking and sync logic

The server answers questions about a Confluence wiki. A sync job pulls
pages from Confluence, cuts them into chunks along their headings, tables
and lists, and stores the chunks with their embeddings and metadata in a
Qdrant collection. An MCP tool, `confluence_semantic_search`, answers a
query as follows:

1. It validates the query and expands it into variants (synonyms, learned
   synonyms, semantic query log, LLM rewriting).
2. It searches Qdrant for every variant, and fuses vector and BM25 hits by
   weighted reciprocal rank fusion.
3. It removes duplicates, reranks the candidates with a cross-encoder, and
   applies metadata, hierarchy and breadcrumb boosts.
4. It drops low scores, limits the results per page, optionally
   diversifies them (maximal marginal relevance), expands each hit's
   context, checks answers for hallucination, and formats the reply.

This project models that core in Dafny. There is one module per source file:

- **Query side.**
  - `HybridSearch`, `Sorting`, `Mmr`, `IntentConfig`, `KeywordExtraction`
    and `AdvancedSearch` model the utilities.
  - `SearchPolicy`, `QueryExpansion`, `StructuralSearch` and
    `ResultContext` model `rag_server/mcp_rag_secure.py`.
  - `RootSearch` models the parts found only in the older root
    `mcp_rag_secure.py`.
  - `SearchPipeline`, `Synonyms`, `SemanticQueryLog`, `QueryRewriter`,
    `SemanticCache`, `ContextExpansion`, `HallucinationDetector`,
    `ResponseFormatter` and `QdrantStorage` model the modules of those
    names.
- **Sync side.** `SyncParsers`, `SyncMetadata`, `SyncSections`,
  `SyncChunking`, `SmartChunking`, `PageCache` and `Batch` model
  `rag_server/sync_confluence.py`.
- **Shared modules.** `Wrappers` (Option and Result), `Text` (the Python
  string operations the source relies on), `Seqs`, `Records` and
  `Similarity`.

**How collaborators are modelled.** Everything the code calls but does
not compute becomes a parameter of the model:

- the embedding model, the cross-encoder and the BM25 scorer;
- the Qdrant client, Confluence, the LLM providers and Redis;
- the clock and the environment.

**How the code's form is kept.** Loops of the source are methods with
loop invariants, proved against a specification function. Objects whose
fields the source updates are classes:

- the rewrite cache and its counters;
- the in-memory semantic cache;
- the query miner and the synonyms manager;
- the semantic query log;
- the LRU page cache;
- the batch processor and the sync state;
- the global fallback-search instance.

Pure helpers are functions. Scores are reals.

**Where the code and its documentation disagree, the model follows the code:**

- The `build_breadcrumb` docstring example with `max_levels=3` shows
  three trailing parts. The code keeps `max_levels - 1`, and the tests
  agree with the code.
- The hierarchy boost is documented as ranging from -0.2 to +0.8. The
  code never makes it negative.
- `detect_query_intent` falls back to `factual`.
- Ties in reciprocal rank fusion keep insertion order, because the sort
  is stable.
- `FallbackSearch.should_apply_fallback` returns true for an empty result
  list whatever `min_results` is.

**Quirks of the code, kept in the model:**

- `_try_merge_with_last_chunk` does not count the `"\n\n"` separator in
  its size check, so a merged chunk can reach `max_size + 2`
  (`SmartChunking.MergeFacts`, `SmartChunking.MergeExceedsLimit`).
- `detect_query_intent` matches keywords as substrings. The how-to
  keyword "как" therefore fires inside "какой", "какая" and "какие", so
  such queries are never classified factual
  (`HybridSearch.QuestionWordsReadAsHowto`). The newer
  `classify_query_intent` matches whole words (`SearchPolicy`).

## Model

| member | source | states |
|---|---|---|
| AdvancedSearch.ExtractKeywords | rag_server/advanced_search.py:24-58 | exactly the lower-case `[а-яёa-z0-9]+` tokens that are not stop words and are at least `min_length` long, in text order |
| AdvancedSearch.ExtractKeywordsCounts | rag_server/advanced_search.py:24-58 | each kept token appears as many times as it occurs in the text, and no other word appears, so the counts match the text's |
| AdvancedSearch.Counts | rag_server/advanced_search.py:101 | the distinct words in first-seen order, each with its number of occurrences |
| AdvancedSearch.CountsFacts | rag_server/advanced_search.py:101 | the counter lists each word of the keywords once, with its true count |
| AdvancedSearch.RankedMembers | rag_server/advanced_search.py:106 | every keyword is ranked once, with its number of occurrences |
| AdvancedSearch.RankedOrder | rag_server/advanced_search.py:106 | ranked words are distinct and their counts do not increase |
| AdvancedSearch.MostCommonFacts | rag_server/advanced_search.py:106 | `most_common(n)` lists at most `n` distinct keywords with their true counts, by non-increasing count |
| AdvancedSearch.MostCommonDominates | rag_server/advanced_search.py:106 | a keyword that `most_common(n)` leaves out occurs no more often than any word listed |
| AdvancedSearch.FreshTermsMembers | rag_server/advanced_search.py:105-111 | at most `max_terms` terms, each a keyword not excluded |
| AdvancedSearch.FreshTermsOrder | rag_server/advanced_search.py:105-111 | the terms are distinct and most frequent first |
| AdvancedSearch.NewTermsFacts | rag_server/advanced_search.py:94-111 | at most `max_terms` new terms, each a keyword of the top `top_k` results that is not a keyword of the query; distinct, most frequent first |
| AdvancedSearch.PseudoRelevanceFeedback | rag_server/advanced_search.py:61-121 | the query unchanged when there are no results, no new terms or `max_terms <= 0`, otherwise the query, a space and the new terms joined by spaces |
| AdvancedSearch.ShouldApplyFallback | rag_server/advanced_search.py:211-228 | the fallback applies exactly when there are no results or fewer than `min_results`, whatever the level |
| AdvancedSearch.FallbackMessage | rag_server/advanced_search.py:230-247 | a message exactly for levels 1 to 3, the level-1 one naming the space; the empty string otherwise |
| AdvancedSearch.FallbackRegistry.GetFallbackSearch | rag_server/advanced_search.py:253-258 | the first call creates the instance with its `min_results`; later calls return that instance unchanged |
| AdvancedSearch.FallbackRegistry.constructor | rag_server/advanced_search.py:250-251 | the global instance starts unset |
| Batch.RetryFromFacts | rag_server/sync_confluence.py:1567-1593 | with at least one attempt left the page is always counted: updated or skipped exactly when some attempt did so after only exceptions, failed with the last attempt's message when every attempt raised |
| Batch.BatchProcessor.constructor | rag_server/sync_confluence.py:1388-1397 | a new processor has its retry count, no processed ids and no failed ids |
| Batch.BatchProcessor.RunAttempts | rag_server/sync_confluence.py:1569-1587 | the retry loop gives the verdict of the attempts from the first one on |
| Batch.BatchProcessor.ProcessBatchSafe | rag_server/sync_confluence.py:1538-1599 | the counters, the error details, the processed and failed ids and the state's pages are those of the pages taken one by one |
| Batch.BatchProcessor.RecordVerdict | rag_server/sync_confluence.py:1572-1597 | once a page's verdict is known, the bookkeeping is one step of the batch |
| Batch.BatchProcessor.PageVerdictOf | rag_server/sync_confluence.py:1553-1587 | a page without id, already processed or unchanged since the last sync is skipped; otherwise the retry loop decides |
| Batch.PageStepFacts | rag_server/sync_confluence.py:1552-1597 | with at least one attempt exactly one counter goes up per page; an updated page enters the processed ids and the state's pages, and no other page does |
| Batch.BatchFacts | rag_server/sync_confluence.py:1538-1599 | with at least one attempt the three counters grow by exactly the number of pages; processed ids grow by one new id per updated page, the state's pages change only for those ids, and there is one error detail per error |
| Batch.NoAttempts | rag_server/sync_confluence.py:1570 | with no attempt allowed, a page that reaches the retry loop is not counted at all |
| Batch.SecondVisitSkipped | rag_server/sync_confluence.py:1561-1562 | a page met again in the same batch after it was updated is skipped |
| ContextExpansion.Validate | rag_server/context_expansion.py:23-49 | a validated result always carries a non-empty page id and a non-empty text |
| ContextExpansion.DefaultResult | rag_server/context_expansion.py:52-59 | a dictionary stays a dictionary with its own text as the expansion, one context chunk and the given mode; a non-dictionary gives nothing |
| ContextExpansion.Payloads | rag_server/context_expansion.py:236-243 | exactly the returned points that carry a payload are kept, never more than were returned |
| ContextExpansion.NonEmptyTexts | rag_server/context_expansion.py:280 | only non-empty chunk texts are joined into the expansion |
| ContextExpansion.BidirectionalFacts | rag_server/context_expansion.py:201-298 | bidirectional expansion keeps a dictionary a dictionary, falls back to the default result without a valid result or without chunks, and otherwise counts every fetched chunk, never has an empty expansion, and uses the fetched payloads sorted by chunk number |
| ContextExpansion.SimpleCandidates | rag_server/context_expansion.py:184-196 | every simple candidate has similarity 0.5 and a non-empty text, and there are no more candidates than documents |
| ContextExpansion.FindSimilarChunksSimple | rag_server/context_expansion.py:177-198 | the loop over the page's documents returns exactly the simple candidates of all documents |
| ContextExpansion.SimpleCandidatesFacts | rag_server/context_expansion.py:177-198 | the candidates are exactly the page's other documents with text, each with its own chunk number |
| ContextExpansion.Texts | rag_server/context_expansion.py:333 | the related texts are the texts of the top chunks, one for one and in order |
| ContextExpansion.RelatedFacts | rag_server/context_expansion.py:301-348 | related expansion keeps a dictionary a dictionary, falls back to the default without a valid result, and when it adds chunks adds at most top_k of them, most similar first, after the text and the marker, counting them together with the chunk itself |
| ContextExpansion.SimpleRelatedInPageOrder | rag_server/context_expansion.py:326-330 | without an embeddings model every candidate ties at 0.5, so the stable sort keeps page order and the related chunks are the first top_k other chunks with text |
| ContextExpansion.ExpandFullModes | rag_server/context_expansion.py:351-409 | switched off, the result is marked disabled with its own text and one chunk; `all` always ends marked `all`; `parent` and unknown modes are bidirectional expansion |
| ContextExpansion.AllDropsNeighbours | rag_server/context_expansion.py:392-396 | as written, `all` mode gives the same expanded text as `related` alone: the neighbouring chunks are lost |
| ContextExpansion.AllDropsNeighboursExample | rag_server/context_expansion.py:392-396 | on a three-chunk page, bidirectional expansion yields all three texts but `all` yields only the found text and one related chunk |
| ContextExpansion.ExpandAllKeepsNeighbours | rag_server/context_expansion.py:392-396 | the corrected `all` mode starts its text with the whole bidirectional expansion and adds the related chunks to its chunk count |
| HallucinationDetector.ValidateInputs | rag_server/hallucination_detector.py:42-63 | a report exists exactly for a blank answer or an empty document list; it is a hallucination at confidence 1.0 with no scores and the one matching reason, the blank answer taking precedence |
| HallucinationDetector.Overlap | rag_server/hallucination_detector.py:234-241 | the overlap share lies in [0, 1] |
| HallucinationDetector.Ratio | rag_server/hallucination_detector.py:239 | a share of a positive count lies in [0, 1], is 1 exactly when all are counted and 0 exactly when none are |
| HallucinationDetector.KeywordOverlap | rag_server/hallucination_detector.py:215-245 | the keyword overlap score lies in [0, 1] |
| HallucinationDetector.OverlapFacts | rag_server/hallucination_detector.py:223-241 | the overlap is 0 exactly when no answer keyword occurs in the documents (or there are none), and 1 exactly when there are answer keywords and all occur in the documents |
| HallucinationDetector.StrippedNonEmpty | rag_server/hallucination_detector.py:255 | the sentences are stripped and non-empty, and there are no more of them than pieces |
| HallucinationDetector.StripIdempotent | rag_server/hallucination_detector.py:255 | stripping a stripped sentence changes nothing |
| HallucinationDetector.CountIn | rag_server/hallucination_detector.py:280 | the number of sentence words found in the documents is at most the number of words |
| HallucinationDetector.HalfRatio | rag_server/hallucination_detector.py:281 | the test found/len >= 0.5 is the same as twice the found count reaching the word count |
| HallucinationDetector.CountWhere | rag_server/hallucination_detector.py:269-282 | the grounded count is at most the number of sentences |
| HallucinationDetector.CountWhereBounds | rag_server/hallucination_detector.py:269-282 | the count equals the number of sentences exactly when all satisfy the test, and is 0 exactly when none do |
| HallucinationDetector.GroundedRatio | rag_server/hallucination_detector.py:247-290 | the grounded ratio lies in [0, 1] |
| HallucinationDetector.CheckGrounding | rag_server/hallucination_detector.py:247-290 | the counting loop returns the grounded share of the answer's sentences, 0 without sentences |
| HallucinationDetector.GroundedRatioFacts | rag_server/hallucination_detector.py:247-290 | the grounded ratio is 1 exactly when there are sentences and each is grounded, and 0 exactly when none is |
| HallucinationDetector.ComputeDetectionScores | rag_server/hallucination_detector.py:65-116 | the scores are the given semantic score, the keyword overlap and the grounded ratio; a reason appears exactly for each score under its threshold (0.5 for grounding), in check order |
| HallucinationDetector.Values | rag_server/hallucination_detector.py:127 | the score dictionary has at most three values |
| HallucinationDetector.ValuesInRange | rag_server/hallucination_detector.py:127 | scores in [0, 1] give values in [0, 1] |
| HallucinationDetector.MakeDecisionFacts | rag_server/hallucination_detector.py:118-134 | the verdict is a hallucination exactly on two or more reasons; with scores in [0, 1] the confidence lies in [0, 1], and it is 1 without scores or when every score is 0 |
| HallucinationDetector.LowCount | rag_server/hallucination_detector.py:85-112 | at most three checks can fall under their thresholds |
| HallucinationDetector.Detect | rag_server/hallucination_detector.py:136-183 | a blank answer or no documents gives the validation report; otherwise one reason for each check under its threshold, the keyword and grounding scores always present, and the answer is a hallucination exactly when at least two checks fall under their thresholds |
| HallucinationDetector.DetectHallucination | rag_server/hallucination_detector.py:295-317 | with the default thresholds 0.5 and 0.3, the returned verdict is the report's, certain for a blank answer or no documents, and otherwise set exactly by two or more low checks |
| HybridSearch.DetectQueryIntent | rag_server/hybrid_search.py:63-83 | the result is the first intent, in table order, one of whose keywords occurs in the lower-cased query, or factual when none does |
| HybridSearch.QuestionWordsReadAsHowto | rag_server/hybrid_search.py:63-83 | a query holding "какой", "какая" or "какие" is never classified factual, because the how-to keyword "как" matches inside them |
| HybridSearch.AdaptiveWeights | rag_server/hybrid_search.py:86-111 | with a positive sum the configured pair is rescaled proportionally to sum to 1 (and stays non-negative); otherwise it is returned unchanged |
| HybridSearch.DefaultWeightsNormalised | rag_server/hybrid_search.py:86-111 | with the default settings every intent's pair is already normalised and its BM25 weight exceeds 0.01 |
| HybridSearch.TokensAreLowerWords | rag_server/hybrid_search.py:49-54 | the tokens are non-empty, lower-case and hold no whitespace |
| HybridSearch.TextNodesEmpty | rag_server/hybrid_search.py:130-156 | the corpus is empty exactly when every document text is empty |
| HybridSearch.PrepareBm25Corpus | rag_server/hybrid_search.py:130-156 | succeeds exactly when the document and metadata lists cover the ids and some text is non-empty; then one node per non-empty document, each with the tokens of its text |
| HybridSearch.RunBm25 | rag_server/hybrid_search.py:348-366 | succeeds exactly when every selected position lies in the corpus, and then yields the positive-score hits among the top `3 * limit` positions |
| HybridSearch.PositiveHitsFacts | rag_server/hybrid_search.py:355-366 | the hits are no more than the positions, all positive, each a corpus node with its score, and in score order when the positions are |
| HybridSearch.TopHitsFacts | rag_server/hybrid_search.py:349-366 | at most `3 * limit` hits, all with a positive score, best first, each one a corpus node with its own score |
| HybridSearch.LastRank | rag_server/hybrid_search.py:248 | the 1-based rank of the last occurrence of an id, present exactly when the id occurs |
| HybridSearch.FirstRank | rag_server/hybrid_search.py:256-263 | the 1-based rank of the first occurrence of an id, present exactly when the id occurs |
| HybridSearch.SourceVectorStep | rag_server/hybrid_search.py:245-247 | a vector hit sets the text and metadata of its own id only |
| HybridSearch.VectorStep | rag_server/hybrid_search.py:242-250 | a vector hit overwrites its id's text, metadata and vector rank and adds its share; other ids are untouched |
| HybridSearch.SourceBm25Step | rag_server/hybrid_search.py:256-265 | only a BM25 hit for an id seen in neither list so far sets its text and payload |
| HybridSearch.Bm25StepOther | rag_server/hybrid_search.py:253-270 | a BM25 hit for another id leaves an id's record unchanged |
| HybridSearch.Bm25StepSeen | rag_server/hybrid_search.py:266-270 | a BM25 hit for a known id moves its BM25 rank and adds its share |
| HybridSearch.Bm25StepNew | rag_server/hybrid_search.py:256-265 | a BM25 hit for a new id creates a record with its text, payload, BM25 rank and share |
| HybridSearch.VectorOrderStep | rag_server/hybrid_search.py:242-245 | a vector hit extends the dictionary's insertion order by its id when the id is truthy and new |
| HybridSearch.Bm25OrderStep | rag_server/hybrid_search.py:253-258 | a BM25 hit extends the insertion order by its id when the id is truthy and new |
| HybridSearch.AccumulatedValues | rag_server/hybrid_search.py:273-277 | the dictionary's values, in insertion order, are the fused records in first-insertion order |
| HybridSearch.AccumulateVectorSkip | rag_server/hybrid_search.py:243-244 | a vector hit with a falsy id changes nothing |
| HybridSearch.AccumulatedUpdate | rag_server/hybrid_search.py:245-270 | storing an id's new record keeps the dictionary in step with the extended lists |
| HybridSearch.AccumulateVectorHit | rag_server/hybrid_search.py:245-250 | a vector hit overwrites text, metadata and vector rank and adds its share |
| HybridSearch.AccumulateBm25Skip | rag_server/hybrid_search.py:254-255 | a BM25 hit with a falsy id changes nothing |
| HybridSearch.AccumulateBm25New | rag_server/hybrid_search.py:256-265 | a BM25 hit for a new id adds a record with its text, payload, rank and share |
| HybridSearch.AccumulateBm25Seen | rag_server/hybrid_search.py:266-270 | a BM25 hit for a known id updates only its BM25 rank and score |
| HybridSearch.AccumulateVectorHits | rag_server/hybrid_search.py:241-250 | after the first loop the dictionary holds the fused records of the vector hits |
| HybridSearch.AccumulateBm25Hits | rag_server/hybrid_search.py:252-270 | after the second loop the dictionary holds the fused records of both lists |
| HybridSearch.ReciprocalRankFusion | rag_server/hybrid_search.py:208-292 | nothing for two empty lists; otherwise the fused records in first-insertion order, stably sorted by score, formatted |
| HybridSearch.EntriesFacts | rag_server/hybrid_search.py:231-277 | the fused records are distinct, each is its id's record, and their ids are exactly the first-insertion order |
| HybridSearch.FusionIdsDistinct | rag_server/hybrid_search.py:231-277 | no id appears twice in the fused list |
| HybridSearch.FusionOrderMembers | rag_server/hybrid_search.py:242-258 | the first-insertion order holds exactly the truthy ids of either list |
| HybridSearch.FusionIdsCovered | rag_server/hybrid_search.py:208-292 | the fused list holds a document for every truthy id of either list, and for nothing else |
| HybridSearch.FusionScores | rag_server/hybrid_search.py:242-270 | each fused score is the weighted sum of `w / (k + rank)` over all of the id's occurrences in both lists, and each rank is the id's last 1-based rank |
| HybridSearch.FusionOrdering | rag_server/hybrid_search.py:273-277 | the fused list is ordered by non-increasing score, and equal scores keep their first-insertion order |
| HybridSearch.RankSumNonNegative | rag_server/hybrid_search.py:250 | a non-negative weight gives a non-negative score |
| HybridSearch.RankSumSingle | rag_server/hybrid_search.py:250 | an id occurring once, at rank `r`, contributes exactly `w / (k + r)` |
| HybridSearch.RankSumAtLeast | rag_server/hybrid_search.py:250 | an occurrence at rank `r` contributes at least `w / (k + r)` |
| HybridSearch.BothListsRankFirst | rag_server/hybrid_search.py:218 | with positive weights a document in both lists within rank `m` outscores one found once, by one retriever, at rank `m` or later |
| HybridSearch.HybridSearchAsync | rag_server/hybrid_search.py:309-386 | falls back to the first `limit` vector hits when hybrid search is off, the BM25 weight is at most 0.01, no index exists or BM25 fails; otherwise the first `limit` fused results of the vector hits and the BM25 hits |
| HybridSearch.HybridBounded | rag_server/hybrid_search.py:382-386 | an answer holds at most `limit` results |
| IntentConfig.GetIntentConfig | rag_server/utils/intent_config.py:32-118 | only the navigational intent boosts the hierarchy and skips context expansion; an unknown intent gets the general threshold, diversity 2, expansion on, window 2 |
| IntentConfig.IntentTable | rag_server/utils/intent_config.py:62-118 | the diversity limit is 1 / 3 / 3 / 2 for navigational / howto / factual / other intents, and the context window is 2 / 3 / 3 / 4 / 2 |
| IntentConfig.IntentCaseInsensitive | rag_server/utils/intent_config.py:60 | the intent name is matched case-insensitively |
| IntentConfig.ThresholdOrdering | rag_server/utils/intent_config.py:50-100 | navigational uses 1.5 times the general threshold, howto the technical one, factual the general one; without a BGE reranker and with a positive general threshold, exploratory is strictly below factual |
| IntentConfig.AdaptiveRerankThreshold | rag_server/utils/intent_config.py:121-142 | the result never exceeds the intent's threshold; a technical query never exceeds the technical threshold; a non-technical query gets the intent's threshold exactly, so reading a query as technical never makes it stricter |
| IntentConfig.AdaptiveContextWindow | rag_server/utils/intent_config.py:145-156 | the window is between 2 and 4, and it is 4 exactly for the exploratory intent |
| KeywordExtraction.Words | rag_server/utils/keyword_extraction.py:51-54 | every token of the lower-cased text is a non-empty lower-case run of the `[а-яёa-z0-9]` class |
| KeywordExtraction.ExtractKeywords | rag_server/utils/keyword_extraction.py:38-62 | every keyword is a lower-case token at least `min_length` long and, when stop words are removed, not a stop word; every such token is kept, in text order |
| KeywordExtraction.ExtractKeywordsCounts | rag_server/utils/keyword_extraction.py:38-62 | each kept token appears as many times as it occurs in the text, and no other word appears |
| KeywordExtraction.StopwordRemovalDrops | rag_server/utils/keyword_extraction.py:57-60 | removing stop words only drops keywords: the result is a subsequence of the unfiltered one |
| KeywordExtraction.ExtractTechnicalTerms | rag_server/utils/keyword_extraction.py:65-77 | the ensures: only members of the technical-term list; the definition: exactly the listed terms that occur in the lower-cased text |
| KeywordExtraction.TechnicalTermsGrow | rag_server/utils/keyword_extraction.py:75-76 | appending text never loses a technical term already found |
| KeywordExtraction.NormalizeQuery | rag_server/utils/keyword_extraction.py:80-90 | the ensures: the result is lower-case and has exactly the whitespace-separated words of the lower-cased query; the definition joins them with single spaces, so nothing surrounds them |
| KeywordExtraction.NormalizeIdempotent | rag_server/utils/keyword_extraction.py:80-90 | normalising twice is the same as normalising once |
| Mmr.MaxSim | rag_server/mmr_reranker.py:97-111 | the largest similarity of a candidate to the chosen vectors, attained by one of them; 0 when none is chosen |
| Mmr.ArgMax | rag_server/mmr_reranker.py:117 | the first position of the largest score |
| Mmr.PickIsGreedy | rag_server/mmr_reranker.py:114-118 | the first best position of the remaining list names the greedy MMR pick |
| Mmr.GreedyExtend | rag_server/mmr_reranker.py:119-123 | appending the greedy pick extends a greedy, duplicate-free selection |
| Mmr.Select | rag_server/mmr_reranker.py:89-123 | the chosen indices are distinct, valid, `min(k, n)` in number, and each is the greedy pick after those before it |
| Mmr.MaximalMarginalRelevance | rag_server/mmr_reranker.py:16-140 | nothing for no results or `k <= 0`; the results themselves when they fit in `k`; otherwise `k` capped at the item limit and, when every result has an embedding, some are usable and the query is non-zero, the greedy MMR selection of the usable results, else the first `k` results |
| Mmr.FirstPickMostRelevant | rag_server/mmr_reranker.py:93-117 | with positive relevance weight the first pick is the most relevant usable result |
| Mmr.MmrLambda | rag_server/mmr_reranker.py:163 | λ lies in [0, 1] and equals 1 − diversity_weight inside that range, clamped outside it |
| Mmr.MmrRerank | rag_server/mmr_reranker.py:143-170 | MMR with the clamped λ and `k = top_k`: nothing for no results or `top_k <= 0`, the results when they fit, otherwise at most `top_k` of them; when MMR applies, they are the greedy MMR selection of the usable results with λ = clamp(1 − diversity_weight, 0, 1), and otherwise the first `top_k` results, capped at the item limit |
| Mmr.Vectors | rag_server/mmr_reranker.py:62-70 | the embedding matrix has one row per result, each that result's own embedding, in order |
| PageCache.Without | rag_server/sync_confluence.py:309 | the order without a key holds exactly the other keys |
| PageCache.WithoutDistinct | rag_server/sync_confluence.py:309 | taking a key out of an order without repeats leaves no repeats and one key fewer when it was there |
| PageCache.HitRate | rag_server/sync_confluence.py:351-352 | the hit rate lies in [0, 100], is 100 exactly when there were hits and no misses, and 0 exactly when there were no hits |
| PageCache.PageCache.constructor | rag_server/sync_confluence.py:280-283 | the cache starts empty, with both counters at 0 |
| PageCache.PageCache.GetPageCached | rag_server/sync_confluence.py:286-336 | a hit returns the cached page and makes it most recently used; a miss stores the fetched page as most recently used, first evicting the least recently used one when the cache is full; exactly one counter goes up and the cache never exceeds 1000 pages |
| PageCache.PageCache.MoveToEnd | rag_server/sync_confluence.py:309 | `move_to_end` makes a cached key the most recently used and changes nothing else |
| PageCache.PageCache.Evict | rag_server/sync_confluence.py:327-329 | on a full cache the least recently used page goes, and only it |
| PageCache.PageCache.Insert | rag_server/sync_confluence.py:332-334 | a new page is stored as the most recently used |
| PageCache.PageCache.Clear | rag_server/sync_confluence.py:339-345 | clearing empties the cache and resets both counters |
| PageCache.PageCache.Stats | rag_server/sync_confluence.py:348-359 | the statistics report the counters, a size within the maximum of 1000 and a hit rate in [0, 100] |
| PageCache.OrderSize | rag_server/sync_confluence.py:281 | the recency order and the cached pages always have the same size |
| QdrantStorage.Lookup | rag_server/qdrant_storage.py:30 | a dictionary lookup is absent exactly when no entry has the key, and otherwise returns a value stored under it |
| QdrantStorage.Or | rag_server/qdrant_storage.py:39 | `a or b` is truthy exactly when one of them is |
| QdrantStorage.Put | rag_server/qdrant_storage.py:266 | `{**d, key: v}` answers `v` for the key, answers like `d` for every other key, and grows only when the key was new |
| QdrantStorage.ExtractTextFromPayload | rag_server/qdrant_storage.py:16-45 | the text is the payload's own non-empty `text`, else the non-empty `text` or `text_` parsed out of `_node_content`, else ""; it never fails |
| QdrantStorage.LlamaIndexPayload | rag_server/qdrant_storage.py:34-41 | a payload that carries its text only inside the JSON of `_node_content` yields that text |
| QdrantStorage.TextWinsOverNodeContent | rag_server/qdrant_storage.py:29-32 | a non-empty `text` wins whatever `_node_content` holds |
| QdrantStorage.Bounds | rag_server/qdrant_storage.py:314-319 | the range keyword arguments are named after the operators present, and are empty exactly when no operator is present |
| QdrantStorage.EntryConditions | rag_server/qdrant_storage.py:311-330 | an entry gives at most one condition, and a non-dictionary value always gives a match on its key |
| QdrantStorage.EntriesConditions | rag_server/qdrant_storage.py:311-330 | a dictionary's entries give at most one condition each |
| QdrantStorage.MustCondition | rag_server/qdrant_storage.py:297-306 | a `must` item gives at most one condition, always with a truthy key, and a match only with a truthy value |
| QdrantStorage.MustRaiseStops | rag_server/qdrant_storage.py:296-306 | once a `must` item raises, the whole parse raises |
| QdrantStorage.ParseWhereFilter | rag_server/qdrant_storage.py:292-332 | the appending loops build exactly the conditions of the `must`, `$and` or flat shape of the filter |
| QdrantStorage.AppendEntries | rag_server/qdrant_storage.py:311-330 | the loop over a dictionary's items appends each entry's condition in order |
| QdrantStorage.EntriesKeys | rag_server/qdrant_storage.py:311-330 | every condition from a dictionary is on one of its keys |
| QdrantStorage.EntriesMatches | rag_server/qdrant_storage.py:320-321 | every entry with a non-dictionary value gives a match carrying that value |
| QdrantStorage.EntriesRanges | rag_server/qdrant_storage.py:312-319 | every range has at least one bound, each named after an accepted operator |
| QdrantStorage.EntriesCount | rag_server/qdrant_storage.py:311-330 | without dictionary values, every entry gives exactly one condition |
| QdrantStorage.FlatRangesInclusive | rag_server/qdrant_storage.py:322-330 | a flat filter never raises and gives ranges only from `$gte` and `$lte` |
| QdrantStorage.MustFacts | rag_server/qdrant_storage.py:296-306 | the `must` shape gives at most one condition per item, only with a truthy key, and a match only with a truthy value |
| QdrantStorage.MustMatchExample | rag_server/qdrant_storage.py:302-304 | a `must` item with a key and a `match.value` gives exactly that match |
| QdrantStorage.AddIf | rag_server/qdrant_storage.py:348-365 | each `if` adds one condition exactly when its argument is given |
| QdrantStorage.MetadataCount | rag_server/qdrant_storage.py:334-367 | there is one condition per given argument, and none exactly when nothing is given |
| QdrantStorage.OnKeyMetadata | rag_server/qdrant_storage.py:346-367 | the conditions on a key are those contributed by each `if`, in the fixed order |
| QdrantStorage.SpaceCondition | rag_server/qdrant_storage.py:348-349 | the only condition on `space` matches the given space |
| QdrantStorage.AuthorCondition | rag_server/qdrant_storage.py:350-351 | the only condition on `created_by` matches the given author |
| QdrantStorage.DateConditions | rag_server/qdrant_storage.py:356-359 | the conditions on `created` are the lower bound from `from_date` then the upper bound from `to_date`, each when given |
| QdrantStorage.LabelCondition | rag_server/qdrant_storage.py:360-361 | the only condition on `labels` matches the first label, when there is one |
| QdrantStorage.FormatHit | rag_server/qdrant_storage.py:373-382 | a formatted hit keeps its id and score, and carries an embedding exactly when vectors were asked for: its own vector when non-empty, else the query's |
| QdrantStorage.FormatSearchResults | rag_server/qdrant_storage.py:369-384 | every hit is formatted, one for one and in order |
| QdrantStorage.ApplyMmrDiversification | rag_server/qdrant_storage.py:386-413 | without MMR or when the results fit, the first `limit` results; in every case only results from the input, and at most `limit` of them |
| QdrantStorage.SearchInQdrant | rag_server/qdrant_storage.py:415-504 | a raising filter parse raises; a failed search gives []; otherwise only formatted hits of the search with `limit * 3` candidates under MMR and `limit` otherwise, the first `limit` in Qdrant's order when MMR is off |
| QdrantStorage.SearchWithFilter | rag_server/qdrant_storage.py:475-504 | once the filter is built: [] on a failed search, only formatted hits otherwise, and without vectors the first `limit` of them in order |
| QdrantStorage.PrepareFacts | rag_server/qdrant_storage.py:264-272 | a chunk becomes a point exactly when it has all four keys and its id and vector are accepted; the payload answers the chunk's text for `text` and the metadata's value for every other key |
| QdrantStorage.Points | rag_server/qdrant_storage.py:262-276 | a batch gives at most one point per chunk |
| QdrantStorage.Counters | rag_server/qdrant_storage.py:257-290 | successes and errors together never exceed the number of chunks |
| QdrantStorage.InsertChunksBatch | rag_server/qdrant_storage.py:241-290 | a batch size of 0 raises, a negative one counts nothing, and a positive one gives the counters over the batches |
| QdrantStorage.CountersStep | rag_server/qdrant_storage.py:260-288 | one batch adds its upserted points to the successes and its unprepared chunks to the errors |
| QdrantStorage.PreparePoints | rag_server/qdrant_storage.py:264-276 | the loop over a batch gives the prepared points and counts the other chunks as failed |
| QdrantStorage.PointsAppend | rag_server/qdrant_storage.py:260-276 | preparing two runs of chunks gives the points of each, in order |
| QdrantStorage.CountersFacts | rag_server/qdrant_storage.py:257-290 | the errors are the chunks that cannot be prepared, however they are batched; with every upsert succeeding every prepared chunk is a success, and with none succeeding there are no successes |
| QdrantStorage.AllUpsertedCountsEveryChunk | rag_server/qdrant_storage.py:257-290 | when every upsert succeeds, successes and errors add up to the number of chunks |
| QdrantStorage.StripTextDrops | rag_server/qdrant_storage.py:696 | the listed metadata keeps every other entry and has neither `text` nor `_node_content` |
| QdrantStorage.StripTextKeeps | rag_server/qdrant_storage.py:696 | the listed metadata answers like the payload for every other key |
| QdrantStorage.GetAllPoints | rag_server/qdrant_storage.py:660-709 | a failed scroll gives three empty lists; otherwise three lists of equal length, one entry per point in order |
| QdrantStorage.AllPointsEntries | rag_server/qdrant_storage.py:687-700 | a listed document is "" or a non-empty text, its metadata never carries the text, and without payloads both are empty |
| QueryExpansion.MaxVariants | rag_server/mcp_rag_secure.py:116-123 | the budget is 5 variants for up to two words, 3 for up to four, 2 otherwise |
| QueryExpansion.OptimalCandidateLimit | rag_server/mcp_rag_secure.py:239-259 | `limit` times the word-count multiplier 5/3/2, capped at 50 |
| QueryExpansion.CandidateLimitMonotone | rag_server/mcp_rag_secure.py:239-259 | asking for more results never yields fewer candidates |
| QueryExpansion.CandidateLimitShorterQuery | rag_server/mcp_rag_secure.py:250-259 | for a non-negative limit a shorter query gets at least as many candidates |
| QueryExpansion.AbsorbFacts | rag_server/mcp_rag_secure.py:135-140 | offering candidates keeps the existing entries in front, keeps the list duplicate-free, never grows it beyond the budget, adds only candidates and, when it stops short of the budget, has taken every candidate |
| QueryExpansion.AbsorbKeepsHead | rag_server/mcp_rag_secure.py:135-140 | offering candidates never changes the head of the list |
| QueryExpansion.AppendNew | rag_server/mcp_rag_secure.py:127-140 | the appending loop of the three sources adds new candidates in order until the budget is reached |
| QueryExpansion.KeywordVariants | rag_server/mcp_rag_secure.py:168-173 | no synonym variant equals the normalised query |
| QueryExpansion.KeywordVariantsAbsent | rag_server/mcp_rag_secure.py:169-170 | a keyword with no whole-word occurrence in the query yields no variant |
| QueryExpansion.SynonymVariants | rag_server/mcp_rag_secure.py:156-175 | the synonym candidates, keyword by keyword outside the blacklist, none equal to the normalised query |
| QueryExpansion.BlacklistedKeywordsYieldNothing | rag_server/mcp_rag_secure.py:161-162 | when every keyword is blacklisted, synonyms contribute nothing |
| QueryExpansion.ToolNamesNotExpanded | rag_server/mcp_rag_secure.py:151-162 | with the synonyms manager's blacklist, a query whose keywords are all blacklisted tool or product names gets no synonym variant |
| QueryExpansion.SynonymKeywords | rag_server/mcp_rag_secure.py:153-156 | at most the first three keywords are tried, none empty |
| QueryExpansion.Sourced | rag_server/mcp_rag_secure.py:200-210 | after the three sources the list still starts with the query |
| QueryExpansion.AppendSpaced | rag_server/mcp_rag_secure.py:219-221 | only the query with the space key may be added, and the head is kept |
| QueryExpansion.Candidates | rag_server/mcp_rag_secure.py:200-226 | the list before de-duplication starts with the query |
| QueryExpansion.SourcedOrigin | rag_server/mcp_rag_secure.py:125-194 | every entry after the sources is the query, a related logged query, a synonym variant or a rewriter variant other than the first |
| QueryExpansion.CandidatesOrigin | rag_server/mcp_rag_secure.py:196-226 | every candidate is the query, a related query, a synonym variant, a later rewriter variant, the cleaned keyword query, the query with the space, or the 1C-normalised query |
| QueryExpansion.TakeDedupFacts | rag_server/mcp_rag_secure.py:229 | the final de-duplication and cut keeps the head, drops repeats and stays within the budget |
| QueryExpansion.ExpandFromSources | rag_server/mcp_rag_secure.py:200-210 | the three sources applied in turn to `[query]` |
| QueryExpansion.ExpandQuery | rag_server/mcp_rag_secure.py:196-237 | a duplicate-free list of at least one and at most the budget of variants, headed by the query itself, drawn only from the candidates |
| QueryRewriter.LStripNumberingFacts | rag_server/query_rewriter.py:100 | stripping the numbering leaves a suffix that does not start with a digit, `.`, `-`, `)` or space, and removes only such characters |
| QueryRewriter.Collect | rag_server/query_rewriter.py:95-103 | the variant list starts with the query |
| QueryRewriter.CollectStep | rag_server/query_rewriter.py:97-103 | one more cleaned line extends the list by it exactly when it is usable (more than 5 characters) and new |
| QueryRewriter.CollectFacts | rag_server/query_rewriter.py:95-103 | the collected variants never repeat, and every one after the query is a usable cleaned line |
| QueryRewriter.VariantsFacts | rag_server/query_rewriter.py:92-108 | a provider's variants: the query first, at most three, no repeats, the others usable cleaned lines of its reply |
| QueryRewriter.VariantsShape | rag_server/query_rewriter.py:95-108 | the query first, at most three, no repeats |
| QueryRewriter.Choose | rag_server/query_rewriter.py:241-298 | the source is refused exactly when it is not `openrouter`, `ollama` or empty |
| QueryRewriter.ProviderShape | rag_server/query_rewriter.py:87-121 | a provider function returns a variant list exactly when its provider answered, and the list has the variants' shape |
| QueryRewriter.ChoiceFacts | rag_server/query_rewriter.py:241-298 | the choice fails exactly for an unknown source, keeps the shape of the providers' lists, and falls back to the bare query when none returned one |
| QueryRewriter.StatsFacts | rag_server/query_rewriter.py:224-292 | every call counts one request and no cache hit; a known source with no provider answering counts one fallback |
| QueryRewriter.AdaptiveFacts | rag_server/query_rewriter.py:204-298 | adaptive rewriting fails exactly for an unknown source; otherwise the query first, at most three variants, no repeats, just the query when no provider answered; one request counted per call |
| QueryRewriter.CachedHitRate | rag_server/query_rewriter.py:354-376 | the corrected hit rate, hits over all cached calls, lies between 0 and 100 and is 0 without hits |
| QueryRewriter.StoredAnswers | rag_server/query_rewriter.py:328-344 | a rewrite stored at `now` answers every lookup of the same query less than `ttl` later, and does not change any other query's lookup |
| QueryRewriter.Rewriter.constructor | rag_server/query_rewriter.py:379-383 | an empty cache and zero counters |
| QueryRewriter.Rewriter.RewriteWithOllama | rag_server/query_rewriter.py:46-121 | the provider's variants exactly when it answered, with its success or failure counted; the cache is untouched |
| QueryRewriter.Rewriter.RewriteWithOpenRouter | rag_server/query_rewriter.py:128-158 | the same for the OpenRouter provider |
| QueryRewriter.Rewriter.RewriteAdaptive | rag_server/query_rewriter.py:204-298 | the adaptive result and counters for the lower-cased source |
| QueryRewriter.Rewriter.RewriteOrFallback | rag_server/query_rewriter.py:241-264 | one provider's variants, or the bare query counted as a fallback when it returned nothing |
| QueryRewriter.Rewriter.RewriteLegacy | rag_server/query_rewriter.py:269-292 | Ollama, then OpenRouter, then the bare query counted as a fallback |
| QueryRewriter.Rewriter.CachedRewrite | rag_server/query_rewriter.py:305-347 | a fresh entry answers without rewriting and counts a hit; otherwise a stale entry is dropped, the query rewritten and a successful rewrite stored with `now`; other entries are untouched |
| QueryRewriter.Rewriter.CacheSize | rag_server/query_rewriter.py:362 | the cache size is 0 exactly when the cache is empty |
| QueryRewriter.Rewriter.ClearCache | rag_server/query_rewriter.py:379-383 | the cache is emptied; the counters stay |
| QueryRewriter.HitRateAboveHundred | rag_server/query_rewriter.py:362-364 | as written, one miss and two hits for the same query report a 200% hit rate, while the corrected rate stays below 100% |
| ResponseFormatter.EmojiBands | rag_server/response_formatter.py:86-93 | the score band is green above 0.7, yellow above 0.3, orange above 0.1 and white otherwise, and a higher score never gets a worse band |
| ResponseFormatter.PreviewFacts | rag_server/response_formatter.py:175-176 | a preview is the whole text up to 500 characters, and otherwise the first 500 characters followed by "..." |
| ResponseFormatter.SelectHeadings | rag_server/response_formatter.py:119-144 | the loop over the first ten headings, stopping at three, selects exactly the relevant headings |
| ResponseFormatter.ShownHeadingsFacts | rag_server/response_formatter.py:119-152 | at most three headings are shown and some are exactly when the result has headings; they are the first matches among the first ten, or the first three headings when the query has no usable words or nothing matches |
| ResponseFormatter.AttachmentPreviewFacts | rag_server/response_formatter.py:162-168 | up to three attachment names are listed in full; beyond three the first three are listed, followed by the count of the others |
| ResponseFormatter.HeaderNamesQuery | rag_server/response_formatter.py:47-48 | the header names the query |
| ResponseFormatter.StatsFacts | rag_server/response_formatter.py:51-60 | the statistics line starts with the query type and the number of results, and shows the latency truncated to an integer when given |
| ResponseFormatter.StatsPartsShape | rag_server/response_formatter.py:51-58 | the statistics parts are the query type, the count, then the latency when given |
| ResponseFormatter.ContextText | rag_server/response_formatter.py:110-111 | the chunk count is shown exactly when there is more than one context chunk |
| ResponseFormatter.PathLines | rag_server/response_formatter.py:114-116 | a result adds at most one path line |
| ResponseFormatter.SectionLines | rag_server/response_formatter.py:146-152 | a result adds at most one sections line |
| ResponseFormatter.UrlLines | rag_server/response_formatter.py:181-182 | a result adds at most one URL line |
| ResponseFormatter.BlockFacts | rag_server/response_formatter.py:66-184 | a result's block has four to seven lines, holds its numbered title line and its preview line, and ends with a blank line |
| ResponseFormatter.BlocksSnoc | rag_server/response_formatter.py:65-67 | one more result adds its block exactly when it is a dictionary |
| ResponseFormatter.FormatSuccess | rag_server/response_formatter.py:21-186 | the message is the newline join of the header, the statistics, a blank line and each dictionary result's block |
| ResponseFormatter.AppendBlocks | rag_server/response_formatter.py:65-184 | the loop appends each dictionary result's block, in input order, after the lines so far |
| ResponseFormatter.BlocksHaveTitles | rag_server/response_formatter.py:65-179 | every dictionary result's title line is present, numbered with its position in the input (skipped entries keep their number) |
| ResponseFormatter.SuccessLinesFacts | rag_server/response_formatter.py:47-186 | the message opens with the header and the statistics for all results, and every dictionary result appears titled with its position |
| ResponseFormatter.Bullets | rag_server/response_formatter.py:228-229 | each suggestion becomes one bullet line, in order |
| ResponseFormatter.NoResultsFacts | rag_server/response_formatter.py:189-238 | the filtered-candidates line appears exactly when a count is positive; the given suggestions are listed, or else the three default tips |
| ResponseFormatter.NotFilteredLine | rag_server/response_formatter.py:213-236 | no other line of the no-results message is the filtered-candidates line |
| ResponseFormatter.ErrorLines | rag_server/response_formatter.py:241-272 | the error message names the query and the error text, lists the suggestions or asks to retry, and ends with a blank line |
| ResponseFormatter.LowRelevanceLines | rag_server/response_formatter.py:275-325 | the low-relevance message shows the threshold, the score range when both ends are given, the explanation, and the suggestions or the default tips |
| ResultContext.Breadcrumb | rag_server/mcp_rag_secure.py:1236-1254 | a page path has its `" > "` separators turned into `" → "` and the heading, when set, appended; without a path, the parent title and a different title are joined; with no pieces at all, the title or `Unknown` |
| ResultContext.JoinedParts | rag_server/mcp_rag_secure.py:1238-1254 | the joined pieces in each case the breadcrumb distinguishes |
| ResultContext.EnrichResultWithContext | rag_server/mcp_rag_secure.py:1217-1256 | a falsy or non-dictionary result is passed through; a result without metadata gets empty metadata and the breadcrumb `Unknown`; otherwise the breadcrumb of its metadata |
| ResultContext.BreadcrumbEndsWithHeading | rag_server/mcp_rag_secure.py:1251-1254 | a heading, when set, always ends the breadcrumb |
| ResultContext.TitleBoostFrom | rag_server/mcp_rag_secure.py:574-578 | the boost of the first title keyword the title contains, between 0 and 0.3; 0 exactly when none is contained |
| ResultContext.HierarchyBoost | rag_server/mcp_rag_secure.py:543-601 | the boost lies in [0, 0.8]; a root page gets at least 0.5; it is 0 exactly when the page has a parent, no title keyword, a heading level other than 1 or 2 and no labels |
| ResultContext.RootPageBoostsMore | rag_server/mcp_rag_secure.py:557-558 | a page never loses boost by becoming a root page |
| ResultContext.TechnicalLabelsBoostMore | rag_server/mcp_rag_secure.py:588-599 | a technical label boosts at least as much as any other label string |
| ResultContext.BreadcrumbMatchScore | rag_server/mcp_rag_secure.py:603-635 | the score lies in [0, 1]; 0 for an empty breadcrumb; otherwise the Jaccard similarity of the two keyword sets, positive only when they share a keyword and 1 only when they are equal |
| ResultContext.BreadcrumbScoreSymmetric | rag_server/mcp_rag_secure.py:620-630 | for two non-empty strings the score does not depend on which one is the query |
| RootSearch.RootKeywords | mcp_rag_secure.py:124-144 | exactly the whitespace-separated words of the lower-cased query longer than two characters and not stop words |
| RootSearch.Sentences | mcp_rag_secure.py:432-433 | the sentence pieces are stripped and none is empty |
| RootSearch.Overlaps | mcp_rag_secure.py:445-447 | one keyword overlap per sentence, in order |
| RootSearch.BestSentence | mcp_rag_secure.py:442-451 | the chosen sentence has the largest overlap, and ties go to the earlier sentence |
| RootSearch.Shorten | mcp_rag_secure.py:459-460 | a snippet longer than the limit is cut to it plus an ellipsis; a short one is kept |
| RootSearch.SentenceSnippet | mcp_rag_secure.py:454-462 | the best sentence with its neighbours is at most `max_length` plus the ellipsis long |
| RootSearch.CutStructured | mcp_rag_secure.py:414-428 | structured text is shown whole up to the limit, otherwise its first `limit` characters and the cut marker |
| RootSearch.ExtractRelevantSnippet | mcp_rag_secure.py:392-462 | a text within `max_length` is shown whole; tables and lists get six times the room and code three times; plain text shows the best-overlap sentence with its neighbours, or the text's start with an ellipsis when it has no sentence |
| RootSearch.DeduplicateResults | mcp_rag_secure.py:464-493 | lists of at most one result are returned as they are; otherwise the first result of each text signature (its first 200 characters, stripped), in input order |
| RootSearch.DeduplicateFacts | mcp_rag_secure.py:478-489 | no two kept results share a signature, every signature of the input is kept, and order is preserved |
| RootSearch.SequentialMultiQuerySearch | mcp_rag_secure.py:1489-1517 | nothing when either list is empty or their lengths differ; otherwise the per-variant results in order, keeping the first result of each id |
| RootSearch.MergeFacts | mcp_rag_secure.py:1507-1517 | the merged results carry distinct ids, and every id any variant found |
| RootSearch.ScanWindows | mcp_rag_secure.py:1588-1599 | the chosen start is the best-scoring window among those every 50 characters, a later window winning only with a strictly higher score |
| RootSearch.GetTextForReranking | mcp_rag_secure.py:1559-1608 | the result is a contiguous slice of the text of length `min(len, max_len)`; a short text is returned whole, one without query keywords gives its prefix, a long one the best keyword window |
| RootSearch.PickWindow | mcp_rag_secure.py:1588-1606 | a long text gives the best scanned window, or the last window when no scanned window has a keyword and the last has more |
| RootSearch.BaseRerankLimit | mcp_rag_secure.py:2020-2029 | the base pool is 8, 12 or 20 documents |
| RootSearch.FilteredLimit | mcp_rag_secure.py:2032-2033 | a space filter shrinks the base pool to `max(8, int(base * 0.8))`, between 8 and the base |
| RootSearch.AdaptiveRerankLimit | mcp_rag_secure.py:2008-2040 | never more than the candidates nor 20, at least 8 when there are 8 candidates, and the base pool by word count without a space filter |
| RootSearch.SpaceFilterShrinksPool | mcp_rag_secure.py:2032-2033 | a space filter never enlarges the pool |
| RootSearch.LongerQueriesGetMore | mcp_rag_secure.py:2020-2029 | a query with more words never gets a smaller pool |
| RootSearch.BoostResult | mcp_rag_secure.py:2095-2150 | the boost changes only the score, and leaves a result without keyword or phrase match unchanged |
| RootSearch.BoostFloor | mcp_rag_secure.py:2112-2143 | a boosted result with a non-negative score ends with at least 0.1 and at least twice its score |
| RootSearch.BoostNeverLowers | mcp_rag_secure.py:2112-2143 | no boost ever lowers a score |
| RootSearch.ApplyMetadataBoost | mcp_rag_secure.py:2090-2156 | every result is boosted, then the list is sorted by descending score |
| RootSearch.BoostedOrder | mcp_rag_secure.py:2156 | after the boost the results are ordered by score and are exactly the boosted inputs |
| RootSearch.ScoreThresholdFilter | mcp_rag_secure.py:2172-2190 | exactly the results whose score reaches the query's threshold, in order |
| RootSearch.TechnicalQueriesKeepMore | mcp_rag_secure.py:2176-2186 | when the technical threshold is the lower one, a technical query keeps every result a general one keeps |
| SearchPipeline.PrepareQueries | rag_server/search_pipeline.py:86-91 | the original query followed by the expanded variants, without blank strings, each kept once at its first position |
| SearchPipeline.SearchLimit | rag_server/search_pipeline.py:173 | three times the limit when reranking follows, the limit otherwise |
| SearchPipeline.ScoreThreshold | rag_server/search_pipeline.py:181 | the configured threshold without reranking, 0 with it |
| SearchPipeline.FoundOf | rag_server/search_pipeline.py:185-193 | a store point becomes a result with its id, score and query variant, not yet reranked |
| SearchPipeline.SingleSearch | rag_server/search_pipeline.py:158-200 | a failed store search gives no results; otherwise one result per point, in order |
| SearchPipeline.VariantResults | rag_server/search_pipeline.py:131-132 | one result list per query variant |
| SearchPipeline.SequentialSearch | rag_server/search_pipeline.py:129-133 | the variants' results concatenated in query order |
| SearchPipeline.Deduplicate | rag_server/search_pipeline.py:202-210 | the first result of each id, in order |
| SearchPipeline.DeduplicateFacts | rag_server/search_pipeline.py:202-210 | the de-duplicated results carry distinct ids, each id of the input once, in input order |
| SearchPipeline.WithScore | rag_server/search_pipeline.py:224-225 | the cross-encoder score is written into `rerank_score` and `boosted_score`, nothing else changes |
| SearchPipeline.Scored | rag_server/search_pipeline.py:223-225 | the first `n` results get the first `n` scores; the others are unchanged |
| SearchPipeline.Pairs | rag_server/search_pipeline.py:220 | one (query, text) pair per result |
| SearchPipeline.Rerank | rag_server/search_pipeline.py:212-236 | the results with their scores written in and sorted by descending score; unchanged when the cross-encoder fails |
| SearchPipeline.RerankOrder | rag_server/search_pipeline.py:223-227 | with one score per result, the reranked list holds exactly the scored results, best first, each with equal rerank and boosted scores |
| SearchPipeline.Execute | rag_server/search_pipeline.py:61-120 | fails exactly when the embedder returns fewer vectors than queries; otherwise the first `limit` of the de-duplicated results, reranked or ordered by vector score |
| SearchPipeline.ExecuteFacts | rag_server/search_pipeline.py:100-110 | the answer has distinct ids and at most `limit` results; without reranking it is ordered by descending vector score |
| SearchPipeline.RerankKeepsIds | rag_server/search_pipeline.py:212-236 | reranking keeps the ids distinct |
| SearchPolicy.ClassifyQueryIntent | rag_server/mcp_rag_secure.py:1258-1307 | the result is the strategy of the first intent, in the order navigational, howto, factual, one of whose words occurs as a whole word in the lower-cased query; exploratory when none does |
| SearchPolicy.StrategyFlags | rag_server/mcp_rag_secure.py:1274-1307 | only navigational queries boost the hierarchy and only they skip context expansion; the diversity hint is between 1 and 3 |
| SearchPolicy.ClassifyIgnoresCase | rag_server/mcp_rag_secure.py:1272 | a query and its lower-cased form get the same intent |
| SearchPolicy.IntentOfName | rag_server/mcp_rag_secure.py:1140 | an intent name is recognised exactly when it is one of the four names |
| SearchPolicy.FilterEnabled | rag_server/mcp_rag_secure.py:1127 | the diversity filter is on when the setting is unset, otherwise exactly when it reads `true` in any case |
| SearchPolicy.DiversityLimitForIntent | rag_server/mcp_rag_secure.py:1116-1143 | 999 when the filter is off; otherwise the cap of the named intent, where a missing or unknown name counts as factual |
| SearchPolicy.DefaultLimitsBounded | rag_server/mcp_rag_secure.py:1132-1137 | with the default caps every intent gets between one and four results per page |
| SearchPolicy.UnknownIntentIsFactual | rag_server/mcp_rag_secure.py:1140-1141 | an unknown intent name is capped exactly like `factual` |
| SearchPolicy.ResolveDiversityLimit | rag_server/mcp_rag_secure.py:1145-1159 | an explicit cap wins; otherwise the passed intent's cap, otherwise the classified query's cap, otherwise the factual cap |
| SearchPolicy.ResolvedFromQuery | rag_server/mcp_rag_secure.py:1153-1157 | without an explicit cap or intent, a non-empty query gets its own intent's cap |
| SearchPolicy.AdmitStep | rag_server/mcp_rag_secure.py:1199-1202 | keeping a usable result without a page, or one whose page is below the cap, counts it against its page |
| SearchPolicy.SkipStep | rag_server/mcp_rag_secure.py:1188-1199 | passing over an unusable result, or one whose page is at the cap, changes no count |
| SearchPolicy.FilterByPage | rag_server/mcp_rag_secure.py:1185-1206 | the loop returns the first `max(limit, 1)` results of the greedy scan: in input order, each usable result kept when it has no page or its page holds fewer than the cap, the limit checked only after a result is kept; and that output is a diverse selection |
| SearchPolicy.FilterStep | rag_server/mcp_rag_secure.py:1188-1206 | one result is kept, and counted against its page, exactly when it is usable and has no page or its page is below the cap |
| SearchPolicy.GreedyPrefix | rag_server/mcp_rag_secure.py:1188-1206 | what the scan keeps from a prefix of the results is a prefix of what it keeps from all of them, so stopping early keeps the first results of the full scan |
| SearchPolicy.GreedyFacts | rag_server/mcp_rag_secure.py:1188-1206 | the greedy scan keeps usable results in input order, and every page holds as many of them as the input has, up to the cap; all page-less results are kept |
| SearchPolicy.GreedyDiverse | rag_server/mcp_rag_secure.py:1188-1206 | the greedy selection cut at `max(limit, 1)` results respects the per-page cap and the limit, and when it stops short of the limit every page is as full as the input and the cap allow |
| SearchPolicy.PageCountPrefix | rag_server/mcp_rag_secure.py:1199 | a prefix of the kept results never holds more results of a page than the whole |
| SearchPolicy.ApplyDiversityFilter | rag_server/mcp_rag_secure.py:1161-1215 | nothing for no results; otherwise, with the cap resolved from `max_per_page`, the intent or the query, the first `max(limit, 1)` results the greedy scan keeps, a diverse selection |
| SearchPolicy.OnePerPage | rag_server/mcp_rag_secure.py:1199 | with one result per page, a selection that stops short of the limit holds exactly one result of every page the input mentions |
| SearchPolicy.ValidateSearchParams | rag_server/mcp_rag_secure.py:1400-1414 | succeeds exactly when the query is non-empty, at least 2 characters once stripped, the space key (if any) is `[a-zA-Z0-9_-]+` and the store is ready; otherwise the first failing check names the error |
| SearchPolicy.ClampLimit | rag_server/mcp_rag_secure.py:1443 | the limit is clamped into 1..20, unchanged inside that range |
| SearchPolicy.TruncateQuery | rag_server/mcp_rag_secure.py:1439-1441 | the query is cut to its first 1000 characters |
| SearchPolicy.PrepareSearch | rag_server/mcp_rag_secure.py:1429-1445 | succeeds exactly when the stripped query validates; then the query is a 2..1000-character prefix of the stripped query, the limit is in 1..20 and the space is empty or a valid key |
| SemanticCache.KeySeparatesQueries | rag_server/semantic_cache.py:47-50 | for one space and limit, different queries never share a key |
| SemanticCache.KeysCanCollide | rag_server/semantic_cache.py:49 | the key is only the rendered `query:space:limit` string: moving a colon between query and space gives the same entry |
| SemanticCache.Unexpired | rag_server/semantic_cache.py:105-117 | the clean-up keeps exactly the unexpired entries, unchanged |
| SemanticCache.SetThenGet | rag_server/semantic_cache.py:52-103 | with a positive lifetime, what `set` stores at time `t` is what `get` answers less than `ttl` later; other keys answer as before, or not at all once expired |
| SemanticCache.CleanupInvisible | rag_server/semantic_cache.py:105-117 | lookups at the clean-up's own time see no difference, and the cache never grows |
| SemanticCache.InMemoryCache.constructor | rag_server/semantic_cache.py:42-45 | an empty cache with the given lifetime |
| SemanticCache.InMemoryCache.Get | rag_server/semantic_cache.py:52-79 | a fresh entry's results; an expired entry is deleted on the way and nothing is returned |
| SemanticCache.InMemoryCache.Set | rag_server/semantic_cache.py:81-103 | the entry is stored with the current time, then the expired entries are dropped when the size is a multiple of 100 |
| SemanticCache.InMemoryCache.Cleanup | rag_server/semantic_cache.py:105-117 | the expired keys are collected, then deleted one by one, leaving the unexpired entries |
| SemanticCache.InMemoryCache.Clear | rag_server/semantic_cache.py:119-122 | the cache is emptied |
| SemanticCache.InMemoryCache.Size | rag_server/semantic_cache.py:124-130 | the size is 0 exactly when the cache is empty |
| SemanticCache.ChooseBackend | rag_server/semantic_cache.py:248-260 | Redis exactly when it is switched on and reachable, the in-memory cache otherwise |
| SemanticQueryLog.MeanBounds | rag_server/semantic_query_log.py:118-120 | the mean of ratings from 1 to 5 is itself from 1 to 5 |
| SemanticQueryLog.GivenRatings | rag_server/semantic_query_log.py:118-119 | only ratings from 1 to 5 are recorded |
| SemanticQueryLog.MostResults | rag_server/semantic_query_log.py:116 | the recorded results count is the largest of the calls' counts |
| SemanticQueryLog.ReplayedFacts | rag_server/semantic_query_log.py:103-126 | after any series of calls a record counts exactly the calls, keeps the largest results count, records exactly the valid ratings with their mean, and is successful exactly when the last call found results and the mean (if any rating) reaches the minimum |
| SemanticQueryLog.RecordKeepsConsistent | rag_server/semantic_query_log.py:114-126 | a logged record keeps a consistent mean, so its average lies from 1 to 5 once it has a rating |
| SemanticQueryLog.KeptEntries | rag_server/semantic_query_log.py:75-78 | the entries kept by the clean-up filter are exactly those successful with an average above 2 or a count above 5, in dictionary order |
| SemanticQueryLog.SortedKept | rag_server/semantic_query_log.py:81-86 | sorting the kept entries by (average, count) keeps them distinct and orders them by rank |
| SemanticQueryLog.CleanedFacts | rag_server/semantic_query_log.py:70-92 | the clean-up leaves at most `max_log_size` entries, all worth keeping and unchanged |
| SemanticQueryLog.CleanedKeepsAll | rag_server/semantic_query_log.py:75-87 | when few enough entries are worth keeping, the clean-up keeps all of them |
| SemanticQueryLog.CleanedKeepsTop | rag_server/semantic_query_log.py:81-87 | when the clean-up trims, every entry it keeps ranks at least as high as every entry it drops |
| SemanticQueryLog.SuccessfulTerms | rag_server/semantic_query_log.py:146-150 | `(query, count, avg_rating)` of successful entries only |
| SemanticQueryLog.ExpansionTermsFacts | rag_server/semantic_query_log.py:136-155 | the expansion terms are successful logged queries with their count and average, at most `top_n`, by descending (average, count) |
| SemanticQueryLog.RelatedCandidates | rag_server/semantic_query_log.py:171-186 | each candidate is a successful logged query sharing more than 30% of the words, with its Jaccard similarity |
| SemanticQueryLog.RelatedQueriesFacts | rag_server/semantic_query_log.py:157-191 | related queries are successful logged queries sharing more than 30% of the words, at most `top_n`, most similar first |
| SemanticQueryLog.QueryLog.constructor | rag_server/semantic_query_log.py:28-47 | the loaded dictionary, cleaned up when it is over the limit |
| SemanticQueryLog.QueryLog.CleanupOldEntries | rag_server/semantic_query_log.py:70-92 | the dictionary becomes its cleaned-up form |
| SemanticQueryLog.QueryLog.LogQuery | rag_server/semantic_query_log.py:94-134 | the normalised query's record is created when new and updated, then the dictionary is cleaned up when over the limit |
| SemanticQueryLog.QueryLog.GetExpansionTerms | rag_server/semantic_query_log.py:136-155 | the expansion terms of the current dictionary |
| SemanticQueryLog.QueryLog.GetRelatedQueries | rag_server/semantic_query_log.py:157-191 | the loop over the dictionary collects the related queries |
| SemanticQueryLog.LogQueryFacts | rag_server/semantic_query_log.py:103-134 | after logging, the dictionary is well formed and never above a non-negative limit; without a clean-up the query's record is the updated one and every other entry is unchanged |
| SemanticQueryLog.RecordedWellFormed | rag_server/semantic_query_log.py:105-115 | recording a call keeps the dictionary well formed |
| Similarity.Jaccard | rag_server/synonyms_manager.py:215-220 | the Jaccard similarity lies in [0, 1], is 1 only for equal sets and 0 for disjoint ones |
| Similarity.JaccardSymmetric | rag_server/semantic_query_log.py:176-181 | similarity does not depend on the order of its arguments |
| Similarity.JaccardSelf | rag_server/mcp_rag_secure.py:626-630 | a non-empty set is fully similar to itself |
| SmartChunking.TryMergeWithLast | rag_server/sync_confluence.py:1045-1058 | a merge happens exactly when there is a last chunk with the same heading, of type text, under 600 characters, with room for the content and prefix; then only the last chunk is replaced by the merged one, otherwise nothing changes |
| SmartChunking.MergeFacts | rag_server/sync_confluence.py:1052-1055 | a merge keeps the heading, level, type and path, appends a blank line, the prefix and the content to the text, grows the size by exactly that much and stays within `max_size + 2` |
| SmartChunking.MergeExceedsLimit | rag_server/sync_confluence.py:1051-1055 | a 599-character chunk merged with 601 characters ends at 1202 for a limit of 1200: the separator is not counted in the check |
| SmartChunking.FirstBreak | rag_server/sync_confluence.py:1078 | the first split point at or after a position: a split point, with none before it |
| SmartChunking.SplitSentences | rag_server/sync_confluence.py:1078 | splitting after `.`, `!` or `?` always gives at least one piece |
| SmartChunking.SplitSentencesHead | rag_server/sync_confluence.py:1078 | the first sentence is a prefix of the text |
| SmartChunking.SplitSentencesShape | rag_server/sync_confluence.py:1078 | no sentence holds a split point, every sentence but the last ends with `.`, `!` or `?`, and every later one starts with a non-space |
| SmartChunking.SplitSentencesVisible | rag_server/sync_confluence.py:1078 | only whitespace is lost in the split: the sentences hold every other character of the text, in order |
| SmartChunking.PieceChunksSnoc | rag_server/sync_confluence.py:1068-1070 | one more kept piece adds its chunk, stripped and sized by its unstripped length, at the end |
| SmartChunking.KeepSemanticPieces | rag_server/sync_confluence.py:1068-1072 | the semantic branch keeps the pieces at least `MIN_CHUNK_SIZE` long after stripping, in order, as chunks |
| SmartChunking.SplitLargeTextBlock | rag_server/sync_confluence.py:1060-1092 | the method returns exactly the chunks of the semantic splitter when one is given, and of the sentence fallback otherwise |
| SmartChunking.LargeBlockChunksFacts | rag_server/sync_confluence.py:1060-1092 | every chunk of a large block is a text chunk under the block's heading that starts with the prefix; from the splitter it is at least `MIN_CHUNK_SIZE` long after the prefix; from the fallback it is below `max_size` or a single sentence |
| SmartChunking.ChunkBlock | rag_server/sync_confluence.py:1098-1120 | the loop body handles one block as specified |
| SmartChunking.SmartChunksSnoc | rag_server/sync_confluence.py:1098 | one more block is one more step of the loop |
| SmartChunking.SmartChunkWithContext | rag_server/sync_confluence.py:1094-1122 | the loop over the blocks returns exactly the specified chunks |
| SmartChunking.SmallTextStep | rag_server/sync_confluence.py:1113-1116 | a small text block either adds one chunk or merges into the last; earlier chunks stay as they were, and the last chunk ends with the block's prefixed text under its heading |
| SmartChunking.BlockStepKeeps | rag_server/sync_confluence.py:1098-1120 | a step never touches chunks before the last one and adds only chunks under the block's heading and level |
| SmartChunking.MergeStructural | rag_server/sync_confluence.py:1045-1058 | a merge replaces a text chunk by a text chunk, so the tables and lists are unchanged |
| SmartChunking.AppendTextStructural | rag_server/sync_confluence.py:1113-1120 | appending text chunks leaves the tables and lists unchanged |
| SmartChunking.BlockStepStructural | rag_server/sync_confluence.py:1106-1120 | each step adds to the tables and lists exactly the block's own chunk when it is one |
| SmartChunking.SmartChunksStructural | rag_server/sync_confluence.py:1094-1122 | every table and every list becomes exactly one whole chunk, in block order, and all other chunks are text |
| Sorting.SortPermutes | rag_server/hybrid_search.py:273-277 | the descending stable sort used for the fused ranking rearranges its input: same elements, same multiplicities, same length |
| Sorting.SortMembers | rag_server/hybrid_search.py:273-277 | the sorted output holds exactly the input's elements |
| Sorting.SortSorted | rag_server/hybrid_search.py:273-277 | for a total, transitive key order the output is in non-increasing key order |
| Sorting.SortStable | rag_server/hybrid_search.py:273-277 | elements whose keys tie keep their input order, as Python's stable sort guarantees with `reverse=True` |
| Sorting.SortAllTied | rag_server/hybrid_search.py:273-277 | when all keys tie, sorting keeps the input order |
| StructuralSearch.NonBlankParts | rag_server/mcp_rag_secure.py:704 | the kept pieces are stripped, non-blank and no more than the pieces |
| StructuralSearch.SplitOnFirst | rag_server/mcp_rag_secure.py:700-705 | the query split on the first separator it contains gives stripped non-blank parts; a query with no separator gives none |
| StructuralSearch.ParseWithSeparators | rag_server/mcp_rag_secure.py:691-705 | the same, over the separator list `>`, `→`, ` / `, ` \| ` |
| StructuralSearch.ParseQueryStructure | rag_server/mcp_rag_secure.py:727-767 | a query is structural exactly when the separators or the recognisers give parts; the separator parts win; a non-structural query is its own only part; the lower-cased stripped query is kept |
| StructuralSearch.FieldWeight | rag_server/mcp_rag_secure.py:773-778 | every field weight is at least 1 |
| StructuralSearch.FirstFieldFacts | rag_server/mcp_rag_secure.py:794-803 | the field found is the first weighted field containing the lower-cased part; none is found only when no field contains it |
| StructuralSearch.PrefixScore | rag_server/mcp_rag_secure.py:789-801 | the score of the first `n` matched parts is at least `2n` |
| StructuralSearch.PrefixStep | rag_server/mcp_rag_secure.py:796-801 | one more matched part adds its field weight plus its position weight to the score, and its match to the list |
| StructuralSearch.StructScorePositive | rag_server/mcp_rag_secure.py:805-808 | a document scores above 0 exactly when there is a part and every part matches |
| StructuralSearch.StructuralMatch | rag_server/mcp_rag_secure.py:770-808 | when every part matches, the weighted score and the matches of all parts; otherwise `(0, [])` |
| StructuralSearch.MatchingDocsSound | rag_server/mcp_rag_secure.py:874-890 | every hit is a non-empty input document, fully matched, with a positive score and one match per part |
| StructuralSearch.ScanDocuments | rag_server/mcp_rag_secure.py:874-890 | the scan keeps the first `limit` hits in document order |
| StructuralSearch.ScanStops | rag_server/mcp_rag_secure.py:875-876 | where the scan stops, at the end or at `limit` hits, it has found the first `limit` hits |
| StructuralSearch.ScoreDocument | rag_server/mcp_rag_secure.py:878-890 | an empty document is skipped; a document is kept exactly when it scores above 0 |
| StructuralSearch.MatchingDocsStep | rag_server/mcp_rag_secure.py:874-890 | scanning one more document adds its hit, if any |
| StructuralSearch.DocHitOfMatch | rag_server/mcp_rag_secure.py:881-890 | a non-empty document's hit follows from what the match of its parts returned |
| StructuralSearch.StructuralMetadataSearch | rag_server/mcp_rag_secure.py:810-922 | nothing for a non-structural query, an empty collection or no parts; otherwise the scanned hits sorted by descending score, cut to `limit` |
| StructuralSearch.StructuralResultFacts | rag_server/mcp_rag_secure.py:893-917 | at most `limit` results, by non-increasing score, each a non-empty input document matching every part with a positive score |
| StructuralSearch.PartKeys | mcp_rag_secure.py:892-893 | one lower-cased, stripped lookup key per part |
| StructuralSearch.FoundField | mcp_rag_secure.py:894-915 | a key is found only when it has at least two characters and the field contains it |
| StructuralSearch.AnyPartScore | mcp_rag_secure.py:892-925 | the score of the first `n` parts is never negative |
| StructuralSearch.AnyPartScorePositive | mcp_rag_secure.py:917-927 | a document scores above 0 exactly when some part is found in it |
| StructuralSearch.MatchKeys | mcp_rag_secure.py:892-925 | the loop over the parts computes the position-weighted score and the matches of the found parts |
| StructuralSearch.AnyPartMatch | mcp_rag_secure.py:889-925 | the per-document score and matches, with keys normalised once |
| StructuralSearch.AnyHitsSound | mcp_rag_secure.py:881-937 | every hit is a point with non-empty metadata in which some part was found, with its score |
| StructuralSearch.AnyHitsComplete | mcp_rag_secure.py:881-937 | every point with non-empty metadata in which some part was found is a hit |
| StructuralSearch.ScanPoints | mcp_rag_secure.py:881-937 | the scan over every point yields exactly the hits |
| StructuralSearch.AnyPartStructuralSearch | mcp_rag_secure.py:821-969 | nothing for a non-structural query or an empty collection; otherwise every hit by descending score, at most `limit` |
| StructuralSearch.AnyPartResultFacts | mcp_rag_secure.py:943-964 | at most `limit` results, by non-increasing score, each a point of the collection with a positive score |
| SyncChunking.PackPieces | rag_server/sync_confluence.py:1238-1249 | the packing loop emits exactly the specified packed pieces |
| SyncChunking.PackFoldOk | rag_server/sync_confluence.py:1238-1246 | the packing state after any number of pieces is well shaped |
| SyncChunking.PackedShortOrSingle | rag_server/sync_confluence.py:1238-1249 | every emitted piece is shorter than the size or is a single paragraph |
| SyncChunking.PackStepLossless | rag_server/sync_confluence.py:1239-1246 | one step of the packing loop adds the paragraph and its separator to the text seen so far |
| SyncChunking.PackFoldLossless | rag_server/sync_confluence.py:1238-1246 | no text is lost while packing: the emitted pieces and the pending one are the paragraphs with their separators |
| SyncChunking.PackedLossless | rag_server/sync_confluence.py:1238-1249 | concatenated, the emitted pieces are the paragraphs with their separators |
| SyncChunking.StripUnit | rag_server/sync_confluence.py:1244-1248 | a trimmed paragraph followed by whitespace strips back to the paragraph |
| SyncChunking.Paragraphs | rag_server/sync_confluence.py:1237 | the paragraphs are stripped and non-empty (at least the required length) |
| SyncChunking.ChunkSection | rag_server/sync_confluence.py:1224-1249 | the loop body for one section gives exactly that section's chunks |
| SyncChunking.ChunkFromSections | rag_server/sync_confluence.py:1220-1250 | the loop over the sections gives each section's chunks, in order |
| SyncChunking.ChunksOfSnoc | rag_server/sync_confluence.py:1223 | one more section adds its chunks at the end |
| SyncChunking.WrapShape | rag_server/sync_confluence.py:1243-1249 | wrapped pieces carry the heading, the level and the prefix, and what follows the prefix is short or one paragraph |
| SyncChunking.SectionChunkShape | rag_server/sync_confluence.py:1224-1249 | every chunk of a section carries its heading and level and starts with its parents prefix (level 3 and deeper); the rest is no longer than the size or is one whole paragraph |
| SyncChunking.ChunkText | rag_server/sync_confluence.py:1252-1285 | `chunk_text` returns exactly the specified chunks |
| SyncChunking.ChunkTextShape | rag_server/sync_confluence.py:1252-1285 | the empty text gives no chunk, a text under 100 characters is one chunk, any other text at least one; the paragraph fallback is never reached, as there is always a section |
| SyncMetadata.SanitizeValue | rag_server/sync_confluence.py:126-148 | a sanitized value keeps its kind, the `text` string is never cut, and a nested dictionary keeps its keys in order |
| SyncMetadata.SanitizeMetadata | rag_server/sync_confluence.py:110-156 | sanitizing keeps every key, in order |
| SyncMetadata.SanitizeValueFacts | rag_server/sync_confluence.py:126-148 | sanitizing only cuts values short, and leaves strings other than `text` within 1000 characters and lists within 10 items, at every depth |
| SyncMetadata.SanitizeValueFixed | rag_server/sync_confluence.py:126-148 | a value already within the limits comes out unchanged |
| SyncMetadata.SanitizeMetadataFacts | rag_server/sync_confluence.py:110-156 | the sanitized metadata keeps its keys, only cuts values short and is within the limits |
| SyncMetadata.SanitizeIdempotent | rag_server/sync_confluence.py:110-156 | sanitizing twice is sanitizing once |
| SyncMetadata.BreadcrumbParts | rag_server/sync_confluence.py:394-399 | the parts are the space key, the parents and the current title, the empty key and title left out |
| SyncMetadata.LimitLevels | rag_server/sync_confluence.py:401-403 | parts within the level limit are kept; beyond it the first part, `...`, then the last `max_levels - 1` parts (all parts again when the limit is 1, as Python's `[-0:]` gives) |
| SyncMetadata.LimitLength | rag_server/sync_confluence.py:407-409 | a breadcrumb within the length limit is kept; a longer one becomes its first `max_length - 3` characters and `...`, exactly `max_length` long |
| SyncMetadata.BuildBreadcrumb | rag_server/sync_confluence.py:362-411 | the breadcrumb is the ` > `-join of the level-limited parts, then length-limited, each limit defaulting when missing |
| SyncMetadata.BreadcrumbWhole | rag_server/sync_confluence.py:394-411 | few and short enough parts are joined with ` > ` and kept whole |
| SyncMetadata.BreadcrumbDefaultBound | rag_server/sync_confluence.py:390-411 | with the default limits a breadcrumb is never longer than 200 characters |
| SyncMetadata.BreadcrumbLevelsCut | rag_server/sync_confluence.py:402-405 | too many levels give the first part, ` > ... > `, then the last `max_levels - 1` parts |
| SyncMetadata.SafeTitle | rag_server/sync_confluence.py:443 | an escaped title has the same length, no `/` or `\`, and every other character unchanged |
| SyncMetadata.PagePathParts | rag_server/sync_confluence.py:438-444 | the path parts are the space key unless empty, then one escaped title per parent |
| SyncMetadata.BuildPagePath | rag_server/sync_confluence.py:414-446 | without parents the path is the space key |
| SyncMetadata.PagePathRoundTrip | rag_server/sync_confluence.py:414-446 | splitting the path on `/` gives back the space key and the escaped titles |
| SyncMetadata.SafeTitlePlain | rag_server/sync_confluence.py:443 | titles without `/` or `\` appear in the path unchanged |
| SyncMetadata.SplitOnJoin | rag_server/sync_confluence.py:446 | splitting on a separator no part contains undoes joining on it |
| SyncMetadata.TitlesOf | rag_server/sync_confluence.py:513-517 | the parent titles are non-empty and at most one per ancestor |
| SyncMetadata.ExtractHierarchy | rag_server/sync_confluence.py:494-521 | no ancestors give the empty hierarchy; otherwise the depth is the number of ancestors, the titles are the ancestors' non-empty titles, and the parent is the last ancestor when it is a dictionary |
| SyncMetadata.ParentTitleLast | rag_server/sync_confluence.py:506-517 | a titled parent is the last of the parent titles |
| SyncMetadata.TitlesOfAncestors | rag_server/sync_confluence.py:513-517 | every parent title is the title of some ancestor |
| SyncParsers.DigitsOfNat | rag_server/sync_confluence.py:43 | the digits written for a natural number read back as that number |
| SyncParsers.StripUnpadded | rag_server/sync_confluence.py:43 | a string with no surrounding whitespace is unchanged by the stripping `int()` applies |
| SyncParsers.ParseSignedDigits | rag_server/sync_confluence.py:43 | digits after an optional minus sign parse to their signed value |
| SyncParsers.ParseIntRejects | rag_server/sync_confluence.py:43-50 | a value starting with neither whitespace, a sign nor a digit is not an integer |
| SyncParsers.ParseIntRoundTrip | rag_server/sync_confluence.py:43 | `int(str(n)) == n` for every integer |
| SyncParsers.ParseIntNoMinus | rag_server/sync_confluence.py:43-46 | a value without a minus sign never parses to a negative number |
| SyncParsers.GetIntEnv | rag_server/sync_confluence.py:40-50 | the setting is the variable's integer when it parses and is positive, and the default when it is unset, unparsable, zero or negative |
| SyncParsers.GetIntEnvPositive | rag_server/sync_confluence.py:40-47 | a positive setting is read back exactly as written |
| SyncParsers.GetIntEnvNonPositive | rag_server/sync_confluence.py:44-46 | a zero or negative setting falls back to the default |
| SyncParsers.GetIntEnvRejects | rag_server/sync_confluence.py:40-50 | "invalid", "0" and "-5" all fall back to the default |
| SyncParsers.GetBoolEnv | rag_server/sync_confluence.py:53-56 | a set variable is true exactly when its lower-cased value is `true`, `1`, `yes` or `on`; an unset one gives the default |
| SyncParsers.GetBoolEnvCaseInsensitive | rag_server/sync_confluence.py:55 | the boolean setting ignores letter case |
| SyncParsers.GetTimestamp | rag_server/sync_confluence.py:238-253 | the timestamp is never negative, and is 0 when `version.when` is missing or empty |
| SyncParsers.DateDigits | rag_server/sync_confluence.py:250 | removing the dashes from `YYYY-MM-DD` leaves `YYYYMMDD` |
| SyncParsers.GetTimestampIsoDate | rag_server/sync_confluence.py:248-250 | a value starting with an ISO date `YYYY-MM-DD` gives the number `YYYYMMDD` |
| SyncParsers.GetTimestampNotNumber | rag_server/sync_confluence.py:248-253 | a short dashless value starting with neither a digit nor a sign gives 0 |
| SyncParsers.GetTimestampInvalid | rag_server/sync_confluence.py:248-253 | the value "invalid" gives 0 |
| SyncSections.HeadingOf | rag_server/sync_confluence.py:1184-1195 | a heading line starts with `#`, has one to six of them and at least two more characters; a line not starting with `#` is never a heading |
| SyncSections.ParentHeadings | rag_server/sync_confluence.py:1201 | the parent headings are the texts of the stack entries, in stack order |
| SyncSections.Below | rag_server/sync_confluence.py:1198 | the filtered stack keeps only entries shallower than the new heading |
| SyncSections.ExtractSections | rag_server/sync_confluence.py:1169-1218 | the scanning loop over the lines returns the specified sections |
| SyncSections.BelowIncreasing | rag_server/sync_confluence.py:1198 | filtering a stack of strictly increasing levels keeps it strictly increasing and shallower than the new level |
| SyncSections.StepHeading | rag_server/sync_confluence.py:1188-1210 | a heading line closes the current section only when it has lines, and opens one under the shallower headings, keeping the invariant |
| SyncSections.StepPlain | rag_server/sync_confluence.py:1211-1212 | a non-heading line joins the current section and keeps the invariant |
| SyncSections.StepLines | rag_server/sync_confluence.py:1186-1212 | each step keeps every line seen so far and adds the new one to the current section |
| SyncSections.ScanInvariant | rag_server/sync_confluence.py:1186-1212 | the loop's invariant (well-formed sections, a heading stack of increasing levels) holds after any number of lines |
| SyncSections.ScanContent | rag_server/sync_confluence.py:1186-1212 | every scanned line is in exactly one section, in order |
| SyncSections.SectionsCoverText | rag_server/sync_confluence.py:1179-1218 | the sections' lines, concatenated, are exactly the text split on newlines: nothing is lost or reordered |
| SyncSections.SectionsWellFormed | rag_server/sync_confluence.py:1186-1216 | every section has lines; a heading's section starts with its heading line, and its parents are shallower headings, shallowest first |
| SyncSections.SectionsNonEmpty | rag_server/sync_confluence.py:1179-1218 | there is always at least one section, even for the empty text |
| Synonyms.MinerKeywordsFacts | rag_server/synonyms_manager.py:114-128 | the miner's keywords are exactly the tokens of the lower-cased text longer than two characters and not stop words |
| Synonyms.AddTerm | rag_server/synonyms_manager.py:150-155 | one keyword occurrence keeps the co-occurrence graph well formed |
| Synonyms.AddTerms | rag_server/synonyms_manager.py:147-155 | all keyword occurrences of one query keep the graph well formed |
| Synonyms.Replay | rag_server/synonyms_manager.py:101-112 | replaying a log keeps the graph well formed |
| Synonyms.AddTermsStats | rag_server/synonyms_manager.py:147-155 | one query's keywords grow a term's count by its occurrences and its pages by the query's pages when it occurs |
| Synonyms.RebuildStats | rag_server/synonyms_manager.py:99-112 | the rebuilt graph holds every logged term, its count the number of its keyword occurrences and its pages those of the queries it occurs in |
| Synonyms.Candidates | rag_server/synonyms_manager.py:206-223 | every candidate is another term with at least two pages and Jaccard similarity at least the threshold |
| Synonyms.SynonymsOfFacts | rag_server/synonyms_manager.py:180-228 | learned synonyms are at most five other terms with at least two pages and similarity at least the threshold, most similar first; none for an unknown or thinly paged term |
| Synonyms.QueryMiner.constructor | rag_server/synonyms_manager.py:76-87 | the loaded log, and the graph rebuilt from it |
| Synonyms.QueryMiner.RebuildCoOccurrence | rag_server/synonyms_manager.py:99-112 | every logged entry is replayed onto the current graph; the log is unchanged |
| Synonyms.QueryMiner.AddKeywords | rag_server/synonyms_manager.py:150-155 | the loop over one query's keywords adds them to the graph |
| Synonyms.QueryMiner.LogQuery | rag_server/synonyms_manager.py:130-163 | the entry, with the page ids of the results that have metadata, is appended and the graph updated incrementally; it stays the graph rebuilt from the log |
| Synonyms.QueryMiner.FindSynonyms | rag_server/synonyms_manager.py:180-228 | the learned synonyms of the lower-cased term |
| Synonyms.QueryMiner.ExportLearnedSynonyms | rag_server/synonyms_manager.py:230-255 | exactly the terms logged at least three times that have synonyms, each mapped to its synonyms at threshold 0.5 |
| Synonyms.ResultPages | rag_server/synonyms_manager.py:141 | at most one page id per result |
| Synonyms.LoggingMatchesRebuild | rag_server/synonyms_manager.py:99-163 | logging one more query updates the rebuilt graph exactly as the incremental update does: rebuilding from the log reproduces the incremental graph |
| Synonyms.MergeStep | rag_server/synonyms_manager.py:410-414 | one synonym more is kept exactly when its lower-cased form is neither the word nor one already seen |
| Synonyms.MergeSynonyms | rag_server/synonyms_manager.py:408-414 | the merge loop keeps the first synonym of each lower-cased form other than the word |
| Synonyms.SynonymsManager.constructor | rag_server/synonyms_manager.py:273-287 | the domain terms and a fresh miner over the loaded log |
| Synonyms.SynonymsManager.GetSynonyms | rag_server/synonyms_manager.py:375-416 | the base, domain and learned synonyms of the lower-cased word, merged without repeats up to case and without the word, cut to `max_synonyms` |
| Synonyms.SynonymsManager.LogQuery | rag_server/synonyms_manager.py:418-426 | the query is handed to the miner, whose log grows by its entry |
| Synonyms.MergedSynonymsFacts | rag_server/synonyms_manager.py:391-416 | the merged synonyms never repeat a word up to case, never contain the word, keep the sources' order and number at most `max_synonyms` |

## Left out

**Whole system**
- Concurrency is not modelled: thread pools, asyncio, locks and
  double-checked locking. Parallel branches are modelled by their
  sequential semantics.
- Logging, tracing and metrics are not modelled.
- Network and database I/O become parameters of the model: Confluence,
  Qdrant, Postgres, Redis, Ollama, OpenRouter, embedding models and the
  cross-encoder.
- Clocks and environment variables become parameters too.
- Characters: `Text.Lower` folds only ASCII A-Z, Cyrillic А-Я and Ё.
  `IsSpace` covers only the six ASCII whitespace characters. Word
  characters for `\b` are only ASCII letters, digits, `_` and the
  Cyrillic block. Full Unicode case folding and classes are not
  modelled.
- Float formatting (`:.2f`, `:.3f`, `:.6f`, `%.1f%%`) is not modelled:
  numbers appear through a formatting parameter or unformatted.

**Query side**
- Operations outside the modelled core are not part of this model:
  - initialisation of the reranker and the RAG stack;
  - the health, list-spaces and label-search tools;
  - the metadata-listing cache;
  - `analyze_query_with_metadata`;
  - `expand_context_window`;
  - the two servers' `format_search_results`;
  - the cache around `cached_structural_search`.
- `detect_content_type` and `_parse_with_regex` are abstract parameters.
  They are regex and HTML recognisers.
- The cross-encoder's score assignment and the MMR numpy fallbacks are
  not modelled. Rerank scores are inputs.
- `_extract_space_from_query` is not modelled.
- SearchPolicy.ValidateSearchParams: the non-string query case does not
  arise, because the query is a string.
- ResultContext.HierarchyBoost: `heading_level` is an integer parameter.
  Metadata values are strings, and non-dictionary metadata is not
  modelled.
- RootSearch.ApplyMetadataBoost: when a result has no `rerank_score`,
  the source's sort raises KeyError and keeps the original order. The
  model's sort reads a missing score as 0.
- RootSearch.DeduplicateResults: signatures are compared as strings, so
  hash collisions are not modelled.
- The limits that the source reads from the environment are parameters.
  Their parsing is not modelled.
- Synonyms:
  - JSON file persistence is not modelled, nor the periodic saves
    (every 10 logged queries) and exports (every 50);
  - `extract_domain_terms` is not modelled;
  - learned synonyms are a parameter of `get_synonyms`;
  - an embedding shorter than expected is an error value.
- SemanticQueryLog:
  - the JSON file and the environment settings are parameters;
  - the save every 5 queries is not modelled;
  - `.get` defaults on malformed entries are not modelled.
- QueryRewriter:
  - prompts and examples are not modelled;
  - `get_successful_queries` does not exist on the semantic query log,
    so the examples are always absent;
  - LLM replies are parameters.
- SemanticCache:
  - the MD5 key is modelled by the string it hashes;
  - Redis is not modelled;
  - one clock reading serves a `set` and the clean-up it triggers.
- ContextExpansion:
  - the `error` mode is not reached in the model, since the fetches do
    not raise;
  - dictionaries updated in place are returned as new values;
  - embedding similarity and the scroll limit of 100 are inside the
    fetch parameters.
- HallucinationDetector: semantic similarity is an input, and the unused
  `query` argument is dropped.
- ResponseFormatter:
  - the unused `diversity_limit` is dropped;
  - the intent is reduced to its `type` string;
  - non-string attachment values are not modelled.
- QdrantStorage:
  - the client, `json.loads` and the search call are parameters;
  - pydantic validation of points is an `accepts` predicate;
  - ids are already rendered with `str`;
  - named vectors are not modelled;
  - client initialisation, the singleton and the collection set-up are
    not modelled;
  - a raising `mmr_rerank` is a boolean parameter;
  - a raising `_parse_where_filter` gives `None`;
  - `insert_chunk_to_qdrant`, `get_qdrant_count`, the two deletes and
    `clear_qdrant_collection` are single client calls, not modelled.
- QdrantStorage.ApplyMmrDiversification: the MMR branch only states that
  its output is drawn from the input and has at most `limit` results.
  The greedy MMR order is stated by `Mmr.MmrRerank`.

**Sync side**
- SyncParsers.GetIntEnv: Python's `int()` also accepts underscores and
  non-ASCII digits. These are not modelled.
- Environment overrides of the breadcrumb and chunk-size constants are
  not modelled. Their defaults are used.
- The Bloom filter option of `BatchProcessor` is not modelled: processed
  ids are a set.
- `get_stats` is not modelled.
- The legacy `process_batch` is `Batch.BatchProcessor.ProcessBatchSafe`
  on a processor built with one retry. It has no member of its own.
- Batch: the indexing of one page is an oracle of the page id and the
  attempt number. `_process_page_logic` covers fetching, HTML parsing,
  chunking, Postgres and Qdrant.
- Batch: `mark_as_indexed` is assumed not to raise.
- Batch: the retry back-off `2 ** attempt` and the error-detail timestamp
  are not modelled.
- SmartChunking:
  - the LangChain semantic splitter is an optional parameter;
  - HTML block extraction (BeautifulSoup) is not modelled;
  - the in-place merge into the last chunk is modelled as replacing that
    list element.
- SyncSections: parent headings are kept as (level, text) stack entries.
- PageCache: the hit rate is a number, not the `"%.1f%%"` text.
- PageCache.PageCache.GetPageCached: the fetched page is a parameter, so a
  miss whose fetch raises is not expressed. The source counts that miss
  (rag_server/sync_confluence.py:313), then `get_page` raises (:318) and
  nothing is cached; the model always stores the page it is given.

## Findings

| source | as written | input that shows it | evidently intended | confidence | as-written member | corrected member |
|---|---|---|---|---|---|---|
| rag_server/query_rewriter.py:362-364 | the hit rate divides `cache_hits` by `total_requests`, but only cache misses count as requests | one call for a query (a miss), then two more within the cache lifetime (two hits): 2 / 1 reports 200% | the share of cached calls answered from the cache, hits / (hits + misses), within 0-100% | not executed | QueryRewriter.HitRateAboveHundred | QueryRewriter.CachedHitRate |
| rag_server/context_expansion.py:392-396 | `all` runs the related expansion on the bidirectional result, and that expansion rebuilds `expanded_text` from the chunk's own text | a page of three chunks, the middle one found, context size 1, no embeddings model: `bidirectional` gives all three texts, `all` gives the found text and one related chunk | `all` keeps the neighbouring chunks and appends the related ones | not executed | ContextExpansion.AllDropsNeighbours | ContextExpansion.ExpandAllKeepsNeighbours |
