/**
 * The text the search tool returns (`rag_server/response_formatter.py`):
 * the list of results with their score bands, paths, matching section
 * headings, attachments and previews, and the messages for no results,
 * errors and low relevance. Each message is a list of lines joined with
 * newlines. Rendering a float to a fixed number of decimals is the
 * parameter `fmt`.
 */
module ResponseFormatter {
  import opened Wrappers
  import opened Text
  import opened Seqs

  /** `f"{x:.{digits}f}"`. */
  type Fixed = (real, nat) -> string

  // ---------------------------------------------------------------------
  // Score bands
  // ---------------------------------------------------------------------

  const Green: string := "\U{1F7E2}"
  const Yellow: string := "\U{1F7E1}"
  const Orange: string := "\U{1F7E0}"
  const White: string := "\U{26AA}"

  /** The score's band marker. */
  function Emoji(score: real): string {
    if score > 0.7 then Green else if score > 0.3 then Yellow else if score > 0.1 then Orange else White
  }

  /** The band's rank, worst first. */
  function BandRank(e: string): nat {
    if e == Green then 3 else if e == Yellow then 2 else if e == Orange then 1 else 0
  }

  /**
   * The bands: green above 0.7, yellow above 0.3, orange above 0.1, white
   * otherwise; a higher score never gets a worse band.
   */
  lemma EmojiBands(score: real, higher: real)
    ensures Emoji(score) == Green <==> score > 0.7
    ensures Emoji(score) == Yellow <==> 0.3 < score <= 0.7
    ensures Emoji(score) == Orange <==> 0.1 < score <= 0.3
    ensures Emoji(score) == White <==> score <= 0.1
    ensures score <= higher ==> BandRank(Emoji(score)) <= BandRank(Emoji(higher))
  {
    assert Green != Yellow && Green != Orange && Green != White && Yellow != Orange && Yellow != White && Orange != White by {
      assert Green[0] != Yellow[0] && Green[0] != Orange[0] && Green[0] != White[0];
      assert Yellow[0] != Orange[0] && Yellow[0] != White[0] && Orange[0] != White[0];
    }
  }

  // ---------------------------------------------------------------------
  // Preview
  // ---------------------------------------------------------------------

  const PreviewLength: nat := 500

  /** The text, or its first 500 characters and an ellipsis when longer. */
  function Preview(text: string): string {
    if |text| > PreviewLength then text[..PreviewLength] + "..." else text
  }

  /** A preview is at most 503 characters, starts with the text's first 500, and is the whole text when that is short. */
  lemma PreviewFacts(text: string)
    ensures |Preview(text)| <= PreviewLength + 3
    ensures |text| <= PreviewLength ==> Preview(text) == text
    ensures |text| > PreviewLength ==> Preview(text)[..PreviewLength] == text[..PreviewLength] && Preview(text)[PreviewLength..] == "..."
  {
  }

  // ---------------------------------------------------------------------
  // Section headings
  // ---------------------------------------------------------------------

  const StopWords: set<string> := {
    "в", "на", "по", "для", "с", "к", "из", "о", "об", "и", "а", "но", "или", "же",
    "the", "a", "an", "in", "on", "at", "for", "with", "to", "of", "and", "or", "but"}

  /** The query's lower-cased words longer than two characters that are not stop words. */
  function QueryWords(query: string): set<string> {
    set w | w in Split(Lower(query)) && w !in StopWords && |w| > 2
  }

  function WordSet(s: string): set<string> {
    set w | w in Split(Lower(s))
  }

  /** A heading worth showing: it shares a word with the query, or the query has no words to match. */
  predicate Matches(words: set<string>, heading: string) {
    words == {} || words * WordSet(heading) != {}
  }

  function MatchesIn(words: set<string>): string -> bool {
    h => Matches(words, h)
  }

  /** The first three matching headings among the first ten. */
  function RelevantHeadings(query: string, headings: seq<string>): seq<string> {
    Take(Filter(Take(headings, 10), MatchesIn(QueryWords(query))), 3)
  }

  /** Filtering a prefix gives a prefix of the filtered whole. */
  lemma {:induction false} FilterPrefix<T>(xs: seq<T>, i: nat, p: T -> bool)
    requires i <= |xs|
    ensures |Filter(xs[..i], p)| <= |Filter(xs, p)|
    ensures Filter(xs, p)[..|Filter(xs[..i], p)|] == Filter(xs[..i], p)
    decreases |xs| - i
  {
    if i < |xs| {
      FilterPrefix(xs, i + 1, p);
      assert xs[..i + 1] == xs[..i] + [xs[i]];
      FilterSnoc(xs[..i], xs[i], p);
    } else {
      assert xs[..i] == xs;
    }
  }

  /** The heading filter of `format_success`: a loop over the first ten headings that stops at three. */
  method SelectHeadings(query: string, headings: seq<string>) returns (relevant: seq<string>)
    ensures relevant == RelevantHeadings(query, headings)
  {
    var words := QueryWords(query);
    var first := Take(headings, 10);
    relevant := [];
    var i := 0;
    while i < |first| && |relevant| < 3
      invariant 0 <= i <= |first|
      invariant relevant == Filter(first[..i], MatchesIn(words))
      invariant |relevant| <= 3
    {
      var h := first[i];
      assert first[..i + 1] == first[..i] + [h];
      FilterSnoc(first[..i], h, MatchesIn(words));
      if words == {} {
        relevant := relevant + [h];
      } else if words * WordSet(h) != {} {
        relevant := relevant + [h];
      }
      i := i + 1;
    }
    FilterPrefix(first, i, MatchesIn(words));
    if i == |first| {
      assert first[..i] == first;
    }
  }

  /** The headings shown on the `Sections` line, or none when the result has no headings. */
  function ShownHeadings(query: string, headings: seq<string>): seq<string> {
    var relevant := RelevantHeadings(query, headings);
    if headings == [] then [] else if relevant != [] then relevant else Take(headings, 3)
  }

  /**
   * At most three headings are shown, and some are exactly when the
   * result has headings. They are the first three of the first ten that
   * share a word with the query, in order; when none does, or the query
   * has no words to match, the first three headings.
   */
  lemma ShownHeadingsFacts(query: string, headings: seq<string>)
    ensures var shown := ShownHeadings(query, headings);
            |shown| <= 3
            && (shown == [] <==> headings == [])
            && (QueryWords(query) == {} ==> shown == Take(headings, 3))
            && (RelevantHeadings(query, headings) != [] ==>
                  forall h :: h in shown ==> h in Take(headings, 10) && Matches(QueryWords(query), h))
            && (RelevantHeadings(query, headings) == [] ==> shown == Take(headings, 3))
  {
    var words := QueryWords(query);
    var first := Take(headings, 10);
    var filtered := Filter(first, MatchesIn(words));
    if words == {} && headings != [] {
      AllMatch(first, words);
      assert |first| >= 1;
      if |headings| >= 3 {
        assert Take(headings, 3) == first[..3];
      } else {
        assert first == headings;
      }
    }
  }

  lemma {:induction false} AllMatch(xs: seq<string>, words: set<string>)
    requires words == {}
    ensures Filter(xs, MatchesIn(words)) == xs
  {
    if xs != [] {
      AllMatch(xs[1..], words);
      assert xs == [xs[0]] + xs[1..];
    }
  }

  // ---------------------------------------------------------------------
  // Attachments
  // ---------------------------------------------------------------------

  /** The attachment names shown: the first three comma-separated names, and how many more there are. */
  function AttachmentPreview(attachments: string): string {
    var names := SplitOn(attachments, ",");
    Join(", ", Take(names, 3)) + (if |names| > 3 then " (+" + IntToString(|names| - 3) + ")" else "")
  }

  /**
   * Up to three names are listed in full; beyond three, the first three
   * are listed and followed by the count of the others.
   */
  lemma AttachmentPreviewFacts(attachments: string)
    ensures var names := SplitOn(attachments, ",");
            (|names| <= 3 ==> AttachmentPreview(attachments) == Join(", ", names))
            && (|names| > 3 ==>
                  StartsWith(AttachmentPreview(attachments), Join(", ", names[..3]))
                  && AttachmentPreview(attachments)[|Join(", ", names[..3])|..] == " (+" + IntToString(|names| - 3) + ")")
  {
  }

  // ---------------------------------------------------------------------
  // Header and statistics
  // ---------------------------------------------------------------------

  /** Ten of the rule characters. */
  const RuleTen: string := "━━━━━━━━━━"

  /** `"━" * 70`, the rule under the headers. */
  const Rule: string := RuleTen + RuleTen + RuleTen + RuleTen + RuleTen + RuleTen + RuleTen

  function Header(query: string): string {
    "\U{1F4DA} Search Results for: \"" + query + "\"" + "\n" + Rule
  }

  /** `int(x)`: truncation toward zero. */
  function Trunc(x: real): int {
    if x >= 0.0 then x.Floor else -((-x).Floor)
  }

  /** The statistics line's parts. */
  function StatsParts(intentType: string, count: nat, latencyMs: Option<real>, counts: Option<(int, int)>): seq<string> {
    ["Query Type: " + intentType, "Results: " + IntToString(count)]
    + (if latencyMs.Some? then ["Time: " + IntToString(Trunc(latencyMs.value)) + "ms"] else [])
    + (if counts.Some? then ["Vector: " + IntToString(counts.value.0) + ", BM25: " + IntToString(counts.value.1)] else [])
  }

  function Stats(intentType: string, count: nat, latencyMs: Option<real>, counts: Option<(int, int)>): string {
    Join(" | ", StatsParts(intentType, count, latencyMs, counts))
  }

  /** A join of at least two parts starts with the first two. */
  lemma JoinFirstTwo(sep: string, a: string, b: string, rest: seq<string>)
    ensures StartsWith(Join(sep, [a, b] + rest), a + sep + b)
  {
    assert [a, b] + rest == [a] + ([b] + rest);
    JoinCons(sep, a, [b] + rest);
    JoinCons(sep, b, rest);
    if rest != [] {
      PrefixThrough(a + sep + b, sep + Join(sep, rest), "");
    }
  }

  /** A join of at least three parts starts with the first three. */
  lemma JoinFirstThree(sep: string, a: string, b: string, c: string, rest: seq<string>)
    ensures StartsWith(Join(sep, [a, b, c] + rest), a + sep + b + sep + c)
  {
    assert [a, b, c] + rest == [a] + ([b, c] + rest);
    JoinCons(sep, a, [b, c] + rest);
    JoinFirstTwo(sep, b, c, rest);
    PrefixThrough(a + sep, Join(sep, [b, c] + rest), b + sep + c);
  }

  lemma PrefixThrough(x: string, y: string, t: string)
    requires StartsWith(y, t)
    ensures StartsWith(x + y, x) && StartsWith(x + y, x + t)
  {
    assert (x + y)[..|x|] == x;
    assert (x + y)[..|x + t|] == x + t;
  }

  lemma StartsWithContains(s: string, pre: string, t: string)
    requires StartsWith(s, pre + t)
    ensures Contains(s, t)
  {
    assert s[|pre|..|pre| + |t|] == (pre + t)[|pre|..];
    ContainsAt(s, t, |pre|);
  }

  /** The header names the query. */
  lemma HeaderNamesQuery(query: string)
    ensures StartsWith(Header(query), "\U{1F4DA} Search Results for: \"" + query + "\"")
  {
    PrefixThrough("\U{1F4DA} Search Results for: \"" + query + "\"", "\n" + Rule, "");
    assert Header(query) == ("\U{1F4DA} Search Results for: \"" + query + "\"") + ("\n" + Rule);
  }

  /**
   * The statistics line starts with the query type and the number of
   * results, and shows the latency, as an integer, when it is given.
   */
  lemma StatsFacts(intentType: string, count: nat, latencyMs: Option<real>, counts: Option<(int, int)>)
    ensures StartsWith(Stats(intentType, count, latencyMs, counts), "Query Type: " + intentType + " | Results: " + IntToString(count))
    ensures latencyMs.Some? ==> Contains(Stats(intentType, count, latencyMs, counts), "Time: " + IntToString(Trunc(latencyMs.value)) + "ms")
  {
    var parts := StatsParts(intentType, count, latencyMs, counts);
    StatsPartsShape(intentType, count, latencyMs, counts);
    JoinLeadingParts(" | ", parts);
  }

  /** The parts of the statistics line: the query type, the count, then the latency when given. */
  lemma StatsPartsShape(intentType: string, count: nat, latencyMs: Option<real>, counts: Option<(int, int)>)
    ensures var parts := StatsParts(intentType, count, latencyMs, counts);
            |parts| >= 2
            && parts[0] + " | " + parts[1] == "Query Type: " + intentType + " | Results: " + IntToString(count)
            && (latencyMs.Some? ==> |parts| >= 3 && parts[2] == "Time: " + IntToString(Trunc(latencyMs.value)) + "ms")
  {
    var x := "Query Type: " + intentType;
    var y := IntToString(count);
    assert x + " | " + ("Results: " + y) == x + (" | " + "Results: ") + y;
    assert " | " + "Results: " == " | Results: ";
  }

  /** A join of at least two parts starts with the first two, and contains the third when there is one. */
  lemma JoinLeadingParts(sep: string, parts: seq<string>)
    requires |parts| >= 2
    ensures StartsWith(Join(sep, parts), parts[0] + sep + parts[1])
    ensures |parts| >= 3 ==> Contains(Join(sep, parts), parts[2])
  {
    var a, b, rest := parts[0], parts[1], parts[2..];
    assert parts == [a, b] + rest;
    JoinFirstTwo(sep, a, b, rest);
    if |parts| >= 3 {
      assert parts == [a, b, rest[0]] + rest[1..];
      JoinFirstThree(sep, a, b, rest[0], rest[1..]);
      StartsWithContains(Join(sep, parts), a + sep + b + sep, rest[0]);
    }
  }

  // ---------------------------------------------------------------------
  // One result
  // ---------------------------------------------------------------------

  /** The result's `metadata`; an empty dictionary when missing or not a dictionary. */
  datatype ResultMetadata = ResultMetadata(title: Option<string>, space: Option<string>, url: string, chunk: int,
                                           breadcrumb: string, headings: seq<string>, labels: string, createdBy: string,
                                           attachments: string)

  const EmptyMetadata := ResultMetadata(None, None, "", 0, "", [], "", "", "")

  /**
   * A result dictionary's fields the formatter reads; a missing string or
   * list is empty, a missing number 0, except `final_score` (the rerank
   * score when missing), `context_chunks` (1 when missing) and `text`.
   */
  datatype Shown = Shown(metadata: ResultMetadata, title: string, breadcrumb: string, url: string, chunkNum: int,
                         rerankScore: real, finalScore: Option<real>, hierarchyBoost: real, breadcrumbBoost: real,
                         contextChunks: int, headings: seq<string>, labels: string, createdBy: string,
                         attachments: string, expandedText: string, text: Option<string>)

  function TitleOf(r: Shown): string {
    if r.title != "" then r.title
    else if r.breadcrumb != "" then r.breadcrumb
    else if r.metadata.title.Some? then r.metadata.title.value
    else "Без названия"
  }

  function FinalScore(r: Shown): real {
    if r.finalScore.Some? then r.finalScore.value else r.rerankScore
  }

  function Or(a: string, b: string): string { if a != "" then a else b }

  /** The score, and the parts that boosted it when a boost applies. */
  function ScoreText(r: Shown, fmt: Fixed): string {
    var details := (if r.rerankScore > 0.0 then ["base:" + fmt(r.rerankScore, 2)] else [])
                   + (if r.hierarchyBoost > 0.0 then ["+hier:" + fmt(r.hierarchyBoost, 2)] else [])
                   + (if r.breadcrumbBoost > 0.0 then ["+path:" + fmt(r.breadcrumbBoost, 2)] else []);
    var parts := [Emoji(FinalScore(r)) + " " + fmt(FinalScore(r), 3)]
                 + (if r.hierarchyBoost > 0.0 || r.breadcrumbBoost > 0.0 then ["(" + Join(", ", details) + ")"] else []);
    Join(" | ", parts)
  }

  /** The chunk count, shown only for more than one chunk. */
  function ContextText(contextChunks: int): (s: string)
    ensures s != "" <==> contextChunks > 1
  {
    if contextChunks > 1 then " | \U{1F4DA} " + IntToString(contextChunks) + " chunks" else ""
  }

  function ExtraText(r: Shown): string {
    var labels := Or(r.metadata.labels, r.labels);
    var createdBy := Or(r.metadata.createdBy, r.createdBy);
    var attachments := Or(r.metadata.attachments, r.attachments);
    var extra := (if labels != "" then ["\U{1F3F7}\U{FE0F} " + labels] else [])
                 + (if createdBy != "" then ["\U{1F464} " + createdBy] else [])
                 + (if attachments != "" then ["\U{1F4CE} " + AttachmentPreview(attachments)] else []);
    var joined := Join(" | ", extra);
    if joined != "" then " | " + joined else ""
  }

  function PreviewSource(r: Shown): string {
    if r.expandedText != "" then r.expandedText
    else if r.text.Some? then r.text.value
    else "[Текст недоступен]"
  }

  function TitleLine(position: nat, r: Shown): string {
    IntToString(position) + ". " + TitleOf(r) + " " + Emoji(FinalScore(r))
  }

  function PathLines(r: Shown): (lines: seq<string>)
    ensures |lines| <= 1
  {
    var breadcrumb := Or(r.breadcrumb, r.metadata.breadcrumb);
    if breadcrumb != "" then ["   \U{1F4CD} Path: " + breadcrumb] else []
  }

  function SectionLines(query: string, r: Shown): (lines: seq<string>)
    ensures |lines| <= 1
  {
    var shown := ShownHeadings(query, if r.headings != [] then r.headings else r.metadata.headings);
    if shown != [] then ["   \U{1F4D1} Sections: " + Join(" | ", shown)] else []
  }

  function DetailLine(r: Shown, fmt: Fixed): string {
    var space := if r.metadata.space.Some? then r.metadata.space.value else "Unknown";
    var chunk := if r.metadata.chunk != 0 then r.metadata.chunk else r.chunkNum;
    "   \U{2022} Space: " + space + " | Chunk #" + IntToString(chunk) + " | " + ScoreText(r, fmt)
    + ContextText(r.contextChunks) + ExtraText(r)
  }

  function UrlLines(r: Shown): (lines: seq<string>)
    ensures |lines| <= 1
  {
    var url := Or(r.metadata.url, r.url);
    if url != "" then ["   \U{2022} URL: " + url] else []
  }

  function PreviewLine(r: Shown): string {
    "   \U{2022} Preview: " + Preview(PreviewSource(r))
  }

  /** The lines of the result at 1-based `position`. */
  function Block(query: string, position: nat, r: Shown, fmt: Fixed): seq<string> {
    PathLines(r) + SectionLines(query, r) + [TitleLine(position, r), DetailLine(r, fmt)] + UrlLines(r) + [PreviewLine(r), ""]
  }

  /** A block names its result with its position, title and band, previews its text and ends with a blank line. */
  lemma BlockFacts(query: string, position: nat, r: Shown, fmt: Fixed)
    ensures 4 <= |Block(query, position, r, fmt)| <= 7
    ensures TitleLine(position, r) in Block(query, position, r, fmt)
    ensures PreviewLine(r) in Block(query, position, r, fmt)
    ensures Block(query, position, r, fmt)[|Block(query, position, r, fmt)| - 1] == ""
  {
    var head := PathLines(r) + SectionLines(query, r);
    var b := head + [TitleLine(position, r), DetailLine(r, fmt)] + UrlLines(r) + [PreviewLine(r), ""];
    assert Block(query, position, r, fmt) == b;
    assert b[|head|] == TitleLine(position, r);
    assert b[|b| - 2] == PreviewLine(r);
  }

  // ---------------------------------------------------------------------
  // format_success
  // ---------------------------------------------------------------------

  /** The blocks of the results at positions 1.., a missing or non-dictionary result (`None`) skipped but counted. */
  function Blocks(query: string, results: seq<Option<Shown>>, fmt: Fixed): seq<string> {
    if results == [] then []
    else
      var n := |results|;
      Blocks(query, results[..n - 1], fmt) + (if results[n - 1].Some? then Block(query, n, results[n - 1].value, fmt) else [])
  }

  /** The header, the statistics and a blank line. */
  function Prelude(query: string, intentType: string, count: nat, latencyMs: Option<real>,
                   counts: Option<(int, int)>): seq<string> {
    [Header(query), Stats(intentType, count, latencyMs, counts), ""]
  }

  function SuccessLines(query: string, results: seq<Option<Shown>>, intentType: string, latencyMs: Option<real>,
                        counts: Option<(int, int)>, fmt: Fixed): seq<string> {
    Prelude(query, intentType, |results|, latencyMs, counts) + Blocks(query, results, fmt)
  }

  /** One more result adds its block, when it is a dictionary. */
  lemma BlocksSnoc(query: string, results: seq<Option<Shown>>, i: nat, fmt: Fixed)
    requires i < |results|
    ensures Blocks(query, results[..i + 1], fmt)
            == Blocks(query, results[..i], fmt) + (if results[i].Some? then Block(query, i + 1, results[i].value, fmt) else [])
  {
    assert results[..i + 1][..i] == results[..i];
  }

  lemma AppendAssoc<T>(a: seq<T>, b: seq<T>, c: seq<T>)
    ensures (a + b) + c == a + (b + c)
  {
  }

  /**
   * `format_success`. `intentType` is the intent's `type`, or "unknown"
   * without an intent; `counts` holds the vector and BM25 counts when
   * both are given.
   */
  method FormatSuccess(query: string, results: seq<Option<Shown>>, intentType: string, latencyMs: Option<real>,
                       counts: Option<(int, int)>, fmt: Fixed) returns (text: string)
    ensures text == Join("\n", SuccessLines(query, results, intentType, latencyMs, counts, fmt))
  {
    var response := AppendBlocks(Prelude(query, intentType, |results|, latencyMs, counts), query, results, fmt);
    text := Join("\n", response);
  }

  /** The loop of `format_success`: each dictionary result's block, in order, after the lines so far. */
  method AppendBlocks(prelude: seq<string>, query: string, results: seq<Option<Shown>>, fmt: Fixed)
    returns (response: seq<string>)
    ensures response == prelude + Blocks(query, results, fmt)
  {
    response := prelude;
    for i := 0 to |results|
      invariant response == prelude + Blocks(query, results[..i], fmt)
    {
      BlocksSnoc(query, results, i, fmt);
      if results[i].Some? {
        var block := Block(query, i + 1, results[i].value, fmt);
        AppendAssoc(prelude, Blocks(query, results[..i], fmt), block);
        response := response + block;
      }
    }
    assert results[..|results|] == results;
  }

  /** Every dictionary result's title line is among the blocks, numbered with its position in the input. */
  lemma {:induction false} BlocksHaveTitles(query: string, results: seq<Option<Shown>>, fmt: Fixed)
    ensures forall k :: 0 <= k < |results| && results[k].Some? ==> TitleLine(k + 1, results[k].value) in Blocks(query, results, fmt)
    decreases |results|
  {
    if results != [] {
      var n := |results|;
      var prefix := results[..n - 1];
      BlocksHaveTitles(query, prefix, fmt);
      var now := Blocks(query, results, fmt);
      forall k | 0 <= k < n && results[k].Some? ensures TitleLine(k + 1, results[k].value) in now {
        if k < n - 1 {
          assert prefix[k] == results[k];
          assert TitleLine(k + 1, results[k].value) in Blocks(query, prefix, fmt);
        } else {
          BlockFacts(query, n, results[n - 1].value, fmt);
        }
      }
    }
  }

  /**
   * The message opens with the header and the statistics for all the
   * results, and every dictionary result's block is in it, titled with
   * its position in the input.
   */
  lemma SuccessLinesFacts(query: string, results: seq<Option<Shown>>, intentType: string, latencyMs: Option<real>,
                          counts: Option<(int, int)>, fmt: Fixed)
    ensures var lines := SuccessLines(query, results, intentType, latencyMs, counts, fmt);
            lines[0] == Header(query) && lines[1] == Stats(intentType, |results|, latencyMs, counts)
            && forall k :: 0 <= k < |results| && results[k].Some? ==> TitleLine(k + 1, results[k].value) in lines
  {
    BlocksHaveTitles(query, results, fmt);
  }

  // ---------------------------------------------------------------------
  // The other messages
  // ---------------------------------------------------------------------

  function Bullets(items: seq<string>): (r: seq<string>)
    ensures |r| == |items| && forall i :: 0 <= i < |items| ==> r[i] == "   \U{2022} " + items[i]
  {
    seq(|items|, i requires 0 <= i < |items| => "   \U{2022} " + items[i])
  }

  const TryDefault: seq<string> := ["Rephrasing your query", "Using different keywords", "Checking if the space filter is correct"]

  /** The candidates line. */
  function FilteredLine(vectorCount: int, bm25Count: int): string {
    "\U{26A0}\U{FE0F} Found " + IntToString(vectorCount + bm25Count) + " candidates, but all were filtered."
  }

  /** The lines of `format_no_results`. */
  function NoResultsLines(query: string, intentType: string, vectorCount: int, bm25Count: int, threshold: Option<real>,
                          suggestions: seq<string>, fmt: Fixed): seq<string> {
    ["\U{1F50D} No Results Found for: \"" + query + "\"", Rule, "Query Type: " + intentType, ""]
    + (if vectorCount > 0 || bm25Count > 0 then
         [FilteredLine(vectorCount, bm25Count)]
         + (if threshold.Some? then ["   Filter threshold: " + fmt(threshold.value, 6)] else []) + [""]
       else [])
    + (if suggestions != [] then ["\U{1F4A1} Suggestions:"] + Bullets(suggestions) + [""]
       else ["\U{1F4A1} Try:"] + Bullets(TryDefault) + [""])
  }

  /**
   * The filtered candidates are mentioned exactly when a count is
   * positive; the given suggestions are listed, or else the three default
   * tips.
   */
  lemma NoResultsFacts(query: string, intentType: string, vectorCount: int, bm25Count: int, threshold: Option<real>,
                       suggestions: seq<string>, fmt: Fixed)
    ensures var lines := NoResultsLines(query, intentType, vectorCount, bm25Count, threshold, suggestions, fmt);
            (FilteredLine(vectorCount, bm25Count) in lines <==> vectorCount > 0 || bm25Count > 0)
            && (suggestions != [] ==> "\U{1F4A1} Suggestions:" in lines && forall s :: s in suggestions ==> "   \U{2022} " + s in lines)
            && (suggestions == [] ==> "\U{1F4A1} Try:" in lines && forall s :: s in TryDefault ==> "   \U{2022} " + s in lines)
  {
    var lines := NoResultsLines(query, intentType, vectorCount, bm25Count, threshold, suggestions, fmt);
    if !(vectorCount > 0 || bm25Count > 0) {
      forall l | l in lines ensures l != FilteredLine(vectorCount, bm25Count) {
        NotFilteredLine(l, vectorCount, bm25Count, query, intentType, suggestions);
      }
    }
    forall s | s in suggestions ensures suggestions != [] ==> "   \U{2022} " + s in lines {
      var i :| 0 <= i < |suggestions| && suggestions[i] == s;
      assert Bullets(suggestions)[i] == "   \U{2022} " + s;
    }
    forall s | s in TryDefault ensures suggestions == [] ==> "   \U{2022} " + s in lines {
      var i :| 0 <= i < |TryDefault| && TryDefault[i] == s;
      assert Bullets(TryDefault)[i] == "   \U{2022} " + s;
    }
  }

  /** No other line of the message begins like the candidates line. */
  lemma NotFilteredLine(l: string, vectorCount: int, bm25Count: int, query: string, intentType: string, suggestions: seq<string>)
    requires l in ["\U{1F50D} No Results Found for: \"" + query + "\"", Rule, "Query Type: " + intentType, ""]
                  + (if suggestions != [] then ["\U{1F4A1} Suggestions:"] + Bullets(suggestions) + [""]
                     else ["\U{1F4A1} Try:"] + Bullets(TryDefault) + [""])
    ensures l != FilteredLine(vectorCount, bm25Count)
  {
    var f := FilteredLine(vectorCount, bm25Count);
    assert f[0] == '\U{26A0}';
    var head := ["\U{1F50D} No Results Found for: \"" + query + "\"", Rule, "Query Type: " + intentType, ""];
    var xs := if suggestions != [] then suggestions else TryDefault;
    var tail := (if suggestions != [] then ["\U{1F4A1} Suggestions:"] else ["\U{1F4A1} Try:"]) + Bullets(xs) + [""];
    assert l in head + tail;
    if l in Bullets(xs) {
      var i :| 0 <= i < |Bullets(xs)| && Bullets(xs)[i] == l;
      assert l[0] == ' ';
    } else if l in head {
      assert l == head[0] || l == head[1] || l == head[2] || l == head[3];
      if l == head[0] {
        assert l[0] == '\U{1F50D}';
      } else if l == head[1] {
        assert l[0] == '━';
      } else if l == head[2] {
        assert l[0] == 'Q';
      } else {
        assert |l| == 0;
      }
    } else {
      assert l[0] == '\U{1F4A1}' || |l| == 0;
    }
  }

  /** The lines of `format_error`: the query, the error text, and the suggestions or a plea to retry. */
  function ErrorLines(query: string, error: string, suggestions: seq<string>): (lines: seq<string>)
    ensures |lines| >= 6
    ensures lines[0] == "\U{274C} Search Error for: \"" + query + "\"" && "Error: " + error in lines
    ensures suggestions != [] ==> forall s :: s in suggestions ==> "   \U{2022} " + s in lines
    ensures suggestions == [] ==> "\U{1F4A1} Please try again or contact support if the problem persists." in lines
    ensures lines[|lines| - 1] == ""
  {
    var lines := ["\U{274C} Search Error for: \"" + query + "\"", Rule, "Error: " + error, ""]
      + (if suggestions != [] then ["\U{1F4A1} Suggestions:"] + Bullets(suggestions)
         else ["\U{1F4A1} Please try again or contact support if the problem persists."])
      + [""];
    assert forall s :: s in suggestions ==> "   \U{2022} " + s in Bullets(suggestions) by {
      forall s | s in suggestions ensures "   \U{2022} " + s in Bullets(suggestions) {
        var i :| 0 <= i < |suggestions| && suggestions[i] == s;
        assert Bullets(suggestions)[i] == "   \U{2022} " + s;
      }
    }
    lines
  }

  const TryLowRelevance: seq<string> := ["Rephrasing your query", "Using more specific terms", "Checking if the query matches the content"]

  /**
   * The lines of `format_low_relevance`: the threshold, the score range
   * when both ends are given, the explanation, and the suggestions or the
   * default tips.
   */
  function LowRelevanceLines(query: string, threshold: real, intentType: string, minScore: Option<real>, maxScore: Option<real>,
                             suggestions: seq<string>, fmt: Fixed): (lines: seq<string>)
    ensures "Threshold: " + fmt(threshold, 6) in lines
    ensures "All found results were filtered due to low relevance scores." in lines
    ensures minScore.Some? && maxScore.Some? ==> "Score range: " + fmt(minScore.value, 6) + " - " + fmt(maxScore.value, 6) in lines
    ensures suggestions != [] ==> forall s :: s in suggestions ==> "   \U{2022} " + s in lines
    ensures suggestions == [] ==> forall s :: s in TryLowRelevance ==> "   \U{2022} " + s in lines
  {
    var tips := if suggestions != [] then suggestions else TryLowRelevance;
    var lines := ["\U{26A0}\U{FE0F} Low Relevance Results for: \"" + query + "\"", Rule, "Query Type: " + intentType,
                  "Threshold: " + fmt(threshold, 6), ""]
      + (if minScore.Some? && maxScore.Some? then
           ["Score range: " + fmt(minScore.value, 6) + " - " + fmt(maxScore.value, 6), ""] else [])
      + ["All found results were filtered due to low relevance scores.", ""]
      + (if suggestions != [] then ["\U{1F4A1} Suggestions:"] else ["\U{1F4A1} Try:"]) + Bullets(tips)
      + [""];
    assert forall s :: s in tips ==> "   \U{2022} " + s in Bullets(tips) by {
      forall s | s in tips ensures "   \U{2022} " + s in Bullets(tips) {
        var i :| 0 <= i < |tips| && tips[i] == s;
        assert Bullets(tips)[i] == "   \U{2022} " + s;
      }
    }
    lines
  }
}
