/**
 * Structure-aware chunking in the sync job (`rag_server/sync_confluence.py`):
 * `smart_chunk_with_context` turns the structural blocks of a page (tables,
 * lists and text under their headings) into chunks. Tables and lists stay
 * whole; a small text block joins the previous chunk when that one is
 * short and under the same heading; a large one is cut by the semantic
 * splitter or, failing that, into sentences packed below the size limit.
 *
 * The semantic splitter is a parameter: for a text it gives its pieces,
 * or `None` when it is disabled or raises.
 */
module SmartChunking {
  import opened Wrappers
  import opened Text
  import opened Seqs
  import opened SyncChunking

  /** `MIN_CHUNK_SIZE`: semantic pieces with fewer stripped characters are dropped. */
  const MinChunkSize := 100

  /** A chunk below this size may take the next small text block under the same heading. */
  const MergeThreshold := 600

  /** A structural block: its type (`table`, `list`, `text`, ...), heading, content, level, path of enclosing headings, size and, for a table, its HTML. */
  datatype Block = Block(btype: string, heading: string, content: string, level: int, parentPath: string, size: int, html: Option<string>)

  /** A chunk: its text (context prefix included), heading, level, type, parent path, size and, for a table, its HTML. */
  datatype Chunk = Chunk(text: string, heading: string, level: int, ctype: string, parentPath: string, size: int, html: Option<string>)

  /** The context put before a block's text: `parent > heading`, or the heading alone, then a blank line. */
  function ContextPrefix(parent: string, heading: string): string {
    if parent != "" && heading != "" then parent + " > " + heading + "\n\n"
    else if heading != "" then heading + "\n\n"
    else ""
  }

  /** `_create_chunk`: the prefix and the content, without HTML. */
  function NewChunk(content: string, heading: string, level: int, ctype: string, parent: string, size: int, prefix: string): Chunk {
    Chunk(prefix + content, heading, level, ctype, parent, size, None)
  }

  predicate IsStructural(btype: string) { btype == "table" || btype == "list" }

  predicate IsTableOrList(c: Chunk) { IsStructural(c.ctype) }

  /** A table or list block as one chunk; a table keeps its HTML. */
  function StructuralChunk(b: Block): Chunk {
    var c := NewChunk(b.content, b.heading, b.level, b.btype, b.parentPath, b.size, ContextPrefix(b.parentPath, b.heading));
    if b.btype == "table" then c.(html := b.html) else c
  }

  // ---------------------------------------------------------------------
  // _try_merge_with_last_chunk
  // ---------------------------------------------------------------------

  /** The last chunk is a short text chunk under the same heading, and the block's text with its prefix still fits. */
  predicate CanMerge(chunks: seq<Chunk>, content: string, heading: string, maxSize: int, prefix: string) {
    chunks != []
    && chunks[|chunks| - 1].heading == heading && chunks[|chunks| - 1].ctype == "text"
    && chunks[|chunks| - 1].size < MergeThreshold
    && chunks[|chunks| - 1].size + |content| + |prefix| <= maxSize
  }

  /** The last chunk with a blank line, the prefix and the content appended. */
  function MergeInto(last: Chunk, content: string, prefix: string): Chunk {
    var added := "\n\n" + (prefix + content);
    last.(text := last.text + added, size := last.size + |added|)
  }

  /** `_try_merge_with_last_chunk`: whether it merged, and the chunks afterwards. */
  method TryMergeWithLast(chunks: seq<Chunk>, content: string, heading: string, maxSize: int, prefix: string)
    returns (merged: bool, out: seq<Chunk>)
    ensures merged <==> CanMerge(chunks, content, heading, maxSize, prefix)
    ensures merged ==> out == chunks[..|chunks| - 1] + [MergeInto(chunks[|chunks| - 1], content, prefix)]
    ensures !merged ==> out == chunks
  {
    out := chunks;
    merged := false;
    if chunks == [] {
      return;
    }
    var last := chunks[|chunks| - 1];
    if last.heading != heading || last.ctype != "text" {
      return;
    }
    var currentLen := |content| + |prefix|;
    if last.size < MergeThreshold && last.size + currentLen <= maxSize {
      var added := "\n\n" + (prefix + content);
      last := last.(text := last.text + added, size := last.size + |added|);
      out := chunks[..|chunks| - 1] + [last];
      merged := true;
    }
  }

  /**
   * A merge keeps the chunk's heading, level, type and path; its text is the
   * old text, a blank line, the prefix and the content; its size grows by
   * exactly that much and stays within `maxSize + 2`, the separator not
   * being counted in the check.
   */
  lemma MergeFacts(chunks: seq<Chunk>, content: string, heading: string, maxSize: int, prefix: string)
    requires CanMerge(chunks, content, heading, maxSize, prefix)
    ensures var last := chunks[|chunks| - 1];
            var m := MergeInto(last, content, prefix);
            m.heading == heading && m.level == last.level && m.ctype == "text" && m.parentPath == last.parentPath
            && |m.text| == |last.text| + 2 + |prefix| + |content|
            && m.text[..|last.text|] == last.text && m.text[|last.text|..] == "\n\n" + prefix + content
            && m.size == last.size + 2 + |prefix| + |content| <= maxSize + 2
  {
    var last := chunks[|chunks| - 1];
    var m := MergeInto(last, content, prefix);
    assert m.text == last.text + ("\n\n" + (prefix + content));
  }

  /** The bound is reached: a 599-character chunk takes 601 more and ends at 1202 for a limit of 1200. */
  lemma MergeExceedsLimit()
    ensures var last := Chunk("", "h", 1, "text", "", 599, None);
            var content := seq(601, i => 'x');
            CanMerge([last], content, "h", 1200, "") && MergeInto(last, content, "").size == 1202
  {
  }

  // ---------------------------------------------------------------------
  // Sentences: re.split(r'(?<=[.!?])\s+', text)
  // ---------------------------------------------------------------------

  predicate IsTerminator(c: char) { c == '.' || c == '!' || c == '?' }

  /** A split point: whitespace right after a sentence terminator. */
  predicate BreakAt(s: string, i: int) {
    0 < i < |s| && IsTerminator(s[i - 1]) && IsSpace(s[i])
  }

  /** The first split point at or after `from`, or `|s|`. */
  function FirstBreak(s: string, from: nat): (i: nat)
    requires from <= |s|
    ensures from <= i <= |s|
    ensures i < |s| ==> BreakAt(s, i)
    ensures forall k :: from <= k < i ==> !BreakAt(s, k)
    decreases |s| - from
  {
    if from == |s| then |s| else if BreakAt(s, from) then from else FirstBreak(s, from + 1)
  }

  /**
   * The sentences of `s`: cut at each whitespace run that follows `.`, `!`
   * or `?`, the run dropped. Always at least one piece.
   */
  function SplitSentences(s: string): (r: seq<string>)
    ensures r != []
    decreases |s|
  {
    if s == [] then [s]
    else
      var i := FirstBreak(s, 1);
      if i == |s| then [s]
      else
        LStripFacts(s[i..]);
        [s[..i]] + SplitSentences(LStrip(s[i..]))
  }

  predicate NoBreak(p: string) {
    forall k :: 0 < k < |p| ==> !BreakAt(p, k)
  }

  predicate EndsSentence(p: string) {
    p != [] && IsTerminator(p[|p| - 1])
  }

  /**
   * No piece holds a split point; every piece but the last ends its
   * sentence with a terminator; no piece after the first starts with
   * whitespace.
   */
  predicate SentencesOk(r: seq<string>) {
    (forall k :: 0 <= k < |r| ==> NoBreak(r[k]))
    && (forall k :: 0 <= k < |r| - 1 ==> EndsSentence(r[k]))
    && (forall k :: 0 < k < |r| ==> r[k] == [] || !IsSpace(r[k][0]))
  }

  lemma SentencesOkCons(p: string, rest: seq<string>)
    requires NoBreak(p) && EndsSentence(p) && SentencesOk(rest)
    requires rest != [] && (rest[0] == [] || !IsSpace(rest[0][0]))
    ensures SentencesOk([p] + rest)
  {
    var r := [p] + rest;
    assert forall k :: 0 < k < |r| ==> r[k] == rest[k - 1];
  }

  /** A piece up to the first split point holds none. */
  lemma NoBreakBefore(s: string, i: nat)
    requires 1 <= i <= |s| && forall k :: 1 <= k < i ==> !BreakAt(s, k)
    ensures NoBreak(s[..i])
  {
    forall k | 0 < k < i ensures !BreakAt(s[..i], k) {
      assert !BreakAt(s, k);
    }
  }

  lemma SentencesOkSingle(s: string)
    requires NoBreak(s)
    ensures SentencesOk([s])
  {
  }

  /** The first sentence is a prefix of the text. */
  lemma SplitSentencesHead(s: string)
    ensures var r := SplitSentences(s); |r[0]| <= |s| && r[0] == s[..|r[0]|]
  {
    if s != [] && FirstBreak(s, 1) < |s| {
      LStripFacts(s[FirstBreak(s, 1)..]);
    } else {
      assert s[..|s|] == s;
    }
  }

  lemma {:induction false} SplitSentencesShape(s: string)
    ensures SentencesOk(SplitSentences(s))
    decreases |s|
  {
    if s != [] {
      var i := FirstBreak(s, 1);
      if i == |s| {
        assert SplitSentences(s) == [s];
        NoBreakBefore(s, i);
        assert s[..i] == s;
        SentencesOkSingle(s);
      } else {
        var b := LStrip(s[i..]);
        LStripFacts(s[i..]);
        var rest := SplitSentences(b);
        SplitSentencesShape(b);
        SplitSentencesHead(b);
        NoBreakBefore(s, i);
        assert BreakAt(s, i);
        if rest[0] != [] {
          assert rest[0][0] == b[0];
        }
        SentencesOkCons(s[..i], rest);
        assert SplitSentences(s) == [s[..i]] + rest;
      }
    }
  }

  /** The characters of `s` that are not whitespace, in order. */
  function Visible(s: string): string {
    if s == [] then [] else (if IsSpace(s[0]) then [] else [s[0]]) + Visible(s[1..])
  }

  lemma {:induction false} VisibleAppend(a: string, b: string)
    ensures Visible(a + b) == Visible(a) + Visible(b)
    decreases |a|
  {
    if a == [] {
      assert a + b == b;
    } else {
      assert (a + b)[1..] == a[1..] + b;
      VisibleAppend(a[1..], b);
    }
  }

  lemma {:induction false} VisibleBlank(w: string)
    requires forall k :: 0 <= k < |w| ==> IsSpace(w[k])
    ensures Visible(w) == []
    decreases |w|
  {
    if w != [] {
      VisibleBlank(w[1..]);
    }
  }

  lemma VisibleSplit(s: string, i: nat)
    requires i <= |s|
    ensures Visible(s) == Visible(s[..i]) + Visible(s[i..])
  {
    assert s == s[..i] + s[i..];
    VisibleAppend(s[..i], s[i..]);
  }

  /** Leading whitespace is not visible. */
  lemma VisibleLStrip(t: string)
    ensures Visible(LStrip(t)) == Visible(t)
  {
    LStripFacts(t);
    var m := |t| - |LStrip(t)|;
    VisibleSplit(t, m);
    VisibleBlank(t[..m]);
  }

  /** Only whitespace is lost: the sentences hold every other character of `s`, in order. */
  lemma {:induction false} SplitSentencesVisible(s: string)
    ensures Visible(Concat(SplitSentences(s))) == Visible(s)
    decreases |s|
  {
    if s != [] {
      var i := FirstBreak(s, 1);
      if i == |s| {
        assert SplitSentences(s) == [s];
        assert [s][..0] == [];
        assert Concat([s]) == s;
      } else {
        var b := LStrip(s[i..]);
        LStripFacts(s[i..]);
        var rest := SplitSentences(b);
        assert SplitSentences(s) == [s[..i]] + rest;
        SplitSentencesVisible(b);
        ConcatCons(s[..i], rest);
        VisibleAppend(s[..i], Concat(rest));
        VisibleLStrip(s[i..]);
        VisibleSplit(s, i);
      }
    }
  }

  // ---------------------------------------------------------------------
  // _split_large_text_block
  // ---------------------------------------------------------------------

  /** Raw pieces as text chunks: the prefix and the stripped piece, the raw length as size. */
  function PieceChunks(raws: seq<string>, heading: string, level: int, parent: string, prefix: string): seq<Chunk> {
    seq(|raws|, i requires 0 <= i < |raws| => NewChunk(Strip(raws[i]), heading, level, "text", parent, |raws[i]|, prefix))
  }

  lemma PieceChunksSnoc(raws: seq<string>, x: string, heading: string, level: int, parent: string, prefix: string)
    ensures PieceChunks(raws + [x], heading, level, parent, prefix)
         == PieceChunks(raws, heading, level, parent, prefix) + [NewChunk(Strip(x), heading, level, "text", parent, |x|, prefix)]
  {
    var a := PieceChunks(raws + [x], heading, level, parent, prefix);
    var b := PieceChunks(raws, heading, level, parent, prefix) + [NewChunk(Strip(x), heading, level, "text", parent, |x|, prefix)];
    forall k | 0 <= k < |a| ensures a[k] == b[k] {
      if k < |raws| {
        assert (raws + [x])[k] == raws[k];
      }
    }
  }

  /** A semantic piece is kept when it has at least `MinChunkSize` characters once stripped. */
  predicate LongEnough(t: string) { |Strip(t)| >= MinChunkSize }

  /** The semantic branch: the pieces long enough, in order, as chunks. */
  method KeepSemanticPieces(pieces: seq<string>, heading: string, level: int, parent: string, prefix: string)
    returns (chunks: seq<Chunk>)
    ensures chunks == PieceChunks(Filter(pieces, LongEnough), heading, level, parent, prefix)
  {
    chunks := [];
    for i := 0 to |pieces|
      invariant chunks == PieceChunks(Filter(pieces[..i], LongEnough), heading, level, parent, prefix)
    {
      var t := pieces[i];
      assert pieces[..i + 1] == pieces[..i] + [t];
      FilterSnoc(pieces[..i], t, LongEnough);
      if |Strip(t)| < MinChunkSize {
        continue;
      }
      PieceChunksSnoc(Filter(pieces[..i], LongEnough), t, heading, level, parent, prefix);
      chunks := chunks + [NewChunk(Strip(t), heading, level, "text", parent, |t|, prefix)];
    }
    assert pieces[..|pieces|] == pieces;
  }

  /** The chunks of a text block too large for one chunk, given what the semantic splitter made of it. */
  function LargeBlockChunks(content: string, heading: string, level: int, parent: string, maxSize: int, prefix: string,
                            split: Option<seq<string>>): seq<Chunk> {
    match split
    case Some(pieces) => PieceChunks(Filter(pieces, LongEnough), heading, level, parent, prefix)
    case None => PieceChunks(Packed(SplitSentences(content), " ", maxSize), heading, level, parent, prefix)
  }

  /** `_split_large_text_block`. */
  method SplitLargeTextBlock(content: string, heading: string, level: int, parent: string, maxSize: int, prefix: string,
                             split: Option<seq<string>>) returns (chunks: seq<Chunk>)
    ensures chunks == LargeBlockChunks(content, heading, level, parent, maxSize, prefix, split)
  {
    if split.Some? {
      chunks := KeepSemanticPieces(split.value, heading, level, parent, prefix);
      return;
    }
    var sentences := SplitSentences(content);
    var raws := PackPieces(sentences, " ", maxSize);
    chunks := PieceChunks(raws, heading, level, parent, prefix);
  }

  /**
   * Every chunk of a large block is a text chunk under the block's heading
   * that starts with the prefix. From the semantic splitter it is a kept
   * piece, stripped, at least `MinChunkSize` long. From the sentence
   * fallback its size is below `maxSize`, or it is a single sentence and
   * its space.
   */
  lemma LargeBlockChunksFacts(content: string, heading: string, level: int, parent: string, maxSize: int, prefix: string,
                              split: Option<seq<string>>)
    ensures forall c :: c in LargeBlockChunks(content, heading, level, parent, maxSize, prefix, split) ==>
              c.ctype == "text" && c.heading == heading && c.level == level && c.parentPath == parent
              && |prefix| <= |c.text| && c.text[..|prefix|] == prefix
    ensures split.Some? ==> forall c :: c in LargeBlockChunks(content, heading, level, parent, maxSize, prefix, split) ==>
              |c.text| >= |prefix| + MinChunkSize
    ensures split.None? ==> forall c :: c in LargeBlockChunks(content, heading, level, parent, maxSize, prefix, split) ==>
              c.size < maxSize || exists s :: s in SplitSentences(content) && c.size == |s| + 1
  {
    var r := LargeBlockChunks(content, heading, level, parent, maxSize, prefix, split);
    match split
    case Some(pieces) =>
      var kept := Filter(pieces, LongEnough);
      forall c | c in r ensures |c.text| >= |prefix| + MinChunkSize {
        var k :| 0 <= k < |r| && r[k] == c;
        assert LongEnough(kept[k]);
      }
    case None =>
      var sentences := SplitSentences(content);
      var raws := Packed(sentences, " ", maxSize);
      PackedShortOrSingle(sentences, " ", maxSize);
      forall c | c in r ensures c.size < maxSize || exists s :: s in sentences && c.size == |s| + 1 {
        var k :| 0 <= k < |r| && r[k] == c;
        assert raws[k] in raws;
        if |raws[k]| >= maxSize {
          var m :| 0 <= m < |sentences| && raws[k] == sentences[m] + " ";
          assert sentences[m] in sentences;
        }
      }
  }

  // ---------------------------------------------------------------------
  // smart_chunk_with_context
  // ---------------------------------------------------------------------

  /** One block: a table or list is appended whole; a small text block merges or is appended; a large one is split; others are skipped. */
  function BlockStep(chunks: seq<Chunk>, b: Block, maxSize: int, splitter: string -> Option<seq<string>>): seq<Chunk> {
    var prefix := ContextPrefix(b.parentPath, b.heading);
    if IsStructural(b.btype) then chunks + [StructuralChunk(b)]
    else if b.btype != "text" then chunks
    else if b.size <= maxSize then
      if CanMerge(chunks, b.content, b.heading, maxSize, prefix) then
        chunks[..|chunks| - 1] + [MergeInto(chunks[|chunks| - 1], b.content, prefix)]
      else chunks + [NewChunk(b.content, b.heading, b.level, "text", b.parentPath, b.size, prefix)]
    else chunks + LargeBlockChunks(b.content, b.heading, b.level, b.parentPath, maxSize, prefix, splitter(b.content))
  }

  /** What `smart_chunk_with_context` returns. */
  function SmartChunks(blocks: seq<Block>, maxSize: int, splitter: string -> Option<seq<string>>): seq<Chunk> {
    if blocks == [] then []
    else BlockStep(SmartChunks(blocks[..|blocks| - 1], maxSize, splitter), blocks[|blocks| - 1], maxSize, splitter)
  }

  /** The body of the loop over blocks. */
  method ChunkBlock(chunks: seq<Chunk>, b: Block, maxSize: int, splitter: string -> Option<seq<string>>)
    returns (out: seq<Chunk>)
    ensures out == BlockStep(chunks, b, maxSize, splitter)
  {
    var prefix := ContextPrefix(b.parentPath, b.heading);
    if b.btype == "table" || b.btype == "list" {
      var chunk := NewChunk(b.content, b.heading, b.level, b.btype, b.parentPath, b.size, prefix);
      if b.btype == "table" {
        chunk := chunk.(html := b.html);
      }
      out := chunks + [chunk];
    } else if b.btype == "text" {
      if b.size <= maxSize {
        var merged;
        merged, out := TryMergeWithLast(chunks, b.content, b.heading, maxSize, prefix);
        if !merged {
          out := chunks + [NewChunk(b.content, b.heading, b.level, "text", b.parentPath, b.size, prefix)];
        }
      } else {
        var sub := SplitLargeTextBlock(b.content, b.heading, b.level, b.parentPath, maxSize, prefix, splitter(b.content));
        out := chunks + sub;
      }
    } else {
      out := chunks;
    }
  }

  lemma SmartChunksSnoc(blocks: seq<Block>, i: nat, maxSize: int, splitter: string -> Option<seq<string>>)
    requires i < |blocks|
    ensures SmartChunks(blocks[..i + 1], maxSize, splitter) == BlockStep(SmartChunks(blocks[..i], maxSize, splitter), blocks[i], maxSize, splitter)
  {
    assert blocks[..i + 1][..i] == blocks[..i];
  }

  /** `smart_chunk_with_context`. */
  method SmartChunkWithContext(blocks: seq<Block>, maxSize: int, splitter: string -> Option<seq<string>>)
    returns (chunks: seq<Chunk>)
    ensures chunks == SmartChunks(blocks, maxSize, splitter)
  {
    chunks := [];
    for i := 0 to |blocks|
      invariant chunks == SmartChunks(blocks[..i], maxSize, splitter)
    {
      SmartChunksSnoc(blocks, i, maxSize, splitter);
      chunks := ChunkBlock(chunks, blocks[i], maxSize, splitter);
    }
    assert blocks[..|blocks|] == blocks;
  }

  // ---------------------------------------------------------------------
  // Properties
  // ---------------------------------------------------------------------

  /**
   * A small text block leaves one more chunk, its prefixed text, or the
   * same number with the prefixed text appended to the last one; earlier
   * chunks stay as they were. Either way the last chunk ends with the
   * block's prefixed text under its heading.
   */
  lemma SmallTextStep(chunks: seq<Chunk>, b: Block, maxSize: int, splitter: string -> Option<seq<string>>)
    requires b.btype == "text" && b.size <= maxSize
    ensures var out := BlockStep(chunks, b, maxSize, splitter);
            var added := ContextPrefix(b.parentPath, b.heading) + b.content;
            out != [] && out[|out| - 1].heading == b.heading && out[|out| - 1].ctype == "text"
            && |added| <= |out[|out| - 1].text| && out[|out| - 1].text[|out[|out| - 1].text| - |added|..] == added
            && (|out| == |chunks| + 1 || |out| == |chunks|)
            && out[..|out| - 1] == chunks[..|out| - 1]
            && (|out| == |chunks| <==> CanMerge(chunks, b.content, b.heading, maxSize, ContextPrefix(b.parentPath, b.heading)))
  {
    var prefix := ContextPrefix(b.parentPath, b.heading);
    var out := BlockStep(chunks, b, maxSize, splitter);
    if CanMerge(chunks, b.content, b.heading, maxSize, prefix) {
      var last := chunks[|chunks| - 1];
      assert out[|out| - 1].text == last.text + "\n\n" + (prefix + b.content);
    } else {
      assert out[..|out| - 1] == chunks;
    }
  }

  /** A step never touches chunks before the last one, and adds only chunks under the block's heading. */
  lemma BlockStepKeeps(chunks: seq<Chunk>, b: Block, maxSize: int, splitter: string -> Option<seq<string>>)
    requires chunks != []
    ensures var out := BlockStep(chunks, b, maxSize, splitter);
            |out| >= |chunks| && out[..|chunks| - 1] == chunks[..|chunks| - 1]
            && forall k :: |chunks| <= k < |out| ==> out[k].heading == b.heading && out[k].level == b.level
  {
    var prefix := ContextPrefix(b.parentPath, b.heading);
    var out := BlockStep(chunks, b, maxSize, splitter);
    if b.btype == "text" && b.size > maxSize && !IsStructural(b.btype) {
      var extra := LargeBlockChunks(b.content, b.heading, b.level, b.parentPath, maxSize, prefix, splitter(b.content));
      LargeBlockChunksFacts(b.content, b.heading, b.level, b.parentPath, maxSize, prefix, splitter(b.content));
      forall k | |chunks| <= k < |out| ensures out[k].heading == b.heading && out[k].level == b.level {
        assert out[k] == extra[k - |chunks|];
        assert extra[k - |chunks|] in extra;
      }
    }
  }

  /** Chunks that are neither tables nor lists. */
  predicate TextOnly(cs: seq<Chunk>) {
    forall k :: 0 <= k < |cs| ==> cs[k].ctype == "text"
  }

  lemma {:induction false} FilterTextOnly(cs: seq<Chunk>)
    requires TextOnly(cs)
    ensures Filter(cs, IsTableOrList) == []
    decreases |cs|
  {
    if cs != [] {
      assert cs[0].ctype == "text";
      assert TextOnly(cs[1..]) by {
        forall k | 0 <= k < |cs[1..]| ensures cs[1..][k].ctype == "text" {
          assert cs[1..][k] == cs[k + 1];
        }
      }
      FilterTextOnly(cs[1..]);
    }
  }

  /** The table and list blocks, as their chunks, in order. */
  function StructuralChunks(blocks: seq<Block>): seq<Chunk> {
    if blocks == [] then []
    else StructuralChunks(blocks[..|blocks| - 1])
         + (if IsStructural(blocks[|blocks| - 1].btype) then [StructuralChunk(blocks[|blocks| - 1])] else [])
  }

  /** Chunk types are text, table or list. */
  predicate KnownTypes(cs: seq<Chunk>) {
    forall k :: 0 <= k < |cs| ==> cs[k].ctype == "text" || IsStructural(cs[k].ctype)
  }

  /** A merge replaces a text chunk by a text chunk: the tables and lists are unchanged. */
  lemma MergeStructural(chunks: seq<Chunk>, content: string, heading: string, maxSize: int, prefix: string)
    requires KnownTypes(chunks) && CanMerge(chunks, content, heading, maxSize, prefix)
    ensures var out := chunks[..|chunks| - 1] + [MergeInto(chunks[|chunks| - 1], content, prefix)];
            KnownTypes(out) && Filter(out, IsTableOrList) == Filter(chunks, IsTableOrList)
  {
    var init := chunks[..|chunks| - 1];
    var last := chunks[|chunks| - 1];
    InitLast(chunks);
    FilterSnoc(init, last, IsTableOrList);
    FilterSnoc(init, MergeInto(last, content, prefix), IsTableOrList);
  }

  /** Appending text chunks leaves the tables and lists unchanged. */
  lemma AppendTextStructural(chunks: seq<Chunk>, extra: seq<Chunk>)
    requires KnownTypes(chunks) && TextOnly(extra)
    ensures KnownTypes(chunks + extra) && Filter(chunks + extra, IsTableOrList) == Filter(chunks, IsTableOrList)
  {
    FilterAppend(chunks, extra, IsTableOrList);
    FilterTextOnly(extra);
  }

  /** Each step adds to the tables and lists exactly the block's own chunk when it is one. */
  lemma BlockStepStructural(chunks: seq<Chunk>, b: Block, maxSize: int, splitter: string -> Option<seq<string>>)
    requires KnownTypes(chunks)
    ensures var out := BlockStep(chunks, b, maxSize, splitter);
            KnownTypes(out)
            && Filter(out, IsTableOrList)
               == Filter(chunks, IsTableOrList) + (if IsStructural(b.btype) then [StructuralChunk(b)] else [])
  {
    var prefix := ContextPrefix(b.parentPath, b.heading);
    if IsStructural(b.btype) {
      FilterSnoc(chunks, StructuralChunk(b), IsTableOrList);
    } else if b.btype == "text" {
      if b.size <= maxSize {
        if CanMerge(chunks, b.content, b.heading, maxSize, prefix) {
          MergeStructural(chunks, b.content, b.heading, maxSize, prefix);
        } else {
          AppendTextStructural(chunks, [NewChunk(b.content, b.heading, b.level, "text", b.parentPath, b.size, prefix)]);
        }
      } else {
        var extra := LargeBlockChunks(b.content, b.heading, b.level, b.parentPath, maxSize, prefix, splitter(b.content));
        LargeBlockChunksFacts(b.content, b.heading, b.level, b.parentPath, maxSize, prefix, splitter(b.content));
        assert TextOnly(extra) by {
          forall k | 0 <= k < |extra| ensures extra[k].ctype == "text" {
            assert extra[k] in extra;
          }
        }
        AppendTextStructural(chunks, extra);
      }
    }
  }

  /** Every table and every list becomes exactly one chunk, whole, in block order; all other chunks are text. */
  lemma {:induction false} SmartChunksStructural(blocks: seq<Block>, maxSize: int, splitter: string -> Option<seq<string>>)
    ensures var out := SmartChunks(blocks, maxSize, splitter);
            KnownTypes(out) && Filter(out, IsTableOrList) == StructuralChunks(blocks)
    decreases |blocks|
  {
    if blocks != [] {
      var init := blocks[..|blocks| - 1];
      SmartChunksStructural(init, maxSize, splitter);
      BlockStepStructural(SmartChunks(init, maxSize, splitter), blocks[|blocks| - 1], maxSize, splitter);
    }
  }
}
