/**
 * Chunking of a page's markdown text in the sync job
 * (`rag_server/sync_confluence.py`): the packing loop that gathers
 * paragraphs (or sentences) into pieces below a size, `_chunk_from_sections`
 * and `chunk_text`.
 */
module SyncChunking {
  import opened Text
  import opened Seqs
  import opened SyncSections

  // ---------------------------------------------------------------------
  // The packing loop
  // ---------------------------------------------------------------------

  /** The packing loop's variables: the pieces emitted so far and `current`. */
  datatype Pack = Pack(out: seq<string>, current: string)

  /**
   * One piece: appended with its separator while the total stays below
   * `size`; otherwise `current` is emitted when it is not blank and the
   * piece starts a new one.
   */
  function PackStep(st: Pack, piece: string, sep: string, size: int): Pack {
    if |st.current| + |piece| + |sep| < size then st.(current := st.current + piece + sep)
    else Pack(if !IsBlank(st.current) then st.out + [st.current] else st.out, piece + sep)
  }

  function PackFold(pieces: seq<string>, sep: string, size: int): Pack {
    if pieces == [] then Pack([], "")
    else PackStep(PackFold(pieces[..|pieces| - 1], sep, size), pieces[|pieces| - 1], sep, size)
  }

  /** The raw pieces the loop emits, the last `current` included when it is not blank. */
  function Packed(pieces: seq<string>, sep: string, size: int): seq<string> {
    var st := PackFold(pieces, sep, size);
    if !IsBlank(st.current) then st.out + [st.current] else st.out
  }

  /** The packing loop. */
  method PackPieces(pieces: seq<string>, sep: string, size: int) returns (out: seq<string>)
    ensures out == Packed(pieces, sep, size)
  {
    out := [];
    var current := "";
    for i := 0 to |pieces|
      invariant Pack(out, current) == PackFold(pieces[..i], sep, size)
    {
      assert pieces[..i + 1][..i] == pieces[..i];
      var piece := pieces[i];
      if |current| + |piece| + |sep| < size {
        current := current + piece + sep;
      } else {
        if !IsBlank(current) {
          out := out + [current];
        }
        current := piece + sep;
      }
    }
    assert pieces[..|pieces|] == pieces;
    if !IsBlank(current) {
      out := out + [current];
    }
  }

  /** Shorter than `size`, or a single piece with its separator. */
  predicate ShortOrSingle(r: string, pieces: seq<string>, sep: string, size: int) {
    |r| < size || exists i :: 0 <= i < |pieces| && r == pieces[i] + sep
  }

  predicate PackOk(st: Pack, pieces: seq<string>, sep: string, size: int) {
    (forall k :: 0 <= k < |st.out| ==> ShortOrSingle(st.out[k], pieces, sep, size))
    && (st.current == "" || ShortOrSingle(st.current, pieces, sep, size))
  }

  lemma PackOkExtend(st: Pack, pieces: seq<string>, x: string, sep: string, size: int)
    requires PackOk(st, pieces, sep, size)
    ensures PackOk(st, pieces + [x], sep, size)
  {
    forall r | ShortOrSingle(r, pieces, sep, size) ensures ShortOrSingle(r, pieces + [x], sep, size) {
      if |r| >= size {
        var i :| 0 <= i < |pieces| && r == pieces[i] + sep;
        assert (pieces + [x])[i] == pieces[i];
      }
    }
  }

  lemma {:induction false} PackFoldOk(pieces: seq<string>, sep: string, size: int)
    ensures PackOk(PackFold(pieces, sep, size), pieces, sep, size)
    decreases |pieces|
  {
    if pieces != [] {
      var init := pieces[..|pieces| - 1];
      var p := pieces[|pieces| - 1];
      PackFoldOk(init, sep, size);
      InitLast(pieces);
      PackOkExtend(PackFold(init, sep, size), init, p, sep, size);
      assert pieces[|pieces| - 1] == p;
    }
  }

  /** Every emitted piece is shorter than `size` or is one piece and its separator. */
  lemma PackedShortOrSingle(pieces: seq<string>, sep: string, size: int)
    ensures forall r :: r in Packed(pieces, sep, size) ==> ShortOrSingle(r, pieces, sep, size)
  {
    PackFoldOk(pieces, sep, size);
  }

  /** Each piece followed by its separator. */
  function Units(pieces: seq<string>, sep: string): seq<string> {
    if pieces == [] then [] else Units(pieces[..|pieces| - 1], sep) + [pieces[|pieces| - 1] + sep]
  }

  /** Neither empty nor starting or ending with whitespace: what `p.strip()` of a non-blank `p` is. */
  predicate Trimmed(p: string) {
    p != [] && !IsSpace(p[0]) && !IsSpace(p[|p| - 1])
  }

  lemma NotBlank(s: string)
    requires s != [] && !IsSpace(s[0])
    ensures !IsBlank(s)
  {
    assert LStrip(s) == s;
    RStripFacts(s);
  }

  /** One step of the packing loop adds the piece and its separator to the text seen so far. */
  lemma PackStepLossless(st: Pack, p: string, sep: string, size: int)
    requires Trimmed(p) && (st.current == "" || !IsSpace(st.current[0]))
    ensures var st' := PackStep(st, p, sep, size);
            Concat(st'.out) + st'.current == Concat(st.out) + st.current + (p + sep)
            && (st'.current == "" || !IsSpace(st'.current[0]))
  {
    if |st.current| + |p| + |sep| >= size && st.current != "" {
      NotBlank(st.current);
      ConcatSnoc(st.out, st.current);
    }
  }

  /** No text is lost in the packing of trimmed pieces: concatenated, the emitted pieces are the pieces with their separators. */
  lemma {:induction false} PackFoldLossless(pieces: seq<string>, sep: string, size: int)
    requires forall i :: 0 <= i < |pieces| ==> Trimmed(pieces[i])
    ensures var st := PackFold(pieces, sep, size);
            Concat(st.out) + st.current == Concat(Units(pieces, sep)) && (st.current == "" || !IsSpace(st.current[0]))
    decreases |pieces|
  {
    if pieces != [] {
      var init := pieces[..|pieces| - 1];
      var p := pieces[|pieces| - 1];
      PackFoldLossless(init, sep, size);
      PackStepLossless(PackFold(init, sep, size), p, sep, size);
      ConcatSnoc(Units(init, sep), p + sep);
    }
  }

  lemma PackedLossless(pieces: seq<string>, sep: string, size: int)
    requires forall i :: 0 <= i < |pieces| ==> Trimmed(pieces[i])
    ensures Concat(Packed(pieces, sep, size)) == Concat(Units(pieces, sep))
  {
    PackFoldLossless(pieces, sep, size);
    var st := PackFold(pieces, sep, size);
    if st.current != "" {
      NotBlank(st.current);
      ConcatSnoc(st.out, st.current);
    }
  }

  /** A trimmed piece followed by whitespace strips back to the piece. */
  lemma {:induction false} StripUnit(p: string, sep: string)
    requires Trimmed(p) && forall i :: 0 <= i < |sep| ==> IsSpace(sep[i])
    ensures Strip(p + sep) == p
    decreases |sep|
  {
    assert LStrip(p + sep) == p + sep;
    if sep == [] {
      assert p + sep == p;
    } else {
      var s := sep[..|sep| - 1];
      assert (p + sep)[..|p + sep| - 1] == p + s;
      StripUnit(p, s);
      assert LStrip(p + s) == p + s;
    }
  }

  // ---------------------------------------------------------------------
  // _chunk_from_sections
  // ---------------------------------------------------------------------

  /** A chunk of `chunk_text`: its text, heading and level. */
  datatype TextChunk = TextChunk(text: string, heading: string, level: nat)

  /** `[p.strip() for p in text.split('\n\n') if p.strip()]`, further limited to those of at least `minLen` characters. */
  function Paragraphs(pieces: seq<string>, minLen: nat): (r: seq<string>)
    requires minLen >= 1
    ensures forall i :: 0 <= i < |r| ==> Trimmed(r[i]) && |r[i]| >= minLen
  {
    if pieces == [] then []
    else
      var p := Strip(pieces[|pieces| - 1]);
      StripFacts(pieces[|pieces| - 1]);
      Paragraphs(pieces[..|pieces| - 1], minLen) + (if p != "" && |p| >= minLen then [p] else [])
  }

  /** The heading path put before a chunk of a section at level 3 or deeper with parents. */
  function SectionPrefix(s: Section): string {
    if s.level >= 3 && s.parents != [] then Join(" > ", ParentHeadings(s)) + "\n\n" else ""
  }

  /** The chunks for packed raw pieces: the prefix, then the stripped piece. */
  function Wrap(raws: seq<string>, prefix: string, heading: string, level: nat): seq<TextChunk> {
    seq(|raws|, i requires 0 <= i < |raws| => TextChunk(prefix + Strip(raws[i]), heading, level))
  }

  /** A section's chunks: the whole section when it fits, otherwise its paragraphs packed. */
  function SectionChunks(s: Section, size: int): seq<TextChunk> {
    var content := Join("\n", s.content);
    if |content| <= size then [TextChunk(SectionPrefix(s) + Strip(content), s.heading, s.level)]
    else Wrap(Packed(Paragraphs(SplitOn(content, "\n\n"), 1), "\n\n", size), SectionPrefix(s), s.heading, s.level)
  }

  /** What `_chunk_from_sections` returns: every section's chunks, in order. */
  function ChunksOf(sections: seq<Section>, size: int): seq<TextChunk> {
    if sections == [] then []
    else ChunksOf(sections[..|sections| - 1], size) + SectionChunks(sections[|sections| - 1], size)
  }

  /** The body of `_chunk_from_sections`'s loop for one section. */
  method ChunkSection(section: Section, size: int) returns (chunks: seq<TextChunk>)
    ensures chunks == SectionChunks(section, size)
  {
    var content := Join("\n", section.content);
    var prefix := SectionPrefix(section);
    if |content| <= size {
      chunks := [TextChunk(prefix + Strip(content), section.heading, section.level)];
    } else {
      var raws := PackPieces(Paragraphs(SplitOn(content, "\n\n"), 1), "\n\n", size);
      chunks := Wrap(raws, prefix, section.heading, section.level);
    }
  }

  /** `_chunk_from_sections`. */
  method ChunkFromSections(sections: seq<Section>, size: int) returns (chunks: seq<TextChunk>)
    ensures chunks == ChunksOf(sections, size)
  {
    chunks := [];
    for i := 0 to |sections|
      invariant chunks == ChunksOf(sections[..i], size)
    {
      var more := ChunkSection(sections[i], size);
      ChunksOfSnoc(sections, i, size);
      chunks := chunks + more;
    }
    assert sections[..|sections|] == sections;
  }

  /** One more section adds its chunks at the end. */
  lemma ChunksOfSnoc(sections: seq<Section>, i: nat, size: int)
    requires i < |sections|
    ensures ChunksOf(sections[..i + 1], size) == ChunksOf(sections[..i], size) + SectionChunks(sections[i], size)
  {
    assert sections[..i + 1][..i] == sections[..i];
  }

  /** `"\n\n"` is whitespace. */
  lemma BlankLineSpaces()
    ensures forall i :: 0 <= i < |"\n\n"| ==> IsSpace("\n\n"[i])
  {
  }

  /** Packed pieces of trimmed paragraphs, wrapped: after the prefix, each chunk is shorter than `size` or one paragraph. */
  lemma WrapShape(raws: seq<string>, paras: seq<string>, prefix: string, heading: string, level: nat, size: int)
    requires forall i :: 0 <= i < |paras| ==> Trimmed(paras[i])
    requires forall r :: r in raws ==> ShortOrSingle(r, paras, "\n\n", size)
    ensures forall c :: c in Wrap(raws, prefix, heading, level) ==>
              c.heading == heading && c.level == level
              && |prefix| <= |c.text| && c.text[..|prefix|] == prefix
              && (|c.text[|prefix|..]| <= size || c.text[|prefix|..] in paras)
  {
    var w := Wrap(raws, prefix, heading, level);
    forall c | c in w
      ensures c.heading == heading && c.level == level
      ensures |prefix| <= |c.text| && c.text[..|prefix|] == prefix
      ensures |c.text[|prefix|..]| <= size || c.text[|prefix|..] in paras
    {
      var k :| 0 <= k < |raws| && w[k] == c;
      var raw := raws[k];
      assert c.text[..|prefix|] == prefix && c.text[|prefix|..] == Strip(raw);
      assert ShortOrSingle(raw, paras, "\n\n", size);
      if |raw| >= size {
        var i :| 0 <= i < |paras| && raw == paras[i] + "\n\n";
        BlankLineSpaces();
        StripUnit(paras[i], "\n\n");
      } else {
        StripFacts(raw);
      }
    }
  }

  /**
   * Every chunk of a section carries the section's heading and level and
   * starts with its prefix; what follows the prefix is no longer than
   * `size` or is one whole paragraph of the section.
   */
  lemma SectionChunkShape(s: Section, size: int)
    ensures forall c :: c in SectionChunks(s, size) ==>
              c.heading == s.heading && c.level == s.level
              && |SectionPrefix(s)| <= |c.text| && c.text[..|SectionPrefix(s)|] == SectionPrefix(s)
              && var body := c.text[|SectionPrefix(s)|..];
                 |body| <= size || body in Paragraphs(SplitOn(Join("\n", s.content), "\n\n"), 1)
  {
    var content := Join("\n", s.content);
    var prefix := SectionPrefix(s);
    if |content| <= size {
      StripFacts(content);
      assert (prefix + Strip(content))[|prefix|..] == Strip(content);
    } else {
      var paras := Paragraphs(SplitOn(content, "\n\n"), 1);
      PackedShortOrSingle(paras, "\n\n", size);
      WrapShape(Packed(paras, "\n\n", size), paras, prefix, s.heading, s.level, size);
    }
  }

  // ---------------------------------------------------------------------
  // chunk_text
  // ---------------------------------------------------------------------

  /** What `chunk_text(text, size)` returns. */
  function ChunkTextOf(text: string, size: int): seq<TextChunk> {
    if text == "" then []
    else if |text| < 100 then [TextChunk(text, "", 0)]
    else if Sections(text) != [] then
      var chunks := ChunksOf(Sections(text), size);
      if chunks != [] then chunks else [TextChunk(text, "", 0)]
    else
      var raws := Packed(Paragraphs(SplitOn(text, "\n\n"), 6), "\n\n", size);
      var chunks := Wrap(raws, "", "", 0);
      if chunks != [] then chunks else [TextChunk(text, "", 0)]
  }

  /** `chunk_text`. */
  method ChunkText(text: string, size: int) returns (chunks: seq<TextChunk>)
    ensures chunks == ChunkTextOf(text, size)
  {
    if text == "" {
      return [];
    }
    if |text| < 100 {
      return [TextChunk(text, "", 0)];
    }
    var sections := ExtractSections(text);
    if sections != [] {
      chunks := ChunkFromSections(sections, size);
      if chunks == [] {
        chunks := [TextChunk(text, "", 0)];
      }
      return;
    }
    var raws := PackPieces(Paragraphs(SplitOn(text, "\n\n"), 6), "\n\n", size);
    chunks := Wrap(raws, "", "", 0);
    if chunks == [] {
      chunks := [TextChunk(text, "", 0)];
    }
  }

  /**
   * `chunk_text` returns nothing for the empty text, the text itself as
   * one chunk below 100 characters, and at least one chunk otherwise;
   * the paragraph fallback is never reached, as there is always a section.
   */
  lemma ChunkTextShape(text: string, size: int)
    ensures text == "" ==> ChunkTextOf(text, size) == []
    ensures 0 < |text| < 100 ==> ChunkTextOf(text, size) == [TextChunk(text, "", 0)]
    ensures text != "" ==> ChunkTextOf(text, size) != []
    ensures |text| >= 100 ==>
              ChunkTextOf(text, size) == if ChunksOf(Sections(text), size) != [] then ChunksOf(Sections(text), size) else [TextChunk(text, "", 0)]
  {
    SectionsNonEmpty(text);
  }
}
