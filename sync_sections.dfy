/**
 * `extract_sections` of the sync job (`rag_server/sync_confluence.py`):
 * the markdown text of a page cut at its heading lines into sections,
 * each with its heading, level, lines and the enclosing headings.
 */
module SyncSections {
  import opened Wrappers
  import opened Text
  import opened Seqs

  predicate IsHash(c: char) { c == '#' }

  /**
   * The regex `^(#{1,6})\s+(.+)$` on one line: one to six `#`, whitespace,
   * then at least one more character. The level is the number of `#` and
   * the heading is the rest of the line, stripped.
   */
  function HeadingOf(line: string): (r: Option<(nat, string)>)
    ensures r.Some? ==> 1 <= r.value.0 <= 6 && r.value.0 + 2 <= |line| && line[0] == '#'
    ensures line == [] || line[0] != '#' ==> r.None?
  {
    var n := PrefixLen(line, IsHash);
    if 1 <= n <= 6 && n + 2 <= |line| && IsSpace(line[n]) then Some((n, Strip(line[n..]))) else None
  }

  /** An entry of the heading stack. */
  datatype Heading = Heading(level: nat, text: string)

  /**
   * A section: its heading (`""` before the first heading), its level (0
   * there), its lines, and the stack of enclosing headings, whose texts
   * are `parent_headings`.
   */
  datatype Section = Section(heading: string, level: nat, content: seq<string>, parents: seq<Heading>)

  /** `parent_headings`. */
  function ParentHeadings(s: Section): (r: seq<string>)
    ensures |r| == |s.parents| && forall i :: 0 <= i < |r| ==> r[i] == s.parents[i].text
  {
    seq(|s.parents|, i requires 0 <= i < |s.parents| => s.parents[i].text)
  }

  /** `[h for h in heading_stack if h['level'] < level]`. */
  function Below(stack: seq<Heading>, level: nat): (r: seq<Heading>)
    ensures forall h :: h in r ==> h in stack && h.level < level
  {
    if stack == [] then []
    else Below(stack[..|stack| - 1], level) + (if stack[|stack| - 1].level < level then [stack[|stack| - 1]] else [])
  }

  // ---------------------------------------------------------------------
  // The loop over the lines, as a fold
  // ---------------------------------------------------------------------

  /** The loop's variables: the finished sections, the current one and the heading stack. */
  datatype Scan = Scan(sections: seq<Section>, current: Section, stack: seq<Heading>)

  const Start := Scan([], Section("", 0, [], []), [])

  /** `sections` with the current section appended when it has lines. */
  function Flush(st: Scan): seq<Section> {
    if st.current.content != [] then st.sections + [st.current] else st.sections
  }

  /** One line: a heading starts a new section under the shallower headings, any other line joins the current one. */
  function StepLine(st: Scan, line: string): Scan {
    match HeadingOf(line)
    case Some((level, heading)) =>
      var kept := Below(st.stack, level);
      Scan(Flush(st), Section(heading, level, [line], kept), kept + [Heading(level, heading)])
    case None =>
      st.(current := st.current.(content := st.current.content + [line]))
  }

  function ScanLines(lines: seq<string>): Scan {
    if lines == [] then Start else StepLine(ScanLines(lines[..|lines| - 1]), lines[|lines| - 1])
  }

  /** What `extract_sections(text)` returns. */
  function Sections(text: string): seq<Section> {
    Flush(ScanLines(SplitOn(text, "\n")))
  }

  /** `extract_sections`. */
  method ExtractSections(text: string) returns (sections: seq<Section>)
    ensures sections == Sections(text)
  {
    var lines := SplitOn(text, "\n");
    sections := [];
    var current := Section("", 0, [], []);
    var stack: seq<Heading> := [];
    for i := 0 to |lines|
      invariant Scan(sections, current, stack) == ScanLines(lines[..i])
    {
      assert lines[..i + 1][..i] == lines[..i];
      var line := lines[i];
      var m := HeadingOf(line);
      if m.Some? {
        if current.content != [] {
          sections := sections + [current];
        }
        var (level, heading) := m.value;
        stack := Below(stack, level);
        current := Section(heading, level, [line], stack);
        stack := stack + [Heading(level, heading)];
      } else {
        current := current.(content := current.content + [line]);
      }
    }
    assert lines[..|lines|] == lines;
    if current.content != [] {
      sections := sections + [current];
    }
  }

  // ---------------------------------------------------------------------
  // Properties
  // ---------------------------------------------------------------------

  /** All sections' lines, in order. */
  function AllLines(sections: seq<Section>): seq<string> {
    if sections == [] then [] else AllLines(sections[..|sections| - 1]) + sections[|sections| - 1].content
  }

  /** Levels that strictly increase along the stack. */
  predicate Increasing(stack: seq<Heading>) {
    forall i, j :: 0 <= i < j < |stack| ==> stack[i].level < stack[j].level
  }

  predicate NoHeadings(lines: seq<string>) {
    forall i :: 0 <= i < |lines| ==> HeadingOf(lines[i]).None?
  }

  /**
   * A section as `extract_sections` builds it: lines; enclosing headings
   * shallower than it, shallowest first; and either the text before the
   * first heading, without heading lines, or a heading line followed by
   * non-heading lines.
   */
  predicate WellFormed(s: Section) {
    s.content != [] && Increasing(s.parents) && (forall h :: h in s.parents ==> h.level < s.level)
    && if s.level == 0 then s.heading == "" && s.parents == [] && NoHeadings(s.content)
       else HeadingOf(s.content[0]) == Some((s.level, s.heading)) && NoHeadings(s.content[1..])
  }

  /** The loop's invariant: finished sections well formed, the current one well formed once it has lines, the stack its parents plus itself. */
  predicate ScanInv(st: Scan) {
    (forall k :: 0 <= k < |st.sections| ==> WellFormed(st.sections[k]))
    && (st.current.content != [] ==> WellFormed(st.current))
    && (st.current.content == [] ==> st.current == Section("", 0, [], []) && st.stack == [])
    && Increasing(st.stack)
    && st.stack == (if st.current.level == 0 then [] else st.current.parents + [Heading(st.current.level, st.current.heading)])
  }

  lemma {:induction false} BelowIncreasing(stack: seq<Heading>, level: nat)
    requires Increasing(stack)
    ensures Increasing(Below(stack, level))
    ensures forall h :: h in Below(stack, level) ==> h.level < level
    decreases |stack|
  {
    if stack != [] {
      var init := stack[..|stack| - 1];
      var last := stack[|stack| - 1];
      assert Increasing(init) by {
        forall i, j | 0 <= i < j < |init| ensures init[i].level < init[j].level {
          assert init[i] == stack[i] && init[j] == stack[j];
        }
      }
      BelowIncreasing(init, level);
      var b := Below(init, level);
      if last.level < level {
        forall h | h in b ensures h.level < last.level {
          var i :| 0 <= i < |init| && init[i] == h;
          assert stack[i] == h;
        }
        IncreasingSnoc(b, last);
      }
    }
  }

  lemma IncreasingSnoc(stack: seq<Heading>, h: Heading)
    requires Increasing(stack) && forall g :: g in stack ==> g.level < h.level
    ensures Increasing(stack + [h])
  {
    forall i, j | 0 <= i < j < |stack + [h]| ensures (stack + [h])[i].level < (stack + [h])[j].level {
      assert (stack + [h])[i] == stack[i];
      if j < |stack| {
        assert (stack + [h])[j] == stack[j];
      } else {
        assert stack[i] in stack;
      }
    }
  }

  lemma NoHeadingsSnoc(lines: seq<string>, line: string)
    requires NoHeadings(lines) && HeadingOf(line).None?
    ensures NoHeadings(lines + [line])
  {
    forall i | 0 <= i < |lines + [line]| ensures HeadingOf((lines + [line])[i]).None? {
      if i < |lines| {
        assert (lines + [line])[i] == lines[i];
      }
    }
  }

  lemma FlushWellFormed(st: Scan)
    requires ScanInv(st)
    ensures forall k :: 0 <= k < |Flush(st)| ==> WellFormed(Flush(st)[k])
  {
    if st.current.content != [] {
      forall k | 0 <= k < |Flush(st)| ensures WellFormed(Flush(st)[k]) {
        if k < |st.sections| {
          assert Flush(st)[k] == st.sections[k];
        }
      }
    }
  }

  /** A heading line: the finished sections stay well formed and the new section sits under the shallower headings. */
  lemma StepHeading(st: Scan, line: string)
    requires ScanInv(st) && HeadingOf(line).Some?
    ensures ScanInv(StepLine(st, line))
  {
    var (level, heading) := HeadingOf(line).value;
    var kept := Below(st.stack, level);
    BelowIncreasing(st.stack, level);
    FlushWellFormed(st);
    var s := Section(heading, level, [line], kept);
    assert s.content[1..] == [];
    assert WellFormed(s);
    IncreasingSnoc(kept, Heading(level, heading));
  }

  /** A non-heading line joins the current section and keeps the invariant. */
  lemma StepPlain(st: Scan, line: string)
    requires ScanInv(st) && HeadingOf(line).None?
    ensures ScanInv(StepLine(st, line))
  {
    var c := st.current;
    var c' := c.(content := c.content + [line]);
    if c.content == [] {
      assert c'.content == [line];
      NoHeadingsSnoc([], line);
    } else if c.level == 0 {
      NoHeadingsSnoc(c.content, line);
    } else {
      assert c'.content[1..] == c.content[1..] + [line];
      NoHeadingsSnoc(c.content[1..], line);
    }
  }

  lemma StepInv(st: Scan, line: string)
    requires ScanInv(st)
    ensures ScanInv(StepLine(st, line))
  {
    if HeadingOf(line).Some? {
      StepHeading(st, line);
    } else {
      StepPlain(st, line);
    }
  }

  /** A step keeps every line seen so far and adds the new one, to the current section. */
  lemma StepLines(st: Scan, line: string)
    ensures var st' := StepLine(st, line);
            AllLines(st'.sections) + st'.current.content == AllLines(st.sections) + st.current.content + [line]
            && st'.current.content != []
  {
    if HeadingOf(line).Some? && st.current.content != [] {
      assert (st.sections + [st.current])[..|st.sections|] == st.sections;
    }
  }

  /** The loop's invariant holds after any number of lines. */
  lemma {:induction false} ScanInvariant(lines: seq<string>)
    ensures ScanInv(ScanLines(lines))
    decreases |lines|
  {
    if lines != [] {
      ScanInvariant(lines[..|lines| - 1]);
      StepInv(ScanLines(lines[..|lines| - 1]), lines[|lines| - 1]);
    }
  }

  /** Every scanned line is in exactly one section, in order; after a line the current section has lines. */
  lemma {:induction false} ScanContent(lines: seq<string>)
    ensures AllLines(ScanLines(lines).sections) + ScanLines(lines).current.content == lines
    ensures lines != [] ==> ScanLines(lines).current.content != []
    decreases |lines|
  {
    if lines != [] {
      var init := lines[..|lines| - 1];
      ScanContent(init);
      StepLines(ScanLines(init), lines[|lines| - 1]);
      InitLast(lines);
    }
  }

  /** The sections' lines, concatenated, are exactly `text.split('\n')`. */
  lemma SectionsCoverText(text: string)
    ensures AllLines(Sections(text)) == SplitOn(text, "\n")
  {
    var st := ScanLines(SplitOn(text, "\n"));
    ScanContent(SplitOn(text, "\n"));
    if st.current.content != [] {
      assert (st.sections + [st.current])[..|st.sections|] == st.sections;
    }
  }

  /** Every section is well formed; in particular a heading's section starts with the heading line and its parents are shallower, shallowest first. */
  lemma SectionsWellFormed(text: string)
    ensures forall s :: s in Sections(text) ==> WellFormed(s)
  {
    var st := ScanLines(SplitOn(text, "\n"));
    ScanInvariant(SplitOn(text, "\n"));
    FlushWellFormed(st);
  }

  /** There is always at least one section, even for the empty text, whose one line is `""`. */
  lemma SectionsNonEmpty(text: string)
    ensures Sections(text) != []
  {
    ScanContent(SplitOn(text, "\n"));
  }
}
