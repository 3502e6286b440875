/**
 * Page metadata built by the sync job (`rag_server/sync_confluence.py`):
 * the size limits `sanitize_metadata` puts on a chunk's metadata, the
 * breadcrumb `Space > Parent > … > Page`, the filterable path
 * `Space/Parent/…`, and the ancestor fields of a page.
 */
module SyncMetadata {
  import opened Wrappers
  import opened Text
  import opened Seqs

  // ---------------------------------------------------------------------
  // sanitize_metadata
  // ---------------------------------------------------------------------

  /** The longest string kept in a metadata field other than `text`. */
  const MaxMetadataSize := 1000
  /** The longest list kept in a metadata field. */
  const MaxMetadataListSize := 10

  /**
   * A metadata value: a string, a list, a nested dictionary (its items in
   * insertion order) or any other value, rendered, which is kept as it is.
   */
  datatype Value = Str(s: string) | List(items: seq<Value>) | Dict(entries: seq<(string, Value)>) | Scalar(repr: string)

  /** The value stored under `key` after `sanitize_metadata`; a nested dictionary is sanitized key by key. */
  function SanitizeValue(key: string, v: Value): (r: Value)
    ensures r.Str? == v.Str? && r.List? == v.List? && r.Dict? == v.Dict?
    ensures key == "text" && v.Str? ==> r == v
    ensures v.Dict? ==> |r.entries| == |v.entries| && forall i :: 0 <= i < |v.entries| ==> r.entries[i].0 == v.entries[i].0
    decreases v
  {
    match v
    case Str(s) => if key == "text" then v else Str(Take(s, MaxMetadataSize))
    case List(xs) => List(Take(xs, MaxMetadataListSize))
    case Dict(es) => Dict(seq(|es|, i requires 0 <= i < |es| => (es[i].0, SanitizeValue(es[i].0, es[i].1))))
    case Scalar(_) => v
  }

  /** `sanitize_metadata`: every key kept, in order, each value sanitized under its own key. */
  function SanitizeMetadata(md: seq<(string, Value)>): (r: seq<(string, Value)>)
    ensures |r| == |md|
    ensures forall i :: 0 <= i < |md| ==> r[i].0 == md[i].0
  {
    SanitizeValue("", Dict(md)).entries
  }

  /** Within the limits: no string but a `text` one above 1000 characters, no list above 10 items, at any depth. */
  predicate Bounded(key: string, v: Value)
    decreases v
  {
    match v
    case Str(s) => key == "text" || |s| <= MaxMetadataSize
    case List(xs) => |xs| <= MaxMetadataListSize
    case Dict(es) => forall i :: 0 <= i < |es| ==> Bounded(es[i].0, es[i].1)
    case Scalar(_) => true
  }

  /** `r` is `v` cut short: a prefix of a string or list, the same keys in a dictionary with each value cut short. */
  predicate Truncation(v: Value, r: Value) {
    match v
    case Str(s) => r.Str? && |r.s| <= |s| && r.s == s[..|r.s|]
    case List(xs) => r.List? && |r.items| <= |xs| && r.items == xs[..|r.items|]
    case Dict(es) =>
      r.Dict? && |r.entries| == |es|
      && forall i :: 0 <= i < |es| ==> r.entries[i].0 == es[i].0 && Truncation(es[i].1, r.entries[i].1)
    case Scalar(_) => r == v
  }

  /** Sanitizing only cuts values short, and the result is within the limits. */
  lemma {:induction false} SanitizeValueFacts(key: string, v: Value)
    ensures Truncation(v, SanitizeValue(key, v))
    ensures Bounded(key, SanitizeValue(key, v))
    decreases v
  {
    match v
    case Str(s) =>
    case List(xs) =>
    case Dict(es) =>
      var r := SanitizeValue(key, v);
      forall i | 0 <= i < |es|
        ensures Truncation(es[i].1, r.entries[i].1) && Bounded(r.entries[i].0, r.entries[i].1)
      {
        SanitizeValueFacts(es[i].0, es[i].1);
      }
    case Scalar(_) =>
  }

  /** Values already within the limits come out unchanged. */
  lemma {:induction false} SanitizeValueFixed(key: string, v: Value)
    requires Bounded(key, v)
    ensures SanitizeValue(key, v) == v
    decreases v
  {
    match v
    case Str(s) =>
    case List(xs) =>
    case Dict(es) =>
      var r := SanitizeValue(key, v);
      forall i | 0 <= i < |es| ensures r.entries[i] == es[i] {
        SanitizeValueFixed(es[i].0, es[i].1);
      }
      assert r.entries == es;
    case Scalar(_) =>
  }

  /** The sanitized metadata keeps its keys, only cuts values short and is within the limits. */
  lemma SanitizeMetadataFacts(md: seq<(string, Value)>)
    ensures Truncation(Dict(md), Dict(SanitizeMetadata(md)))
    ensures Bounded("", Dict(SanitizeMetadata(md)))
  {
    SanitizeValueFacts("", Dict(md));
  }

  /** Sanitizing twice is sanitizing once. */
  lemma SanitizeIdempotent(md: seq<(string, Value)>)
    ensures SanitizeMetadata(SanitizeMetadata(md)) == SanitizeMetadata(md)
  {
    SanitizeValueFacts("", Dict(md));
    SanitizeValueFixed("", Dict(SanitizeMetadata(md)));
  }

  // ---------------------------------------------------------------------
  // build_breadcrumb
  // ---------------------------------------------------------------------

  /** `MAX_BREADCRUMB_LEVELS` and `MAX_BREADCRUMB_LENGTH` with their defaults. */
  const DefaultBreadcrumbLevels := 5
  const DefaultBreadcrumbLength := 200

  /** The space key, the parents and the current title, the empty key and title left out. */
  function BreadcrumbParts(spaceKey: string, parentTitles: seq<string>, currentTitle: string): (r: seq<string>)
    ensures |r| == |parentTitles| + (if spaceKey != "" then 1 else 0) + (if currentTitle != "" then 1 else 0)
    ensures spaceKey != "" ==> r[0] == spaceKey
    ensures currentTitle != "" ==> r[|r| - 1] == currentTitle
  {
    (if spaceKey != "" then [spaceKey] else []) + parentTitles + (if currentTitle != "" then [currentTitle] else [])
  }

  /** `parts[:1] + ['...'] + parts[-(max_levels - 1):]` once there are more than `max_levels` parts. */
  function LimitLevels(parts: seq<string>, maxLevels: int): (r: seq<string>)
    ensures |parts| <= maxLevels ==> r == parts
    ensures maxLevels >= 2 && |parts| > maxLevels ==>
              |r| == maxLevels + 1 && r == [parts[0], "..."] + parts[|parts| - (maxLevels - 1)..]
    ensures maxLevels == 1 && |parts| > 1 ==> r == [parts[0], "..."] + parts
  {
    if |parts| > maxLevels then Take(parts, 1) + ["..."] + Drop(parts, 1 - maxLevels) else parts
  }

  /** `b[:max_length - 3] + "..."` once `b` is longer than `max_length`. */
  function LimitLength(b: string, maxLength: int): (r: string)
    ensures |b| <= maxLength ==> r == b
    ensures maxLength >= 3 ==> |r| <= maxLength
    ensures maxLength >= 3 && |b| > maxLength ==> |r| == maxLength && r == b[..maxLength - 3] + "..."
  {
    if |b| > maxLength then Take(b, maxLength - 3) + "..." else b
  }

  /** `build_breadcrumb`; a missing limit takes its default. */
  function BuildBreadcrumb(spaceKey: string, parentTitles: seq<string>, currentTitle: string,
                           maxLevels: Option<int>, maxLength: Option<int>): (r: string)
    ensures var levels := if maxLevels.Some? then maxLevels.value else DefaultBreadcrumbLevels;
            var length := if maxLength.Some? then maxLength.value else DefaultBreadcrumbLength;
            r == LimitLength(Join(" > ", LimitLevels(BreadcrumbParts(spaceKey, parentTitles, currentTitle), levels)), length)
  {
    var levels := if maxLevels.Some? then maxLevels.value else DefaultBreadcrumbLevels;
    var length := if maxLength.Some? then maxLength.value else DefaultBreadcrumbLength;
    var parts := LimitLevels(BreadcrumbParts(spaceKey, parentTitles, currentTitle), levels);
    var breadcrumb := if parts != [] then Join(" > ", parts) else "";
    LimitLength(breadcrumb, length)
  }

  /** Few and short enough parts are joined with ` > ` and kept whole. */
  lemma BreadcrumbWhole(spaceKey: string, parentTitles: seq<string>, currentTitle: string, maxLevels: int, maxLength: int)
    requires |BreadcrumbParts(spaceKey, parentTitles, currentTitle)| <= maxLevels
    requires |Join(" > ", BreadcrumbParts(spaceKey, parentTitles, currentTitle))| <= maxLength
    ensures BuildBreadcrumb(spaceKey, parentTitles, currentTitle, Some(maxLevels), Some(maxLength))
         == Join(" > ", BreadcrumbParts(spaceKey, parentTitles, currentTitle))
  {
  }

  /** With the default limits, a breadcrumb is never longer than 200 characters. */
  lemma BreadcrumbDefaultBound(spaceKey: string, parentTitles: seq<string>, currentTitle: string)
    ensures |BuildBreadcrumb(spaceKey, parentTitles, currentTitle, None, None)| <= DefaultBreadcrumbLength
  {
  }

  /** Too many levels: the first part, `...`, then the last `max_levels - 1` parts, ` > `-joined, before any length cut. */
  lemma BreadcrumbLevelsCut(parts: seq<string>, maxLevels: int)
    requires maxLevels >= 2 && |parts| > maxLevels
    ensures Join(" > ", LimitLevels(parts, maxLevels))
         == parts[0] + " > ... > " + Join(" > ", parts[|parts| - (maxLevels - 1)..])
  {
    var tail := parts[|parts| - (maxLevels - 1)..];
    JoinCons(" > ", parts[0], ["..."] + tail);
    JoinCons(" > ", "...", tail);
    assert [parts[0], "..."] + tail == [parts[0]] + (["..."] + tail);
  }

  // ---------------------------------------------------------------------
  // build_page_path
  // ---------------------------------------------------------------------

  /** A title with its `/` and `\` replaced by `_`. */
  function SafeTitle(t: string): (r: string)
    ensures |r| == |t| && '/' !in r && '\\' !in r
    ensures forall i :: 0 <= i < |t| && t[i] != '/' && t[i] != '\\' ==> r[i] == t[i]
  {
    ReplaceChar(ReplaceChar(t, '/', '_'), '\\', '_')
  }

  /** The parts `build_page_path` joins: the space key unless empty, then the escaped titles. */
  function PagePathParts(spaceKey: string, parentTitles: seq<string>): (r: seq<string>)
    ensures |r| == |parentTitles| + (if spaceKey != "" then 1 else 0)
    ensures spaceKey != "" ==> r[0] == spaceKey
  {
    (if spaceKey != "" then [spaceKey] else []) + seq(|parentTitles|, i requires 0 <= i < |parentTitles| => SafeTitle(parentTitles[i]))
  }

  /** `build_page_path`. */
  function BuildPagePath(spaceKey: string, parentTitles: seq<string>): (r: string)
    ensures parentTitles == [] ==> r == spaceKey
  {
    var parts := PagePathParts(spaceKey, parentTitles);
    if parts != [] then Join("/", parts) else spaceKey
  }

  /** The path splits on `/` back into the space key and the escaped titles. */
  lemma PagePathRoundTrip(spaceKey: string, parentTitles: seq<string>)
    requires '/' !in spaceKey && (spaceKey != "" || parentTitles != [])
    ensures SplitOn(BuildPagePath(spaceKey, parentTitles), "/") == PagePathParts(spaceKey, parentTitles)
  {
    var parts := PagePathParts(spaceKey, parentTitles);
    forall p | p in parts ensures '/' !in p {
      var i :| 0 <= i < |parts| && parts[i] == p;
    }
    SplitOnJoin(parts, '/');
  }

  /** Titles without `/` or `\` appear in the path unchanged. */
  lemma SafeTitlePlain(t: string)
    requires '/' !in t && '\\' !in t
    ensures SafeTitle(t) == t
  {
  }

  lemma {:induction false} SplitOnNoSep(a: string, c: char)
    requires c !in a
    ensures SplitOn(a, [c]) == [a]
    decreases |a|
  {
    if |a| >= 1 {
      assert a[0] != c && a[..1] == [a[0]];
      SplitOnNoSep(a[1..], c);
      assert [a[0]] + a[1..] == a;
    }
  }

  lemma {:induction false} SplitOnCons(a: string, c: char, rest: string)
    requires c !in a
    ensures SplitOn(a + [c] + rest, [c]) == [a] + SplitOn(rest, [c])
    decreases |a|
  {
    var s := a + [c] + rest;
    if a == [] {
      assert s[..1] == [c] && s[1..] == rest;
    } else {
      assert s[0] == a[0] != c && s[..1] == [s[0]];
      assert s[1..] == a[1..] + [c] + rest;
      SplitOnCons(a[1..], c, rest);
      assert [a[0]] + a[1..] == a;
    }
  }

  /** Splitting on a character that no part contains undoes joining on it. */
  lemma {:induction false} SplitOnJoin(parts: seq<string>, c: char)
    requires parts != [] && forall p :: p in parts ==> c !in p
    ensures SplitOn(Join([c], parts), [c]) == parts
    decreases |parts|
  {
    if |parts| == 1 {
      SplitOnNoSep(parts[0], c);
    } else {
      assert parts[0] in parts;
      assert forall p :: p in parts[1..] ==> p in parts;
      SplitOnJoin(parts[1..], c);
      SplitOnCons(parts[0], c, Join([c], parts[1..]));
      assert parts == [parts[0]] + parts[1..];
    }
  }

  // ---------------------------------------------------------------------
  // _extract_hierarchy
  // ---------------------------------------------------------------------

  /** An entry of `ancestors`: a dictionary with its rendered `id` and its `title` (missing ones read as ""), or anything else. */
  datatype Ancestor = Page(id: string, title: string) | NotDict

  /** `parent_id`, `parent_title`, `hierarchy_depth`, `parent_titles`. */
  datatype Hierarchy = Hierarchy(parentId: string, parentTitle: string, depth: nat, parentTitles: seq<string>)

  /** The non-empty titles of the dictionary ancestors, root first. */
  function TitlesOf(ancestors: seq<Ancestor>): (r: seq<string>)
    ensures |r| <= |ancestors|
    ensures forall i :: 0 <= i < |r| ==> r[i] != ""
  {
    if ancestors == [] then []
    else
      var a := ancestors[|ancestors| - 1];
      TitlesOf(ancestors[..|ancestors| - 1]) + (if a.Page? && a.title != "" then [a.title] else [])
  }

  /**
   * `_extract_hierarchy`; `ancestors` is `None` when the page has none or
   * they are not a list. The parent is the last ancestor.
   */
  method ExtractHierarchy(ancestors: Option<seq<Ancestor>>) returns (h: Hierarchy)
    ensures ancestors.None? || ancestors.value == [] ==> h == Hierarchy("", "", 0, [])
    ensures ancestors.Some? && ancestors.value != [] ==>
              var parent := ancestors.value[|ancestors.value| - 1];
              h.depth == |ancestors.value| && h.parentTitles == TitlesOf(ancestors.value)
              && h.parentId == (if parent.Page? then parent.id else "")
              && h.parentTitle == (if parent.Page? then parent.title else "")
  {
    h := Hierarchy("", "", 0, []);
    if ancestors.Some? && ancestors.value != [] {
      var list := ancestors.value;
      var parent := list[|list| - 1];
      if parent.Page? {
        h := h.(parentId := parent.id, parentTitle := parent.title);
      }
      h := h.(depth := |list|);
      var titles: seq<string> := [];
      for i := 0 to |list|
        invariant titles == TitlesOf(list[..i])
      {
        assert list[..i + 1][..i] == list[..i];
        if list[i].Page? && list[i].title != "" {
          titles := titles + [list[i].title];
        }
      }
      assert list[..|list|] == list;
      h := h.(parentTitles := titles);
    }
  }

  /** A titled parent is the last of the parent titles. */
  lemma ParentTitleLast(ancestors: seq<Ancestor>)
    requires ancestors != [] && ancestors[|ancestors| - 1].Page? && ancestors[|ancestors| - 1].title != ""
    ensures TitlesOf(ancestors) != [] && TitlesOf(ancestors)[|TitlesOf(ancestors)| - 1] == ancestors[|ancestors| - 1].title
  {
  }

  /** Every parent title is the title of some ancestor, in the same order. */
  lemma {:induction false} TitlesOfAncestors(ancestors: seq<Ancestor>, t: string)
    requires t in TitlesOf(ancestors)
    ensures Page?(ancestors, t)
    decreases |ancestors|
  {
    var init := ancestors[..|ancestors| - 1];
    if t in TitlesOf(init) {
      TitlesOfAncestors(init, t);
      var i :| 0 <= i < |init| && init[i].Page? && init[i].title == t;
      assert ancestors[i] == init[i];
    }
  }

  predicate Page?(ancestors: seq<Ancestor>, t: string) {
    exists i :: 0 <= i < |ancestors| && ancestors[i].Page? && ancestors[i].title == t
  }
}
