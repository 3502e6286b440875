/**
 * Structural navigation search: a query such as "Склад > Учет номенклатуры"
 * names a path of pages and sections, and documents are matched against
 * their path metadata instead of by embedding.
 *
 * The regular-expression recognisers ("по блоку …, а точнее …") are an
 * input: `regexParts` is what they extracted from the lower-cased query.
 */
module StructuralSearch {
  import opened Wrappers
  import opened Text
  import opened Seqs
  import opened Sorting
  import opened Records

  // ---------------------------------------------------------------------
  // parse_query_structure
  // ---------------------------------------------------------------------

  /** STRUCTURAL_SEPARATORS, tried in this order ('→' is listed twice). */
  const Separators: seq<string> := [">", "→", "→", " / ", " | "]

  /** The stripped pieces of `pieces` that are not blank, in order. */
  function NonBlankParts(pieces: seq<string>): (r: seq<string>)
    ensures forall p :: p in r ==> p != "" && !IsSpace(p[0]) && !IsSpace(p[|p| - 1])
    ensures |r| <= |pieces|
  {
    if pieces == [] then []
    else
      StripFacts(pieces[0]);
      (if Strip(pieces[0]) != "" then [Strip(pieces[0])] else []) + NonBlankParts(pieces[1..])
  }

  /**
   * `_parse_with_separators` over `seps`: the query split on the first
   * separator it contains, even when every piece is blank; `[]` when it
   * contains none.
   */
  function SplitOnFirst(query: string, seps: seq<string>): (r: seq<string>)
    requires forall s :: s in seps ==> |s| > 0
    ensures forall p :: p in r ==> p != "" && !IsSpace(p[0]) && !IsSpace(p[|p| - 1])
    ensures (forall i :: 0 <= i < |seps| ==> !Contains(query, seps[i])) ==> r == []
    decreases |seps|
  {
    if seps == [] then []
    else if Contains(query, seps[0]) then NonBlankParts(SplitOn(query, seps[0]))
    else SplitOnFirst(query, seps[1..])
  }

  function ParseWithSeparators(query: string): (r: seq<string>)
    ensures forall p :: p in r ==> p != "" && !IsSpace(p[0]) && !IsSpace(p[|p| - 1])
    ensures (forall i :: 0 <= i < |Separators| ==> !Contains(query, Separators[i])) ==> r == []
  {
    SplitOnFirst(query, Separators)
  }

  datatype Structure = Structure(isStructural: bool, parts: seq<string>, original: string, lower: string)

  /**
   * `parse_query_structure`: the separator parts if any, else the parts the
   * recognisers found; a query that is not structural is its own only part.
   */
  function ParseQueryStructure(query: string, regexParts: seq<string>): (r: Structure)
    ensures r.parts != []
    ensures r.isStructural <==> ParseWithSeparators(query) != [] || regexParts != []
    ensures !r.isStructural ==> r.parts == [query]
    ensures ParseWithSeparators(query) != [] ==> r.parts == ParseWithSeparators(query)
    ensures ParseWithSeparators(query) == [] && regexParts != [] ==> r.parts == regexParts
    ensures r.original == query && r.lower == Strip(Lower(query))
  {
    var parts := ParseWithSeparators(query);
    var isStructural := parts != [];
    if isStructural then Structure(true, parts, query, Strip(Lower(query)))
    else if regexParts != [] then Structure(true, regexParts, query, Strip(Lower(query)))
    else Structure(false, [query], query, Strip(Lower(query)))
  }

  // ---------------------------------------------------------------------
  // _calculate_structural_match (every part must match)
  // ---------------------------------------------------------------------

  datatype Field = PagePath | Title | HeadingPath | Heading | ParentPath

  function FieldKey(f: Field): string {
    match f
    case PagePath => "page_path"
    case Title => "title"
    case HeadingPath => "heading_path"
    case Heading => "heading"
    case ParentPath => "parent_path"
  }

  /** FIELD_WEIGHTS: page_path 3.0, title 2.0, heading_path 1.5, heading 1.0. */
  function FieldWeight(f: Field): (w: real)
    ensures w >= 1.0
  {
    match f
    case PagePath => 3.0
    case Title => 2.0
    case HeadingPath => 1.5
    case _ => 1.0
  }

  const WeightedFields: seq<Field> := [PagePath, Title, HeadingPath, Heading]

  /** The first of `fields` whose lower-cased value contains `partLower`. */
  function FirstField(partLower: string, md: Metadata, fields: seq<Field>): Option<Field>
    decreases |fields|
  {
    if fields == [] then None
    else if Contains(Lower(Get(md, FieldKey(fields[0]))), partLower) then Some(fields[0])
    else FirstField(partLower, md, fields[1..])
  }

  /** The field found is one of `fields` and contains the part; none is found only when no field contains it. */
  lemma {:induction false} FirstFieldFacts(partLower: string, md: Metadata, fields: seq<Field>)
    ensures var r := FirstField(partLower, md, fields);
            (r.Some? ==> r.value in fields && Contains(Lower(Get(md, FieldKey(r.value))), partLower))
            && (r.None? ==> forall i :: 0 <= i < |fields| ==> !Contains(Lower(Get(md, FieldKey(fields[i]))), partLower))
    decreases |fields|
  {
    if fields != [] && !Contains(Lower(Get(md, FieldKey(fields[0]))), partLower) {
      FirstFieldFacts(partLower, md, fields[1..]);
      assert forall i :: 1 <= i < |fields| ==> fields[i] == fields[1..][i - 1];
    }
  }

  /** The first weighted field containing a part, compared lower-cased. */
  function PartField(part: string, md: Metadata): Option<Field> {
    FirstField(Lower(part), md, WeightedFields)
  }

  datatype Match = Match(part: string, field: Field, weight: int)

  /** Every part is found in one of the weighted fields. */
  predicate AllPartsMatch(parts: seq<string>, md: Metadata) {
    forall i :: 0 <= i < |parts| ==> PartField(parts[i], md).Some?
  }

  /** The match of part `i`: its first matching field and its position weight `len(parts) - i`. */
  function PartMatch(parts: seq<string>, md: Metadata, i: nat): Match
    requires i < |parts| && PartField(parts[i], md).Some?
  {
    Match(parts[i], PartField(parts[i], md).value, |parts| - i)
  }

  /** The score of the first `n` parts: field weight plus position weight, part by part. */
  function PrefixScore(parts: seq<string>, md: Metadata, n: nat): (s: real)
    requires n <= |parts| && AllPartsMatch(parts, md)
    ensures s >= 2.0 * n as real
  {
    if n == 0 then 0.0
    else
      var m := PartMatch(parts, md, n - 1);
      PrefixScore(parts, md, n - 1) + FieldWeight(m.field) + m.weight as real
  }

  /** The matches of the first `n` parts, in order. */
  function Matches(parts: seq<string>, md: Metadata, n: nat): (r: seq<Match>)
    requires n <= |parts| && AllPartsMatch(parts, md)
    ensures |r| == n
  {
    if n == 0 then [] else Matches(parts, md, n - 1) + [PartMatch(parts, md, n - 1)]
  }

  /** One more matched part adds its field weight and position weight to the score, and its match to the list. */
  lemma PrefixStep(parts: seq<string>, md: Metadata, i: nat)
    requires i < |parts| && AllPartsMatch(parts, md)
    ensures PrefixScore(parts, md, i + 1)
            == PrefixScore(parts, md, i) + FieldWeight(PartMatch(parts, md, i).field) + (|parts| - i) as real
    ensures Matches(parts, md, i + 1) == Matches(parts, md, i) + [PartMatch(parts, md, i)]
  {
  }

  /** The structural score of a document: 0 unless every part matches. */
  function StructScore(parts: seq<string>, md: Metadata): real {
    if AllPartsMatch(parts, md) then PrefixScore(parts, md, |parts|) else 0.0
  }

  /** A document scores above 0 exactly when there is a part and every part matches. */
  lemma StructScorePositive(parts: seq<string>, md: Metadata)
    ensures StructScore(parts, md) > 0.0 <==> parts != [] && AllPartsMatch(parts, md)
  {
  }

  /**
   * `_calculate_structural_match`: for each part in order, the first
   * weighted field containing it (case-insensitively) adds its weight plus
   * the position weight; a part matching no field makes the whole result
   * `(0, [])`.
   */
  method StructuralMatch(parts: seq<string>, md: Metadata) returns (score: real, matches: seq<Match>)
    ensures AllPartsMatch(parts, md) ==> score == PrefixScore(parts, md, |parts|) && matches == Matches(parts, md, |parts|)
    ensures !AllPartsMatch(parts, md) ==> score == 0.0 && matches == []
  {
    score := 0.0;
    matches := [];
    var i := 0;
    while i < |parts|
      invariant 0 <= i <= |parts|
      invariant forall j :: 0 <= j < i ==> PartField(parts[j], md).Some?
      invariant AllPartsMatch(parts, md) ==> score == PrefixScore(parts, md, i) && matches == Matches(parts, md, i)
    {
      var field := PartField(parts[i], md);
      if field.None? {
        return 0.0, [];
      }
      var weight := |parts| - i;
      if AllPartsMatch(parts, md) {
        PrefixStep(parts, md, i);
      }
      score := score + FieldWeight(field.value) + weight as real;
      matches := matches + [Match(parts[i], field.value, weight)];
      i := i + 1;
    }
  }

  // ---------------------------------------------------------------------
  // structural_metadata_search (every part must match, early stop)
  // ---------------------------------------------------------------------

  datatype StructHit = StructHit(metadata: Metadata, score: real, matches: seq<Match>)

  predicate HitGe(a: StructHit, b: StructHit) { a.score >= b.score }

  /** The hit of one document, if it is non-empty and scores above 0. */
  function DocHit(md: Metadata, parts: seq<string>): seq<StructHit> {
    if md != map[] && StructScore(parts, md) > 0.0 then
      [StructHit(md, StructScore(parts, md), Matches(parts, md, |parts|))]
    else []
  }

  /** The hits of all documents, in scan order. */
  function MatchingDocs(mds: seq<Metadata>, parts: seq<string>): (r: seq<StructHit>)
    ensures |r| <= |mds|
    decreases |mds|
  {
    if mds == [] then [] else MatchingDocs(mds[..|mds| - 1], parts) + DocHit(mds[|mds| - 1], parts)
  }

  lemma {:induction false} MatchingDocsPrefix(mds: seq<Metadata>, parts: seq<string>, i: nat)
    requires i <= |mds|
    ensures var p := MatchingDocs(mds[..i], parts);
            |p| <= |MatchingDocs(mds, parts)| && p == MatchingDocs(mds, parts)[..|p|]
    decreases |mds|
  {
    if i < |mds| {
      var init := mds[..|mds| - 1];
      assert init[..i] == mds[..i];
      MatchingDocsPrefix(init, parts, i);
    } else {
      assert mds[..i] == mds;
    }
  }

  /** Every hit is a non-empty input document, fully matched, with a positive score. */
  lemma {:induction false} MatchingDocsSound(mds: seq<Metadata>, parts: seq<string>)
    ensures forall h :: h in MatchingDocs(mds, parts) ==>
              h.metadata in mds && h.metadata != map[] && h.score > 0.0
              && AllPartsMatch(parts, h.metadata) && h.score == StructScore(parts, h.metadata)
              && |h.matches| == |parts|
    decreases |mds|
  {
    if mds != [] {
      MatchingDocsSound(mds[..|mds| - 1], parts);
      forall h | h in MatchingDocs(mds, parts)
        ensures h in MatchingDocs(mds[..|mds| - 1], parts) || h in DocHit(mds[|mds| - 1], parts)
      {
      }
      forall md | md in mds[..|mds| - 1] ensures md in mds {
      }
    }
  }

  /** The documents scanned before the search stops: the first `limit` hits. */
  function ScannedHits(mds: seq<Metadata>, parts: seq<string>, limit: int): seq<StructHit> {
    var all := MatchingDocs(mds, parts);
    all[..Min(Max(limit, 0), |all|)]
  }

  /** The scanning loop: documents in order, stopping once `limit` hits are found. */
  method ScanDocuments(mds: seq<Metadata>, parts: seq<string>, limit: int) returns (found: seq<StructHit>)
    ensures found == ScannedHits(mds, parts, limit)
  {
    found := [];
    var i := 0;
    while i < |mds| && |found| < limit
      invariant i <= |mds| && found == MatchingDocs(mds[..i], parts) && |found| <= Max(limit, 0)
    {
      MatchingDocsStep(mds, parts, i);
      var hit := ScoreDocument(mds[i], parts);
      found := found + hit;
      i := i + 1;
    }
    ScanStops(mds, parts, limit, i);
  }

  /** Where the scan stops, at the end or at `limit` hits, it has found the first `limit` hits. */
  lemma ScanStops(mds: seq<Metadata>, parts: seq<string>, limit: int, i: nat)
    requires i <= |mds| && |MatchingDocs(mds[..i], parts)| <= Max(limit, 0)
    requires i == |mds| || |MatchingDocs(mds[..i], parts)| >= limit
    ensures MatchingDocs(mds[..i], parts) == ScannedHits(mds, parts, limit)
  {
    MatchingDocsPrefix(mds, parts, i);
    assert i == |mds| ==> mds[..i] == mds;
  }

  /** One document of the scan: matched when it is non-empty, kept when it scores above 0. */
  method ScoreDocument(md: Metadata, parts: seq<string>) returns (hit: seq<StructHit>)
    ensures hit == DocHit(md, parts) && |hit| <= 1
  {
    hit := [];
    if md != map[] {
      var score, matches := StructuralMatch(parts, md);
      DocHitOfMatch(md, parts, score, matches);
      if score > 0.0 {
        hit := [StructHit(md, score, matches)];
      }
    }
  }

  /** Scanning one more document adds its hit, if any. */
  lemma MatchingDocsStep(mds: seq<Metadata>, parts: seq<string>, i: nat)
    requires i < |mds|
    ensures MatchingDocs(mds[..i + 1], parts) == MatchingDocs(mds[..i], parts) + DocHit(mds[i], parts)
  {
    assert mds[..i + 1][..i] == mds[..i];
  }

  /** A non-empty document's hit, from what the match of its parts returned. */
  lemma DocHitOfMatch(md: Metadata, parts: seq<string>, score: real, matches: seq<Match>)
    requires md != map[]
    requires AllPartsMatch(parts, md) ==> score == PrefixScore(parts, md, |parts|) && matches == Matches(parts, md, |parts|)
    requires !AllPartsMatch(parts, md) ==> score == 0.0 && matches == []
    ensures DocHit(md, parts) == if score > 0.0 then [StructHit(md, score, matches)] else []
  {
    StructScorePositive(parts, md);
  }

  /**
   * `structural_metadata_search` (without its result cache): nothing for a
   * query that is not structural or an empty collection; otherwise the
   * first `limit` documents matching every part, by descending score.
   */
  method StructuralMetadataSearch(structure: Structure, mds: seq<Metadata>, limit: int) returns (out: seq<StructHit>)
    ensures !structure.isStructural || mds == [] || structure.parts == [] ==> out == []
    ensures structure.isStructural && mds != [] && structure.parts != [] ==>
              out == Take(Sort(ScannedHits(mds, structure.parts, limit), HitGe), limit)
  {
    if !structure.isStructural || mds == [] || structure.parts == [] {
      return [];
    }
    var found := ScanDocuments(mds, structure.parts, limit);
    out := Take(Sort(found, HitGe), limit);
  }

  /**
   * The structural results: at most `limit`, by non-increasing score, each a
   * non-empty input document matching every part with a positive score.
   */
  lemma StructuralResultFacts(mds: seq<Metadata>, parts: seq<string>, limit: int)
    ensures var r := Take(Sort(ScannedHits(mds, parts, limit), HitGe), limit);
            |r| <= Max(limit, 0)
            && SortedBy(r, HitGe)
            && forall h :: h in r ==> h.metadata in mds && h.score > 0.0 && |h.matches| == |parts|
  {
    var found := ScannedHits(mds, parts, limit);
    var s := Sort(found, HitGe);
    var r := Take(s, limit);
    SortPermutes(found, HitGe);
    SortMembers(found, HitGe);
    assert Preorder(HitGe);
    SortSorted(found, HitGe);
    MatchingDocsSound(mds, parts);
    assert forall h :: h in found ==> h in MatchingDocs(mds, parts);
    forall h | h in r ensures h in s {
      var k :| 0 <= k < |r| && r[k] == h;
      assert s[k] == h;
    }
    assert forall i :: 0 <= i < |r| ==> r[i] == s[i];
  }

  // ---------------------------------------------------------------------
  // The older structural_metadata_search: any part may match
  // ---------------------------------------------------------------------

  /** A field's value, lower-cased (`(metadata.get(field, '') or '').lower()`). */
  function FieldText(md: Metadata, f: Field): string {
    Lower(Get(md, FieldKey(f)))
  }

  /**
   * The first field, in the order page_path, title, heading_path, heading,
   * parent_path, that contains `partLower` (the older variant has no field
   * weights).
   */
  function AnyField(partLower: string, md: Metadata): Option<Field> {
    if Contains(FieldText(md, PagePath), partLower) then Some(PagePath)
    else if Contains(FieldText(md, Title), partLower) then Some(Title)
    else if Contains(FieldText(md, HeadingPath), partLower) then Some(HeadingPath)
    else if Contains(FieldText(md, Heading), partLower) then Some(Heading)
    else if Contains(FieldText(md, ParentPath), partLower) then Some(ParentPath)
    else None
  }

  /** A part as it is looked up: lower-cased and stripped. */
  function PartKey(part: string): string {
    Strip(Lower(part))
  }

  /** The lookup key of every part, position by position. */
  function PartKeys(parts: seq<string>): (keys: seq<string>)
    ensures |keys| == |parts|
    ensures forall i :: 0 <= i < |parts| ==> keys[i] == PartKey(parts[i])
  {
    seq(|parts|, i requires 0 <= i < |parts| => PartKey(parts[i]))
  }

  /** The field a lookup key is found in: the key must have at least two characters. */
  function FoundField(key: string, md: Metadata): (r: Option<Field>)
    ensures r.Some? ==> |key| >= 2 && Contains(FieldText(md, r.value), key)
  {
    if |key| >= 2 then AnyField(key, md) else None
  }

  predicate PartFound(keys: seq<string>, md: Metadata, i: int) {
    0 <= i < |keys| && FoundField(keys[i], md).Some?
  }

  /** The score of the first `n` parts: the position weight `len(parts) - i` of every part found. */
  function AnyPartScore(keys: seq<string>, md: Metadata, n: nat): (s: int)
    requires n <= |keys|
    ensures s >= 0
  {
    if n == 0 then 0
    else AnyPartScore(keys, md, n - 1) + (if PartFound(keys, md, n - 1) then |keys| - (n - 1) else 0)
  }

  /** The matches of the first `n` parts: each part found, its field and its position weight. */
  function AnyMatches(parts: seq<string>, keys: seq<string>, md: Metadata, n: nat): seq<Match>
    requires |keys| == |parts| && n <= |parts|
  {
    if n == 0 then []
    else
      AnyMatches(parts, keys, md, n - 1)
      + (if PartFound(keys, md, n - 1)
         then [Match(parts[n - 1], FoundField(keys[n - 1], md).value, |parts| - (n - 1))]
         else [])
  }

  /** A document scores above 0 exactly when some part is found in it. */
  lemma {:induction false} AnyPartScorePositive(keys: seq<string>, md: Metadata, n: nat)
    requires n <= |keys|
    ensures AnyPartScore(keys, md, n) > 0 <==> exists i :: 0 <= i < n && PartFound(keys, md, i)
  {
    if n > 0 {
      AnyPartScorePositive(keys, md, n - 1);
      if PartFound(keys, md, n - 1) {
        assert |keys| - (n - 1) > 0;
      }
    }
  }

  /** The scoring loop over the parts and their lookup keys. */
  method MatchKeys(parts: seq<string>, keys: seq<string>, md: Metadata) returns (score: int, matches: seq<Match>)
    requires |keys| == |parts|
    ensures score == AnyPartScore(keys, md, |parts|) && matches == AnyMatches(parts, keys, md, |parts|)
  {
    score := 0;
    matches := [];
    var i := 0;
    while i < |parts|
      invariant 0 <= i <= |parts|
      invariant score == AnyPartScore(keys, md, i) && matches == AnyMatches(parts, keys, md, i)
    {
      var field := FoundField(keys[i], md);
      if field.Some? {
        var weight := |parts| - i;
        score := score + weight;
        matches := matches + [Match(parts[i], field.value, weight)];
        assert matches == AnyMatches(parts, keys, md, i + 1);
      } else {
        assert AnyMatches(parts, keys, md, i + 1) == AnyMatches(parts, keys, md, i);
      }
      i := i + 1;
    }
  }

  /**
   * The per-document loop of the older `structural_metadata_search`: every
   * part of at least two characters found in any field adds its position
   * weight.
   */
  method AnyPartMatch(parts: seq<string>, md: Metadata) returns (score: int, matches: seq<Match>)
    ensures var keys := PartKeys(parts);
            score == AnyPartScore(keys, md, |parts|) && matches == AnyMatches(parts, keys, md, |parts|)
  {
    score, matches := MatchKeys(parts, PartKeys(parts), md);
  }

  /** A point of the collection: its id, text and metadata. */
  datatype Point = Point(id: string, text: string, metadata: Metadata)

  datatype PointHit = PointHit(id: string, text: string, metadata: Metadata, score: int, matches: seq<Match>)

  predicate PointHitGe(a: PointHit, b: PointHit) { a.score >= b.score }

  function PointHitOf(p: Point, parts: seq<string>): seq<PointHit> {
    var keys := PartKeys(parts);
    if p.metadata != map[] && AnyPartScore(keys, p.metadata, |parts|) > 0 then
      [PointHit(p.id, p.text, p.metadata, AnyPartScore(keys, p.metadata, |parts|), AnyMatches(parts, keys, p.metadata, |parts|))]
    else []
  }

  /** The hits of all points, in collection order. */
  function AnyHits(points: seq<Point>, parts: seq<string>): seq<PointHit>
    decreases |points|
  {
    if points == [] then [] else AnyHits(points[..|points| - 1], parts) + PointHitOf(points[|points| - 1], parts)
  }

  /** Every hit is a point with non-empty metadata in which some part was found. */
  lemma {:induction false} AnyHitsSound(points: seq<Point>, parts: seq<string>)
    ensures forall h :: h in AnyHits(points, parts) ==>
              Point(h.id, h.text, h.metadata) in points && h.metadata != map[] && h.score > 0
              && h.score == AnyPartScore(PartKeys(parts), h.metadata, |parts|)
    decreases |points|
  {
    if points != [] {
      AnyHitsSound(points[..|points| - 1], parts);
      forall h | h in AnyHits(points, parts)
        ensures h in AnyHits(points[..|points| - 1], parts) || h in PointHitOf(points[|points| - 1], parts)
      {
      }
      forall p | p in points[..|points| - 1] ensures p in points {
      }
    }
  }

  /** Every point with non-empty metadata in which some part was found is a hit. */
  lemma {:induction false} AnyHitsComplete(points: seq<Point>, parts: seq<string>, p: Point)
    requires p in points && p.metadata != map[] && AnyPartScore(PartKeys(parts), p.metadata, |parts|) > 0
    ensures exists h :: h in AnyHits(points, parts) && h.id == p.id && h.metadata == p.metadata
    decreases |points|
  {
    var last := points[|points| - 1];
    if p == last {
      assert PointHitOf(p, parts)[0] in AnyHits(points, parts);
    } else {
      var k :| 0 <= k < |points| && points[k] == p;
      assert points[..|points| - 1][k] == p;
      AnyHitsComplete(points[..|points| - 1], parts, p);
      var h :| h in AnyHits(points[..|points| - 1], parts) && h.id == p.id && h.metadata == p.metadata;
      assert h in AnyHits(points, parts);
    }
  }

  /** The scan over every point of the collection. */
  method ScanPoints(points: seq<Point>, parts: seq<string>) returns (found: seq<PointHit>)
    ensures found == AnyHits(points, parts)
  {
    found := [];
    var i := 0;
    while i < |points|
      invariant 0 <= i <= |points|
      invariant found == AnyHits(points[..i], parts)
    {
      assert points[..i + 1][..i] == points[..i];
      var p := points[i];
      if p.metadata != map[] {
        var score, matches := AnyPartMatch(parts, p.metadata);
        if score > 0 {
          found := found + [PointHit(p.id, p.text, p.metadata, score, matches)];
        }
      }
      i := i + 1;
    }
    assert points[..i] == points;
  }

  /**
   * The older `structural_metadata_search`: nothing for a query that is not
   * structural or an empty collection; otherwise every point in which some
   * part is found, by descending score, at most `limit` of them.
   */
  method AnyPartStructuralSearch(structure: Structure, points: seq<Point>, limit: int) returns (out: seq<PointHit>)
    ensures !structure.isStructural || points == [] ==> out == []
    ensures structure.isStructural && points != [] ==>
              out == Take(Sort(AnyHits(points, structure.parts), PointHitGe), limit)
  {
    if !structure.isStructural || points == [] {
      return [];
    }
    var found := ScanPoints(points, structure.parts);
    out := Take(Sort(found, PointHitGe), limit);
  }

  /**
   * The older variant's results: at most `limit` (for a non-negative
   * limit), by non-increasing score, each a point of the collection with a
   * positive score.
   */
  lemma AnyPartResultFacts(points: seq<Point>, parts: seq<string>, limit: int)
    ensures var r := Take(Sort(AnyHits(points, parts), PointHitGe), limit);
            (limit >= 0 ==> |r| <= limit)
            && SortedBy(r, PointHitGe)
            && forall h :: h in r ==> Point(h.id, h.text, h.metadata) in points && h.score > 0
  {
    var found := AnyHits(points, parts);
    var s := Sort(found, PointHitGe);
    var r := Take(s, limit);
    SortPermutes(found, PointHitGe);
    SortMembers(found, PointHitGe);
    assert Preorder(PointHitGe);
    SortSorted(found, PointHitGe);
    AnyHitsSound(points, parts);
    forall h | h in r ensures h in s {
      var k :| 0 <= k < |r| && r[k] == h;
      assert s[k] == h;
    }
    assert forall i :: 0 <= i < |r| ==> r[i] == s[i];
  }
}
