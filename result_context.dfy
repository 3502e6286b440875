/**
 * What the search tool attaches to a result before ranking it: the
 * breadcrumb of the page, the hierarchy boost of its position in the
 * space, and how well the query matches the breadcrumb.
 */
module ResultContext {
  import opened Wrappers
  import opened Text
  import opened Records
  import opened Similarity
  import AdvancedSearch

  // ---------------------------------------------------------------------
  // enrich_result_with_context
  // ---------------------------------------------------------------------

  const PathSeparator: string := " > "
  const CrumbSeparator: string := " → "

  /**
   * The pieces of the breadcrumb: the `page_path` split at `" > "` when
   * it is set, otherwise the parent title and the page title (when it
   * differs from the parent); then the section heading, when set.
   */
  function BreadcrumbParts(md: Metadata): seq<string> {
    var base :=
      if Get(md, "page_path") != "" then SplitOn(Get(md, "page_path"), PathSeparator)
      else
        (if Get(md, "parent_title") != "" then [Get(md, "parent_title")] else [])
        + (if Get(md, "title") != "" && Get(md, "title") != Get(md, "parent_title") then [Get(md, "title")] else []);
    base + (if Get(md, "heading") != "" then [Get(md, "heading")] else [])
  }

  /** `metadata.get('title', 'Unknown')`. */
  function TitleOrUnknown(md: Metadata): string {
    if "title" in md then md["title"] else "Unknown"
  }

  /**
   * The breadcrumb: the pieces joined by `" → "`, or the title (`Unknown`
   * without one) when there are no pieces. A page path has its `" > "`
   * separators turned into arrows, and the heading comes last.
   */
  function Breadcrumb(md: Metadata): (r: string)
    ensures Get(md, "page_path") != "" && Get(md, "heading") == "" ==>
              r == Replace(Get(md, "page_path"), PathSeparator, CrumbSeparator)
    ensures Get(md, "page_path") != "" && Get(md, "heading") != "" ==>
              r == Replace(Get(md, "page_path"), PathSeparator, CrumbSeparator) + CrumbSeparator + Get(md, "heading")
    ensures Get(md, "page_path") == "" && Get(md, "parent_title") == "" && Get(md, "title") == "" && Get(md, "heading") == "" ==>
              r == TitleOrUnknown(md)
    ensures Get(md, "page_path") == "" && Get(md, "parent_title") != "" && Get(md, "title") != ""
            && Get(md, "title") != Get(md, "parent_title") && Get(md, "heading") == "" ==>
              r == Get(md, "parent_title") + CrumbSeparator + Get(md, "title")
  {
    var parts := BreadcrumbParts(md);
    JoinedParts(md);
    if parts != [] then Join(CrumbSeparator, parts) else TitleOrUnknown(md)
  }

  /** The joined pieces in the cases `Breadcrumb` distinguishes. */
  lemma JoinedParts(md: Metadata)
    ensures var path := Get(md, "page_path");
            var h := Get(md, "heading");
            var joined := Join(CrumbSeparator, BreadcrumbParts(md));
            (path != "" ==> BreadcrumbParts(md) != [])
            && (path != "" && h == "" ==> joined == Replace(path, PathSeparator, CrumbSeparator))
            && (path != "" && h != "" ==> joined == Replace(path, PathSeparator, CrumbSeparator) + CrumbSeparator + h)
    ensures Get(md, "page_path") == "" && Get(md, "parent_title") != "" && Get(md, "title") != ""
            && Get(md, "title") != Get(md, "parent_title") && Get(md, "heading") == "" ==>
              Join(CrumbSeparator, BreadcrumbParts(md)) == Get(md, "parent_title") + CrumbSeparator + Get(md, "title")
  {
    var path := Get(md, "page_path");
    var h := Get(md, "heading");
    var parts := BreadcrumbParts(md);
    if path != "" {
      var pieces := SplitOn(path, PathSeparator);
      JoinSplitReplace(path, PathSeparator, CrumbSeparator);
      if h == "" {
        assert parts == pieces;
      } else {
        assert parts == pieces + [h];
        JoinSnoc(CrumbSeparator, pieces, h);
      }
    } else if Get(md, "parent_title") != "" && Get(md, "title") != ""
              && Get(md, "title") != Get(md, "parent_title") && h == "" {
      assert parts == [Get(md, "parent_title")] + [Get(md, "title")];
      JoinCons(CrumbSeparator, Get(md, "parent_title"), [Get(md, "title")]);
    }
  }

  /** The result after enrichment: its metadata (`{}` when it had none) and its breadcrumb. */
  datatype Enriched = Enriched(metadata: Metadata, breadcrumb: string)

  /**
   * `enrich_result_with_context`. `result` is `None` for a falsy or
   * non-dictionary result, which is passed through; `Some(None)` stands for
   * a result without a (dictionary) metadata entry.
   */
  function EnrichResultWithContext(result: Option<Option<Metadata>>): (r: Option<Enriched>)
    ensures result.None? <==> r.None?
    ensures result == Some(None) ==> r == Some(Enriched(map[], "Unknown"))
    ensures result.Some? && result.value.Some? ==>
              r == Some(Enriched(result.value.value, Breadcrumb(result.value.value)))
  {
    if result.None? then None
    else
      var md := if result.value.Some? then result.value.value else map[];
      assert md == map[] ==> BreadcrumbParts(md) == [];
      Some(Enriched(md, Breadcrumb(md)))
  }

  /** A heading, when set, always ends the breadcrumb. */
  lemma BreadcrumbEndsWithHeading(md: Metadata)
    requires Get(md, "heading") != ""
    ensures var r := Breadcrumb(md);
            var h := Get(md, "heading");
            |h| <= |r| && r[|r| - |h|..] == h
  {
    var parts := BreadcrumbParts(md);
    var base := parts[..|parts| - 1];
    assert parts == base + [Get(md, "heading")];
    JoinSnoc(CrumbSeparator, base, Get(md, "heading"));
  }

  // ---------------------------------------------------------------------
  // calculate_hierarchy_boost
  // ---------------------------------------------------------------------

  /** The title keywords and their boosts, in the dictionary's order. */
  const TitleKeywords: seq<(string, real)> := [
    ("общая информация", 0.3), ("главная", 0.3), ("readme", 0.3), ("getting started", 0.3),
    ("начало работы", 0.3), ("обзор", 0.2), ("документация", 0.2), ("руководство", 0.2)
  ]

  const TechnicalLabels: seq<string> := [
    "api", "technical", "архитектура", "development", "разработка", "интеграция", "configuration", "настройка"
  ]

  /** The boost of the first title keyword, from the `k`-th on, that the title contains. */
  function TitleBoostFrom(title: string, k: nat): (r: real)
    requires k <= |TitleKeywords|
    ensures 0.0 <= r <= 0.3
    ensures r == 0.0 <==> forall j :: k <= j < |TitleKeywords| ==> !Contains(title, TitleKeywords[j].0)
    decreases |TitleKeywords| - k
  {
    if k == |TitleKeywords| then 0.0
    else if Contains(title, TitleKeywords[k].0) then TitleKeywords[k].1
    else TitleBoostFrom(title, k + 1)
  }

  /** Only one keyword counts: the first one in the table. */
  function TitleBoost(title: string): real {
    TitleBoostFrom(title, 0)
  }

  /** Some technical label is a substring of the labels string. */
  predicate HasTechnicalLabel(labels: string) {
    exists k :: 0 <= k < |TechnicalLabels| && Contains(labels, TechnicalLabels[k])
  }

  function HeadingBoost(headingLevel: int): real {
    if headingLevel == 1 then 0.2 else if headingLevel == 2 then 0.1 else 0.0
  }

  function LabelBoost(labels: string): real {
    if labels == "" then 0.0 else if HasTechnicalLabel(labels) then 0.3 else 0.05
  }

  /** The sum of the four boosts before the cap. */
  function RawBoost(md: Metadata, headingLevel: int): real {
    (if Get(md, "parent_title") == "" then 0.5 else 0.0)
    + TitleBoost(Lower(Get(md, "title")))
    + HeadingBoost(headingLevel)
    + LabelBoost(Lower(Get(md, "labels")))
  }

  /**
   * `calculate_hierarchy_boost`: root pages get 0.5, the first matching
   * title keyword its boost, a level-1 or level-2 heading 0.2 or 0.1,
   * labels 0.3 when technical and 0.05 otherwise; the sum is capped at
   * 0.8. `headingLevel` is the metadata's `heading_level` (0 when absent).
   */
  function HierarchyBoost(md: Metadata, headingLevel: int): (r: real)
    ensures 0.0 <= r <= 0.8
    ensures Get(md, "parent_title") == "" ==> r >= 0.5
    ensures r == 0.0 <==>
              Get(md, "parent_title") != "" && TitleBoost(Lower(Get(md, "title"))) == 0.0
              && headingLevel != 1 && headingLevel != 2 && Get(md, "labels") == ""
  {
    var raw := RawBoost(md, headingLevel);
    if raw < 0.8 then raw else 0.8
  }

  /** A page never loses boost by becoming a root page (its parent title cleared). */
  lemma RootPageBoostsMore(md: Metadata, headingLevel: int)
    ensures HierarchyBoost(md[("parent_title") := ""], headingLevel) >= HierarchyBoost(md, headingLevel)
  {
    var root := md["parent_title" := ""];
    assert Get(root, "title") == Get(md, "title");
    assert Get(root, "labels") == Get(md, "labels");
  }

  /** A technical label boosts at least as much as any other label string. */
  lemma TechnicalLabelsBoostMore(md: Metadata, headingLevel: int, labels: string)
    requires HasTechnicalLabel(Lower(labels))
    ensures HierarchyBoost(md["labels" := labels], headingLevel) >= HierarchyBoost(md, headingLevel)
  {
    var tagged := md["labels" := labels];
    assert Get(tagged, "title") == Get(md, "title");
    assert Get(tagged, "parent_title") == Get(md, "parent_title");
    assert Lower(labels) != "";
  }

  // ---------------------------------------------------------------------
  // calculate_breadcrumb_match_score
  // ---------------------------------------------------------------------

  /**
   * `calculate_breadcrumb_match_score`: the Jaccard similarity of the
   * query's and the breadcrumb's keyword sets; 0 for an empty breadcrumb
   * or when either set is empty.
   */
  function BreadcrumbMatchScore(query: string, breadcrumb: string): (r: real)
    ensures 0.0 <= r <= 1.0
    ensures breadcrumb == "" ==> r == 0.0
    ensures r > 0.0 ==> AdvancedSearch.QueryWords(query) * AdvancedSearch.QueryWords(breadcrumb) != {}
    ensures r == 1.0 ==> AdvancedSearch.QueryWords(query) == AdvancedSearch.QueryWords(breadcrumb)
    ensures breadcrumb != "" ==> r == Jaccard(AdvancedSearch.QueryWords(query), AdvancedSearch.QueryWords(breadcrumb))
  {
    if breadcrumb == "" then 0.0
    else
      var q := AdvancedSearch.QueryWords(query);
      var b := AdvancedSearch.QueryWords(breadcrumb);
      if q == {} || b == {} then
        assert q * b == {};
        0.0
      else Jaccard(q, b)
  }

  /** For two non-empty strings the score does not depend on which is the query. */
  lemma BreadcrumbScoreSymmetric(a: string, b: string)
    requires a != "" && b != ""
    ensures BreadcrumbMatchScore(a, b) == BreadcrumbMatchScore(b, a)
  {
    JaccardSymmetric(AdvancedSearch.QueryWords(a), AdvancedSearch.QueryWords(b));
  }
}
