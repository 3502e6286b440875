/**
 * The hallucination check of an answer against the documents it was built
 * from (`rag_server/hallucination_detector.py`): keyword overlap, the
 * share of grounded sentences, the reasons recorded for low scores and
 * the decision. The embedding similarity between answer and documents is
 * an input: `None` when no embeddings were given.
 */
module HallucinationDetector {
  import opened Wrappers
  import opened Text
  import opened Seqs
  import opened Similarity

  /** The detector's two thresholds; the grounding threshold is the constant 0.5. */
  datatype Thresholds = Thresholds(similarity: real, keywordOverlap: real)

  /** `HallucinationDetector()` with its default thresholds. */
  const DefaultThresholds := Thresholds(0.5, 0.3)

  const MinGroundedRatio: real := 0.5
  const MinWordLength: nat := 3

  /** A recorded reason; the message text with the scores rendered to two decimals is not modelled. */
  datatype Reason = EmptyResponse | NoRetrievedDocs | LowSemantic | LowKeyword | LowGrounding

  /** The `scores` dictionary: each key present or absent. */
  datatype Scores = Scores(semantic: Option<real>, keyword: Option<real>, grounded: Option<real>)

  const NoScores := Scores(None, None, None)

  /** The dictionary `detect` returns. */
  datatype Report = Report(isHallucination: bool, confidence: real, reasons: seq<Reason>, scores: Scores)

  // ---------------------------------------------------------------------
  // Validation
  // ---------------------------------------------------------------------

  /** `_validate_inputs`: a report for a blank answer or for no documents, `None` when both are usable. */
  function ValidateInputs(response: string, docs: seq<string>): (r: Option<Report>)
    ensures r.Some? <==> IsBlank(response) || docs == []
    ensures r.Some? ==> r.value.isHallucination && r.value.confidence == 1.0 && r.value.scores == NoScores
                        && r.value.reasons == [if IsBlank(response) then EmptyResponse else NoRetrievedDocs]
  {
    if response == "" || IsBlank(response) then Some(Report(true, 1.0, [EmptyResponse], NoScores))
    else if docs == [] then Some(Report(true, 1.0, [NoRetrievedDocs], NoScores))
    else None
  }

  // ---------------------------------------------------------------------
  // Keyword overlap
  // ---------------------------------------------------------------------

  /** `word.isalnum()`: non-empty, letters and digits only. */
  predicate AllAlnum(w: string) {
    |w| > 0 && forall i :: 0 <= i < |w| ==> IsAlnum(w[i])
  }

  /** A keyword: longer than three characters and alphanumeric. */
  predicate IsKeyword(w: string) {
    |w| > MinWordLength && AllAlnum(w)
  }

  /** The lower-cased keywords among the whitespace-separated words of `s`. */
  function KeywordSet(s: string): set<string> {
    set w | w in Split(s) && IsKeyword(w) :: Lower(w)
  }

  /** `len(answer & docs) / len(answer)`, or 0 for an empty answer set. */
  function Overlap(rw: set<string>, dw: set<string>): (r: real)
    ensures 0.0 <= r <= 1.0
  {
    SubsetCard(rw * dw, rw);
    if |rw| == 0 then 0.0 else Ratio(|rw * dw|, |rw|)
  }

  /** `a / b` for counts `a <= b` with `b > 0`. */
  function Ratio(a: nat, b: nat): (r: real)
    requires 0 < b && a <= b
    ensures 0.0 <= r <= 1.0
    ensures r == 1.0 <==> a == b
    ensures r == 0.0 <==> a == 0
  {
    var r := (a as real) / (b as real);
    assert r * (b as real) == a as real;
    r
  }

  /** `_check_keyword_overlap`: the share of the answer's keywords that occur among the documents' keywords. */
  function KeywordOverlap(response: string, docs: seq<string>): (r: real)
    ensures 0.0 <= r <= 1.0
  {
    Overlap(KeywordSet(response), KeywordSet(Join(" ", docs)))
  }

  /**
   * The overlap is 0 exactly when the answer has no keywords or none of
   * them occurs in the documents, and 1 exactly when the answer has
   * keywords and all of them occur in the documents.
   */
  lemma OverlapFacts(rw: set<string>, dw: set<string>)
    ensures Overlap(rw, dw) == 0.0 <==> rw * dw == {}
    ensures Overlap(rw, dw) == 1.0 <==> rw != {} && rw <= dw
  {
    SubsetCard(rw * dw, rw);
    if rw != {} && rw <= dw {
      assert rw * dw == rw;
    }
  }

  // ---------------------------------------------------------------------
  // Grounding
  // ---------------------------------------------------------------------

  /** The stripped, non-empty pieces, in order. */
  function StrippedNonEmpty(pieces: seq<string>): (r: seq<string>)
    ensures |r| <= |pieces|
    ensures forall s :: s in r ==> s != "" && Strip(s) == s
  {
    if pieces == [] then []
    else
      var rest := StrippedNonEmpty(pieces[..|pieces| - 1]);
      var s := Strip(pieces[|pieces| - 1]);
      StripIdempotent(pieces[|pieces| - 1]);
      if s != "" then rest + [s] else rest
  }

  lemma StripIdempotent(s: string)
    ensures Strip(Strip(s)) == Strip(s)
  {
    var t := Strip(s);
    StripFacts(s);
    if t != [] {
      assert !IsSpace(t[0]) && !IsSpace(t[|t| - 1]);
      assert LStrip(t) == t;
      assert RStrip(t) == t;
    }
  }

  /** The answer's sentences: the pieces between full stops, stripped, the blank ones dropped. */
  function Sentences(response: string): seq<string> {
    StrippedNonEmpty(SplitOn(response, "."))
  }

  predicate IsLongWord(w: string) { |w| > MinWordLength }

  /** The documents' words longer than three characters, lower-cased. */
  function DocWords(docs: seq<string>): set<string> {
    set w | w in Split(Lower(Join(" ", docs))) && IsLongWord(w)
  }

  /** A sentence's lower-cased words longer than three characters. */
  function LongWords(sentence: string): seq<string> {
    Filter(Split(Lower(sentence)), IsLongWord)
  }

  /** How many of `words` lie in `vocabulary`, repetitions counted. */
  function CountIn(words: seq<string>, vocabulary: set<string>): (n: nat)
    ensures n <= |words|
  {
    if words == [] then 0
    else CountIn(words[..|words| - 1], vocabulary) + (if words[|words| - 1] in vocabulary then 1 else 0)
  }

  /** A grounded sentence: it has long words, and at least half of them occur in the documents. */
  predicate IsGrounded(sentence: string, vocabulary: set<string>) {
    var words := LongWords(sentence);
    words != [] && 2 * CountIn(words, vocabulary) >= |words|
  }

  /** For `n > 0`, `found / n >= 0.5` says the same as `2 * found >= n`. */
  lemma HalfRatio(found: nat, n: nat)
    requires n > 0
    ensures (found as real) / (n as real) >= MinGroundedRatio <==> 2 * found >= n
  {
    var r := (found as real) / (n as real);
    assert r * (n as real) == found as real;
  }

  /** How many of `xs` satisfy `p`. */
  function CountWhere<T>(xs: seq<T>, p: T -> bool): (n: nat)
    ensures n <= |xs|
  {
    if xs == [] then 0 else CountWhere(xs[..|xs| - 1], p) + (if p(xs[|xs| - 1]) then 1 else 0)
  }

  /** All of `xs` satisfy `p` exactly when the count is `|xs|`, and none exactly when it is 0. */
  lemma {:induction false} CountWhereBounds<T>(xs: seq<T>, p: T -> bool)
    ensures CountWhere(xs, p) == |xs| <==> forall i :: 0 <= i < |xs| ==> p(xs[i])
    ensures CountWhere(xs, p) == 0 <==> forall i :: 0 <= i < |xs| ==> !p(xs[i])
  {
    if xs != [] {
      var prefix := xs[..|xs| - 1];
      CountWhereBounds(prefix, p);
      assert forall i :: 0 <= i < |prefix| ==> prefix[i] == xs[i];
    }
  }

  function GroundedIn(vocabulary: set<string>): string -> bool {
    sentence => IsGrounded(sentence, vocabulary)
  }

  /** The number of grounded sentences. */
  function GroundedCount(sentences: seq<string>, vocabulary: set<string>): nat {
    CountWhere(sentences, GroundedIn(vocabulary))
  }

  /** The grounded share of the answer's sentences; 0 without sentences. */
  function GroundedRatio(response: string, docs: seq<string>): (r: real)
    ensures 0.0 <= r <= 1.0
  {
    var sentences := Sentences(response);
    if sentences == [] then 0.0 else Ratio(GroundedCount(sentences, DocWords(docs)), |sentences|)
  }

  /** `_check_grounding`: the loop counting grounded sentences. */
  method CheckGrounding(response: string, docs: seq<string>) returns (ratio: real)
    ensures ratio == GroundedRatio(response, docs)
  {
    var sentences := Sentences(response);
    if sentences == [] {
      return 0.0;
    }
    var vocabulary := DocWords(docs);
    var groundedCount := 0;
    for i := 0 to |sentences|
      invariant groundedCount == GroundedCount(sentences[..i], vocabulary)
    {
      assert sentences[..i + 1][..i] == sentences[..i];
      var words := LongWords(sentences[i]);
      if words == [] {
        continue;
      }
      var found := CountIn(words, vocabulary);
      HalfRatio(found, |words|);
      if (found as real) / (|words| as real) >= MinGroundedRatio {
        groundedCount := groundedCount + 1;
      }
    }
    assert sentences[..|sentences|] == sentences;
    ratio := Ratio(groundedCount, |sentences|);
  }

  /**
   * The grounded ratio lies in [0, 1]; it is 1 exactly when there are
   * sentences and every one is grounded, and 0 exactly when none is.
   */
  lemma GroundedRatioFacts(response: string, docs: seq<string>)
    ensures var r := GroundedRatio(response, docs);
            var sentences := Sentences(response);
            0.0 <= r <= 1.0
            && (r == 1.0 <==> sentences != [] && forall i :: 0 <= i < |sentences| ==> IsGrounded(sentences[i], DocWords(docs)))
            && (r == 0.0 <==> forall i :: 0 <= i < |sentences| ==> !IsGrounded(sentences[i], DocWords(docs)))
  {
    CountWhereBounds(Sentences(response), GroundedIn(DocWords(docs)));
  }

  // ---------------------------------------------------------------------
  // Scores, reasons and the decision
  // ---------------------------------------------------------------------

  /**
   * `_compute_detection_scores`: the semantic score when one was given,
   * the keyword overlap and the grounded ratio, and one reason for each
   * score under its threshold, in that order.
   */
  method ComputeDetectionScores(response: string, docs: seq<string>, semantic: Option<real>, t: Thresholds)
    returns (scores: Scores, reasons: seq<Reason>)
    ensures scores == Scores(semantic, Some(KeywordOverlap(response, docs)), Some(GroundedRatio(response, docs)))
    ensures (LowSemantic in reasons <==> semantic.Some? && semantic.value < t.similarity)
            && (LowKeyword in reasons <==> KeywordOverlap(response, docs) < t.keywordOverlap)
            && (LowGrounding in reasons <==> GroundedRatio(response, docs) < MinGroundedRatio)
    ensures |reasons| == LowCount(response, docs, semantic, t)
  {
    reasons := [];
    if semantic.Some? {
      if semantic.value < t.similarity {
        reasons := reasons + [LowSemantic];
      }
    }
    var keywordScore := KeywordOverlap(response, docs);
    if keywordScore < t.keywordOverlap {
      reasons := reasons + [LowKeyword];
    }
    var groundedRatio := CheckGrounding(response, docs);
    if groundedRatio < MinGroundedRatio {
      reasons := reasons + [LowGrounding];
    }
    scores := Scores(semantic, Some(keywordScore), Some(groundedRatio));
  }

  /** The dictionary's values, in insertion order. */
  function Values(scores: Scores): (vs: seq<real>)
    ensures |vs| <= 3
  {
    (if scores.semantic.Some? then [scores.semantic.value] else [])
    + (if scores.keyword.Some? then [scores.keyword.value] else [])
    + (if scores.grounded.Some? then [scores.grounded.value] else [])
  }

  /** Scores in [0, 1] give values in [0, 1]. */
  lemma ValuesInRange(scores: Scores)
    requires scores.semantic.Some? ==> 0.0 <= scores.semantic.value <= 1.0
    requires scores.keyword.Some? ==> 0.0 <= scores.keyword.value <= 1.0
    requires scores.grounded.Some? ==> 0.0 <= scores.grounded.value <= 1.0
    ensures forall i :: 0 <= i < |Values(scores)| ==> 0.0 <= Values(scores)[i] <= 1.0
  {
  }

  function Sum(vs: seq<real>): real {
    if vs == [] then 0.0 else Sum(vs[..|vs| - 1]) + vs[|vs| - 1]
  }

  /** The sum of values in [0, 1] lies between 0 and their number. */
  lemma {:induction false} SumBounds(vs: seq<real>)
    requires forall i :: 0 <= i < |vs| ==> 0.0 <= vs[i] <= 1.0
    ensures 0.0 <= Sum(vs) <= |vs| as real
  {
    if vs != [] {
      SumBounds(vs[..|vs| - 1]);
    }
  }

  /** `_make_decision`: a hallucination on two or more reasons; confidence one minus the mean score, or 1 without scores. */
  function MakeDecision(scores: Scores, reasons: seq<Reason>): (bool, real) {
    var vs := Values(scores);
    (|reasons| >= 2, if vs == [] then 1.0 else 1.0 - Sum(vs) / (|vs| as real))
  }

  /**
   * The decision is a hallucination exactly on two or more reasons; with
   * every score in [0, 1] the confidence lies in [0, 1], and it is 1 when
   * every score is 0 or there are none.
   */
  lemma MakeDecisionFacts(scores: Scores, reasons: seq<Reason>)
    ensures MakeDecision(scores, reasons).0 <==> |reasons| >= 2
    ensures var vs := Values(scores);
            (forall i :: 0 <= i < |vs| ==> 0.0 <= vs[i] <= 1.0) ==> 0.0 <= MakeDecision(scores, reasons).1 <= 1.0
    ensures var vs := Values(scores);
            (forall i :: 0 <= i < |vs| ==> vs[i] == 0.0) ==> MakeDecision(scores, reasons).1 == 1.0
  {
    var vs := Values(scores);
    if forall i :: 0 <= i < |vs| ==> 0.0 <= vs[i] <= 1.0 {
      SumBounds(vs);
    }
    if forall i :: 0 <= i < |vs| ==> vs[i] == 0.0 {
      SumZero(vs);
    }
  }

  lemma {:induction false} SumZero(vs: seq<real>)
    requires forall i :: 0 <= i < |vs| ==> vs[i] == 0.0
    ensures Sum(vs) == 0.0
  {
    if vs != [] {
      SumZero(vs[..|vs| - 1]);
    }
  }

  // ---------------------------------------------------------------------
  // detect
  // ---------------------------------------------------------------------

  /** How many of the three checks fell under their thresholds. */
  function LowCount(response: string, docs: seq<string>, semantic: Option<real>, t: Thresholds): (n: nat)
    ensures n <= 3
  {
    (if semantic.Some? && semantic.value < t.similarity then 1 else 0)
    + (if KeywordOverlap(response, docs) < t.keywordOverlap then 1 else 0)
    + (if GroundedRatio(response, docs) < MinGroundedRatio then 1 else 0)
  }

  /**
   * `detect`: the validation's report for a blank answer or no documents;
   * otherwise one reason per check under its threshold, a hallucination
   * exactly when there are at least two, with the keyword and grounding
   * scores always present and the confidence from the decision.
   */
  method Detect(response: string, docs: seq<string>, semantic: Option<real>, t: Thresholds) returns (report: Report)
    ensures ValidateInputs(response, docs).Some? ==> report == ValidateInputs(response, docs).value
    ensures ValidateInputs(response, docs).None? ==>
              report.scores == Scores(semantic, Some(KeywordOverlap(response, docs)), Some(GroundedRatio(response, docs)))
              && (LowSemantic in report.reasons <==> semantic.Some? && semantic.value < t.similarity)
              && (LowKeyword in report.reasons <==> KeywordOverlap(response, docs) < t.keywordOverlap)
              && (LowGrounding in report.reasons <==> GroundedRatio(response, docs) < MinGroundedRatio)
              && |report.reasons| == LowCount(response, docs, semantic, t)
              && (report.isHallucination <==> LowCount(response, docs, semantic, t) >= 2)
              && report.confidence == MakeDecision(report.scores, report.reasons).1
              && (semantic.None? || 0.0 <= semantic.value <= 1.0 ==> 0.0 <= report.confidence <= 1.0)
  {
    var validation := ValidateInputs(response, docs);
    if validation.Some? {
      return validation.value;
    }
    var scores, reasons := ComputeDetectionScores(response, docs, semantic, t);
    var decision := MakeDecision(scores, reasons);
    MakeDecisionFacts(scores, reasons);
    if semantic.None? || 0.0 <= semantic.value <= 1.0 {
      ValuesInRange(scores);
    }
    report := Report(decision.0, decision.1, reasons, scores);
  }

  /** `detect_hallucination`: `detect` with the default thresholds, and its verdict. */
  method DetectHallucination(response: string, docs: seq<string>, semantic: Option<real>) returns (isHallucination: bool, report: Report)
    ensures isHallucination == report.isHallucination
    ensures (IsBlank(response) || docs == []) ==> isHallucination && report.confidence == 1.0
    ensures !(IsBlank(response) || docs == []) ==> (isHallucination <==> LowCount(response, docs, semantic, DefaultThresholds) >= 2)
  {
    report := Detect(response, docs, semantic, DefaultThresholds);
    isHallucination := report.isHallucination;
  }
}
