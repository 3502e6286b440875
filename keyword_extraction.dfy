/**
 * Shared keyword extraction: lower-cased `[а-яёa-z0-9]+` tokens filtered by
 * length and a stop-word list, the technical terms a text mentions, and
 * query normalisation.
 */
module KeywordExtraction {
  import opened Text
  import opened Seqs

  const Stopwords: set<string> := {
    "в", "на", "и", "с", "по", "для", "как", "что", "это", "или", "а", "но",
    "из", "к", "о", "от", "до", "за", "под", "над", "при", "про", "через",
    "без", "у", "об", "не", "ни", "то", "же", "бы", "ли", "уже", "еще",
    "какой", "какая", "какие", "где", "когда", "кто", "сколько",
    "the", "a", "an", "and", "or", "but", "in", "on", "at", "to", "for",
    "of", "with", "by", "from", "as", "is", "was", "are", "were", "be",
    "been", "being", "have", "has", "had", "do", "does", "did", "will",
    "would", "should", "could", "may", "might", "must", "can", "this",
    "that", "these", "those", "it", "its", "they", "them", "their"
  }

  const TechnicalTerms: set<string> := {
    "api", "http", "rest", "json", "xml", "sql", "docker", "git", "1с", "1c",
    "endpoint", "webhook", "oauth", "deployment", "ssl", "тест", "баг",
    "конфигурация", "python", "javascript", "typescript", "java", "c++",
    "react", "vue", "angular", "node", "npm", "yarn", "pip", "conda",
    "kubernetes", "k8s", "terraform", "ansible", "jenkins", "ci", "cd",
    "aws", "azure", "gcp", "s3", "ec2", "lambda", "database", "db", "mysql",
    "postgresql", "mongodb", "redis", "elasticsearch", "kafka", "rabbitmq"
  }

  /** The tokens of the lower-cased text, in order. */
  function Words(text: string): (r: seq<string>)
    ensures forall w :: w in r ==> |w| > 0 && IsLower(w) && forall c :: c in w ==> IsKeywordChar(c)
  {
    var ws := KeywordTokens(Lower(text));
    forall w | w in ws ensures IsLower(w) {
      LowerFixed(w);
    }
    ws
  }

  predicate Keep(w: string, minLength: int, removeStopwords: bool) {
    (!removeStopwords || w !in Stopwords) && |w| >= minLength
  }

  /**
   * `extract_keywords`: every keyword is a lower-case token of the
   * `[а-яёa-z0-9]` class at least `minLength` long and, when stop words are
   * removed, not a stop word; every such token is kept, in text order.
   */
  function ExtractKeywords(text: string, minLength: int, removeStopwords: bool): (r: seq<string>)
    ensures forall w :: w in r ==>
              IsLower(w) && (forall c :: c in w ==> IsKeywordChar(c)) && |w| >= minLength
              && (removeStopwords ==> w !in Stopwords)
    ensures forall w :: w in Words(text) && |w| >= minLength && (removeStopwords ==> w !in Stopwords) ==> w in r
    ensures IsSubseq(r, Words(text))
  {
    var ws := Words(text);
    var keep := w => Keep(w, minLength, removeStopwords);
    var r := Filter(ws, keep);
    FilterIsSubseq(ws, keep);
    forall w | w in r ensures w in ws && Keep(w, minLength, removeStopwords) {
      var i :| 0 <= i < |r| && r[i] == w;
      assert keep(r[i]);
    }
    forall w | w in ws && Keep(w, minLength, removeStopwords) ensures w in r {
      var i :| 0 <= i < |ws| && ws[i] == w;
      assert keep(ws[i]);
    }
    r
  }

  /** A kept token appears as often as it occurs in the text; any other word not at all. */
  lemma ExtractKeywordsCounts(text: string, minLength: int, removeStopwords: bool, w: string)
    ensures multiset(ExtractKeywords(text, minLength, removeStopwords))[w] ==
              if Keep(w, minLength, removeStopwords) then multiset(Words(text))[w] else 0
  {
    FilterMultiset(Words(text), w => Keep(w, minLength, removeStopwords), w);
  }

  /** Removing stop words only drops keywords: the result is a subsequence of the unfiltered one. */
  lemma StopwordRemovalDrops(text: string, minLength: int)
    ensures IsSubseq(ExtractKeywords(text, minLength, true), ExtractKeywords(text, minLength, false))
  {
    FilterSubseq(Words(text), w => Keep(w, minLength, true), w => Keep(w, minLength, false));
  }

  /** `extract_technical_terms`, as a set: the technical terms occurring in the lower-cased text. */
  function ExtractTechnicalTerms(text: string): (r: set<string>)
    ensures r <= TechnicalTerms
  {
    set t | t in TechnicalTerms && Contains(Lower(text), t)
  }

  /** Appending text never loses a technical term already mentioned. */
  lemma TechnicalTermsGrow(a: string, b: string)
    ensures ExtractTechnicalTerms(a) <= ExtractTechnicalTerms(a + b)
  {
    LowerAppend(a, b);
    forall t | t in ExtractTechnicalTerms(a) ensures t in ExtractTechnicalTerms(a + b) {
      ContainsAppend(Lower(a), Lower(b), t);
    }
  }

  /**
   * `normalize_query`: the lower-cased words joined by single spaces. The
   * result is lower-case and has exactly the words of the lower-cased query.
   */
  function NormalizeQuery(query: string): (r: string)
    ensures IsLower(r)
    ensures Split(r) == Split(Lower(query))
  {
    var ws := Split(Lower(query));
    LowerWords(query);
    SplitJoin(ws);
    JoinLower(ws);
    Join(" ", ws)
  }

  /** Normalising twice is the same as normalising once. */
  lemma NormalizeIdempotent(query: string)
    ensures NormalizeQuery(NormalizeQuery(query)) == NormalizeQuery(query)
  {
    var n := NormalizeQuery(query);
    assert Lower(n) == n;
  }
}
