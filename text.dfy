/**
 * The Python string primitives the server relies on: `lower()`, `split()`,
 * `split(sep)`, `strip()`, `sep.join(...)`, `in` on strings, `replace`,
 * and `re.findall` over a character class.
 *
 * Character classes are restricted: `lower()` folds ASCII and the Russian
 * alphabet, whitespace is the six ASCII whitespace characters, and a regex
 * word character is an ASCII letter, digit, `_` or a Cyrillic letter.
 */
module Text {

  // ---------------------------------------------------------------------
  // Character classes
  // ---------------------------------------------------------------------

  /** `str.isspace()` on a single character (ASCII whitespace). */
  predicate IsSpace(c: char) {
    c == ' ' || c == '\t' || c == '\n' || c == '\r' || c == '\U{B}' || c == '\U{C}'
  }

  predicate NotSpace(c: char) { !IsSpace(c) }

  predicate IsDigit(c: char) { '0' <= c <= '9' }

  predicate IsCyrillicLetter(c: char) { '\U{400}' <= c <= '\U{4FF}' }

  /** A character matched by `\w` in a regular expression. */
  predicate IsWordChar(c: char) {
    'a' <= c <= 'z' || 'A' <= c <= 'Z' || IsDigit(c) || c == '_' || IsCyrillicLetter(c)
  }

  /** A character of the class `[а-яёa-z0-9]` used by the keyword extractors. */
  predicate IsKeywordChar(c: char) {
    '\U{430}' <= c <= '\U{44F}' || c == '\U{451}' || 'a' <= c <= 'z' || IsDigit(c)
  }

  /** `c.isalnum()`: letters (ASCII, Cyrillic) and digits. */
  predicate IsAlnum(c: char) {
    'a' <= c <= 'z' || 'A' <= c <= 'Z' || IsDigit(c) || ('\U{410}' <= c <= '\U{44F}') || c == '\U{401}' || c == '\U{451}'
  }

  // ---------------------------------------------------------------------
  // lower()
  // ---------------------------------------------------------------------

  function LowerChar(c: char): char {
    if 'A' <= c <= 'Z' then (c as int + 32) as char
    else if '\U{410}' <= c <= '\U{42F}' then (c as int + 32) as char
    else if c == '\U{401}' then '\U{451}'
    else c
  }

  function Lower(s: string): (r: string)
    ensures |r| == |s|
  {
    seq(|s|, i requires 0 <= i < |s| => LowerChar(s[i]))
  }

  predicate IsLower(s: string) { Lower(s) == s }

  lemma LowerIdempotent(s: string)
    ensures Lower(Lower(s)) == Lower(s)
  {
  }

  lemma LowerAppend(a: string, b: string)
    ensures Lower(a + b) == Lower(a) + Lower(b)
  {
  }

  lemma LowerSlice(s: string, i: nat, j: nat)
    requires i <= j <= |s|
    ensures Lower(s[i..j]) == Lower(s)[i..j]
  {
  }

  lemma LowerKeepsSpace(s: string, i: nat)
    requires i < |s|
    ensures IsSpace(Lower(s)[i]) <==> IsSpace(s[i])
  {
  }

  // ---------------------------------------------------------------------
  // Maximal runs of characters: split() and re.findall('[...]+')
  // ---------------------------------------------------------------------

  /** Length of the longest prefix of `s` whose characters all satisfy `p`. */
  function PrefixLen(s: string, p: char -> bool): (n: nat)
    ensures n <= |s|
    ensures forall i :: 0 <= i < n ==> p(s[i])
    ensures n < |s| ==> !p(s[n])
  {
    if s == [] || !p(s[0]) then 0 else 1 + PrefixLen(s[1..], p)
  }

  /** The maximal non-empty runs of characters satisfying `p`, left to right. */
  function Runs(s: string, p: char -> bool): (r: seq<string>)
    ensures forall w :: w in r ==> |w| > 0
    ensures forall w :: w in r ==> forall c :: c in w ==> p(c)
    decreases |s|
  {
    if s == [] then []
    else if !p(s[0]) then Runs(s[1..], p)
    else
      var n := PrefixLen(s, p);
      [s[..n]] + Runs(s[n..], p)
  }

  /** `s.split()` with no argument: the whitespace-separated words. */
  function Split(s: string): seq<string> {
    Runs(s, NotSpace)
  }

  /** `re.findall(r'[а-яёa-z0-9]+', s)`. */
  function KeywordTokens(s: string): seq<string> {
    Runs(s, IsKeywordChar)
  }

  /** A run of characters drawn from a string inherits every property all of that string's characters have. */
  lemma {:induction false} RunsInherit(s: string, p: char -> bool, q: char -> bool)
    requires forall c :: c in s ==> q(c)
    ensures forall w :: w in Runs(s, p) ==> forall c :: c in w ==> q(c)
    decreases |s|
  {
    if s != [] {
      if !p(s[0]) {
        RunsInherit(s[1..], p, q);
      } else {
        var n := PrefixLen(s, p);
        assert forall c :: c in s[..n] ==> c in s;
        RunsInherit(s[n..], p, q);
      }
    }
  }

  predicate IsLowerChar(c: char) { LowerChar(c) == c }

  lemma LowerChars(s: string)
    ensures forall c :: c in Lower(s) ==> IsLowerChar(c)
  {
  }

  lemma LowerFixed(s: string)
    requires forall c :: c in s ==> IsLowerChar(c)
    ensures IsLower(s)
  {
    forall i | 0 <= i < |s| ensures Lower(s)[i] == s[i] {
      assert s[i] in s;
    }
  }

  /** Every word of `s.lower().split()` is non-empty, lower-case and free of whitespace. */
  lemma LowerWords(s: string)
    ensures forall w :: w in Split(Lower(s)) ==> |w| > 0 && IsLower(w) && forall c :: c in w ==> !IsSpace(c)
  {
    LowerChars(s);
    RunsInherit(Lower(s), NotSpace, IsLowerChar);
    forall w | w in Split(Lower(s)) ensures IsLower(w) {
      LowerFixed(w);
    }
  }

  /** A string containing `a + b` contains `a`. */
  lemma {:induction false} ContainsPrefixOf(s: string, a: string, b: string)
    requires Contains(s, a + b)
    ensures Contains(s, a)
    decreases |s|
  {
    if StartsWith(s, a + b) {
      assert s[..|a|] == (a + b)[..|a|] == a;
    } else {
      ContainsPrefixOf(s[1..], a, b);
    }
  }

  /** A string that contains `sub` still contains it after appending text. */
  lemma {:induction false} ContainsAppend(s: string, t: string, sub: string)
    requires Contains(s, sub)
    ensures Contains(s + t, sub)
    decreases |s|
  {
    if StartsWith(s, sub) {
      assert (s + t)[..|sub|] == s[..|sub|];
    } else {
      assert (s + t)[1..] == s[1..] + t;
      ContainsAppend(s[1..], t, sub);
    }
  }

  /** A word followed by whitespace or by nothing is one maximal run of non-space characters. */
  lemma {:induction false} PrefixLenWord(w: string, rest: string)
    requires forall c :: c in w ==> !IsSpace(c)
    requires rest == [] || IsSpace(rest[0])
    ensures PrefixLen(w + rest, NotSpace) == |w|
    decreases |w|
  {
    if w != [] {
      assert (w + rest)[1..] == w[1..] + rest;
      PrefixLenWord(w[1..], rest);
    }
  }

  lemma RunsWord(w: string, rest: string)
    requires |w| > 0 && forall c :: c in w ==> !IsSpace(c)
    requires rest == [] || IsSpace(rest[0])
    ensures Split(w + rest) == [w] + Split(rest)
  {
    PrefixLenWord(w, rest);
    assert (w + rest)[..|w|] == w && (w + rest)[|w|..] == rest;
  }

  /** Splitting words joined by single spaces gives the words back. */
  lemma {:induction false} SplitJoin(ws: seq<string>)
    requires forall w :: w in ws ==> |w| > 0 && forall c :: c in w ==> !IsSpace(c)
    ensures Split(Join(" ", ws)) == ws
    decreases |ws|
  {
    if |ws| == 1 {
      RunsWord(ws[0], "");
      assert ws[0] + "" == ws[0];
    } else if |ws| > 1 {
      var rest := Join(" ", ws[1..]);
      assert Join(" ", ws) == ws[0] + (" " + rest);
      RunsWord(ws[0], " " + rest);
      assert (" " + rest)[1..] == rest;
      SplitJoin(ws[1..]);
    }
  }

  /** Joining lower-case words with spaces gives a lower-case string. */
  lemma {:induction false} JoinLower(ws: seq<string>)
    requires forall w :: w in ws ==> IsLower(w)
    ensures IsLower(Join(" ", ws))
    decreases |ws|
  {
    if |ws| > 1 {
      var rest := Join(" ", ws[1..]);
      JoinLower(ws[1..]);
      assert ws[0] in ws;
      assert Join(" ", ws) == ws[0] + (" " + rest);
      LowerAppend(ws[0], " " + rest);
      LowerAppend(" ", rest);
      assert Lower(" ") == " ";
    } else if |ws| == 1 {
      assert ws[0] in ws;
    }
  }

  // ---------------------------------------------------------------------
  // strip() and join()
  // ---------------------------------------------------------------------

  /** `s.lstrip()`. */
  function LStrip(s: string): string {
    if s != [] && IsSpace(s[0]) then LStrip(s[1..]) else s
  }

  /** `s.rstrip()`. */
  function RStrip(s: string): string {
    if s != [] && IsSpace(s[|s| - 1]) then RStrip(s[..|s| - 1]) else s
  }

  /** `s.strip()`. */
  function Strip(s: string): string {
    RStrip(LStrip(s))
  }

  /** `lstrip` removes a prefix of blanks and leaves a suffix that does not start with one. */
  lemma {:induction false} LStripFacts(s: string)
    ensures |LStrip(s)| <= |s| && LStrip(s) == s[|s| - |LStrip(s)|..]
    ensures LStrip(s) != [] ==> !IsSpace(LStrip(s)[0])
    ensures forall i :: 0 <= i < |s| - |LStrip(s)| ==> IsSpace(s[i])
    decreases |s|
  {
    if s != [] && IsSpace(s[0]) {
      LStripFacts(s[1..]);
    }
  }

  /** `rstrip` removes a suffix of blanks and leaves a prefix that does not end with one. */
  lemma {:induction false} RStripFacts(s: string)
    ensures |RStrip(s)| <= |s| && RStrip(s) == s[..|RStrip(s)|]
    ensures RStrip(s) != [] ==> !IsSpace(RStrip(s)[|RStrip(s)| - 1])
    ensures forall i :: |RStrip(s)| <= i < |s| ==> IsSpace(s[i])
    decreases |s|
  {
    if s != [] && IsSpace(s[|s| - 1]) {
      RStripFacts(s[..|s| - 1]);
      assert s[..|s| - 1][..|RStrip(s)|] == s[..|RStrip(s)|];
    }
  }

  /** `strip` leaves a piece of the string that neither starts nor ends with a blank. */
  lemma StripFacts(s: string)
    ensures |Strip(s)| <= |s|
    ensures Strip(s) != [] ==> !IsSpace(Strip(s)[0]) && !IsSpace(Strip(s)[|Strip(s)| - 1])
  {
    LStripFacts(s);
    RStripFacts(LStrip(s));
    if Strip(s) != [] {
      assert Strip(s)[0] == LStrip(s)[0];
    }
  }

  /** A blank string: `not s.strip()`. */
  predicate IsBlank(s: string) { Strip(s) == "" }

  /** `sep.join(parts)`. */
  function Join(sep: string, parts: seq<string>): string {
    if parts == [] then ""
    else if |parts| == 1 then parts[0]
    else parts[0] + sep + Join(sep, parts[1..])
  }

  // ---------------------------------------------------------------------
  // Substrings, prefixes, split(sep), replace()
  // ---------------------------------------------------------------------

  predicate StartsWith(s: string, pre: string) {
    |pre| <= |s| && s[..|pre|] == pre
  }

  /** `sub in s`. */
  predicate Contains(s: string, sub: string)
    decreases |s|
  {
    StartsWith(s, sub) || (s != [] && Contains(s[1..], sub))
  }

  lemma {:induction false} ContainsAt(s: string, sub: string, i: nat)
    requires i + |sub| <= |s| && s[i..i + |sub|] == sub
    ensures Contains(s, sub)
    decreases i
  {
    if i > 0 {
      assert s[1..][i - 1..i - 1 + |sub|] == sub;
      ContainsAt(s[1..], sub, i - 1);
    }
  }

  /** `s.split(sep)` for a non-empty separator: keeps empty pieces. */
  function SplitOn(s: string, sep: string): (r: seq<string>)
    requires |sep| > 0
    ensures |r| >= 1
    decreases |s|
  {
    if |s| < |sep| then [s]
    else if s[..|sep|] == sep then [""] + SplitOn(s[|sep|..], sep)
    else
      var rest := SplitOn(s[1..], sep);
      [[s[0]] + rest[0]] + rest[1..]
  }

  lemma JoinCons(sep: string, a: string, rest: seq<string>)
    ensures Join(sep, [a] + rest) == if rest == [] then a else a + sep + Join(sep, rest)
  {
    assert ([a] + rest)[1..] == rest;
  }

  /** Joining the pieces of `s.split(sep)` with `sep` gives back `s`. */
  lemma {:induction false} JoinSplitOn(s: string, sep: string)
    requires |sep| > 0
    ensures Join(sep, SplitOn(s, sep)) == s
    decreases |s|
  {
    if |s| < |sep| {
    } else if s[..|sep|] == sep {
      var rest := SplitOn(s[|sep|..], sep);
      assert SplitOn(s, sep) == [""] + rest;
      JoinSplitOn(s[|sep|..], sep);
      JoinCons(sep, "", rest);
      assert s == s[..|sep|] + s[|sep|..];
    } else {
      var rest := SplitOn(s[1..], sep);
      assert SplitOn(s, sep) == [[s[0]] + rest[0]] + rest[1..];
      JoinSplitOn(s[1..], sep);
      JoinHead(sep, rest, [s[0]]);
    }
  }

  /** Appending a piece appends the separator and the piece. */
  lemma {:induction false} JoinSnoc(sep: string, parts: seq<string>, x: string)
    ensures Join(sep, parts + [x]) == if parts == [] then x else Join(sep, parts) + sep + x
    decreases |parts|
  {
    if parts != [] {
      assert (parts + [x])[1..] == parts[1..] + [x];
      JoinSnoc(sep, parts[1..], x);
      JoinCons(sep, parts[0], parts[1..] + [x]);
      JoinCons(sep, parts[0], parts[1..]);
      assert parts == [parts[0]] + parts[1..];
      assert parts + [x] == [parts[0]] + (parts[1..] + [x]);
    }
  }

  /** Prepending text to the first piece prepends it to the joined string. */
  lemma JoinHead(sep: string, parts: seq<string>, pre: string)
    requires |parts| >= 1
    ensures Join(sep, [pre + parts[0]] + parts[1..]) == pre + Join(sep, parts)
  {
    assert parts == [parts[0]] + parts[1..];
    JoinCons(sep, parts[0], parts[1..]);
    JoinCons(sep, pre + parts[0], parts[1..]);
  }

  /** `s.replace(sep, rep)` is `rep.join(s.split(sep))`. */
  lemma {:induction false} JoinSplitReplace(s: string, sep: string, rep: string)
    requires |sep| > 0
    ensures Join(rep, SplitOn(s, sep)) == Replace(s, sep, rep)
    decreases |s|
  {
    if |s| < |sep| {
    } else if s[..|sep|] == sep {
      var rest := SplitOn(s[|sep|..], sep);
      assert SplitOn(s, sep) == [""] + rest;
      JoinSplitReplace(s[|sep|..], sep, rep);
      JoinCons(rep, "", rest);
    } else {
      var rest := SplitOn(s[1..], sep);
      assert SplitOn(s, sep) == [[s[0]] + rest[0]] + rest[1..];
      JoinSplitReplace(s[1..], sep, rep);
      JoinHead(rep, rest, [s[0]]);
    }
  }

  /** `s.replace(pat, rep)`: non-overlapping occurrences, left to right. */
  function Replace(s: string, pat: string, rep: string): string
    requires |pat| > 0
    decreases |s|
  {
    if |s| < |pat| then s
    else if s[..|pat|] == pat then rep + Replace(s[|pat|..], pat, rep)
    else [s[0]] + Replace(s[1..], pat, rep)
  }

  /** Replacing a pattern that does not occur leaves the string unchanged. */
  lemma {:induction false} ReplaceAbsent(s: string, pat: string, rep: string)
    requires |pat| > 0 && !Contains(s, pat)
    ensures Replace(s, pat, rep) == s
    decreases |s|
  {
    if |s| >= |pat| {
      assert s[..|pat|] != pat;
      ReplaceAbsent(s[1..], pat, rep);
    }
  }

  /** `s.replace(a, b)` for single characters. */
  function ReplaceChar(s: string, a: char, b: char): (r: string)
    ensures |r| == |s|
    ensures forall i :: 0 <= i < |s| ==> r[i] == (if s[i] == a then b else s[i])
  {
    seq(|s|, i requires 0 <= i < |s| => if s[i] == a then b else s[i])
  }

  /** `s.replace(a, '')` for a single character. */
  function RemoveChar(s: string, a: char): (r: string)
    ensures a !in r
    ensures |r| <= |s|
  {
    if s == [] then [] else (if s[0] == a then [] else [s[0]]) + RemoveChar(s[1..], a)
  }

  // ---------------------------------------------------------------------
  // Whole-word matching: re.sub(r'\b' + re.escape(w) + r'\b', rep, s)
  // ---------------------------------------------------------------------

  /** `w` occurs in `s` at `i` with a regex word boundary on both sides. */
  predicate WholeWordAt(s: string, w: string, i: nat) {
    i + |w| <= |s| && s[i..i + |w|] == w
    && (i == 0 || !IsWordChar(s[i - 1]))
    && (i + |w| == |s| || !IsWordChar(s[i + |w|]))
  }

  /** Replaces every whole-word occurrence of the word `w` in `s[i..]`, scanning left to right. */
  function ReplaceWordFrom(s: string, w: string, rep: string, i: nat): string
    requires |w| > 0 && i <= |s|
    decreases |s| - i
  {
    if i == |s| then ""
    else if WholeWordAt(s, w, i) then rep + ReplaceWordFrom(s, w, rep, i + |w|)
    else [s[i]] + ReplaceWordFrom(s, w, rep, i + 1)
  }

  function ReplaceWholeWord(s: string, w: string, rep: string): string
    requires |w| > 0
  {
    ReplaceWordFrom(s, w, rep, 0)
  }

  /** Where the word never occurs with boundaries on both sides, nothing is replaced. */
  lemma {:induction false} ReplaceWordAbsent(s: string, w: string, rep: string, i: nat)
    requires |w| > 0 && i <= |s|
    requires forall j :: i <= j < |s| ==> !WholeWordAt(s, w, j)
    ensures ReplaceWordFrom(s, w, rep, i) == s[i..]
    decreases |s| - i
  {
    if i < |s| {
      ReplaceWordAbsent(s, w, rep, i + 1);
    }
  }

  /** `re.search(r'\b' + w + r'\b', s)` succeeds. */
  predicate HasWholeWord(s: string, w: string) {
    exists i: nat :: i <= |s| && WholeWordAt(s, w, i)
  }

  /** `re.search(r'\b(w1|w2|...)\b', s)` succeeds: some alternative occurs as a whole word. */
  predicate HasAnyWholeWord(s: string, words: seq<string>) {
    exists k :: 0 <= k < |words| && HasWholeWord(s, words[k])
  }

  // ---------------------------------------------------------------------
  // str(n)
  // ---------------------------------------------------------------------

  function DigitChar(d: nat): char
    requires d < 10
  {
    ('0' as int + d) as char
  }

  /** The decimal digits of `n`, as Python's `str` writes them. */
  function NatToString(n: nat): (s: string)
    ensures |s| >= 1 && forall i :: 0 <= i < |s| ==> '0' <= s[i] <= '9'
  {
    if n < 10 then [DigitChar(n)] else NatToString(n / 10) + [DigitChar(n % 10)]
  }

  /** `str(n)` for any integer. */
  function IntToString(n: int): string {
    if n < 0 then "-" + NatToString(-n) else NatToString(n)
  }
}
