/**
 * The sync job's small parsers (`rag_server/sync_confluence.py`): integer
 * and boolean settings read from the environment, and the `YYYYMMDD`
 * number of a page version's date. An environment variable is `None`
 * when it is unset.
 */
module SyncParsers {
  import opened Wrappers
  import opened Text

  // ---------------------------------------------------------------------
  // int(s)
  // ---------------------------------------------------------------------

  predicate AllDigits(s: string) {
    forall i :: 0 <= i < |s| ==> IsDigit(s[i])
  }

  /** The value of a decimal digit. */
  function DigitValue(c: char): nat {
    if IsDigit(c) then c as int - '0' as int else 0
  }

  /** The value of a string of decimal digits. */
  function DigitsValue(s: string): nat
    decreases |s|
  {
    if s == [] then 0 else DigitsValue(s[..|s| - 1]) * 10 + DigitValue(s[|s| - 1])
  }

  /**
   * `int(s)` on a string: optional surrounding whitespace, an optional
   * sign, then at least one decimal digit; `None` where Python raises
   * `ValueError`.
   */
  function ParseInt(s: string): Option<int> {
    var t := Strip(s);
    var signed := t != [] && (t[0] == '-' || t[0] == '+');
    var digits := if signed then t[1..] else t;
    if digits != [] && AllDigits(digits) then
      var v: int := DigitsValue(digits);
      Some(if signed && t[0] == '-' then -v else v)
    else None
  }

  /** The digits `str` writes for `n` read back as `n`. */
  lemma {:induction false} DigitsOfNat(n: nat)
    ensures AllDigits(NatToString(n)) && DigitsValue(NatToString(n)) == n
  {
    var s := NatToString(n);
    if n >= 10 {
      DigitsOfNat(n / 10);
      assert s[..|s| - 1] == NatToString(n / 10);
    }
  }

  /** A string that neither starts nor ends with whitespace is its own `strip()`. */
  lemma StripUnpadded(s: string)
    requires s != [] && !IsSpace(s[0]) && !IsSpace(s[|s| - 1])
    ensures Strip(s) == s
  {
    assert LStrip(s) == s;
  }

  /** Digits, after an optional minus sign and with no whitespace around them, parse to their value. */
  lemma ParseSignedDigits(minus: bool, digits: string)
    requires digits != [] && AllDigits(digits)
    ensures ParseInt((if minus then "-" else "") + digits)
         == Some(if minus then -(DigitsValue(digits) as int) else DigitsValue(digits) as int)
  {
    var s := (if minus then "-" else "") + digits;
    assert IsDigit(s[|s| - 1]) && (IsDigit(s[0]) || s[0] == '-');
    StripUnpadded(s);
    if minus {
      assert s[1..] == digits;
    } else {
      assert s == digits;
    }
  }

  /** A string that starts with neither whitespace, a sign nor a digit does not parse. */
  lemma ParseIntRejects(s: string)
    requires s != [] && !IsSpace(s[0]) && !IsSpace(s[|s| - 1])
    requires !IsDigit(s[0]) && s[0] != '-' && s[0] != '+'
    ensures ParseInt(s) == None
  {
    StripUnpadded(s);
  }

  /** `int(str(n)) == n`. */
  lemma ParseIntRoundTrip(n: int)
    ensures ParseInt(IntToString(n)) == Some(n)
  {
    var m: nat := if n < 0 then -n else n;
    DigitsOfNat(m);
    assert IntToString(n) == (if n < 0 then "-" else "") + NatToString(m);
    ParseSignedDigits(n < 0, NatToString(m));
  }

  /** A string without a minus sign never parses to a negative number. */
  lemma ParseIntNoMinus(s: string)
    requires '-' !in s
    ensures ParseInt(s).Some? ==> ParseInt(s).value >= 0
  {
    var t := Strip(s);
    LStripFacts(s);
    RStripFacts(LStrip(s));
    if t != [] {
      assert t[0] == LStrip(s)[0] == s[|s| - |LStrip(s)|];
    }
  }

  // ---------------------------------------------------------------------
  // get_int_env, get_bool_env
  // ---------------------------------------------------------------------

  /**
   * `get_int_env`: the variable's integer when it is one and positive,
   * the default otherwise. An unset variable reads as `str(default)`,
   * which parses back to the default.
   */
  function GetIntEnv(value: Option<string>, default: int): (r: int)
    ensures r > 0 || r == default
    ensures value.None? ==> r == default
    ensures value.Some? && ParseInt(value.value).Some? && ParseInt(value.value).value > 0 ==> r == ParseInt(value.value).value
    ensures value.Some? && (ParseInt(value.value).None? || ParseInt(value.value).value <= 0) ==> r == default
  {
    var text := if value.Some? then value.value else IntToString(default);
    ParseIntRoundTrip(default);
    match ParseInt(text)
    case None => default
    case Some(n) => if n <= 0 then default else n
  }

  /** A positive setting is read back exactly as written. */
  lemma GetIntEnvPositive(n: int, default: int)
    requires n > 0
    ensures GetIntEnv(Some(IntToString(n)), default) == n
  {
    ParseIntRoundTrip(n);
  }

  /** A zero or negative setting falls back to the default. */
  lemma GetIntEnvNonPositive(n: int, default: int)
    requires n <= 0
    ensures GetIntEnv(Some(IntToString(n)), default) == default
  {
    ParseIntRoundTrip(n);
  }

  /** Non-numeric, zero and negative settings fall back to the default. */
  lemma GetIntEnvRejects(default: int)
    ensures GetIntEnv(Some("invalid"), default) == default
    ensures GetIntEnv(Some("0"), default) == default
    ensures GetIntEnv(Some("-5"), default) == default
  {
    ParseIntRejects("invalid");
    GetIntEnvNonPositive(0, default);
    GetIntEnvNonPositive(-5, default);
    assert IntToString(-5) == "-5";
  }

  /** The strings `get_bool_env` accepts as true, after lower-casing. */
  const TrueWords: set<string> := {"true", "1", "yes", "on"}

  /**
   * `get_bool_env`: true exactly when the lower-cased value is one of
   * `true`, `1`, `yes`, `on`; an unset variable reads as `str(default)`,
   * `"True"` or `"False"`, and so gives the default.
   */
  function GetBoolEnv(value: Option<string>, default: bool): (r: bool)
    ensures value.Some? ==> (r <==> Lower(value.value) in TrueWords)
    ensures value.None? ==> r == default
  {
    var text := if value.Some? then value.value else (if default then "True" else "False");
    assert Lower("True") == "true";
    assert Lower("False") == "false";
    Lower(text) in TrueWords
  }

  /** The setting is case-insensitive. */
  lemma GetBoolEnvCaseInsensitive(s: string, default: bool)
    ensures GetBoolEnv(Some(s), default) == GetBoolEnv(Some(Lower(s)), default)
  {
    LowerIdempotent(s);
  }

  // ---------------------------------------------------------------------
  // get_timestamp
  // ---------------------------------------------------------------------

  /**
   * `get_timestamp`: the first ten characters of `version.when` without
   * their dashes, read as an integer; 0 when the value is missing or
   * empty or does not parse. `when` is `None` when the page has no
   * version dictionary, no `when`, or a non-string `when`.
   */
  function GetTimestamp(when: Option<string>): (r: int)
    ensures r >= 0
    ensures when.None? || when.value == "" ==> r == 0
  {
    if when.None? || when.value == "" then 0
    else
      var s := when.value[..if |when.value| < 10 then |when.value| else 10];
      ParseIntNoMinus(RemoveChar(s, '-'));
      match ParseInt(RemoveChar(s, '-'))
      case None => 0
      case Some(n) => n
  }

  lemma {:induction false} RemoveCharAppend(a: string, b: string, c: char)
    ensures RemoveChar(a + b, c) == RemoveChar(a, c) + RemoveChar(b, c)
    decreases |a|
  {
    if a != [] {
      assert (a + b)[0] == a[0] && (a + b)[1..] == a[1..] + b;
      RemoveCharAppend(a[1..], b, c);
      var h := if a[0] == c then [] else [a[0]];
      assert RemoveChar(a + b, c) == h + (RemoveChar(a[1..], c) + RemoveChar(b, c));
    } else {
      assert a + b == b;
    }
  }

  lemma {:induction false} RemoveCharAbsent(a: string, c: char)
    requires c !in a
    ensures RemoveChar(a, c) == a
    decreases |a|
  {
    if a != [] {
      RemoveCharAbsent(a[1..], c);
    }
  }

  lemma DigitsHaveNoDash(s: string)
    requires AllDigits(s)
    ensures '-' !in s
  {
    forall i | 0 <= i < |s| ensures s[i] != '-' {
      assert IsDigit(s[i]);
    }
  }

  lemma AllDigitsConcat(a: string, b: string)
    requires AllDigits(a) && AllDigits(b)
    ensures AllDigits(a + b)
  {
    forall i | 0 <= i < |a + b| ensures IsDigit((a + b)[i]) {
      if i < |a| {
        assert (a + b)[i] == a[i];
      } else {
        assert (a + b)[i] == b[i - |a|];
      }
    }
  }

  lemma RemoveCharSelf(c: char)
    ensures RemoveChar([c], c) == []
  {
    assert [c][1..] == [];
  }

  /** Removing the dashes from `a-b` removes them from both sides and drops the middle one. */
  lemma DropDash(a: string, b: string)
    ensures RemoveChar(a + "-" + b, '-') == RemoveChar(a, '-') + RemoveChar(b, '-')
  {
    var ad := a + "-";
    RemoveCharAppend(ad, b, '-');
    RemoveCharAppend(a, "-", '-');
    RemoveCharSelf('-');
    assert RemoveChar(ad, '-') == RemoveChar(a, '-');
  }

  /** Removing the dashes from `YYYY-MM-DD` leaves `YYYYMMDD`. */
  lemma DateDigits(y: string, m: string, d: string)
    requires AllDigits(y) && AllDigits(m) && AllDigits(d)
    ensures RemoveChar(y + "-" + m + "-" + d, '-') == y + m + d
  {
    DropDash(y + "-" + m, d);
    DropDash(y, m);
    DigitsHaveNoDash(y);
    DigitsHaveNoDash(m);
    DigitsHaveNoDash(d);
    RemoveCharAbsent(y, '-');
    RemoveCharAbsent(m, '-');
    RemoveCharAbsent(d, '-');
  }

  /** A value whose first ten characters are an ISO date `YYYY-MM-DD` gives the number `YYYYMMDD`. */
  lemma GetTimestampIsoDate(y: string, m: string, d: string, w: string)
    requires |y| == 4 && |m| == 2 && |d| == 2 && AllDigits(y) && AllDigits(m) && AllDigits(d)
    requires |w| >= 10 && w[..10] == y + "-" + m + "-" + d
    ensures GetTimestamp(Some(w)) == DigitsValue(y + m + d)
  {
    DateDigits(y, m, d);
    AllDigitsConcat(y, m);
    AllDigitsConcat(y + m, d);
    ParseSignedDigits(false, y + m + d);
    assert "" + (y + m + d) == y + m + d;
  }

  /** A short value without dashes that starts with neither a digit nor a sign gives 0. */
  lemma GetTimestampNotNumber(w: string)
    requires 0 < |w| <= 10 && '-' !in w
    requires !IsSpace(w[0]) && !IsSpace(w[|w| - 1]) && !IsDigit(w[0]) && w[0] != '+'
    ensures GetTimestamp(Some(w)) == 0
  {
    assert w[..|w|] == w;
    RemoveCharAbsent(w, '-');
    ParseIntRejects(w);
  }

  /** A value that is not a date gives 0. */
  lemma GetTimestampInvalid()
    ensures GetTimestamp(Some("invalid")) == 0
  {
    GetTimestampNotNumber("invalid");
  }
}
