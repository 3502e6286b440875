/**
 * The Qdrant side of the store (`rag_server/qdrant_storage.py`): reading
 * the text out of a point's payload, translating filters into Qdrant
 * field conditions, shaping search hits, the batch-insert counters and
 * the listing of all points. The Qdrant client is a parameter: its
 * `search`, `scroll` and `upsert` calls become inputs or functions.
 */
module QdrantStorage {
  import opened Wrappers
  import opened Seqs
  import Mmr

  // ---------------------------------------------------------------------
  // Payload values
  // ---------------------------------------------------------------------

  /** A JSON-like payload value; an object keeps its keys in insertion order. */
  datatype Value =
    | Null
    | Bool(b: bool)
    | Num(n: real)
    | Str(s: string)
    | Arr(items: seq<Value>)
    | Obj(fields: seq<(string, Value)>)

  /** A dictionary: its entries in insertion order, each key once. */
  type Payload = seq<(string, Value)>

  /** Python's truth value of a payload value. */
  predicate Truthy(v: Value) {
    match v
    case Null => false
    case Bool(b) => b
    case Num(n) => n != 0.0
    case Str(s) => s != ""
    case Arr(items) => items != []
    case Obj(fields) => fields != []
  }

  /** `d.get(key)`: the value stored under `key`, `None` when the key is absent. */
  function Lookup(d: Payload, key: string): (r: Option<Value>)
    ensures r.None? <==> forall i :: 0 <= i < |d| ==> d[i].0 != key
    ensures r.Some? ==> (key, r.value) in d
  {
    if d == [] then None
    else if d[0].0 == key then Some(d[0].1)
    else
      var r := Lookup(d[1..], key);
      assert forall i :: 1 <= i < |d| ==> d[i] == d[1..][i - 1];
      r
  }

  /** `d.get(key, default)`. */
  function GetOr(d: Payload, key: string, default: Value): Value {
    match Lookup(d, key)
    case Some(v) => v
    case None => default
  }

  /** `a or b`. */
  function Or(a: Value, b: Value): (r: Value)
    ensures Truthy(r) <==> Truthy(a) || Truthy(b)
  {
    if Truthy(a) then a else b
  }

  /** `{**d, key: v}`: the entry replaced where the key already is, appended otherwise. */
  function Put(d: Payload, key: string, v: Value): (r: Payload)
    ensures Lookup(r, key) == Some(v)
    ensures forall k :: k != key ==> Lookup(r, k) == Lookup(d, k)
    ensures |r| == |d| + (if Lookup(d, key).Some? then 0 else 1)
  {
    if d == [] then [(key, v)]
    else if d[0].0 == key then [(key, v)] + d[1..]
    else [d[0]] + Put(d[1..], key, v)
  }

  // ---------------------------------------------------------------------
  // extract_text_from_payload
  // ---------------------------------------------------------------------

  /** `json.loads` on a string: the document, `None` when the string is not JSON. */
  type JsonParser = string -> Option<Value>

  /**
   * The text LlamaIndex keeps inside `_node_content`: the parsed object's
   * `text`, or else its `text_`. A value that is not a string, not JSON
   * or not an object gives "": the source catches those errors.
   */
  function NodeText(nodeContent: Value, parse: JsonParser): Value {
    if !nodeContent.Str? then Str("")
    else
      match parse(nodeContent.s)
      case None => Str("")
      case Some(node) =>
        if node.Obj? then Or(GetOr(node.fields, "text", Str("")), GetOr(node.fields, "text_", Str("")))
        else Str("")
  }

  /**
   * `extract_text_from_payload`: the payload's own `text` when it is
   * non-empty, else the text inside `_node_content`, else "". It never
   * fails.
   */
  function ExtractTextFromPayload(payload: Payload, parse: JsonParser): (r: Value)
    ensures r == Str("") || Truthy(r)
    ensures Truthy(GetOr(payload, "text", Str(""))) ==> r == GetOr(payload, "text", Str(""))
    ensures !Truthy(GetOr(payload, "text", Str(""))) && Truthy(GetOr(payload, "_node_content", Str(""))) ==>
              var node := NodeText(GetOr(payload, "_node_content", Str("")), parse);
              r == if Truthy(node) then node else Str("")
    ensures !Truthy(GetOr(payload, "text", Str(""))) && !Truthy(GetOr(payload, "_node_content", Str(""))) ==> r == Str("")
  {
    var text := GetOr(payload, "text", Str(""));
    if Truthy(text) then text
    else
      var nodeContent := GetOr(payload, "_node_content", Str(""));
      if Truthy(nodeContent) && Truthy(NodeText(nodeContent, parse)) then NodeText(nodeContent, parse)
      else Str("")
  }

  /** A payload written by LlamaIndex, with the text only inside `_node_content`, yields that text. */
  lemma LlamaIndexPayload(parse: JsonParser, meta: Payload, json: string, body: string)
    requires body != "" && json != ""
    requires parse(json) == Some(Obj([("id_", Str("n1")), ("text", Str(body))]))
    requires Lookup(meta, "text").None? && Lookup(meta, "_node_content").None?
    ensures ExtractTextFromPayload(meta + [("_node_content", Str(json))], parse) == Str(body)
  {
    var p := meta + [("_node_content", Str(json))];
    assert p[|meta|] == ("_node_content", Str(json));
    assert Lookup(p, "_node_content").Some?;
    assert Lookup(p, "text").None? by {
      forall i | 0 <= i < |p| ensures p[i].0 != "text" {
        if i < |meta| {
          assert p[i] == meta[i];
        }
      }
    }
    LookupFirst(p, "_node_content", |meta|);
    assert Lookup(Obj([("id_", Str("n1")), ("text", Str(body))]).fields, "text") == Some(Str(body));
  }

  /** In a dictionary with distinct keys, the lookup finds the entry at its position. */
  lemma {:induction false} LookupFirst(d: Payload, key: string, i: nat)
    requires i < |d| && d[i].0 == key
    requires forall j :: 0 <= j < i ==> d[j].0 != key
    ensures Lookup(d, key) == Some(d[i].1)
  {
    if i > 0 {
      LookupFirst(d[1..], key, i - 1);
    }
  }

  /** The payload's own text takes priority: whatever `_node_content` holds does not matter then. */
  lemma TextWinsOverNodeContent(payload: Payload, other: Value, parse: JsonParser)
    requires Truthy(GetOr(payload, "text", Str("")))
    ensures ExtractTextFromPayload(Put(payload, "_node_content", other), parse) == ExtractTextFromPayload(payload, parse)
  {
    assert GetOr(Put(payload, "_node_content", other), "text", Str("")) == GetOr(payload, "text", Str(""));
  }

  // ---------------------------------------------------------------------
  // Field conditions
  // ---------------------------------------------------------------------

  /** A Qdrant `FieldCondition`: an exact match, or a range with its named bounds. */
  datatype Condition = Match(key: Value, value: Value) | Range(key: Value, bounds: Payload)

  /** What `for x in v` yields: a list's items, a dictionary's keys, a string's characters; `None` when `v` is not iterable. */
  function Iterate(v: Value): Option<seq<Value>> {
    match v
    case Arr(items) => Some(items)
    case Obj(fields) => Some(seq(|fields|, i requires 0 <= i < |fields| => Str(fields[i].0)))
    case Str(s) => Some(seq(|s|, i requires 0 <= i < |s| => Str([s[i]])))
    case _ => None
  }

  /** The operators read in the `$and` shape, each with the bound it sets. */
  const AndOperators: seq<(string, string)> := [("$gte", "gte"), ("$lte", "lte"), ("$gt", "gt"), ("$lt", "lt")]

  /** The operators read in the flat shape: only the inclusive bounds. */
  const FlatOperators: seq<(string, string)> := [("$gte", "gte"), ("$lte", "lte")]

  function BoundNames(ops: seq<(string, string)>): set<string> {
    set i | 0 <= i < |ops| :: ops[i].1
  }

  /** The range bounds an operator dictionary sets, in operator order. */
  function Bounds(value: Payload, ops: seq<(string, string)>): (r: Payload)
    ensures |r| <= |ops|
    ensures forall i :: 0 <= i < |r| ==> r[i].0 in BoundNames(ops)
    ensures r == [] <==> forall j :: 0 <= j < |ops| ==> Lookup(value, ops[j].0).None?
  {
    if ops == [] then []
    else
      var rest := Bounds(value, ops[1..]);
      assert forall i :: 0 <= i < |rest| ==> rest[i].0 in BoundNames(ops) by {
        forall i | 0 <= i < |rest| ensures rest[i].0 in BoundNames(ops) {
          var j :| 0 <= j < |ops[1..]| && ops[1..][j].1 == rest[i].0;
          assert ops[j + 1].1 == rest[i].0;
        }
      }
      assert (forall j :: 0 <= j < |ops| ==> Lookup(value, ops[j].0).None?)
             <==> Lookup(value, ops[0].0).None? && forall j :: 0 <= j < |ops[1..]| ==> Lookup(value, ops[1..][j].0).None? by {
        forall j | 1 <= j < |ops| ensures ops[j] == ops[1..][j - 1] { }
      }
      (match Lookup(value, ops[0].0)
       case Some(v) => [(ops[0].1, v)]
       case None => []) + rest
  }

  /** The condition for one `key: value` entry: a range for an operator dictionary that sets a bound, a match for any other value. */
  function EntryConditions(key: string, value: Value, ops: seq<(string, string)>): (cs: seq<Condition>)
    ensures |cs| <= 1
    ensures !value.Obj? ==> cs == [Match(Str(key), value)]
  {
    if value.Obj? then
      var bounds := Bounds(value.fields, ops);
      if bounds != [] then [Range(Str(key), bounds)] else []
    else [Match(Str(key), value)]
  }

  /** The conditions of a dictionary's entries, in order. */
  function EntriesConditions(d: Payload, ops: seq<(string, string)>): (cs: seq<Condition>)
    ensures |cs| <= |d|
  {
    if d == [] then []
    else EntriesConditions(d[..|d| - 1], ops) + EntryConditions(d[|d| - 1].0, d[|d| - 1].1, ops)
  }

  /** The conditions of the `$and` list: those of each dictionary in it; other items are skipped. */
  function AndConditions(items: seq<Value>): seq<Condition> {
    if items == [] then []
    else
      var last := items[|items| - 1];
      AndConditions(items[..|items| - 1]) + (if last.Obj? then EntriesConditions(last.fields, AndOperators) else [])
  }

  /**
   * One item of the `must` list: nothing for a non-dictionary or a falsy
   * `key`; a match on `match.value or match.text` when that is truthy;
   * else a range from a truthy `range` dictionary. `None` where the
   * source raises: a truthy `match` or `range` that is not a dictionary.
   */
  function MustCondition(c: Value): (r: Option<seq<Condition>>)
    ensures r.Some? ==> |r.value| <= 1
    ensures r.Some? ==> forall x :: x in r.value ==> Truthy(x.key) && (x.Match? ==> Truthy(x.value))
  {
    if !c.Obj? then Some([])
    else
      var key := GetOr(c.fields, "key", Null);
      if !Truthy(key) then Some([])
      else
        var m := GetOr(c.fields, "match", Null);
        if Truthy(m) then
          if !m.Obj? then None
          else
            var val := Or(GetOr(m.fields, "value", Null), GetOr(m.fields, "text", Null));
            if Truthy(val) then Some([Match(key, val)]) else Some([])
        else
          var range := GetOr(c.fields, "range", Null);
          if !Truthy(range) then Some([])
          else if range.Obj? then Some([Range(key, range.fields)])
          else None
  }

  /** The conditions of the `must` list in order; `None` once an item raises. */
  function MustConditions(items: seq<Value>): Option<seq<Condition>> {
    if items == [] then Some([])
    else
      match MustConditions(items[..|items| - 1])
      case None => None
      case Some(cs) =>
        match MustCondition(items[|items| - 1])
        case None => None
        case Some(c) => Some(cs + c)
  }

  /** Once an item raises, the whole `must` list does. */
  lemma {:induction false} MustRaiseStops(items: seq<Value>, n: nat)
    requires n <= |items| && MustConditions(items[..n]).None?
    ensures MustConditions(items).None?
    decreases |items| - n
  {
    if n < |items| {
      assert items[..n + 1][..n] == items[..n];
      MustRaiseStops(items, n + 1);
    } else {
      assert items[..n] == items;
    }
  }

  /**
   * `_parse_where_filter`: the `must` shape, else the `$and` shape, else
   * the flat shape. `None` where the source raises: a `must` or `$and`
   * value that cannot be iterated, or a `must` item that raises.
   */
  function WhereConditions(where: Payload): Option<seq<Condition>> {
    if Lookup(where, "must").Some? then
      match Iterate(Lookup(where, "must").value)
      case None => None
      case Some(items) => MustConditions(items)
    else if Lookup(where, "$and").Some? then
      match Iterate(Lookup(where, "$and").value)
      case None => None
      case Some(items) => Some(AndConditions(items))
    else Some(EntriesConditions(where, FlatOperators))
  }

  /** `_parse_where_filter`, appending to `conditions` as the source does. */
  method ParseWhereFilter(where: Payload) returns (r: Option<seq<Condition>>)
    ensures r == WhereConditions(where)
  {
    if Lookup(where, "must").Some? {
      var it := Iterate(Lookup(where, "must").value);
      if it.None? {
        return None;
      }
      var items := it.value;
      var conditions := [];
      for i := 0 to |items|
        invariant MustConditions(items[..i]) == Some(conditions)
      {
        assert items[..i + 1][..i] == items[..i];
        var c := MustCondition(items[i]);
        if c.None? {
          MustRaiseStops(items, i + 1);
          return None;
        }
        conditions := conditions + c.value;
      }
      assert items[..|items|] == items;
      assert WhereConditions(where) == MustConditions(items);
      return Some(conditions);
    } else if Lookup(where, "$and").Some? {
      var it := Iterate(Lookup(where, "$and").value);
      if it.None? {
        return None;
      }
      var items := it.value;
      var conditions := [];
      for i := 0 to |items|
        invariant conditions == AndConditions(items[..i])
      {
        assert items[..i + 1][..i] == items[..i];
        if items[i].Obj? {
          var more := AppendEntries(conditions, items[i].fields, AndOperators);
          conditions := more;
        }
      }
      assert items[..|items|] == items;
      assert WhereConditions(where) == Some(AndConditions(items));
      return Some(conditions);
    } else {
      var conditions := AppendEntries([], where, FlatOperators);
      assert [] + EntriesConditions(where, FlatOperators) == EntriesConditions(where, FlatOperators);
      return Some(conditions);
    }
  }

  /** The loop over `condition.items()`: each entry's condition appended to `conditions`. */
  method AppendEntries(conditions: seq<Condition>, d: Payload, ops: seq<(string, string)>) returns (r: seq<Condition>)
    ensures r == conditions + EntriesConditions(d, ops)
  {
    r := conditions;
    for j := 0 to |d|
      invariant r == conditions + EntriesConditions(d[..j], ops)
    {
      assert d[..j + 1][..j] == d[..j];
      r := r + EntryConditions(d[j].0, d[j].1, ops);
    }
    assert d[..|d|] == d;
  }

  /** Every condition of a dictionary's entries is on one of its keys. */
  lemma {:induction false} EntriesKeys(d: Payload, ops: seq<(string, string)>)
    ensures forall x :: x in EntriesConditions(d, ops) ==> exists i :: 0 <= i < |d| && x.key == Str(d[i].0)
  {
    if d != [] {
      var prefix := d[..|d| - 1];
      EntriesKeys(prefix, ops);
      forall x | x in EntriesConditions(d, ops) ensures exists i :: 0 <= i < |d| && x.key == Str(d[i].0) {
        if x in EntriesConditions(prefix, ops) {
          var i :| 0 <= i < |prefix| && x.key == Str(prefix[i].0);
          assert prefix[i] == d[i];
        } else {
          assert x.key == Str(d[|d| - 1].0);
        }
      }
    }
  }

  /** Each entry whose value is not a dictionary gives a match carrying that value. */
  lemma {:induction false} EntriesMatches(d: Payload, ops: seq<(string, string)>)
    ensures forall i :: 0 <= i < |d| && !d[i].1.Obj? ==> Match(Str(d[i].0), d[i].1) in EntriesConditions(d, ops)
  {
    if d != [] {
      var prefix := d[..|d| - 1];
      EntriesMatches(prefix, ops);
      forall i | 0 <= i < |d| && !d[i].1.Obj? ensures Match(Str(d[i].0), d[i].1) in EntriesConditions(d, ops) {
        if i < |prefix| {
          assert prefix[i] == d[i];
        }
      }
    }
  }

  /** A range has at least one bound, each named after one of the operators. */
  lemma {:induction false} EntriesRanges(d: Payload, ops: seq<(string, string)>)
    ensures forall x :: x in EntriesConditions(d, ops) && x.Range? ==>
              x.bounds != [] && forall b :: b in x.bounds ==> b.0 in BoundNames(ops)
  {
    if d != [] {
      EntriesRanges(d[..|d| - 1], ops);
    }
  }

  /** Without dictionary values, every entry gives exactly one condition. */
  lemma {:induction false} EntriesCount(d: Payload, ops: seq<(string, string)>)
    requires forall i :: 0 <= i < |d| ==> !d[i].1.Obj?
    ensures |EntriesConditions(d, ops)| == |d|
  {
    if d != [] {
      var prefix := d[..|d| - 1];
      assert forall i :: 0 <= i < |prefix| ==> prefix[i] == d[i];
      EntriesCount(prefix, ops);
    }
  }

  /** A flat filter gives ranges only from `$gte` and `$lte`. */
  lemma FlatRangesInclusive(where: Payload)
    requires Lookup(where, "must").None? && Lookup(where, "$and").None?
    ensures WhereConditions(where).Some?
    ensures forall x :: x in WhereConditions(where).value && x.Range? ==>
              forall b :: b in x.bounds ==> b.0 == "gte" || b.0 == "lte"
  {
    EntriesRanges(where, FlatOperators);
    assert BoundNames(FlatOperators) == {"gte", "lte"} by {
      assert FlatOperators[0].1 == "gte" && FlatOperators[1].1 == "lte";
    }
  }

  /** The `must` shape keeps only entries with a truthy key, and a match only with a truthy value; at most one condition per item. */
  lemma {:induction false} MustFacts(items: seq<Value>)
    ensures MustConditions(items).Some? ==>
              |MustConditions(items).value| <= |items|
              && forall x :: x in MustConditions(items).value ==> Truthy(x.key) && (x.Match? ==> Truthy(x.value))
  {
    if items != [] {
      MustFacts(items[..|items| - 1]);
    }
  }

  /** A `must` item with a key and a `match.value` gives exactly that match. */
  lemma MustMatchExample(key: string, val: string)
    requires key != "" && val != ""
    ensures MustConditions([Obj([("key", Str(key)), ("match", Obj([("value", Str(val))]))])])
            == Some([Match(Str(key), Str(val))])
  {
    var c := Obj([("key", Str(key)), ("match", Obj([("value", Str(val))]))]);
    assert [c][..0] == [];
    assert GetOr(c.fields, "key", Null) == Str(key);
    assert c.fields[1..] == [("match", Obj([("value", Str(val))]))];
    assert |c.fields[0].0| != |"match"|;
    assert Lookup(c.fields, "match") == Lookup(c.fields[1..], "match");
    assert GetOr(c.fields, "match", Null) == Obj([("value", Str(val))]);
    assert GetOr([("value", Str(val))], "value", Null) == Str(val);
    assert GetOr([("value", Str(val))], "text", Null) == Null;
    assert Truthy(Str(key)) && Truthy(Obj([("value", Str(val))])) && Truthy(Str(val));
    assert Or(Str(val), Null) == Str(val);
    assert MustCondition(c) == Some([Match(Str(key), Str(val))]);
    assert MustConditions([c]) == Some([] + [Match(Str(key), Str(val))]);
    assert [] + [Match(Str(key), Str(val))] == [Match(Str(key), Str(val))];
  }

  // ---------------------------------------------------------------------
  // _build_metadata_conditions
  // ---------------------------------------------------------------------

  /** The direct filter arguments of `search_in_qdrant`. */
  datatype MetadataFilter = MetadataFilter(
    space: Option<string>, author: Option<string>, fromDate: Option<string>, toDate: Option<string>,
    status: Option<string>, contentType: Option<string>, labels: Option<seq<string>>,
    pagePath: Option<string>, headings: Option<string>)

  /** A string argument that is neither `None` nor empty. */
  predicate Given(s: Option<string>) {
    s.Some? && s.value != ""
  }

  /** The string of an optional argument, "" for `None`. */
  function Text(s: Option<string>): string {
    if s.Some? then s.value else ""
  }

  /** Whether `labels and len(labels) > 0`. */
  predicate HasLabels(labels: Option<seq<string>>) {
    labels.Some? && labels.value != []
  }

  function FirstLabel(labels: Option<seq<string>>): string {
    if HasLabels(labels) then labels.value[0] else ""
  }

  /** The condition an `if arg: conditions.append(...)` adds: `[c]` when the argument is given. */
  function AddIf(given: bool, c: Condition): (r: seq<Condition>)
    ensures |r| == if given then 1 else 0
  {
    if given then [c] else []
  }

  /**
   * `_build_metadata_conditions`: in the order space, author (as
   * `created_by`), status, content type, the two dates (as bounds on
   * `created`), the first label, the page path and the headings.
   */
  function MetadataConditions(f: MetadataFilter): seq<Condition> {
    AddIf(Given(f.space), Match(Str("space"), Str(Text(f.space))))
    + AddIf(Given(f.author), Match(Str("created_by"), Str(Text(f.author))))
    + AddIf(Given(f.status), Match(Str("status"), Str(Text(f.status))))
    + AddIf(Given(f.contentType), Match(Str("content_type"), Str(Text(f.contentType))))
    + AddIf(Given(f.fromDate), Range(Str("created"), [("gte", Str(Text(f.fromDate)))]))
    + AddIf(Given(f.toDate), Range(Str("created"), [("lte", Str(Text(f.toDate)))]))
    + AddIf(HasLabels(f.labels), Match(Str("labels"), Str(FirstLabel(f.labels))))
    + AddIf(Given(f.pagePath), Match(Str("page_path"), Str(Text(f.pagePath))))
    + AddIf(Given(f.headings), Match(Str("headings"), Str(Text(f.headings))))
  }

  /** The number of arguments that are given. */
  function GivenCount(f: MetadataFilter): nat {
    (if Given(f.space) then 1 else 0) + (if Given(f.author) then 1 else 0)
    + (if Given(f.status) then 1 else 0) + (if Given(f.contentType) then 1 else 0)
    + (if Given(f.fromDate) then 1 else 0) + (if Given(f.toDate) then 1 else 0)
    + (if HasLabels(f.labels) then 1 else 0)
    + (if Given(f.pagePath) then 1 else 0) + (if Given(f.headings) then 1 else 0)
  }

  /** One condition per given argument; none exactly when nothing is given. */
  lemma MetadataCount(f: MetadataFilter)
    ensures |MetadataConditions(f)| == GivenCount(f)
    ensures MetadataConditions(f) == [] <==> GivenCount(f) == 0
  {
  }

  /** The conditions on `key`, in order. */
  function OnKey(cs: seq<Condition>, key: string): seq<Condition> {
    if cs == [] then [] else (if cs[0].key == Str(key) then [cs[0]] else []) + OnKey(cs[1..], key)
  }

  lemma {:induction false} OnKeyAppend(a: seq<Condition>, b: seq<Condition>, key: string)
    ensures OnKey(a + b, key) == OnKey(a, key) + OnKey(b, key)
  {
    if a != [] {
      assert (a + b)[1..] == a[1..] + b;
      OnKeyAppend(a[1..], b, key);
    } else {
      assert a + b == b;
    }
  }

  /** The conditions on `key` of the whole list: those of each `if` in turn. */
  lemma OnKeyMetadata(f: MetadataFilter, key: string)
    ensures OnKey(MetadataConditions(f), key)
            == OnKey(AddIf(Given(f.space), Match(Str("space"), Str(Text(f.space)))), key)
               + OnKey(AddIf(Given(f.author), Match(Str("created_by"), Str(Text(f.author)))), key)
               + OnKey(AddIf(Given(f.status), Match(Str("status"), Str(Text(f.status)))), key)
               + OnKey(AddIf(Given(f.contentType), Match(Str("content_type"), Str(Text(f.contentType)))), key)
               + OnKey(AddIf(Given(f.fromDate), Range(Str("created"), [("gte", Str(Text(f.fromDate)))])), key)
               + OnKey(AddIf(Given(f.toDate), Range(Str("created"), [("lte", Str(Text(f.toDate)))])), key)
               + OnKey(AddIf(HasLabels(f.labels), Match(Str("labels"), Str(FirstLabel(f.labels)))), key)
               + OnKey(AddIf(Given(f.pagePath), Match(Str("page_path"), Str(Text(f.pagePath)))), key)
               + OnKey(AddIf(Given(f.headings), Match(Str("headings"), Str(Text(f.headings)))), key)
  {
    var a1 := AddIf(Given(f.space), Match(Str("space"), Str(Text(f.space))));
    var a2 := AddIf(Given(f.author), Match(Str("created_by"), Str(Text(f.author))));
    var a3 := AddIf(Given(f.status), Match(Str("status"), Str(Text(f.status))));
    var a4 := AddIf(Given(f.contentType), Match(Str("content_type"), Str(Text(f.contentType))));
    var a5 := AddIf(Given(f.fromDate), Range(Str("created"), [("gte", Str(Text(f.fromDate)))]));
    var a6 := AddIf(Given(f.toDate), Range(Str("created"), [("lte", Str(Text(f.toDate)))]));
    var a7 := AddIf(HasLabels(f.labels), Match(Str("labels"), Str(FirstLabel(f.labels))));
    var a8 := AddIf(Given(f.pagePath), Match(Str("page_path"), Str(Text(f.pagePath))));
    var a9 := AddIf(Given(f.headings), Match(Str("headings"), Str(Text(f.headings))));
    OnKeyAppend(a1, a2, key);
    OnKeyAppend(a1 + a2, a3, key);
    OnKeyAppend(a1 + a2 + a3, a4, key);
    OnKeyAppend(a1 + a2 + a3 + a4, a5, key);
    OnKeyAppend(a1 + a2 + a3 + a4 + a5, a6, key);
    OnKeyAppend(a1 + a2 + a3 + a4 + a5 + a6, a7, key);
    OnKeyAppend(a1 + a2 + a3 + a4 + a5 + a6 + a7, a8, key);
    OnKeyAppend(a1 + a2 + a3 + a4 + a5 + a6 + a7 + a8, a9, key);
  }

  /** An `if` for a condition on `k` adds nothing on any other key. */
  lemma OnKeyPiece(given: bool, c: Condition, k: string, key: string)
    requires c.key == Str(k)
    ensures OnKey(AddIf(given, c), key) == if key == k then AddIf(given, c) else []
  {
  }

  /** The `if`s for the space, the author and the status each add a condition on their own key only. */
  lemma PiecesOnKeyA(f: MetadataFilter, key: string)
    ensures OnKey(AddIf(Given(f.space), Match(Str("space"), Str(Text(f.space)))), key) == if key == "space" then AddIf(Given(f.space), Match(Str("space"), Str(Text(f.space)))) else []
    ensures OnKey(AddIf(Given(f.author), Match(Str("created_by"), Str(Text(f.author)))), key) == if key == "created_by" then AddIf(Given(f.author), Match(Str("created_by"), Str(Text(f.author)))) else []
    ensures OnKey(AddIf(Given(f.status), Match(Str("status"), Str(Text(f.status)))), key) == if key == "status" then AddIf(Given(f.status), Match(Str("status"), Str(Text(f.status)))) else []
  {
    OnKeyPiece(Given(f.space), Match(Str("space"), Str(Text(f.space))), "space", key);
    OnKeyPiece(Given(f.author), Match(Str("created_by"), Str(Text(f.author))), "created_by", key);
    OnKeyPiece(Given(f.status), Match(Str("status"), Str(Text(f.status))), "status", key);
  }

  /** The `if`s for the content type and the two dates each add a condition on their own key only. */
  lemma PiecesOnKeyB(f: MetadataFilter, key: string)
    ensures OnKey(AddIf(Given(f.contentType), Match(Str("content_type"), Str(Text(f.contentType)))), key) == if key == "content_type" then AddIf(Given(f.contentType), Match(Str("content_type"), Str(Text(f.contentType)))) else []
    ensures OnKey(AddIf(Given(f.fromDate), Range(Str("created"), [("gte", Str(Text(f.fromDate)))])), key) == if key == "created" then AddIf(Given(f.fromDate), Range(Str("created"), [("gte", Str(Text(f.fromDate)))])) else []
    ensures OnKey(AddIf(Given(f.toDate), Range(Str("created"), [("lte", Str(Text(f.toDate)))])), key) == if key == "created" then AddIf(Given(f.toDate), Range(Str("created"), [("lte", Str(Text(f.toDate)))])) else []
  {
    OnKeyPiece(Given(f.contentType), Match(Str("content_type"), Str(Text(f.contentType))), "content_type", key);
    OnKeyPiece(Given(f.fromDate), Range(Str("created"), [("gte", Str(Text(f.fromDate)))]), "created", key);
    OnKeyPiece(Given(f.toDate), Range(Str("created"), [("lte", Str(Text(f.toDate)))]), "created", key);
  }

  /** The `if`s for the first label, the page path and the headings each add a condition on their own key only. */
  lemma PiecesOnKeyC(f: MetadataFilter, key: string)
    ensures OnKey(AddIf(HasLabels(f.labels), Match(Str("labels"), Str(FirstLabel(f.labels)))), key) == if key == "labels" then AddIf(HasLabels(f.labels), Match(Str("labels"), Str(FirstLabel(f.labels)))) else []
    ensures OnKey(AddIf(Given(f.pagePath), Match(Str("page_path"), Str(Text(f.pagePath)))), key) == if key == "page_path" then AddIf(Given(f.pagePath), Match(Str("page_path"), Str(Text(f.pagePath)))) else []
    ensures OnKey(AddIf(Given(f.headings), Match(Str("headings"), Str(Text(f.headings)))), key) == if key == "headings" then AddIf(Given(f.headings), Match(Str("headings"), Str(Text(f.headings)))) else []
  {
    OnKeyPiece(HasLabels(f.labels), Match(Str("labels"), Str(FirstLabel(f.labels))), "labels", key);
    OnKeyPiece(Given(f.pagePath), Match(Str("page_path"), Str(Text(f.pagePath))), "page_path", key);
    OnKeyPiece(Given(f.headings), Match(Str("headings"), Str(Text(f.headings))), "headings", key);
  }

  /** The only condition on `space` is the given space's. */
  lemma SpaceCondition(f: MetadataFilter)
    ensures OnKey(MetadataConditions(f), "space") == AddIf(Given(f.space), Match(Str("space"), Str(Text(f.space))))
  {
    OnKeyMetadata(f, "space");
    PiecesOnKeyA(f, "space");
    PiecesOnKeyB(f, "space");
    PiecesOnKeyC(f, "space");
    JoinAt1(OnKey(AddIf(Given(f.space), Match(Str("space"), Str(Text(f.space)))), "space"),
      OnKey(AddIf(Given(f.author), Match(Str("created_by"), Str(Text(f.author)))), "space"),
      OnKey(AddIf(Given(f.status), Match(Str("status"), Str(Text(f.status)))), "space"),
      OnKey(AddIf(Given(f.contentType), Match(Str("content_type"), Str(Text(f.contentType)))), "space"),
      OnKey(AddIf(Given(f.fromDate), Range(Str("created"), [("gte", Str(Text(f.fromDate)))])), "space"),
      OnKey(AddIf(Given(f.toDate), Range(Str("created"), [("lte", Str(Text(f.toDate)))])), "space"),
      OnKey(AddIf(HasLabels(f.labels), Match(Str("labels"), Str(FirstLabel(f.labels)))), "space"),
      OnKey(AddIf(Given(f.pagePath), Match(Str("page_path"), Str(Text(f.pagePath)))), "space"),
      OnKey(AddIf(Given(f.headings), Match(Str("headings"), Str(Text(f.headings)))), "space"));
  }

  /** The only condition on `created_by` is the given author's. */
  lemma AuthorCondition(f: MetadataFilter)
    ensures OnKey(MetadataConditions(f), "created_by") == AddIf(Given(f.author), Match(Str("created_by"), Str(Text(f.author))))
  {
    OnKeyMetadata(f, "created_by");
    PiecesOnKeyA(f, "created_by");
    PiecesOnKeyB(f, "created_by");
    PiecesOnKeyC(f, "created_by");
    JoinAt2(OnKey(AddIf(Given(f.space), Match(Str("space"), Str(Text(f.space)))), "created_by"),
      OnKey(AddIf(Given(f.author), Match(Str("created_by"), Str(Text(f.author)))), "created_by"),
      OnKey(AddIf(Given(f.status), Match(Str("status"), Str(Text(f.status)))), "created_by"),
      OnKey(AddIf(Given(f.contentType), Match(Str("content_type"), Str(Text(f.contentType)))), "created_by"),
      OnKey(AddIf(Given(f.fromDate), Range(Str("created"), [("gte", Str(Text(f.fromDate)))])), "created_by"),
      OnKey(AddIf(Given(f.toDate), Range(Str("created"), [("lte", Str(Text(f.toDate)))])), "created_by"),
      OnKey(AddIf(HasLabels(f.labels), Match(Str("labels"), Str(FirstLabel(f.labels)))), "created_by"),
      OnKey(AddIf(Given(f.pagePath), Match(Str("page_path"), Str(Text(f.pagePath)))), "created_by"),
      OnKey(AddIf(Given(f.headings), Match(Str("headings"), Str(Text(f.headings)))), "created_by"));
  }

  /** The conditions on `created` are the lower bound from `from_date`, then the upper bound from `to_date`, each when given. */
  lemma DateConditions(f: MetadataFilter)
    ensures OnKey(MetadataConditions(f), "created")
            == AddIf(Given(f.fromDate), Range(Str("created"), [("gte", Str(Text(f.fromDate)))]))
               + AddIf(Given(f.toDate), Range(Str("created"), [("lte", Str(Text(f.toDate)))]))
  {
    OnKeyMetadata(f, "created");
    PiecesOnKeyA(f, "created");
    PiecesOnKeyB(f, "created");
    PiecesOnKeyC(f, "created");
    JoinAt56(OnKey(AddIf(Given(f.space), Match(Str("space"), Str(Text(f.space)))), "created"),
      OnKey(AddIf(Given(f.author), Match(Str("created_by"), Str(Text(f.author)))), "created"),
      OnKey(AddIf(Given(f.status), Match(Str("status"), Str(Text(f.status)))), "created"),
      OnKey(AddIf(Given(f.contentType), Match(Str("content_type"), Str(Text(f.contentType)))), "created"),
      OnKey(AddIf(Given(f.fromDate), Range(Str("created"), [("gte", Str(Text(f.fromDate)))])), "created"),
      OnKey(AddIf(Given(f.toDate), Range(Str("created"), [("lte", Str(Text(f.toDate)))])), "created"),
      OnKey(AddIf(HasLabels(f.labels), Match(Str("labels"), Str(FirstLabel(f.labels)))), "created"),
      OnKey(AddIf(Given(f.pagePath), Match(Str("page_path"), Str(Text(f.pagePath)))), "created"),
      OnKey(AddIf(Given(f.headings), Match(Str("headings"), Str(Text(f.headings)))), "created"));
  }

  /** The only condition on `labels` matches the first label, when there is one. */
  lemma LabelCondition(f: MetadataFilter)
    ensures OnKey(MetadataConditions(f), "labels") == AddIf(HasLabels(f.labels), Match(Str("labels"), Str(FirstLabel(f.labels))))
  {
    OnKeyMetadata(f, "labels");
    PiecesOnKeyA(f, "labels");
    PiecesOnKeyB(f, "labels");
    PiecesOnKeyC(f, "labels");
    JoinAt7(OnKey(AddIf(Given(f.space), Match(Str("space"), Str(Text(f.space)))), "labels"),
      OnKey(AddIf(Given(f.author), Match(Str("created_by"), Str(Text(f.author)))), "labels"),
      OnKey(AddIf(Given(f.status), Match(Str("status"), Str(Text(f.status)))), "labels"),
      OnKey(AddIf(Given(f.contentType), Match(Str("content_type"), Str(Text(f.contentType)))), "labels"),
      OnKey(AddIf(Given(f.fromDate), Range(Str("created"), [("gte", Str(Text(f.fromDate)))])), "labels"),
      OnKey(AddIf(Given(f.toDate), Range(Str("created"), [("lte", Str(Text(f.toDate)))])), "labels"),
      OnKey(AddIf(HasLabels(f.labels), Match(Str("labels"), Str(FirstLabel(f.labels)))), "labels"),
      OnKey(AddIf(Given(f.pagePath), Match(Str("page_path"), Str(Text(f.pagePath)))), "labels"),
      OnKey(AddIf(Given(f.headings), Match(Str("headings"), Str(Text(f.headings)))), "labels"));
  }

  // Joining the pieces when all but the kept ones are empty.

  lemma JoinAt1<T>(e1: seq<T>, e2: seq<T>, e3: seq<T>, e4: seq<T>, e5: seq<T>, e6: seq<T>, e7: seq<T>, e8: seq<T>, e9: seq<T>)
    requires e2 == e3 == e4 == e5 == e6 == e7 == e8 == e9 == []
    ensures e1 + e2 + e3 + e4 + e5 + e6 + e7 + e8 + e9 == e1
  {
  }

  lemma JoinAt2<T>(e1: seq<T>, e2: seq<T>, e3: seq<T>, e4: seq<T>, e5: seq<T>, e6: seq<T>, e7: seq<T>, e8: seq<T>, e9: seq<T>)
    requires e1 == e3 == e4 == e5 == e6 == e7 == e8 == e9 == []
    ensures e1 + e2 + e3 + e4 + e5 + e6 + e7 + e8 + e9 == e2
  {
  }

  lemma JoinAt56<T>(e1: seq<T>, e2: seq<T>, e3: seq<T>, e4: seq<T>, e5: seq<T>, e6: seq<T>, e7: seq<T>, e8: seq<T>, e9: seq<T>)
    requires e1 == e2 == e3 == e4 == e7 == e8 == e9 == []
    ensures e1 + e2 + e3 + e4 + e5 + e6 + e7 + e8 + e9 == e5 + e6
  {
  }

  lemma JoinAt7<T>(e1: seq<T>, e2: seq<T>, e3: seq<T>, e4: seq<T>, e5: seq<T>, e6: seq<T>, e7: seq<T>, e8: seq<T>, e9: seq<T>)
    requires e1 == e2 == e3 == e4 == e5 == e6 == e8 == e9 == []
    ensures e1 + e2 + e3 + e4 + e5 + e6 + e7 + e8 + e9 == e7
  {
  }

  // ---------------------------------------------------------------------
  // Search
  // ---------------------------------------------------------------------

  /** A hit of the Qdrant `search` call; `id` is already rendered with `str`. */
  datatype Hit = Hit(id: string, score: real, payload: Option<Payload>, vector: Option<seq<real>>)

  /** A formatted result; `embedding` is `None` when the result has no `embedding` key. */
  datatype Formatted = Formatted(id: string, score: real, payload: Payload, embedding: Option<seq<real>>)

  /** One formatted hit: the payload or `{}`; with vectors, the hit's vector or else the query's. */
  function FormatHit(h: Hit, withVectors: bool, query: seq<real>): (r: Formatted)
    ensures r.id == h.id && r.score == h.score
    ensures r.embedding.Some? <==> withVectors
    ensures withVectors ==> r.embedding.value == if h.vector.Some? && h.vector.value != [] then h.vector.value else query
  {
    var payload := if h.payload.Some? then h.payload.value else [];
    var embedding := if !withVectors then None
                     else if h.vector.Some? && h.vector.value != [] then Some(h.vector.value)
                     else Some(query);
    Formatted(h.id, h.score, payload, embedding)
  }

  /** `_format_search_results`: every hit formatted, in order. */
  method FormatSearchResults(hits: seq<Hit>, withVectors: bool, query: seq<real>) returns (out: seq<Formatted>)
    ensures |out| == |hits|
    ensures forall i :: 0 <= i < |hits| ==> out[i] == FormatHit(hits[i], withVectors, query)
  {
    out := [];
    for i := 0 to |hits|
      invariant |out| == i
      invariant forall j :: 0 <= j < i ==> out[j] == FormatHit(hits[j], withVectors, query)
    {
      out := out + [FormatHit(hits[i], withVectors, query)];
    }
  }

  /** The vector arithmetic `mmr_rerank` needs, as parameters. */
  datatype MmrVectors = MmrVectors(usable: seq<real> -> bool, queryNonZero: bool,
                                   rel: seq<real> -> real, sim: (seq<real>, seq<real>) -> real, maxItems: int)

  /**
   * `_apply_mmr_diversification`. Without MMR, or when the results fit
   * in `limit`, their first `limit`; otherwise `mmr_rerank` with
   * `top_k = limit`, unless a result lacks its embedding or the reranker
   * raises (`mmrRaises`), which again give the first `limit`.
   */
  method ApplyMmrDiversification(results: seq<Formatted>, hasMmr: bool, mmrRaises: bool, vectors: MmrVectors,
                                 diversityWeight: real, limit: int)
    returns (out: seq<Formatted>)
    ensures !hasMmr || |results| <= limit ==> out == Take(results, limit)
    ensures forall x :: x in out ==> x in results
    ensures limit >= 0 && vectors.maxItems >= 0 ==> |out| <= limit
  {
    if !hasMmr || |results| <= limit {
      return Take(results, limit);
    }
    if mmrRaises || exists i :: 0 <= i < |results| && results[i].embedding.None? {
      return Take(results, limit);
    }
    out := Mmr.MmrRerank(results, (r: Formatted) => r.embedding, vectors.usable, vectors.queryNonZero,
                         vectors.rel, vectors.sim, diversityWeight, limit, vectors.maxItems);
  }

  /** The Qdrant `search` call: the hits for a query vector, a limit, a filter and whether vectors come back; `None` when it raises. */
  type SearchCall = (seq<real>, int, Option<seq<Condition>>, bool) -> Option<seq<Hit>>

  /**
   * The conditions of `search_in_qdrant`: those of a truthy `where_filter`
   * followed by the direct arguments'; `None` when parsing the filter
   * raises, which the source does outside its `try`.
   */
  function SearchConditions(whereFilter: Option<Payload>, f: MetadataFilter): Option<seq<Condition>> {
    if whereFilter.Some? && whereFilter.value != [] then
      match WhereConditions(whereFilter.value)
      case None => None
      case Some(cs) => Some(cs + MetadataConditions(f))
    else Some(MetadataConditions(f))
  }

  /** The filter sent to Qdrant: none without conditions. */
  function QdrantFilter(conditions: seq<Condition>): Option<seq<Condition>> {
    if conditions == [] then None else Some(conditions)
  }

  /** The number of candidates requested: three times `limit` when MMR will re-select. */
  function SearchLimit(limit: int, withVectors: bool): int {
    if withVectors then limit * 3 else limit
  }

  /**
   * `search_in_qdrant`. It requests `limit * 3` candidates with their
   * vectors when MMR is asked for and available, `limit` otherwise;
   * answers with at most `limit` of the formatted hits, in the order
   * Qdrant gave them when MMR is off; and with nothing when the search
   * raises.
   */
  method SearchInQdrant(query: seq<real>, limit: int, whereFilter: Option<Payload>, f: MetadataFilter,
                        useMmr: bool, diversityWeight: real, hasMmr: bool, mmrRaises: bool, vectors: MmrVectors,
                        search: SearchCall)
    returns (r: Option<seq<Formatted>>)
    ensures r.None? <==> SearchConditions(whereFilter, f).None?
    ensures r.Some? ==>
              var withVectors := useMmr && hasMmr;
              var hits := search(query, SearchLimit(limit, withVectors), QdrantFilter(SearchConditions(whereFilter, f).value), withVectors);
              (hits.None? ==> r.value == [])
              && (hits.Some? ==> forall x :: x in r.value ==> exists h :: h in hits.value && x == FormatHit(h, withVectors, query))
              && (hits.Some? && !withVectors ==> r.value == Take(seq(|hits.value|, i requires 0 <= i < |hits.value| => FormatHit(hits.value[i], false, query)), limit))
              && (limit >= 0 && vectors.maxItems >= 0 ==> |r.value| <= limit)
  {
    var conditions := SearchConditions(whereFilter, f);
    if conditions.None? {
      return None;
    }
    var out := SearchWithFilter(query, limit, QdrantFilter(conditions.value), useMmr, diversityWeight, hasMmr, mmrRaises,
                                vectors, search);
    return Some(out);
  }

  /** The search itself, once the filter is built. */
  method SearchWithFilter(query: seq<real>, limit: int, filter: Option<seq<Condition>>, useMmr: bool,
                          diversityWeight: real, hasMmr: bool, mmrRaises: bool, vectors: MmrVectors, search: SearchCall)
    returns (r: seq<Formatted>)
    ensures var withVectors := useMmr && hasMmr;
            var hits := search(query, SearchLimit(limit, withVectors), filter, withVectors);
            (hits.None? ==> r == [])
            && (hits.Some? ==> forall x :: x in r ==> exists h :: h in hits.value && x == FormatHit(h, withVectors, query))
            && (hits.Some? && !withVectors ==> r == Take(seq(|hits.value|, i requires 0 <= i < |hits.value| => FormatHit(hits.value[i], false, query)), limit))
            && (limit >= 0 && vectors.maxItems >= 0 ==> |r| <= limit)
  {
    var withVectors := useMmr && hasMmr;
    var searchLimit := SearchLimit(limit, withVectors);
    var hits := search(query, searchLimit, filter, withVectors);
    if hits.None? {
      return [];
    }
    var formatted := FormatSearchResults(hits.value, withVectors, query);
    assert forall x :: x in formatted ==> exists h :: h in hits.value && x == FormatHit(h, withVectors, query) by {
      forall x | x in formatted ensures exists h :: h in hits.value && x == FormatHit(h, withVectors, query) {
        var i :| 0 <= i < |formatted| && formatted[i] == x;
        assert hits.value[i] in hits.value;
      }
    }
    if withVectors {
      r := ApplyMmrDiversification(formatted, hasMmr, mmrRaises, vectors, diversityWeight, limit);
      return;
    }
    assert formatted == seq(|hits.value|, i requires 0 <= i < |hits.value| => FormatHit(hits.value[i], false, query));
    r := Take(formatted, limit);
    assert forall x :: x in r ==> x in formatted by {
      forall x | x in r ensures x in formatted {
        var i :| 0 <= i < |r| && r[i] == x;
        assert formatted[i] == x;
      }
    }
  }

  // ---------------------------------------------------------------------
  // insert_chunks_batch_to_qdrant
  // ---------------------------------------------------------------------

  /** An entry of `chunks_data`; a missing key is `None`. */
  datatype Chunk = Chunk(text: Option<Value>, metadata: Option<Payload>, embedding: Option<seq<real>>, pointId: Option<string>)

  /** A `PointStruct`. */
  datatype Point = Point(id: string, vector: seq<real>, payload: Payload)

  /** Whether `PointStruct` accepts an id and a vector. */
  type PointCheck = (string, seq<real>) -> bool

  /** The point prepared for a chunk, its payload the metadata with `text` set; `None` when preparing it raises. */
  function Prepare(c: Chunk, accepts: PointCheck): Option<Point> {
    if c.metadata.Some? && c.text.Some? && c.pointId.Some? && c.embedding.Some? && accepts(c.pointId.value, c.embedding.value)
    then Some(Point(c.pointId.value, c.embedding.value, Put(c.metadata.value, "text", c.text.value)))
    else None
  }

  /**
   * A chunk is prepared exactly when it has all four keys and its id and
   * vector are accepted; the payload then answers the chunk's text for
   * `text` and the metadata's value for every other key.
   */
  lemma PrepareFacts(c: Chunk, accepts: PointCheck)
    ensures Prepare(c, accepts).Some? <==>
              c.metadata.Some? && c.text.Some? && c.pointId.Some? && c.embedding.Some? && accepts(c.pointId.value, c.embedding.value)
    ensures Prepare(c, accepts).Some? ==>
              var p := Prepare(c, accepts).value;
              p.id == c.pointId.value && p.vector == c.embedding.value
              && Lookup(p.payload, "text") == Some(c.text.value)
              && forall k :: k != "text" ==> Lookup(p.payload, k) == Lookup(c.metadata.value, k)
  {
  }

  /** The points prepared for a batch, in order. */
  function Points(batch: seq<Chunk>, accepts: PointCheck): (ps: seq<Point>)
    ensures |ps| <= |batch|
  {
    if batch == [] then []
    else
      var last := Prepare(batch[|batch| - 1], accepts);
      Points(batch[..|batch| - 1], accepts) + (if last.Some? then [last.value] else [])
  }

  /** The successes a batch's points add: all of them when there are some and the upsert succeeds. */
  function Upserted(points: seq<Point>, upsert: seq<Point> -> bool): nat {
    if points != [] && upsert(points) then |points| else 0
  }

  /**
   * The counters over the batches of `size` chunks: a batch whose
   * non-empty list of points is upserted adds its points to the
   * successes; every chunk that cannot be prepared adds one error; a
   * failed upsert adds nothing.
   */
  function Counters(chunks: seq<Chunk>, size: int, accepts: PointCheck, upsert: seq<Point> -> bool): (r: (nat, nat))
    requires size > 0
    ensures r.0 + r.1 <= |chunks|
    decreases |chunks|
  {
    if chunks == [] then (0, 0)
    else
      var n := Min(size, |chunks|);
      var points := Points(chunks[..n], accepts);
      var rest := Counters(chunks[n..], size, accepts, upsert);
      (rest.0 + Upserted(points, upsert), rest.1 + (n - |points|))
  }

  /**
   * `insert_chunks_batch_to_qdrant`: the success and error counts. A
   * batch size of 0 raises (`range` with step 0); a negative one gives
   * no batches.
   */
  method InsertChunksBatch(chunks: seq<Chunk>, batchSize: int, accepts: PointCheck, upsert: seq<Point> -> bool)
    returns (r: Option<(nat, nat)>)
    ensures r.None? <==> batchSize == 0
    ensures batchSize < 0 ==> r == Some((0, 0))
    ensures batchSize > 0 ==> r == Some(Counters(chunks, batchSize, accepts, upsert))
  {
    if batchSize == 0 {
      return None;
    }
    if batchSize < 0 {
      return Some((0, 0));
    }
    var total := Counters(chunks, batchSize, accepts, upsert);
    var success: nat, errors: nat := 0, 0;
    var i := 0;
    while i < |chunks|
      invariant 0 <= i
      invariant success + Counters(chunks[Min(i, |chunks|)..], batchSize, accepts, upsert).0 == total.0
      invariant errors + Counters(chunks[Min(i, |chunks|)..], batchSize, accepts, upsert).1 == total.1
      decreases |chunks| - i
    {
      var j := Min(i + batchSize, |chunks|);
      var batch := chunks[i..j];
      var points, failed := PreparePoints(batch, accepts);
      CountersStep(chunks, i, j, batchSize, accepts, upsert);
      assert Min(i, |chunks|) == i;
      errors := errors + failed;
      if points != [] && upsert(points) {
        success := success + |points|;
      }
      i := i + batchSize;
      assert Min(i, |chunks|) == j;
    }
    assert chunks[Min(i, |chunks|)..] == [];
    return Some((success, errors));
  }

  /** The batch from `i` to `j` adds its counts to those of the batches after it. */
  lemma CountersStep(chunks: seq<Chunk>, i: nat, j: nat, size: int, accepts: PointCheck, upsert: seq<Point> -> bool)
    requires size > 0 && i < |chunks| && j == Min(i + size, |chunks|)
    ensures Counters(chunks[i..], size, accepts, upsert).0
            == Counters(chunks[j..], size, accepts, upsert).0 + Upserted(Points(chunks[i..j], accepts), upsert)
    ensures Counters(chunks[i..], size, accepts, upsert).1
            == Counters(chunks[j..], size, accepts, upsert).1 + (j - i) - |Points(chunks[i..j], accepts)|
  {
    var xs := chunks[i..];
    var n := Min(size, |xs|);
    assert xs[..n] == chunks[i..j];
    assert xs[n..] == chunks[j..];
  }

  /** The loop over one batch: the points prepared and the number of chunks that failed. */
  method PreparePoints(batch: seq<Chunk>, accepts: PointCheck) returns (points: seq<Point>, failed: nat)
    ensures points == Points(batch, accepts)
    ensures failed == |batch| - |points|
  {
    points := [];
    failed := 0;
    for j := 0 to |batch|
      invariant points == Points(batch[..j], accepts)
      invariant failed + |points| == j
    {
      assert batch[..j + 1][..j] == batch[..j];
      var p := Prepare(batch[j], accepts);
      if p.Some? {
        points := points + [p.value];
      } else {
        failed := failed + 1;
      }
    }
    assert batch[..|batch|] == batch;
  }

  lemma {:induction false} PointsAppend(a: seq<Chunk>, b: seq<Chunk>, accepts: PointCheck)
    ensures Points(a + b, accepts) == Points(a, accepts) + Points(b, accepts)
    decreases |b|
  {
    if b != [] {
      var b' := b[..|b| - 1];
      assert (a + b)[..|a + b| - 1] == a + b';
      assert (a + b)[|a + b| - 1] == b[|b| - 1];
      PointsAppend(a, b', accepts);
      var last := Prepare(b[|b| - 1], accepts);
      var tail := if last.Some? then [last.value] else [];
      calc {
        Points(a + b, accepts);
        Points(a + b', accepts) + tail;
        (Points(a, accepts) + Points(b', accepts)) + tail;
        Points(a, accepts) + (Points(b', accepts) + tail);
        Points(a, accepts) + Points(b, accepts);
      }
    } else {
      assert a + b == a;
    }
  }

  /**
   * The errors are the chunks that could not be prepared, however they
   * are batched and whatever the upserts do; with every upsert
   * succeeding, every chunk is counted once.
   */
  lemma {:induction false} CountersFacts(chunks: seq<Chunk>, size: int, accepts: PointCheck, upsert: seq<Point> -> bool)
    requires size > 0
    ensures Counters(chunks, size, accepts, upsert).1 == |chunks| - |Points(chunks, accepts)|
    ensures (forall ps :: upsert(ps)) ==> Counters(chunks, size, accepts, upsert).0 == |Points(chunks, accepts)|
    ensures (forall ps :: !upsert(ps)) ==> Counters(chunks, size, accepts, upsert).0 == 0
    decreases |chunks|
  {
    if chunks != [] {
      var n := Min(size, |chunks|);
      var batch := chunks[..n];
      var rest := chunks[n..];
      assert batch + rest == chunks;
      PointsAppend(batch, rest, accepts);
      CountersFacts(rest, size, accepts, upsert);
    }
  }

  /** Every prepared chunk is a success when every upsert succeeds, so successes and errors add up to the chunks. */
  lemma AllUpsertedCountsEveryChunk(chunks: seq<Chunk>, size: int, accepts: PointCheck, upsert: seq<Point> -> bool)
    requires size > 0 && forall ps :: upsert(ps)
    ensures Counters(chunks, size, accepts, upsert).0 + Counters(chunks, size, accepts, upsert).1 == |chunks|
  {
    CountersFacts(chunks, size, accepts, upsert);
  }

  // ---------------------------------------------------------------------
  // get_all_points
  // ---------------------------------------------------------------------

  /** A point of the `scroll` answer; `id` is already rendered with `str`. */
  datatype ScrolledPoint = ScrolledPoint(id: string, payload: Option<Payload>)

  /** The `{'ids', 'documents', 'metadatas'}` answer. */
  datatype AllPoints = AllPoints(ids: seq<string>, documents: seq<Value>, metadatas: seq<Payload>)

  predicate NotTextKey(entry: (string, Value)) {
    entry.0 != "text" && entry.0 != "_node_content"
  }

  /** The metadata of a payload: every entry except `text` and `_node_content`. */
  function StripText(payload: Payload): Payload {
    if payload == [] then []
    else (if NotTextKey(payload[0]) then [payload[0]] else []) + StripText(payload[1..])
  }

  /** The stripped metadata keeps the other entries, in order, and has neither text key. */
  lemma {:induction false} StripTextDrops(payload: Payload)
    ensures forall e :: e in StripText(payload) <==> e in payload && NotTextKey(e)
    ensures Lookup(StripText(payload), "text").None? && Lookup(StripText(payload), "_node_content").None?
  {
    if payload != [] {
      StripTextDrops(payload[1..]);
    }
  }

  /** The stripped metadata answers like the payload for every other key. */
  lemma {:induction false} StripTextKeeps(payload: Payload, k: string)
    requires k != "text" && k != "_node_content"
    ensures Lookup(StripText(payload), k) == Lookup(payload, k)
  {
    if payload != [] {
      StripTextKeeps(payload[1..], k);
      var r := StripText(payload);
      if NotTextKey(payload[0]) {
        assert r[0] == payload[0] && r[1..] == StripText(payload[1..]);
      } else {
        assert r == StripText(payload[1..]);
      }
    }
  }

  /** What one point contributes: its text and metadata when payloads are included and it has one, else "" and `{}`. */
  function PointEntry(p: ScrolledPoint, includePayload: bool, parse: JsonParser): (Value, Payload) {
    if includePayload && p.payload.Some? && p.payload.value != [] then
      (ExtractTextFromPayload(p.payload.value, parse), StripText(p.payload.value))
    else (Str(""), [])
  }

  /**
   * `get_all_points` over the answer of `scroll` (`None` when it raises):
   * three lists of equal length, one entry per point in order.
   */
  method GetAllPoints(scrolled: Option<seq<ScrolledPoint>>, includePayload: bool, parse: JsonParser) returns (r: AllPoints)
    ensures scrolled.None? ==> r == AllPoints([], [], [])
    ensures scrolled.Some? ==> |r.ids| == |r.documents| == |r.metadatas| == |scrolled.value|
    ensures scrolled.Some? ==> forall i :: 0 <= i < |scrolled.value| ==>
              r.ids[i] == scrolled.value[i].id
              && (r.documents[i], r.metadatas[i]) == PointEntry(scrolled.value[i], includePayload, parse)
  {
    if scrolled.None? {
      return AllPoints([], [], []);
    }
    var points := scrolled.value;
    var ids, documents, metadatas := [], [], [];
    for i := 0 to |points|
      invariant |ids| == |documents| == |metadatas| == i
      invariant forall j :: 0 <= j < i ==>
                  ids[j] == points[j].id && (documents[j], metadatas[j]) == PointEntry(points[j], includePayload, parse)
    {
      ids := ids + [points[i].id];
      if includePayload && points[i].payload.Some? && points[i].payload.value != [] {
        documents := documents + [ExtractTextFromPayload(points[i].payload.value, parse)];
        metadatas := metadatas + [StripText(points[i].payload.value)];
      } else {
        documents := documents + [Str("")];
        metadatas := metadatas + [[]];
      }
    }
    return AllPoints(ids, documents, metadatas);
  }

  /** No listed metadata carries the text, and each listed document is "" or a non-empty text. */
  lemma AllPointsEntries(p: ScrolledPoint, includePayload: bool, parse: JsonParser)
    ensures var (doc, meta) := PointEntry(p, includePayload, parse);
            Lookup(meta, "text").None? && Lookup(meta, "_node_content").None?
            && (doc == Str("") || Truthy(doc))
            && (!includePayload ==> doc == Str("") && meta == [])
  {
    if includePayload && p.payload.Some? && p.payload.value != [] {
      StripTextDrops(p.payload.value);
    }
  }
}
