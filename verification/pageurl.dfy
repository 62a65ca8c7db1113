/**
 * `AvitoParse.get_next_page_url`: the query string of the listing URL is
 * read with `parse_qs`, its `p` parameter (the page number, 1 when absent)
 * is replaced by the next page number, and the query is written back with
 * `urlencode(..., doseq=True)`. Every other component is kept.
 *
 * Percent-encoding is not modelled: a query is the list of its decoded
 * `name=value` pairs, in order, as `parse_qsl` yields them and as
 * `urlencode` consumes them.
 */
module PageUrl {
  import opened Wrappers
  import opened PyStr
  import Seqs

  /** The six components `urlparse` returns, with the query as its decoded pairs. */
  datatype Url = Url(
    scheme: string,
    netloc: string,
    path: string,
    params: string,
    query: seq<(string, string)>,
    fragment: string)

  /** The dict `parse_qs` builds: each name once, in order of first appearance, with its values. */
  type Query = seq<(string, seq<string>)>

  const PageKey: string := "p"

  function IndexOf(d: Query, key: string): (r: Option<nat>)
    ensures r.Some? ==> r.value < |d| && d[r.value].0 == key
    ensures r.Some? ==> forall j :: 0 <= j < r.value ==> d[j].0 != key
    ensures r.None? ==> forall j :: 0 <= j < |d| ==> d[j].0 != key
  {
    if d == [] then None
    else if d[0].0 == key then Some(0)
    else match IndexOf(d[1..], key)
      case None => None
      case Some(i) => Some(i + 1)
  }

  /** `d.get(key)` */
  function Lookup(d: Query, key: string): Option<seq<string>> {
    match IndexOf(d, key)
    case None => None
    case Some(i) => Some(d[i].1)
  }

  /** What `parse_qs` builds: distinct names, each with at least one value, and no empty value. */
  predicate WellFormed(d: Query) {
    && (forall i, j :: 0 <= i < j < |d| ==> d[i].0 != d[j].0)
    && (forall i :: 0 <= i < |d| ==> d[i].1 != [] && NonBlank(d[i].1))
  }

  predicate NonBlank(values: seq<string>) {
    forall k :: 0 <= k < |values| ==> values[k] != []
  }

  /** In a well-formed query, the entry holding a name is the one `IndexOf` finds. */
  lemma IndexOfWellFormed(d: Query, i: nat, key: string)
    requires WellFormed(d) && i < |d| && d[i].0 == key
    ensures IndexOf(d, key) == Some(i)
  {
  }

  lemma WellFormedExtend(d: Query, i: nat, key: string, more: seq<string>)
    requires WellFormed(d) && i < |d| && d[i].0 == key && NonBlank(more)
    ensures WellFormed(d[i := (key, d[i].1 + more)])
  {
    var r := d[i := (key, d[i].1 + more)];
    forall j | 0 <= j < |r| ensures r[j].1 != [] && NonBlank(r[j].1) {
      if j == i {
        assert NonBlank(d[i].1);
      }
    }
  }

  lemma WellFormedAppend(d: Query, e: (string, seq<string>))
    requires WellFormed(d) && e.1 != [] && NonBlank(e.1)
    requires forall j :: 0 <= j < |d| ==> d[j].0 != e.0
    ensures WellFormed(d + [e])
  {
  }

  /** One pair read by `parse_qs`: a pair with an empty value is dropped (`keep_blank_values` is off). */
  function AddValue(d: Query, key: string, value: string): Query {
    if value == [] then d
    else match IndexOf(d, key)
      case Some(i) => d[i := (key, d[i].1 + [value])]
      case None => d + [(key, [value])]
  }

  /** Reading a pair keeps the dict well-formed. */
  lemma AddValueWellFormed(d: Query, key: string, value: string)
    requires WellFormed(d)
    ensures WellFormed(AddValue(d, key, value))
  {
    if value != [] {
      match IndexOf(d, key)
      case Some(i) =>
        WellFormedExtend(d, i, key, [value]);
      case None =>
        WellFormedAppend(d, (key, [value]));
    }
  }

  function ParseQsFrom(pairs: seq<(string, string)>, acc: Query): Query
    decreases |pairs|
  {
    if pairs == [] then acc
    else ParseQsFrom(pairs[1..], AddValue(acc, pairs[0].0, pairs[0].1))
  }

  lemma {:induction false} ParseQsFromWellFormed(pairs: seq<(string, string)>, acc: Query)
    requires WellFormed(acc)
    ensures WellFormed(ParseQsFrom(pairs, acc))
    decreases |pairs|
  {
    if pairs != [] {
      AddValueWellFormed(acc, pairs[0].0, pairs[0].1);
      ParseQsFromWellFormed(pairs[1..], AddValue(acc, pairs[0].0, pairs[0].1));
    }
  }

  /** `parse_qs(query)` */
  function ParseQs(pairs: seq<(string, string)>): (r: Query)
    ensures WellFormed(r)
  {
    ParseQsFromWellFormed(pairs, []);
    ParseQsFrom(pairs, [])
  }

  /** `query_params[key] = value` */
  function SetValue(d: Query, key: string, value: string): (r: Query)
    ensures Lookup(r, key) == Some([value])
    ensures forall k :: k != key ==> Lookup(r, k) == Lookup(d, k)
    ensures |r| == |d| || |r| == |d| + 1
  {
    match IndexOf(d, key)
    case Some(i) =>
      var r := d[i := (key, [value])];
      assert IndexOf(r, key) == Some(i) by { IndexOfUpdate(d, i, key, [value], key); }
      forall k | k != key ensures Lookup(r, k) == Lookup(d, k) {
        IndexOfUpdate(d, i, key, [value], k);
      }
      r
    case None =>
      var r := d + [(key, [value])];
      forall k ensures IndexOf(r, k) == (if k == key then Some(|d|) else IndexOf(d, k)) {
        IndexOfAppend(d, (key, [value]), k);
      }
      r
  }

  lemma {:induction false} IndexOfUpdate(d: Query, i: nat, key: string, vs: seq<string>, k: string)
    requires i < |d| && d[i].0 == key
    ensures IndexOf(d[i := (key, vs)], k) == IndexOf(d, k)
    decreases |d|
  {
    if d != [] && d[0].0 != k && i > 0 {
      assert d[i := (key, vs)][1..] == d[1..][i - 1 := (key, vs)];
      IndexOfUpdate(d[1..], i - 1, key, vs, k);
    }
  }

  lemma {:induction false} IndexOfAppend(d: Query, e: (string, seq<string>), k: string)
    ensures IndexOf(d + [e], k) == match IndexOf(d, k)
      case Some(i) => Some(i)
      case None => if e.0 == k then Some(|d|) else None
    decreases |d|
  {
    if d != [] && d[0].0 != k {
      assert (d + [e])[1..] == d[1..] + [e];
      IndexOfAppend(d[1..], e, k);
    }
  }

  /** `urlencode(d, doseq=True)`: every value of a name becomes one `name=value` pair. */
  function Encode(d: Query): (r: seq<(string, string)>)
    decreases |d|
  {
    if d == [] then [] else Pairs(d[0].0, d[0].1) + Encode(d[1..])
  }

  function Pairs(key: string, values: seq<string>): (r: seq<(string, string)>)
    ensures |r| == |values|
    ensures forall k :: 0 <= k < |values| ==> r[k] == (key, values[k])
  {
    seq(|values|, k requires 0 <= k < |values| => (key, values[k]))
  }

  // ---------------------------------------------------------------------
  // parse_qs(urlencode(d)) == d
  // ---------------------------------------------------------------------

  /** Reading more values of a name already present appends them to its list. */
  lemma {:induction false} ParseSameKey(acc: Query, i: nat, key: string, values: seq<string>, rest: seq<(string, string)>)
    requires WellFormed(acc) && i < |acc| && acc[i].0 == key
    requires NonBlank(values)
    ensures WellFormed(acc[i := (key, acc[i].1 + values)])
    ensures ParseQsFrom(Pairs(key, values) + rest, acc) == ParseQsFrom(rest, acc[i := (key, acc[i].1 + values)])
    decreases |values|
  {
    WellFormedExtend(acc, i, key, values);
    if values == [] {
      assert Pairs(key, values) + rest == rest;
      assert acc[i := (key, acc[i].1 + values)] == acc by { assert acc[i].1 + values == acc[i].1; }
    } else {
      var tail := Pairs(key, values[1..]) + rest;
      assert Pairs(key, values) + rest == [(key, values[0])] + tail;
      ParseOneSame(acc, i, key, values[0], tail);
      var acc' := acc[i := (key, acc[i].1 + [values[0]])];
      assert NonBlank(values[1..]);
      ParseSameKey(acc', i, key, values[1..], rest);
      Seqs.AppendHead(acc[i].1, values);
      assert acc'[i].1 + values[1..] == acc[i].1 + values;
      Seqs.UpdateTwice(acc, i, (key, acc[i].1 + [values[0]]), (key, acc[i].1 + values));
    }
  }

  /** Reading one more value of a name already present appends it to its list. */
  lemma ParseOneSame(acc: Query, i: nat, key: string, value: string, rest: seq<(string, string)>)
    requires WellFormed(acc) && i < |acc| && acc[i].0 == key && value != []
    ensures WellFormed(acc[i := (key, acc[i].1 + [value])])
    ensures ParseQsFrom([(key, value)] + rest, acc) == ParseQsFrom(rest, acc[i := (key, acc[i].1 + [value])])
  {
    WellFormedExtend(acc, i, key, [value]);
    IndexOfWellFormed(acc, i, key);
    var input := [(key, value)] + rest;
    assert input[0] == (key, value) && input[1..] == rest;
  }

  /** Reading the values of a name not seen before adds its entry at the end. */
  lemma ParseNewKey(acc: Query, e: (string, seq<string>), rest: seq<(string, string)>)
    requires WellFormed(acc) && e.1 != [] && NonBlank(e.1)
    requires forall j :: 0 <= j < |acc| ==> acc[j].0 != e.0
    ensures WellFormed(acc + [e])
    ensures ParseQsFrom(Pairs(e.0, e.1) + rest, acc) == ParseQsFrom(rest, acc + [e])
  {
    var (key, values) := e;
    var input := Pairs(key, values) + rest;
    assert input[0] == (key, values[0]);
    assert input[1..] == Pairs(key, values[1..]) + rest;
    assert IndexOf(acc, key).None?;
    var acc1 := acc + [(key, [values[0]])];
    assert AddValue(acc, key, values[0]) == acc1;
    WellFormedAppend(acc, (key, [values[0]]));
    assert NonBlank(values[1..]);
    ParseSameKey(acc1, |acc|, key, values[1..], rest);
    assert acc1[|acc| := (key, acc1[|acc|].1 + values[1..])] == acc + [e] by {
      assert [values[0]] + values[1..] == values;
    }
    WellFormedAppend(acc, e);
  }

  lemma {:induction false} ParseEncodeFrom(acc: Query, d: Query)
    requires WellFormed(acc) && WellFormed(d)
    requires Disjoint(acc, d)
    ensures ParseQsFrom(Encode(d), acc) == acc + d
    decreases |d|
  {
    if d == [] {
      assert acc + d == acc;
    } else {
      EncodeFirst(acc, d);
      ParseEncodeFrom(acc + [d[0]], d[1..]);
      Seqs.AppendHead(acc, d);
    }
  }

  /** Reading the pairs of the first entry of `d` moves that entry to the end of `acc`. */
  lemma EncodeFirst(acc: Query, d: Query)
    requires WellFormed(acc) && WellFormed(d) && d != []
    requires Disjoint(acc, d)
    ensures WellFormed(acc + [d[0]]) && WellFormed(d[1..]) && Disjoint(acc + [d[0]], d[1..])
    ensures ParseQsFrom(Encode(d), acc) == ParseQsFrom(Encode(d[1..]), acc + [d[0]])
  {
    assert Encode(d) == Pairs(d[0].0, d[0].1) + Encode(d[1..]);
    assert forall j :: 0 <= j < |acc| ==> acc[j].0 != d[0].0;
    ParseNewKey(acc, d[0], Encode(d[1..]));
    WellFormedTail(d);
    DisjointShift(acc, d);
  }

  /** No name of `acc` appears in `d`. */
  predicate Disjoint(acc: Query, d: Query) {
    forall i, j :: 0 <= i < |acc| && 0 <= j < |d| ==> acc[i].0 != d[j].0
  }

  lemma DisjointShift(acc: Query, d: Query)
    requires WellFormed(d) && d != [] && Disjoint(acc, d)
    ensures Disjoint(acc + [d[0]], d[1..])
  {
    var acc2 := acc + [d[0]];
    forall i, j | 0 <= i < |acc2| && 0 <= j < |d[1..]| ensures acc2[i].0 != d[1..][j].0 {
      assert d[1..][j] == d[j + 1];
    }
  }

  lemma WellFormedTail(d: Query)
    requires WellFormed(d) && d != []
    ensures WellFormed(d[1..])
  {
    var t := d[1..];
    forall i | 0 <= i < |t| ensures t[i].1 != [] && NonBlank(t[i].1) {
      assert t[i] == d[i + 1];
    }
  }

  /** Writing a well-formed query with `urlencode` and reading it with `parse_qs` gives it back. */
  lemma ParseEncode(d: Query)
    requires WellFormed(d)
    ensures ParseQs(Encode(d)) == d
  {
    ParseEncodeFrom([], d);
    assert [] + d == d;
  }

  // ---------------------------------------------------------------------
  // get_next_page_url
  // ---------------------------------------------------------------------

  /**
   * `int(query_params.get('p', [1])[0])`: 1 when the page parameter is
   * absent; `None` when its first value is not an integer.
   */
  function PageOf(url: Url): Option<int> {
    match Lookup(ParseQs(url.query), PageKey)
    case None => Some(1)
    case Some(values) => if values == [] then None else ParseInt(values[0])
  }

  /**
   * `get_next_page_url(url)`: the URL of the following page, or `None`
   * (the error is logged) when the current page number is not an integer.
   */
  function NextPageUrl(url: Url): (r: Option<Url>)
    ensures r.None? <==> PageOf(url).None?
    ensures r.Some? ==>
      && r.value.scheme == url.scheme && r.value.netloc == url.netloc && r.value.path == url.path
      && r.value.params == url.params && r.value.fragment == url.fragment
  {
    match PageOf(url)
    case None => None
    case Some(current) =>
      var d := SetValue(ParseQs(url.query), PageKey, IntToString(current + 1));
      Some(url.(query := Encode(d)))
  }

  /** Setting a non-empty value keeps a query well-formed. */
  lemma SetValueWellFormed(d: Query, key: string, value: string)
    requires WellFormed(d) && value != []
    ensures WellFormed(SetValue(d, key, value))
  {
    match IndexOf(d, key)
    case Some(i) =>
    case None =>
      var r := d + [(key, [value])];
      forall i, j | 0 <= i < j < |r| ensures r[i].0 != r[j].0 {
        if j == |d| {
          assert r[i] == d[i];
        }
      }
  }

  /** The next page's URL carries the page number one higher than this one's. */
  lemma NextPageAdvances(url: Url)
    requires PageOf(url).Some?
    ensures PageOf(NextPageUrl(url).value) == Some(PageOf(url).value + 1)
  {
    var current := PageOf(url).value;
    var s := IntToString(current + 1);
    var d := SetValue(ParseQs(url.query), PageKey, s);
    assert s != [] by {
      if current + 1 < 0 {
        assert s == ['-'] + NatToString(-(current + 1));
      }
    }
    SetValueWellFormed(ParseQs(url.query), PageKey, s);
    ParseEncode(d);
    IntRoundTrip(current + 1);
  }

  /** Every other non-empty query parameter survives the rewrite with all its values. */
  lemma NextPageKeepsParameters(url: Url, key: string)
    requires PageOf(url).Some? && key != PageKey
    ensures Lookup(ParseQs(NextPageUrl(url).value.query), key) == Lookup(ParseQs(url.query), key)
  {
    var current := PageOf(url).value;
    var s := IntToString(current + 1);
    var d := SetValue(ParseQs(url.query), PageKey, s);
    assert s != [] by {
      if current + 1 < 0 {
        assert s == ['-'] + NatToString(-(current + 1));
      }
    }
    SetValueWellFormed(ParseQs(url.query), PageKey, s);
    ParseEncode(d);
  }

  /** A URL without a page parameter is page 1, so the next one is page 2. */
  lemma FirstPageIsOne(url: Url)
    requires forall k :: 0 <= k < |url.query| ==> url.query[k].0 != PageKey
    ensures PageOf(url) == Some(1)
    ensures PageOf(NextPageUrl(url).value) == Some(2)
  {
    NoKeyNoEntry(url.query, [], PageKey);
    NextPageAdvances(url);
  }

  lemma {:induction false} NoKeyNoEntry(pairs: seq<(string, string)>, acc: Query, key: string)
    requires IndexOf(acc, key).None?
    requires forall k :: 0 <= k < |pairs| ==> pairs[k].0 != key
    ensures IndexOf(ParseQsFrom(pairs, acc), key).None?
    decreases |pairs|
  {
    if pairs != [] {
      var acc' := AddValue(acc, pairs[0].0, pairs[0].1);
      if pairs[0].1 != [] {
        match IndexOf(acc, pairs[0].0)
        case Some(i) => IndexOfUpdate(acc, i, pairs[0].0, acc[i].1 + [pairs[0].1], key);
        case None => IndexOfAppend(acc, (pairs[0].0, [pairs[0].1]), key);
      }
      NoKeyNoEntry(pairs[1..], acc', key);
    }
  }
}
