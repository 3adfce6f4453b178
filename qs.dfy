/**
 * `qs(params)`: the query string of a request. Entries are taken in `Object.entries`
 * order; null, undefined and blank strings are dropped, arrays become one pair per
 * non-null item, other objects are sent as JSON text (RFC 8259), and every key and
 * value is percent-encoded (section 2.1 of RFC 3986).
 */
module Query {
  import opened Wrappers
  import opened Text
  import opened Js
  import opened Uri

  /** The (key, text) pairs one array contributes: its items that are not null or undefined. */
  function ItemValues(k: string, items: seq<Json>): seq<(string, string)>
    decreases |items|
  {
    if |items| == 0 then []
    else
      var last := items[|items| - 1];
      ItemValues(k, items[..|items| - 1]) + (if IsNullish(last) then [] else [(k, ToStr(last))])
  }

  /** The (key, text) pairs one entry contributes, before encoding. */
  function EntryValues(k: string, v: Json): seq<(string, string)> {
    if IsNullish(v) then []
    else if v.Str? && IsBlank(v.s) then []
    else if v.Arr? then ItemValues(k, v.elems)
    else if v.Obj? then [(k, Stringify(v))]
    else [(k, ToStr(v))]
  }

  /** The (key, text) pairs of all entries, in entry order. */
  function Values(entries: seq<(string, Json)>): seq<(string, string)>
    decreases |entries|
  {
    if |entries| == 0 then []
    else
      var last := entries[|entries| - 1];
      Values(entries[..|entries| - 1]) + EntryValues(last.0, last.1)
  }

  /** `${encodeURIComponent(k)}=${encodeURIComponent(s)}` */
  function Pair(kv: (string, string)): string {
    Encode(kv.0) + "=" + Encode(kv.1)
  }

  function Pairs(vs: seq<(string, string)>): (ps: seq<string>)
    ensures |ps| == |vs|
  {
    seq(|vs|, i requires 0 <= i < |vs| => Pair(vs[i]))
  }

  /** What `qs` returns: "" without params or pairs, else "?" and the pairs joined by "&". */
  function QueryString(params: Option<seq<(string, Json)>>): string {
    if params.None? then ""
    else
      var ps := Pairs(Values(params.value));
      if |ps| == 0 then "" else "?" + Join(ps, "&")
  }

  lemma PairsAppend(a: seq<(string, string)>, b: seq<(string, string)>)
    ensures Pairs(a + b) == Pairs(a) + Pairs(b)
  {
  }

  /** The inner loop of `qs`: one pair per array item that is not null or undefined. */
  method PushItems(parts: seq<string>, k: string, items: seq<Json>) returns (out: seq<string>)
    ensures out == parts + Pairs(ItemValues(k, items))
  {
    out := parts;
    var j := 0;
    while j < |items|
      invariant 0 <= j <= |items|
      invariant out == parts + Pairs(ItemValues(k, items[..j]))
    {
      var item := items[j];
      assert items[..j + 1][..j] == items[..j];
      if !IsNullish(item) {
        PairsAppend(ItemValues(k, items[..j]), [(k, ToStr(item))]);
        out := out + [Pair((k, ToStr(item)))];
      }
      j := j + 1;
    }
    assert items[..j] == items;
  }

  /** `qs(params)` */
  method Qs(params: Option<seq<(string, Json)>>) returns (r: string)
    ensures r == QueryString(params)
  {
    if params.None? {
      return "";
    }
    var entries := params.value;
    var parts: seq<string> := [];
    var i := 0;
    while i < |entries|
      invariant 0 <= i <= |entries|
      invariant parts == Pairs(Values(entries[..i]))
    {
      var k, v := entries[i].0, entries[i].1;
      ValuesPrefixStep(entries, i);
      PairsAppend(Values(entries[..i]), EntryValues(k, v));
      parts := PushEntry(parts, k, v);
      i := i + 1;
    }
    assert entries[..i] == entries;
    r := if |parts| > 0 then "?" + Join(parts, "&") else "";
  }

  /** The body of `qs`'s loop for one entry: skipped when empty, one pair per item of an array, else one pair. */
  method PushEntry(parts: seq<string>, k: string, v: Json) returns (out: seq<string>)
    ensures out == parts + Pairs(EntryValues(k, v))
  {
    if IsNullish(v) || (v.Str? && IsBlank(v.s)) {
      assert parts + Pairs([]) == parts;
      return parts;
    }
    if v.Arr? {
      out := PushItems(parts, k, v.elems);
    } else if v.Obj? {
      out := parts + [Pair((k, Stringify(v)))];
    } else {
      out := parts + [Pair((k, ToStr(v)))];
    }
  }

  /** One more entry of the prefix adds its own pairs at the end. */
  lemma ValuesPrefixStep(entries: seq<(string, Json)>, i: nat)
    requires i < |entries|
    ensures Values(entries[..i + 1]) == Values(entries[..i]) + EntryValues(entries[i].0, entries[i].1)
  {
    assert entries[..i + 1][..i] == entries[..i];
  }

  // ----- what the pairs are -----

  /** The items of an array that are not null or undefined, in order. */
  function Present(items: seq<Json>): (r: seq<Json>)
    ensures forall i :: 0 <= i < |r| ==> !IsNullish(r[i])
    decreases |items|
  {
    if |items| == 0 then []
    else
      var last := items[|items| - 1];
      Present(items[..|items| - 1]) + (if IsNullish(last) then [] else [last])
  }

  /** An array with N items that are not null yields exactly N pairs under its key, in array order. */
  lemma {:induction false} ItemValuesArePresentItems(k: string, items: seq<Json>)
    ensures ItemValues(k, items) == seq(|Present(items)|, i requires 0 <= i < |Present(items)| => (k, ToStr(Present(items)[i])))
    decreases |items|
  {
    if |items| > 0 {
      ItemValuesArePresentItems(k, items[..|items| - 1]);
    }
  }

  /** An empty array, or one of nulls only, yields nothing. */
  lemma NoPresentItemsNoPairs(k: string, items: seq<Json>)
    requires forall i :: 0 <= i < |items| ==> IsNullish(items[i])
    ensures ItemValues(k, items) == []
  {
    ItemValuesArePresentItems(k, items);
    PresentEmpty(items);
  }

  lemma {:induction false} PresentEmpty(items: seq<Json>)
    requires forall i :: 0 <= i < |items| ==> IsNullish(items[i])
    ensures Present(items) == []
    decreases |items|
  {
    if |items| > 0 {
      PresentEmpty(items[..|items| - 1]);
    }
  }

  /** One more entry adds exactly its own pairs at the end. */
  lemma ValuesSnoc(es: seq<(string, Json)>, e: (string, Json))
    ensures Values(es + [e]) == Values(es) + EntryValues(e.0, e.1)
  {
    assert (es + [e])[..|es|] == es;
  }

  /** ValuesSnoc, for a sequence already known to end in e. */
  lemma {:induction false} ValuesSnocOf(es: seq<(string, Json)>, ese: seq<(string, Json)>, e: (string, Json))
    requires ese == es + [e]
    ensures Values(ese) == Values(es) + EntryValues(e.0, e.1)
  {
    ValuesSnoc(es, e);
  }

  /** Splitting off the last element of b, in front of which a stands. */
  lemma AppendSnoc<T>(a: seq<T>, b: seq<T>)
    requires |b| > 0
    ensures b == b[..|b| - 1] + [b[|b| - 1]]
    ensures a + b == (a + b[..|b| - 1]) + [b[|b| - 1]]
  {
  }

  /** (a + b') + e == a + (b' + e), with every part named. */
  lemma Regroup<T>(whole: seq<T>, front: seq<T>, a: seq<T>, b': seq<T>, b: seq<T>, e: seq<T>)
    requires whole == front + e && front == a + b' && b == b' + e
    ensures whole == a + b
  {
  }

  /** Values distributes over the entries. */
  lemma {:induction false} ValuesAppend(a: seq<(string, Json)>, b: seq<(string, Json)>)
    ensures Values(a + b) == Values(a) + Values(b)
    decreases |b|
  {
    if |b| == 0 {
      assert a + b == a;
    } else {
      var b' := b[..|b| - 1];
      var e := b[|b| - 1];
      AppendSnoc(a, b);
      ValuesAppend(a, b');
      ValuesSnocOf(a + b', a + b, e);
      ValuesSnocOf(b', b, e);
      Regroup(Values(a + b), Values(a + b'), Values(a), Values(b'), Values(b), EntryValues(e.0, e.1));
    }
  }

  /** An entry that is null, undefined or blank contributes no pair; any other scalar exactly one. */
  lemma EntryValuesScalar(k: string, v: Json)
    ensures IsNullish(v) || (v.Str? && IsBlank(v.s)) ==> EntryValues(k, v) == []
    ensures v.Bool? || v.Num? || (v.Str? && !IsBlank(v.s)) ==> EntryValues(k, v) == [(k, ToStr(v))]
    ensures v.Obj? ==> EntryValues(k, v) == [(k, Stringify(v))]
  {
  }

  // ----- reading a query string back -----

  /** Split "k=v" at its '=' and decode both sides. */
  function ParsePair(p: string): Option<(string, string)> {
    var kv := Split(p, '=');
    if |kv| != 2 then None
    else match (Decode(kv[0]), Decode(kv[1]))
      case (Some(k), Some(v)) => Some((k, v))
      case _ => None
  }

  function ParsePairs(ps: seq<string>): Option<seq<(string, string)>>
    decreases |ps|
  {
    if |ps| == 0 then Some([])
    else match (ParsePair(ps[0]), ParsePairs(ps[1..]))
      case (Some(kv), Some(rest)) => Some([kv] + rest)
      case _ => None
  }

  /** Read a query string back into its decoded (key, text) pairs. */
  function ParseQuery(q: string): Option<seq<(string, string)>> {
    if q == "" then Some([])
    else if q[0] != '?' then None
    else ParsePairs(Split(q[1..], '&'))
  }

  lemma ParsePairOfPair(kv: (string, string))
    ensures ParsePair(Pair(kv)) == Some(kv)
  {
    EncodeHasNoDelimiters(kv.0);
    EncodeHasNoDelimiters(kv.1);
    var a, b := Encode(kv.0), Encode(kv.1);
    assert Pair(kv) == Join([a, b], "=");
    SplitJoin([a, b], '=');
    DecodeEncode(kv.0);
    DecodeEncode(kv.1);
  }

  lemma {:induction false} ParsePairsOfPairs(vs: seq<(string, string)>)
    ensures ParsePairs(Pairs(vs)) == Some(vs)
    decreases |vs|
  {
    if |vs| > 0 {
      ParsePairOfPair(vs[0]);
      assert Pairs(vs)[1..] == Pairs(vs[1..]);
      ParsePairsOfPairs(vs[1..]);
      assert [vs[0]] + vs[1..] == vs;
    }
  }

  /**
   * The query string loses nothing: reading it back gives every (key, text) pair that
   * the entries produce, in order; no pair is empty, so "" means there were none.
   */
  lemma QueryStringRoundTrip(entries: seq<(string, Json)>)
    ensures ParseQuery(QueryString(Some(entries))) == Some(Values(entries))
    ensures QueryString(Some(entries)) == "" <==> Values(entries) == []
  {
    var vs := Values(entries);
    var ps := Pairs(vs);
    if |ps| > 0 {
      forall i | 0 <= i < |ps|
        ensures '&' !in ps[i]
      {
        EncodeHasNoDelimiters(vs[i].0);
        EncodeHasNoDelimiters(vs[i].1);
      }
      SplitJoin(ps, '&');
      var q := QueryString(Some(entries));
      assert q[1..] == Join(ps, "&");
      ParsePairsOfPairs(vs);
    }
  }

  // ----- the examples -----

  /** `{a:1, b:undefined, c:null, d:"", e:"x"}` produces the pairs a=1 and e=x. */
  lemma DropsEmptyValues()
    ensures Values([("a", Num(1)), ("b", Undefined), ("c", Null), ("d", Str("")), ("e", Str("x"))])
      == [("a", "1"), ("e", "x")]
  {
    var e1, e2, e3, e4, e5 := ("a", Num(1)), ("b", Undefined), ("c", Null), ("d", Str("")), ("e", Str("x"));
    assert ToStr(Num(1)) == "1";
    assert !IsBlank("x") by {
      assert !IsJsWhitespace("x"[0]);
    }
    ValuesSnoc([], e1);
    assert [] + [e1] == [e1];
    ValuesSnoc([e1], e2);
    assert [e1] + [e2] == [e1, e2];
    ValuesSnoc([e1, e2], e3);
    assert [e1, e2] + [e3] == [e1, e2, e3];
    ValuesSnoc([e1, e2, e3], e4);
    assert [e1, e2, e3] + [e4] == [e1, e2, e3, e4];
    ValuesSnoc([e1, e2, e3, e4], e5);
    assert [e1, e2, e3, e4] + [e5] == [e1, e2, e3, e4, e5];
  }

  /** ... and so the query string "?a=1&e=x". */
  lemma DropsEmptyValuesQuery()
    ensures QueryString(Some([("a", Num(1)), ("b", Undefined), ("c", Null), ("d", Str("")), ("e", Str("x"))]))
      == "?" + "a=1" + "&" + "e=x"
  {
    DropsEmptyValues();
    EncodeUnreserved("a");
    EncodeUnreserved("1");
    EncodeUnreserved("e");
    EncodeUnreserved("x");
    var ps := Pairs([("a", "1"), ("e", "x")]);
    assert Pair(("a", "1")) == "a=1";
    assert Pair(("e", "x")) == "e=x";
    assert ps == ["a=1", "e=x"];
    assert Join(ps, "&") == "a=1" + "&" + "e=x";
  }

  /** `{a:["x","y"], f:{g:1}}` gives a=x, a=y, then f with its JSON text `{"g":1}`. */
  lemma ArraysAndObjects()
    ensures Values([("a", Arr([Str("x"), Str("y")])), ("f", Obj([("g", Num(1))]))])
      == [("a", "x"), ("a", "y"), ("f", "{\"g\":1}")]
  {
    var items := [Str("x"), Str("y")];
    assert items[..1][..0] == [];
    assert ItemValues("a", items) == [("a", "x"), ("a", "y")];
    var fs := [("g", Num(1))];
    assert Stringify(Obj(fs)) == "{\"g\":1}" by {
      assert EscapeString("g") == "g";
      assert Quote("g") == "\"g\"";
      assert Stringify(Num(1)) == "1";
      assert "\"g\"" + ":" + "1" == "\"g\":1";
      assert StringifyEntry(fs[0], Obj(fs)) == ["\"g\":1"];
      var parts := seq(|fs|, i requires 0 <= i < |fs| => StringifyEntry(fs[i], Obj(fs)));
      assert parts == [["\"g\":1"]];
      assert Flatten(parts) == ["\"g\":1"];
    }
  }

  /** Encode([c] + s) is the escape of c followed by Encode(s). */
  lemma EncodeCons(c: char, s: string, e: string, t: string)
    requires EncodeChar(c) == e && Encode(s) == t
    ensures Encode([c] + s) == e + t
  {
    assert ([c] + s)[1..] == s;
  }

  lemma EncodeJsonChars()
    ensures EncodeChar('{') == "%7B" && EncodeChar('}') == "%7D"
    ensures EncodeChar('"') == "%22" && EncodeChar(':') == "%3A"
    ensures EncodeChar('g') == "g" && EncodeChar('1') == "1"
  {
  }

  lemma EncodeJsonTail()
    ensures Encode([':', '1', '}']) == "%3A1%7D"
  {
    EncodeJsonChars();
    EncodeCons('}', [], "%7D", []);
    EncodeCons('1', ['}'], "1", "%7D");
    EncodeCons(':', ['1', '}'], "%3A", "1%7D");
  }

  lemma EncodeJsonMiddle()
    ensures Encode(['"', 'g', '"', ':', '1', '}']) == "%22g%22%3A1%7D"
  {
    EncodeJsonChars();
    EncodeJsonTail();
    EncodeCons('"', [':', '1', '}'], "%22", "%3A1%7D");
    EncodeCons('g', ['"', ':', '1', '}'], "g", "%22%3A1%7D");
    EncodeCons('"', ['g', '"', ':', '1', '}'], "%22", "g%22%3A1%7D");
  }

  lemma EncodeJsonText()
    ensures Encode("{\"g\":1}") == "%7B%22g%22%3A1%7D"
  {
    EncodeJsonChars();
    EncodeJsonMiddle();
    EncodeCons('{', ['"', 'g', '"', ':', '1', '}'], "%7B", "%22g%22%3A1%7D");
  }

  /** Under a key of unreserved characters, the JSON text `{"g":1}` is sent as key=%7B%22g%22%3A1%7D. */
  lemma ObjectPairEncoded(k: string)
    requires forall i :: 0 <= i < |k| ==> Unreserved(k[i])
    ensures Pair((k, "{\"g\":1}")) == k + "=" + "%7B%22g%22%3A1%7D"
  {
    EncodeJsonText();
    EncodeUnreserved(k);
  }
}
