/**
 * The structured logger of src/lib/logger.ts: `redact`, which masks the value of every
 * key whose lower-cased name contains a listed substring, through nested objects and
 * arrays, and the shape of a log entry. Writing the entry to the console is not modelled;
 * the timestamp is a parameter.
 */
module Logger {
  import opened Text
  import opened Js
  import opened Wrappers

  /** REDACT_KEYS */
  const RedactKeys: seq<string> :=
    ["authorization", "api_key", "apikey", "token", "access_token", "bearer", "secret", "client_secret", "basic"]

  const Redacted: string := "[REDACTED]"

  /** `REDACT_KEYS.some((rk) => k.toLowerCase().includes(rk))` */
  predicate Sensitive(k: string) {
    exists rk :: rk in RedactKeys && Contains(Lower(k), rk)
  }

  /** `typeof v === "object"`: null, arrays and objects. */
  predicate IsObjectType(v: Json) {
    v.Null? || v.Arr? || v.Obj?
  }

  /** What `out[k]` is set to for the entry (k, v). */
  function RedactValue(k: string, v: Json): Json
    decreases v, 3
  {
    if Sensitive(k) then Str(Redacted)
    else if IsObjectType(v) then Redact(v)
    else v
  }

  /**
   * The record `out` after the loop has visited `fields`: each entry is assigned in turn,
   * and assigning a key already present keeps its place.
   */
  function RedactFields(fields: seq<(string, Json)>, ghost parent: Json): seq<(string, Json)>
    requires forall i :: 0 <= i < |fields| ==> fields[i].1 < parent
    decreases parent, 1, |fields|
  {
    if |fields| == 0 then []
    else
      var last := fields[|fields| - 1];
      Put(RedactFields(fields[..|fields| - 1], parent), last.0, RedactValue(last.0, last.1))
  }

  /** redact */
  function Redact(v: Json): (r: Json)
    ensures !v.Arr? && !v.Obj? ==> r == v
    ensures v.Arr? <==> r.Arr?
    ensures v.Arr? ==> |r.elems| == |v.elems| && forall i :: 0 <= i < |v.elems| ==> r.elems[i] == Redact(v.elems[i])
    ensures v.Obj? <==> r.Obj?
    decreases v, 2
  {
    match v
    case Arr(elems) => Arr(seq(|elems|, i requires 0 <= i < |elems| => Redact(elems[i])))
    case Obj(fields) => Obj(RedactFields(fields, v))
    case _ => v
  }

  /** redact, as the source computes it: a map over arrays and a loop over object entries. */
  method RedactTree(v: Json) returns (r: Json)
    ensures r == Redact(v)
    decreases v
  {
    match v {
      case Arr(elems) =>
        r := Arr(seq(|elems|, i requires 0 <= i < |elems| => Redact(elems[i])));
      case Obj(fields) =>
        var out: seq<(string, Json)> := [];
        for n := 0 to |fields|
          invariant out == RedactFields(fields[..n], v)
        {
          var (k, x) := fields[n];
          var w: Json;
          if Sensitive(k) {
            w := Str(Redacted);
          } else if IsObjectType(x) {
            w := RedactTree(x);
          } else {
            w := x;
          }
          assert fields[..n + 1][..n] == fields[..n];
          out := Put(out, k, w);
        }
        assert fields[..|fields|] == fields;
        r := Obj(out);
      case _ =>
        r := v;
    }
  }

  // ----- properties -----

  /** The keys of a list of entries, in order. */
  function Keys(fields: seq<(string, Json)>): (ks: seq<string>)
    ensures |ks| == |fields|
    ensures forall i :: 0 <= i < |fields| ==> ks[i] == fields[i].0
  {
    seq(|fields|, i requires 0 <= i < |fields| => fields[i].0)
  }

  /** No key occurs twice, as in the entries of any JavaScript object. */
  predicate UniqueKeys(fields: seq<(string, Json)>) {
    forall i, j :: 0 <= i < j < |fields| ==> fields[i].0 != fields[j].0
  }

  /** Every object inside v has unique keys. */
  predicate WellFormed(v: Json) {
    match v
    case Arr(elems) => forall i :: 0 <= i < |elems| ==> WellFormed(elems[i])
    case Obj(fields) => UniqueKeys(fields) && forall i :: 0 <= i < |fields| ==> WellFormed(fields[i].1)
    case _ => true
  }

  lemma {:induction false} PutNewKey(fields: seq<(string, Json)>, k: string, v: Json)
    requires forall i :: 0 <= i < |fields| ==> fields[i].0 != k
    ensures Put(fields, k, v) == fields + [(k, v)]
    decreases |fields|
  {
    if |fields| > 0 {
      PutNewKey(fields[1..], k, v);
    }
  }

  /**
   * Over entries with unique keys, the loop keeps every key, in order, and sets each value
   * to its redaction: "[REDACTED]" under a listed key, the redacted value of an object,
   * array or null, and the value itself otherwise.
   */
  lemma {:induction false} RedactFieldsEntrywise(fields: seq<(string, Json)>, parent: Json)
    requires forall i :: 0 <= i < |fields| ==> fields[i].1 < parent
    requires UniqueKeys(fields)
    ensures |RedactFields(fields, parent)| == |fields|
    ensures forall i :: 0 <= i < |fields| ==>
      RedactFields(fields, parent)[i] == (fields[i].0, RedactValue(fields[i].0, fields[i].1))
    decreases |fields|
  {
    if |fields| > 0 {
      var init := fields[..|fields| - 1];
      var last := fields[|fields| - 1];
      RedactFieldsEntrywise(init, parent);
      var out := RedactFields(init, parent);
      forall i | 0 <= i < |out|
        ensures out[i].0 != last.0
      {
        assert out[i].0 == fields[i].0;
      }
      PutNewKey(out, last.0, RedactValue(last.0, last.1));
    }
  }

  /** Every key of an object is kept, in order, and only the values change. */
  lemma KeysKept(fields: seq<(string, Json)>)
    requires UniqueKeys(fields)
    ensures Redact(Obj(fields)).Obj?
    ensures Keys(Redact(Obj(fields)).fields) == Keys(fields)
  {
    RedactFieldsEntrywise(fields, Obj(fields));
  }

  /** A value under a listed key is masked, whatever it was. */
  lemma SensitiveMasked(fields: seq<(string, Json)>, i: int)
    requires UniqueKeys(fields) && 0 <= i < |fields|
    requires Sensitive(fields[i].0)
    ensures |Redact(Obj(fields)).fields| == |fields|
    ensures Redact(Obj(fields)).fields[i] == (fields[i].0, Str(Redacted))
  {
    RedactFieldsEntrywise(fields, Obj(fields));
  }

  /** A value that is not an object, array or null, under a key that is not listed, is copied. */
  lemma ScalarKept(fields: seq<(string, Json)>, i: int)
    requires UniqueKeys(fields) && 0 <= i < |fields|
    requires !Sensitive(fields[i].0) && !IsObjectType(fields[i].1)
    ensures |Redact(Obj(fields)).fields| == |fields|
    ensures Redact(Obj(fields)).fields[i] == fields[i]
  {
    RedactFieldsEntrywise(fields, Obj(fields));
  }

  /** Redaction keeps the keys of every object unique, and redacting twice is redacting once. */
  lemma {:induction false} RedactIdempotent(v: Json)
    requires WellFormed(v)
    ensures WellFormed(Redact(v))
    ensures Redact(Redact(v)) == Redact(v)
    decreases v
  {
    match v {
      case Arr(elems) =>
        var r := Redact(v);
        forall i | 0 <= i < |elems|
          ensures WellFormed(r.elems[i]) && Redact(r.elems[i]) == r.elems[i]
        {
          RedactIdempotent(elems[i]);
        }
        assert Redact(r).elems == r.elems;
      case Obj(fields) =>
        RedactFieldsEntrywise(fields, v);
        var out := RedactFields(fields, v);
        forall i | 0 <= i < |fields|
          ensures WellFormed(out[i].1) && RedactValue(out[i].0, out[i].1) == out[i].1
        {
          RedactIdempotent(fields[i].1);
        }
        assert UniqueKeys(out) by {
          forall i, j | 0 <= i < j < |out|
            ensures out[i].0 != out[j].0
          {
            assert out[i].0 == fields[i].0 && out[j].0 == fields[j].0;
          }
        }
        RedactFieldsEntrywise(out, Obj(out));
        assert RedactFields(out, Obj(out)) == out;
      case _ =>
    }
  }

  /** No key shorter than every listed substring is masked: a key named `key` is kept. */
  lemma {:induction false} ShortKeysKept(k: string)
    requires |k| < 5
    ensures !Sensitive(k)
  {
    if Sensitive(k) {
      var rk :| rk in RedactKeys && Contains(Lower(k), rk);
      ContainsLength(Lower(k), rk);
    }
  }

  /** `access_token` is masked: it contains "token". */
  lemma AccessTokenMasked()
    ensures Sensitive("access_token")
  {
    var k := "access_token";
    assert Lower(k) == k;
    assert k[7..] == "token";
    assert OccursAt(k, "token", 7);
    ContainsIff(k, "token");
    assert "token" in RedactKeys;
  }

  /** A listed substring anywhere in the key, in any letter case, masks it. */
  lemma {:induction false} ListedSubstringMasks(prefix: string, rk: string, suffix: string)
    requires rk in RedactKeys
    requires Lower(prefix + rk + suffix) == Lower(prefix) + rk + Lower(suffix)
    ensures Sensitive(prefix + rk + suffix)
  {
    var s := Lower(prefix + rk + suffix);
    assert s[|prefix|..|prefix| + |rk|] == rk;
    assert OccursAt(s, rk, |prefix|);
    ContainsIff(s, rk);
  }

  // ----- log -----

  datatype Level = Debug | Info | Warn | Error

  function LevelName(level: Level): string {
    match level
    case Debug => "debug"
    case Info => "info"
    case Warn => "warn"
    case Error => "error"
  }

  /**
   * The entry `log` writes: ts, level and msg, then `meta`, redacted, only when metadata
   * was passed.
   */
  function Entry(ts: string, level: Level, msg: string, meta: Option<Json>): (e: Json)
    ensures e.Obj?
    ensures Keys(e.fields) == if meta.Some? then ["ts", "level", "msg", "meta"] else ["ts", "level", "msg"]
    ensures meta.Some? ==> e.fields[3].1 == Redact(meta.value)
  {
    var base := [("ts", Str(ts)), ("level", Str(LevelName(level))), ("msg", Str(msg))];
    if meta.Some? then Obj(base + [("meta", Redact(meta.value))]) else Obj(base)
  }
}
