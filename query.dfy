/**
 * The query part of a request URL as the server reads it (`URL.Query()`): `&`-separated
 * `key=value` pairs collected into a map from key to the values in order of appearance.
 * Percent-escapes, `+` and `;` are not decoded: such a query has no value here.
 */
module Query {
  import opened Wrappers

  type Values = map<string, seq<string>>

  /** No character whose decoding the model leaves out. */
  predicate Plain(s: string) {
    forall i :: 0 <= i < |s| ==> s[i] != '%' && s[i] != '+' && s[i] != ';'
  }

  predicate Free(s: string, c: char) {
    forall i :: 0 <= i < |s| ==> s[i] != c
  }

  /** No space, control character or DEL, none of which a request line carries unescaped. */
  predicate Printable(s: string) {
    forall i :: 0 <= i < |s| ==> ' ' < s[i] && s[i] as int != 127
  }

  /**
   * A value the client can put into a query unchanged and the server reads back: nothing the
   * parser decodes, no `&` that would end the pair, no `#` that would start the fragment, and
   * nothing the URL itself cannot carry.
   */
  predicate QuerySafe(s: string) {
    Plain(s) && Free(s, '&') && Free(s, '#') && Printable(s)
  }

  /** The first position of `c` in `s`, or `|s|` when there is none. */
  function IndexOf(s: string, c: char): (k: nat)
    ensures k <= |s| && (k < |s| ==> s[k] == c)
    ensures forall i :: 0 <= i < k ==> s[i] != c
  {
    if s == [] then 0 else if s[0] == c then 0 else 1 + IndexOf(s[1..], c)
  }

  /** The values already collected under `key`, then `value`. */
  function Add(m: Values, key: string, value: string): Values {
    m[key := (if key in m then m[key] else []) + [value]]
  }

  /** `values` added under `key` one after another. */
  function AddAll(m: Values, key: string, values: seq<string>): Values
    decreases |values|
  {
    if values == [] then m else AddAll(Add(m, key, values[0]), key, values[1..])
  }

  /** Adding values one at a time appends them, in order, to those already under the key. */
  lemma {:induction false} AddAllAppends(m: Values, key: string, values: seq<string>)
    ensures values != [] ==>
              AddAll(m, key, values) == m[key := (if key in m then m[key] else []) + values]
    ensures values == [] ==> AddAll(m, key, values) == m
    decreases values
  {
    if values != [] {
      var m' := Add(m, key, values[0]);
      AddAllAppends(m', key, values[1..]);
      var before := if key in m then m[key] else [];
      assert AddAll(m, key, values) == AddAll(m', key, values[1..]);
      if values[1..] == [] {
        assert values == [values[0]];
      } else {
        assert m'[key] == before + [values[0]];
        assert before + [values[0]] + values[1..] == before + values;
      }
    }
  }

  /** One `&`-separated segment: skipped if empty, else split at its first `=` into key and value. */
  function AddSegment(m: Values, segment: string): (r: Values)
    ensures forall k :: k in m ==> k in r && m[k] <= r[k]
    ensures forall k :: k in r && k !in m ==> r[k] != []
  {
    if segment == [] then m
    else
      var j := IndexOf(segment, '=');
      Add(m, segment[..j], if j < |segment| then segment[j + 1..] else [])
  }

  /** Split off one segment at the first `&`, add it, and go on after the `&`. */
  function ParseInto(m: Values, s: string): Values
    decreases |s|
  {
    if s == [] then m
    else
      var i := IndexOf(s, '&');
      ParseInto(AddSegment(m, s[..i]), if i < |s| then s[i + 1..] else [])
  }

  /** Parsing only adds: every key already present keeps its values as a prefix of its new values. */
  lemma {:induction false} ParseIntoExtends(m: Values, s: string)
    ensures forall k :: k in m ==> k in ParseInto(m, s) && m[k] <= ParseInto(m, s)[k]
    decreases |s|
  {
    if s != [] {
      var i := IndexOf(s, '&');
      var m' := AddSegment(m, s[..i]);
      var rest := if i < |s| then s[i + 1..] else [];
      ParseIntoExtends(m', rest);
      forall k | k in m
        ensures k in ParseInto(m, s) && m[k] <= ParseInto(m, s)[k]
      {
        assert m[k] <= m'[k] <= ParseInto(m', rest)[k];
      }
    }
  }

  /** Parsing never leaves a key without a value when none starts out without one. */
  lemma {:induction false} ParseIntoNonEmpty(m: Values, s: string)
    requires forall k :: k in m ==> m[k] != []
    ensures forall k :: k in ParseInto(m, s) ==> ParseInto(m, s)[k] != []
    decreases |s|
  {
    if s != [] {
      var i := IndexOf(s, '&');
      var m' := AddSegment(m, s[..i]);
      forall k | k in m' ensures m'[k] != [] {
        if k in m {
          assert m[k] <= m'[k];
        }
      }
      ParseIntoNonEmpty(m', if i < |s| then s[i + 1..] else []);
    }
  }

  /** `URL.Query()`: a query with an undecoded character has no value; otherwise every key has a value. */
  function ParseQuery(s: string): (r: Option<Values>)
    ensures r.Some? <==> Plain(s)
    ensures r.Some? ==> forall k :: k in r.value ==> r.value[k] != []
  {
    ParseIntoNonEmpty(map[], s);
    if Plain(s) then Some(ParseInto(map[], s)) else None
  }

  lemma {:induction false} IndexOfFirst(a: string, c: char, b: string)
    requires Free(a, c) && |b| > 0 && b[0] == c
    ensures IndexOf(a + b, c) == |a|
  {
    if a != [] {
      assert (a + b)[1..] == a[1..] + b;
      IndexOfFirst(a[1..], c, b);
    }
  }

  lemma IndexOfAbsent(a: string, c: char)
    requires Free(a, c)
    ensures IndexOf(a, c) == |a|
  {
  }

  /** A leading `key=value&` adds `value` under `key`, and parsing goes on after the `&`. */
  lemma ParsePair(m: Values, key: string, value: string, rest: string)
    requires key != [] && Free(key, '&') && Free(key, '=') && Free(value, '&')
    ensures ParseInto(m, key + "=" + value + "&" + rest) == ParseInto(Add(m, key, value), rest)
  {
    var s := key + "=" + value + "&" + rest;
    var segment := key + "=" + value;
    assert s == segment + ("&" + rest);
    IndexOfFirst(segment, '&', "&" + rest);
    assert s[..|segment|] == segment;
    assert s[|segment| + 1..] == rest;
    assert segment == key + ("=" + value);
    IndexOfFirst(key, '=', "=" + value);
    assert segment[..|key|] == key;
    assert segment[|key| + 1..] == value;
  }

  /** A final `key=value` with no `&` after it adds `value` under `key` and ends the query. */
  lemma ParseLastPair(m: Values, key: string, value: string)
    requires key != [] && Free(key, '&') && Free(key, '=') && Free(value, '&')
    ensures ParseInto(m, key + "=" + value) == Add(m, key, value)
  {
    var s := key + "=" + value;
    IndexOfAbsent(s, '&');
    assert s[..|s|] == s;
    assert s == key + ("=" + value);
    IndexOfFirst(key, '=', "=" + value);
    assert s[..|key|] == key;
    assert s[|key| + 1..] == value;
  }
}
