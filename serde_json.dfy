/**
 * JSON documents as serde_json holds them (`serde_json::Value`), and the parts of
 * serde's derived decoding that the tool layer depends on: how a struct field is
 * looked up in an object, and which keys a struct ignores.
 *
 * Numbers are integers here: the tool layer never inspects a number, it only moves
 * values around or compares their shapes.
 */
module SerdeJson {

  datatype Option<+T> = None | Some(value: T)

  datatype Value =
    | Null
    | Bool(b: bool)
    | Number(n: int)
    | String(s: string)
    | Array(items: seq<Value>)
    | Object(fields: map<string, Value>)

  /** The entries of an object whose keys a struct declares; serde skips every other key. */
  function Known(m: map<string, Value>, keys: set<string>): (r: map<string, Value>)
    ensures r.Keys == m.Keys * keys
    ensures forall k :: k in r ==> r[k] == m[k]
  {
    map k | k in m && k in keys :: m[k]
  }

  /**
   * A struct field that may be written under its own name or under one alias. serde
   * reports a missing field when neither key is present and a duplicate field when
   * both are (an object cannot hold one key twice, so these are the only failures).
   */
  function AliasedField(m: map<string, Value>, name: string, alias: string): (r: Option<Value>)
    requires name != alias
    ensures r.Some? <==> (name in m) != (alias in m)
    ensures name in m && r.Some? ==> r.value == m[name]
    ensures alias in m && r.Some? ==> r.value == m[alias]
  {
    if name in m && alias in m then None
    else if name in m then Some(m[name])
    else if alias in m then Some(m[alias])
    else None
  }

  /** An object with exactly one key is the one-entry map display of that key. */
  lemma SingleKeyObject(m: map<string, Value>, k: string)
    requires |m| == 1 && k in m
    ensures m == map[k := m[k]]
  {
    forall j | j in m ensures j == k {
      if j != k {
        assert {j, k} <= m.Keys;
        assert |{j, k}| == 2;
        SubsetCardinality({j, k}, m.Keys);
      }
    }
    assert m.Keys == {k};
  }

  lemma SubsetCardinality(a: set<string>, b: set<string>)
    requires a <= b
    ensures |a| <= |b|
  {
    assert b == a + (b - a);
  }
}
