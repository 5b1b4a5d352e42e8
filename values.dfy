/** Option and Result, the failure-compatible wrappers the model's operations return. */
module Wrappers {

  datatype Option<+T> = None | Some(value: T)

  /** Ok carries a value; Err carries the error the source would report or raise. */
  datatype Result<+T, +E> = Ok(value: T) | Err(error: E) {

    predicate IsFailure() {
      Err?
    }

    function PropagateFailure<U>(): Result<U, E>
      requires Err?
    {
      Err(error)
    }

    function Extract(): T
      requires Ok?
    {
      value
    }
  }
}

/**
 * The Python values the helper handles: what a YAML filter description or a
 * DynamoDB scan result is made of once loaded.
 *
 * A Python dict is a sequence of key/value pairs, so that the number of keys
 * and the order in which `dict.keys()` lists them are explicit. Bool and Null
 * stand for every value that is neither a string, an int, a list nor a dict:
 * the helper treats all of those alike.
 */
module Values {

  import opened Wrappers

  datatype Value =
    | Str(s: string)
    | Int(n: int)
    | Bool(b: bool)
    | Null
    | List(items: seq<Value>)
    | Dict(entries: seq<(string, Value)>)

  /** `key in d` for a dict given by its entries. */
  predicate HasKey(entries: seq<(string, Value)>, key: string) {
    exists i :: 0 <= i < |entries| && entries[i].0 == key
  }

  /** `d[key]`: the value of the first entry with that key, if there is one. */
  function Get(entries: seq<(string, Value)>, key: string): (r: Option<Value>)
    ensures r.Some? <==> HasKey(entries, key)
    ensures r.Some? ==> exists i :: 0 <= i < |entries| && entries[i] == (key, r.value)
                                    && forall j :: 0 <= j < i ==> entries[j].0 != key
  {
    if entries == [] then None
    else if entries[0].0 == key then Some(entries[0].1)
    else
      var r := Get(entries[1..], key);
      assert HasKey(entries, key) ==> entries[0].0 == key || HasKey(entries[1..], key) by {
        if HasKey(entries, key) {
          var i :| 0 <= i < |entries| && entries[i].0 == key;
          if i > 0 { assert entries[1..][i - 1].0 == key; }
        }
      }
      assert r.Some? ==> HasKey(entries, key) by {
        if r.Some? {
          var i :| 0 <= i < |entries[1..]| && entries[1..][i] == (key, r.value)
                   && forall j :: 0 <= j < i ==> entries[1..][j].0 != key;
          assert entries[i + 1] == (key, r.value);
          forall j | 0 <= j < i + 1 ensures entries[j].0 != key {
            if j > 0 { assert entries[j] == entries[1..][j - 1]; }
          }
        }
      }
      r
  }

  /** The keys of a dict, in iteration order. */
  function Keys(entries: seq<(string, Value)>): (ks: seq<string>)
    ensures |ks| == |entries|
    ensures forall i :: 0 <= i < |entries| ==> ks[i] == entries[i].0
  {
    seq(|entries|, i requires 0 <= i < |entries| => entries[i].0)
  }

  /** Adding an entry at the end (`d[k] = v` for a new key) leaves every other key's value alone. */
  lemma {:induction false} GetAppend(entries: seq<(string, Value)>, k: string, v: Value, key: string)
    requires !HasKey(entries, k)
    ensures Get(entries + [(k, v)], key) == if key == k then Some(v) else Get(entries, key)
  {
    if entries == [] {
    } else {
      assert (entries + [(k, v)])[1..] == entries[1..] + [(k, v)];
      if entries[0].0 != key {
        GetAppend(entries[1..], k, v, key);
      } else {
        assert entries[0].0 != k;
      }
    }
  }
}
