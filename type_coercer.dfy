/**
 * `check_type`: turning plain literals into the tagged form of DynamoDB's
 * AttributeValue. A string becomes {"S": s}, an int {"N": n}, a list is
 * coerced element by element and stays a bare list (no "L" wrapper), and
 * anything else, an already tagged dict included, passes through.
 */
module TypeCoercer {

  import opened Values

  /** No raw string or int is left at the top of `v` or along its list spine. */
  predicate Coerced(v: Value) {
    match v
    case Str(_) => false
    case Int(_) => false
    case List(items) => forall i :: 0 <= i < |items| ==> Coerced(items[i])
    case _ => true
  }

  /** The value `check_type` returns for `v`. */
  function Coerce(v: Value): (r: Value)
    ensures Coerced(r)
    ensures r.List? <==> v.List?
    ensures r.List? ==> |r.items| == |v.items|
  {
    match v
    case Str(_) => Dict([("S", v)])
    case Int(_) => Dict([("N", v)])
    case List(items) => List(seq(|items|, i requires 0 <= i < |items| => Coerce(items[i])))
    case _ => v
  }

  /** A string is tagged "S" and an int is tagged "N", the literal kept as the payload. */
  lemma CoerceScalars(s: string, n: int)
    ensures Coerce(Str(s)) == Dict([("S", Str(s))])
    ensures Coerce(Int(n)) == Dict([("N", Int(n))])
  {
  }

  /** A list keeps its length; element i becomes the coercion of element i, and no "L" tag is added. */
  lemma {:induction false} CoerceList(items: seq<Value>, i: int)
    requires 0 <= i < |items|
    ensures Coerce(List(items)).List?
    ensures Coerce(List(items)).items[i] == Coerce(items[i])
  {
  }

  /** Coercion changes a value exactly when a raw string or int is left on its list spine. */
  lemma {:induction false} CoerceFixpoint(v: Value)
    ensures Coerce(v) == v <==> Coerced(v)
  {
    match v
    case List(items) =>
      var r := Coerce(v);
      if Coerced(v) {
        forall i | 0 <= i < |items| ensures r.items[i] == items[i] {
          CoerceFixpoint(items[i]);
        }
        assert r.items == items;
      }
    case _ =>
  }

  /** Coercing a second time changes nothing; in particular a tagged scalar is left as it is. */
  lemma {:induction false} CoerceIdempotent(v: Value)
    ensures Coerce(Coerce(v)) == Coerce(v)
  {
    CoerceFixpoint(Coerce(v));
  }
}
