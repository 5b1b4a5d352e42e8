/**
 * `simplify`: stripping the DynamoDB type tags from a scan result by
 * unwrapping every mapping that has exactly one key. Dict keys are taken in
 * the order `dict.keys()` lists them, as a list (Python 2).
 */
module ResultSimplifier {

  import opened Values

  /** No mapping with exactly one key anywhere in `v`, through lists and mapping values. */
  predicate NoSingleKeyDict(v: Value) {
    match v
    case List(items) => forall i :: 0 <= i < |items| ==> NoSingleKeyDict(items[i])
    case Dict(entries) =>
      && |entries| != 1
      && forall i :: 0 <= i < |entries| ==> NoSingleKeyDict(entries[i].1)
    case _ => true
  }

  /** The value `simplify` returns for `v`. */
  function Strip(v: Value): (r: Value)
    ensures NoSingleKeyDict(r)
    ensures v.List? ==> r.List? && |r.items| == |v.items|
    ensures v.Dict? && |v.entries| != 1 ==> r.Dict? && Keys(r.entries) == Keys(v.entries)
    decreases v
  {
    match v
    case List(items) =>
      List(seq(|items|, i requires 0 <= i < |items| =>
        if items[i].Dict? || items[i].List? then Strip(items[i]) else items[i]))
    case Dict(entries) =>
      if |entries| == 1 then
        assert entries[0].1 < entries[0];
        Strip(entries[0].1)
      else
        Dict(seq(|entries|, i requires 0 <= i < |entries| =>
          assert entries[i].1 < entries[i];
          (entries[i].0, Strip(entries[i].1))))
    case _ => v
  }

  /** Simplifying changes a value exactly when a one-key mapping is left somewhere in it. */
  lemma {:induction false} StripFixpoint(v: Value)
    ensures Strip(v) == v <==> NoSingleKeyDict(v)
    decreases v
  {
    match v
    case List(items) =>
      if NoSingleKeyDict(v) {
        forall i | 0 <= i < |items| ensures Strip(v).items[i] == items[i] {
          if items[i].Dict? || items[i].List? { StripFixpoint(items[i]); }
        }
        assert Strip(v).items == items;
      }
    case Dict(entries) =>
      if NoSingleKeyDict(v) {
        forall i | 0 <= i < |entries| ensures Strip(v).entries[i] == entries[i] {
          assert entries[i].1 < entries[i];
          StripFixpoint(entries[i].1);
        }
        assert Strip(v).entries == entries;
      }
    case _ =>
  }

  /** Simplifying a simplified value changes nothing. */
  lemma StripIdempotent(v: Value)
    ensures Strip(Strip(v)) == Strip(v)
  {
    StripFixpoint(Strip(v));
  }

  /** A list of records keeps one element per record; each record with several attributes keeps its attribute names. */
  lemma {:induction false} StripRecordsKeepsShape(records: seq<Value>, i: int)
    requires 0 <= i < |records|
    requires records[i].Dict? && |records[i].entries| != 1
    ensures Strip(List(records)).List? && |Strip(List(records)).items| == |records|
    ensures Strip(List(records)).items[i].Dict?
    ensures Keys(Strip(List(records)).items[i].entries) == Keys(records[i].entries)
  {
  }

  // ---------------------------------------------------------------------
  // What `simplify` was meant to do. The comment above it describes
  // Attr: {"S": "value"} becoming Attr: "value": the type tag goes and the
  // attribute name stays. Unwrapping by key count alone also unwraps a
  // record, or an "M" map, that has exactly one attribute, and its name is
  // lost.
  // ---------------------------------------------------------------------

  /** A one-attribute record loses its attribute name. */
  lemma SingleAttributeRecordLosesName()
    ensures Strip(List([Dict([("Location", Dict([("S", Str("datacenter"))]))])]))
         == List([Str("datacenter")])
  {
    var tagged := Dict([("S", Str("datacenter"))]);
    var itemAsWritten := Dict([("Location", tagged)]);
    assert Strip(tagged) == Str("datacenter");
    assert Strip(itemAsWritten) == Str("datacenter");
  }

  /** One AttributeValue {tag: payload} with its tag removed; "M" and "L" payloads are stripped inside. */
  function StripAttributeValue(v: Value): Value
    decreases v, 1
  {
    match v
    case Dict(entries) =>
      if |entries| != 1 then v
      else
        var tag := entries[0].0;
        var payload := entries[0].1;
        assert payload < entries[0];
        if tag == "M" && payload.Dict? then Dict(StripAttributes(payload.entries))
        else if tag == "L" && payload.List? then
          List(seq(|payload.items|, i requires 0 <= i < |payload.items| => StripAttributeValue(payload.items[i])))
        else payload
    case _ => v
  }

  /** Every attribute of a record or "M" map, names kept, values stripped. */
  function StripAttributes(entries: seq<(string, Value)>): (r: seq<(string, Value)>)
    ensures Keys(r) == Keys(entries)
    decreases entries, 0
  {
    seq(|entries|, i requires 0 <= i < |entries| =>
      assert entries[i].1 < entries[i];
      (entries[i].0, StripAttributeValue(entries[i].1)))
  }

  /** One scan item with its attribute names kept and the tags removed from their values. */
  function StripItem(item: Value): (r: Value)
    ensures item.Dict? ==> r.Dict? && Keys(r.entries) == Keys(item.entries)
  {
    match item
    case Dict(entries) => Dict(StripAttributes(entries))
    case _ => item
  }

  /** A tag-free payload: a scalar, or a set of scalars. */
  predicate PlainPayload(p: Value) {
    match p
    case List(items) => forall i :: 0 <= i < |items| ==> !items[i].List? && !items[i].Dict?
    case Dict(_) => false
    case _ => true
  }

  /**
   * A tagged AttributeValue in which every "M" map has other than one
   * attribute: the values on which unwrapping by key count is right.
   */
  predicate TaggedWithoutSingletonMaps(v: Value)
    decreases v, 1
  {
    match v
    case Dict(entries) =>
      && |entries| == 1
      && var tag := entries[0].0;
         var payload := entries[0].1;
         assert payload < entries[0];
         if tag == "M" && payload.Dict? then
           |payload.entries| != 1 && AttributesWithoutSingletonMaps(payload.entries)
         else if tag == "L" && payload.List? then
           forall i :: 0 <= i < |payload.items| ==> TaggedWithoutSingletonMaps(payload.items[i])
         else PlainPayload(payload)
    case _ => false
  }

  predicate AttributesWithoutSingletonMaps(entries: seq<(string, Value)>)
    decreases entries, 0
  {
    forall i :: 0 <= i < |entries| ==> (assert entries[i].1 < entries[i]; TaggedWithoutSingletonMaps(entries[i].1))
  }

  /** On an item with other than one attribute and no one-attribute "M" map, the code's result is the intended one. */
  lemma StripAgreesWithoutSingletonMaps(item: Value)
    requires item.Dict? && |item.entries| != 1 && AttributesWithoutSingletonMaps(item.entries)
    ensures Strip(item) == StripItem(item)
  {
    AttributesAgree(item.entries);
  }

  lemma {:induction false} AttributesAgree(entries: seq<(string, Value)>)
    requires AttributesWithoutSingletonMaps(entries)
    ensures forall i :: 0 <= i < |entries| ==> Strip(entries[i].1) == StripAttributeValue(entries[i].1)
    decreases entries, 0
  {
    forall i | 0 <= i < |entries| ensures Strip(entries[i].1) == StripAttributeValue(entries[i].1) {
      assert entries[i].1 < entries[i];
      AttributeValueAgrees(entries[i].1);
    }
  }

  lemma {:induction false} AttributeValueAgrees(v: Value)
    requires TaggedWithoutSingletonMaps(v)
    ensures Strip(v) == StripAttributeValue(v)
    decreases v, 1
  {
    var tag := v.entries[0].0;
    var payload := v.entries[0].1;
    assert payload < v.entries[0];
    if tag == "M" && payload.Dict? {
      AttributesAgree(payload.entries);
      assert Strip(payload).entries == StripAttributes(payload.entries);
    } else if tag == "L" && payload.List? {
      forall i | 0 <= i < |payload.items|
        ensures Strip(payload).items[i] == StripAttributeValue(payload.items[i])
      {
        AttributeValueAgrees(payload.items[i]);
      }
      assert Strip(payload).items == StripAttributeValue(v).items;
    } else {
      StripFixpoint(payload);
    }
  }

  /** The intended result for a one-attribute record keeps the name. */
  lemma SingleAttributeRecordKeepsName()
    ensures StripItem(Dict([("Location", Dict([("S", Str("datacenter"))]))]))
         == Dict([("Location", Str("datacenter"))])
  {
    assert StripAttributeValue(Dict([("S", Str("datacenter"))])) == Str("datacenter");
  }
}
