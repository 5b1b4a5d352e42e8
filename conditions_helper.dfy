/**
 * The methods of `DynamoDbConditionsHelper`, step by step as the source runs
 * them, each proved to compute the function that specifies it. The helper's
 * only field, the Ansible module, is used for nothing but error reporting, so
 * the methods live at module level and report errors through their result.
 */
module DynamoDbConditions {

  import opened Wrappers
  import opened Values
  import opened TypeCoercer
  import opened Operators
  import opened FilterCompiler
  import opened ResultSimplifier

  /** `check_type`: tags a string or an int; a list has each element replaced by its coercion in turn. */
  method CheckType(value: Value) returns (r: Value)
    ensures r == Coerce(value)
    decreases value
  {
    match value
    case Str(_) => r := Dict([("S", value)]);
    case Int(_) => r := Dict([("N", value)]);
    case List(items) =>
      var xs := items;
      var i := 0;
      while i < |xs|
        invariant 0 <= i <= |xs| == |items|
        invariant forall j :: 0 <= j < i ==> xs[j] == Coerce(items[j])
        invariant forall j :: i <= j < |xs| ==> xs[j] == items[j]
      {
        var coerced := CheckType(xs[i]);
        xs := xs[i := coerced];
        i := i + 1;
      }
      r := List(xs);
    case _ => r := value;
  }

  /**
   * `translate_filters`: for each filter entry and each of its keys, build
   * that key's condition and fold it into `filters` with the join type.
   */
  method TranslateFilters(filterList: seq<Value>, joinType: string := "and") returns (r: Compiled)
    ensures r == Compile(filterList, joinType)
    decreases filterList
  {
    var filters: Option<Condition> := None;
    var i := 0;
    while i < |filterList|
      invariant 0 <= i <= |filterList|
      invariant Compile(filterList, joinType) == CompileFrom(filterList[i..], joinType, filters)
    {
      var f := filterList[i];
      assert filterList[i..][0] == f && filterList[i..][1..] == filterList[i + 1..];
      if !f.Dict? {
        return Err(NotAMapping(f));
      }
      var keys := f.entries;
      var n := 0;
      while n < |keys|
        invariant 0 <= n <= |keys|
        invariant Compile(filterList, joinType)
               == match CompileEntries(keys[n..], joinType, filters)
                  case Ok(acc) => CompileFrom(filterList[i + 1..], joinType, acc)
                  case Err(e) => Err(e)
      {
        var k := keys[n].0;
        var value := keys[n].1;
        assert keys[n..][0] == (k, value) && keys[n..][1..] == keys[n + 1..];
        var cond: Option<Condition>;
        if value.List? {
          if value.items == [] {
            return Err(EmptyValueList(k));
          }
          if value.items[0].Str? {
            // the whole list is the set of values for an is_in test
            var coerced := CheckType(value);
            cond := Some(Compare(k, IsIn, Some(coerced)));
          } else {
            assert value < keys[n] && keys[n] in keys && f in filterList;
            var group := TranslateFilters(value.items, k);
            if group.Err? {
              return group;
            }
            cond := group.value;
          }
        } else {
          var leaf := ConstraintCondition(k, value);
          if leaf.Err? {
            return leaf;
          }
          cond := leaf.value;
        }
        if filters.None? {
          filters := cond;
        } else if cond.None? {
          return Err(NothingToCombine(k));
        } else if IsOr(joinType) {
          filters := Some(Or(filters.value, cond.value));
        } else {
          // default to AND
          filters := Some(And(filters.value, cond.value));
        }
        n := n + 1;
      }
      i := i + 1;
    }
    r := Ok(filters);
  }

  /**
   * The condition of a key whose value is not a list: a bare literal becomes
   * {value: literal}, a missing operator becomes "eq", and the value, when
   * there is one, is coerced before the comparator is applied to it.
   */
  method ConstraintCondition(key: string, value: Value) returns (r: Compiled)
    requires !value.List?
    ensures r == CompileEntry(key, value)
  {
    var constraint := if value.Dict? then value.entries else [("value", value)];
    assert CompileEntry(key, value) == CompileConstraint(key, constraint);
    if !HasKey(constraint, "comparison_operator") {
      DefaultOperatorIsEq(key, constraint);
      constraint := constraint + [("comparison_operator", Str("eq"))];
      assert constraint[|constraint| - 1].0 == "comparison_operator";
    }
    var op := Get(constraint, "comparison_operator").value;
    if !op.Str? {
      return Err(OperatorNotAString(key));
    }
    var comparator := Lookup(op.s);
    if comparator.None? {
      return Err(InvalidComparisonOperator(key, op.s));
    }
    var c := comparator.value;
    var operand := Get(constraint, "value");
    if operand.Some? {
      var coerced := CheckType(operand.value);
      if Arity(c) != 1 {
        return Err(ConditionConstructionError(key, op.s));
      }
      r := Ok(Some(Compare(key, c, Some(coerced))));
    } else {
      if Arity(c) != 0 {
        return Err(ConditionConstructionError(key, op.s));
      }
      r := Ok(Some(Compare(key, c, None)));
    }
  }

  /**
   * `simplify`: a list has each mapping or list element replaced by its
   * simplification; a one-key mapping gives the simplification of its value;
   * any other mapping has each value replaced by its simplification.
   */
  method Simplify(obj: Value) returns (r: Value)
    ensures r == Strip(obj)
    decreases obj
  {
    match obj
    case List(items) =>
      var xs := items;
      var idx := 0;
      while idx < |xs|
        invariant 0 <= idx <= |xs| == |items|
        invariant forall j :: 0 <= j < idx ==> xs[j] == Strip(obj).items[j]
        invariant forall j :: idx <= j < |xs| ==> xs[j] == items[j]
      {
        if xs[idx].Dict? || xs[idx].List? {
          var simplified := Simplify(xs[idx]);
          xs := xs[idx := simplified];
        }
        idx := idx + 1;
      }
      r := List(xs);
    case Dict(entries) =>
      var keys := Keys(entries);
      if |keys| == 1 {
        assert entries[0].1 < entries[0];
        r := Simplify(entries[0].1);
      } else {
        var es := entries;
        var idx := 0;
        while idx < |keys|
          invariant 0 <= idx <= |keys| == |es|
          invariant forall j :: 0 <= j < idx ==> es[j] == Strip(obj).entries[j]
          invariant forall j :: idx <= j < |es| ==> es[j] == entries[j]
        {
          assert es[idx].1 < es[idx];
          var simplified := Simplify(es[idx].1);
          es := es[idx := (keys[idx], simplified)];
          idx := idx + 1;
        }
        r := Dict(es);
      }
    case _ => r := obj;
  }
}
