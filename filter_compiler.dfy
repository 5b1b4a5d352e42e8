/**
 * `translate_filters`: compiling a list of {attribute: constraint} mappings
 * into one boto3 condition, folding the conditions left to right with the
 * frame's join type.
 */
module FilterCompiler {

  import opened Wrappers
  import opened Values
  import opened TypeCoercer
  import opened Operators

  /** The condition objects boto3 builds: one comparator on one attribute, and `&` and `|` of two conditions. */
  datatype Condition =
    | Compare(attr: string, op: Comparator, operand: Option<Value>)
    | And(left: Condition, right: Condition)
    | Or(left: Condition, right: Condition)

  /**
   * Why a filter list does not compile. The last two are the reports the
   * handler of `translate_filters` was written to give through
   * `fail_json_aws`; they also stand for the AttributeError and TypeError
   * that the code lets escape (README, Findings row 1). The others are the
   * Python exceptions the source lets escape.
   */
  datatype FilterError =
    | NotAMapping(entry: Value)                              // `.keys()` on an entry that is not a dict
    | EmptyValueList(attr: string)                           // `f[k][0]` on an empty list
    | OperatorNotAString(attr: string)                       // "..." + operator when the operator is not a str
    | NothingToCombine(key: string)                          // `&` or `|` with a group that compiled to False
    | InvalidComparisonOperator(attr: string, op: string)    // 'Comparison "op" not a valid comparison_operator'
    | ConditionConstructionError(attr: string, op: string)   // 'Error constructing filter condition objects'

  /** None is the `False` that stands for "no condition". */
  type Compiled = Result<Option<Condition>, FilterError>

  /** Folds the next condition into the accumulated one: the first is taken as it is, later ones are joined. */
  function Combine(acc: Option<Condition>, cond: Option<Condition>, joinType: string, key: string): (r: Compiled)
    ensures acc.None? ==> r == Ok(cond)
    ensures acc.Some? && cond.Some? ==> r.Ok? && r.value.Some?
    ensures acc.Some? && cond.Some? && IsOr(joinType) ==> r.value.value == Or(acc.value, cond.value)
    ensures acc.Some? && cond.Some? && !IsOr(joinType) ==> r.value.value == And(acc.value, cond.value)
    ensures acc.Some? && cond.None? ==> r == Err(NothingToCombine(key))
  {
    if acc.None? then Ok(cond)
    else if cond.None? then Err(NothingToCombine(key))
    else if IsOr(joinType) then Ok(Some(Or(acc.value, cond.value)))
    else Ok(Some(And(acc.value, cond.value)))
  }

  /** What `translate_filters(filters, join_type=joinType)` returns or reports. */
  function Compile(filters: seq<Value>, joinType: string := "and"): (r: Compiled)
    ensures filters == [] ==> r == Ok(None)
    ensures r.Ok? ==> MaybeCoerced(r.value)
  {
    CompiledOperandsCoerced(filters, joinType, None);
    CompileFrom(filters, joinType, None)
  }

  /** The outer loop: the filter entries from here on, folded into `acc`. */
  function CompileFrom(filters: seq<Value>, joinType: string, acc: Option<Condition>): (r: Compiled)
    ensures filters == [] ==> r == Ok(acc)
    ensures acc.Some? && r.Ok? ==> r.value.Some?
    decreases filters
  {
    if filters == [] then Ok(acc)
    else match filters[0]
      case Dict(entries) =>
        (match CompileEntries(entries, joinType, acc)
         case Ok(acc') => CompileFrom(filters[1..], joinType, acc')
         case Err(e) => Err(e))
      case _ => Err(NotAMapping(filters[0]))
  }

  /** The inner loop: the keys of one filter entry from here on, folded into `acc`. */
  function CompileEntries(entries: seq<(string, Value)>, joinType: string, acc: Option<Condition>): (r: Compiled)
    ensures entries == [] ==> r == Ok(acc)
    ensures acc.Some? && r.Ok? ==> r.value.Some?
    decreases entries
  {
    if entries == [] then Ok(acc)
    else
      assert entries[0].1 < entries[0];
      match CompileEntry(entries[0].0, entries[0].1)
      case Err(e) => Err(e)
      case Ok(cond) =>
        match Combine(acc, cond, joinType, entries[0].0)
        case Err(e) => Err(e)
        case Ok(acc') => CompileEntries(entries[1..], joinType, acc')
  }

  /**
   * The condition of one key and its value. A list whose first element is a
   * string is an `is_in` test; any other non-empty list is a nested group
   * joined by the key; anything else is a constraint.
   */
  function CompileEntry(key: string, v: Value): (r: Compiled)
    ensures v.List? && v.items == [] ==> r == Err(EmptyValueList(key))
    ensures v.List? && v.items != [] && v.items[0].Str? ==> r == Ok(Some(Compare(key, IsIn, Some(Coerce(v)))))
    ensures !v.List? && r.Ok? ==> r.value.Some? && r.value.value.Compare? && r.value.value.attr == key
    decreases v
  {
    match v
    case List(items) =>
      if items == [] then Err(EmptyValueList(key))
      else if items[0].Str? then Ok(Some(Compare(key, IsIn, Some(Coerce(v)))))
      else CompileFrom(items, key, None)
    case Dict(constraint) => CompileConstraint(key, constraint)
    case _ => CompileConstraint(key, [("value", v)])
  }

  /** The operator a constraint names; "eq" when it names none. */
  function OperatorOf(constraint: seq<(string, Value)>): (r: Value)
    ensures HasKey(constraint, "comparison_operator") ==> Some(r) == Get(constraint, "comparison_operator")
    ensures !HasKey(constraint, "comparison_operator") ==> r == Str("eq")
  {
    match Get(constraint, "comparison_operator")
    case Some(op) => op
    case None => Str("eq")
  }

  /**
   * A constraint mapping {comparison_operator?, value?}: the named comparator
   * on `key`, with the coerced value as operand when there is one. An unknown
   * name and an operand count the comparator does not take are reported.
   */
  function CompileConstraint(key: string, constraint: seq<(string, Value)>): (r: Compiled)
    ensures r.Ok? ==> r.value.Some? && r.value.value.Compare? && r.value.value.attr == key
    ensures r.Err? ==> (r.error.OperatorNotAString? || r.error.InvalidComparisonOperator?
                        || r.error.ConditionConstructionError?) && r.error.attr == key
  {
    var op := OperatorOf(constraint);
    if !op.Str? then Err(OperatorNotAString(key))
    else match Lookup(op.s)
      case None => Err(InvalidComparisonOperator(key, op.s))
      case Some(c) =>
        match Get(constraint, "value")
        case Some(operand) =>
          if Arity(c) == 1 then Ok(Some(Compare(key, c, Some(Coerce(operand)))))
          else Err(ConditionConstructionError(key, op.s))
        case None =>
          if Arity(c) == 0 then Ok(Some(Compare(key, c, None)))
          else Err(ConditionConstructionError(key, op.s))
  }

  // ---------------------------------------------------------------------
  // Leaf constraints
  // ---------------------------------------------------------------------

  /** A constraint that compiles gives one comparator on its key, with the coerced value exactly when it has one. */
  lemma ConstraintShape(key: string, constraint: seq<(string, Value)>)
    requires CompileConstraint(key, constraint).Ok?
    ensures var r := CompileConstraint(key, constraint).value;
      && r.Some? && r.value.Compare? && r.value.attr == key
      && (r.value.operand.None? <==> !HasKey(constraint, "value"))
      && (HasKey(constraint, "value") ==> r.value.operand == Some(Coerce(Get(constraint, "value").value)))
  {
  }

  /** A literal under a key, neither list nor mapping, is `eq(key, check_type(literal))`. */
  lemma EqualityShorthand(key: string, v: Value)
    requires !v.List? && !v.Dict?
    ensures CompileEntry(key, v) == Ok(Some(Compare(key, Eq, Some(Coerce(v)))))
  {
    assert Get([("value", v)], "comparison_operator") == None;
    assert Get([("value", v)], "value") == Some(v);
  }

  /** A constraint without `comparison_operator` compiles as if it said "eq". */
  lemma DefaultOperatorIsEq(key: string, constraint: seq<(string, Value)>)
    requires !HasKey(constraint, "comparison_operator")
    ensures CompileConstraint(key, constraint)
         == CompileConstraint(key, constraint + [("comparison_operator", Str("eq"))])
  {
    var extended := constraint + [("comparison_operator", Str("eq"))];
    GetAppend(constraint, "comparison_operator", Str("eq"), "comparison_operator");
    GetAppend(constraint, "comparison_operator", Str("eq"), "value");
    assert HasKey(extended, "comparison_operator");
  }

  /** A list whose first element is a string means the same as an explicit `is_in` constraint on that list. */
  lemma ListShorthandIsIsIn(key: string, items: seq<Value>)
    requires items != [] && items[0].Str?
    ensures CompileEntry(key, List(items))
         == CompileConstraint(key, [("comparison_operator", Str("is_in")), ("value", List(items))])
  {
    var constraint := [("comparison_operator", Str("is_in")), ("value", List(items))];
    assert constraint[0].0 == "comparison_operator";
    assert Get(constraint, "value") == Some(List(items));
  }

  /**
   * The operator is never defaulted once named: an unknown name is reported,
   * naming the key and the operator, exactly when no comparator has that
   * name, and a comparator that compiles is the one named.
   */
  lemma {:induction false} NamedOperatorUsed(key: string, constraint: seq<(string, Value)>, name: string)
    requires OperatorOf(constraint) == Str(name)
    ensures CompileConstraint(key, constraint) == Err(InvalidComparisonOperator(key, name))
        <==> forall c: Comparator :: Name(c) != name
    ensures CompileConstraint(key, constraint).Ok? ==> Name(CompileConstraint(key, constraint).value.value.op) == name
  {
    if Lookup(name).Some? {
      LookupName(name, Lookup(name).value);
    } else {
      forall c: Comparator ensures Name(c) != name {
        LookupName(name, c);
      }
    }
  }

  /** A known comparator given an operand count it does not take is reported as a construction error. */
  lemma WrongArityReported(key: string, constraint: seq<(string, Value)>, c: Comparator)
    requires OperatorOf(constraint) == Str(Name(c))
    requires Arity(c) != if HasKey(constraint, "value") then 1 else 0
    ensures CompileConstraint(key, constraint) == Err(ConditionConstructionError(key, Name(c)))
  {
    LookupName(Name(c), c);
  }

  /**
   * Where the code as written builds a condition or reports an error, the
   * model does the same; where the code lets AttributeError or TypeError
   * escape, the model reports the error the handler was written to give.
   */
  lemma {:induction false} CorrectedDispatch(key: string, constraint: seq<(string, Value)>, name: string)
    requires OperatorOf(constraint) == Str(name)
    ensures var r := CompileConstraint(key, constraint);
      match EvalAsWritten(name, if HasKey(constraint, "value") then 1 else 0)
      case Constructed(c) => r.Ok? && r.value.value.op == c
      case SyntaxErrorRaised => r == Err(InvalidComparisonOperator(key, name))
      case AttributeErrorRaised => r == Err(InvalidComparisonOperator(key, name))
      case TypeErrorRaised => r == Err(ConditionConstructionError(key, name))
  {
    if !IsAttributeName(name) && Lookup(name).Some? {
      var c := Lookup(name).value;
      LookupName(name, c);
      ComparatorNamesAreNames(c);
    }
  }

  // ---------------------------------------------------------------------
  // The fold
  // ---------------------------------------------------------------------

  /** The fold runs left to right: the entries after a prefix are folded into the prefix's result. */
  lemma {:induction false} CompileFromAppend(a: seq<Value>, b: seq<Value>, joinType: string, acc: Option<Condition>)
    ensures CompileFrom(a + b, joinType, acc)
         == match CompileFrom(a, joinType, acc)
            case Ok(acc') => CompileFrom(b, joinType, acc')
            case Err(e) => Err(e)
  {
    if a == [] {
      assert a + b == b;
    } else {
      assert (a + b)[0] == a[0];
      assert (a + b)[1..] == a[1..] + b;
      if a[0].Dict? {
        match CompileEntries(a[0].entries, joinType, acc)
        case Ok(acc') => CompileFromAppend(a[1..], b, joinType, acc');
        case Err(_) =>
      }
    }
  }

  /** One frame's join type matters only through `join_type.lower() == 'or'`. */
  lemma {:induction false} JoinTypeOnlyThroughIsOr(filters: seq<Value>, j1: string, j2: string, acc: Option<Condition>)
    requires IsOr(j1) == IsOr(j2)
    ensures CompileFrom(filters, j1, acc) == CompileFrom(filters, j2, acc)
  {
    if filters != [] && filters[0].Dict? {
      EntriesJoinTypeOnlyThroughIsOr(filters[0].entries, j1, j2, acc);
      match CompileEntries(filters[0].entries, j1, acc)
      case Ok(acc') => JoinTypeOnlyThroughIsOr(filters[1..], j1, j2, acc');
      case Err(_) =>
    }
  }

  lemma {:induction false} EntriesJoinTypeOnlyThroughIsOr(entries: seq<(string, Value)>, j1: string, j2: string, acc: Option<Condition>)
    requires IsOr(j1) == IsOr(j2)
    ensures CompileEntries(entries, j1, acc) == CompileEntries(entries, j2, acc)
  {
    if entries != [] {
      match CompileEntry(entries[0].0, entries[0].1)
      case Err(_) =>
      case Ok(cond) =>
        match Combine(acc, cond, j1, entries[0].0)
        case Err(_) =>
        case Ok(acc') => EntriesJoinTypeOnlyThroughIsOr(entries[1..], j1, j2, acc');
    }
  }

  // ---------------------------------------------------------------------
  // Every operand has been through check_type
  // ---------------------------------------------------------------------

  /** Every operand in the condition is coerced: no raw str or int reaches a comparator. */
  predicate OperandsCoerced(c: Condition) {
    match c
    case Compare(_, _, operand) => operand.Some? ==> Coerced(operand.value)
    case And(l, r) => OperandsCoerced(l) && OperandsCoerced(r)
    case Or(l, r) => OperandsCoerced(l) && OperandsCoerced(r)
  }

  predicate MaybeCoerced(c: Option<Condition>) {
    c.Some? ==> OperandsCoerced(c.value)
  }

  /** Whatever a filter list compiles to, each literal operand in it was passed through check_type first. */
  lemma {:induction false} CompiledOperandsCoerced(filters: seq<Value>, joinType: string, acc: Option<Condition>)
    requires MaybeCoerced(acc)
    ensures CompileFrom(filters, joinType, acc).Ok? ==> MaybeCoerced(CompileFrom(filters, joinType, acc).value)
    decreases filters
  {
    if filters != [] && filters[0].Dict? {
      EntriesOperandsCoerced(filters[0].entries, joinType, acc);
      match CompileEntries(filters[0].entries, joinType, acc)
      case Ok(acc') => CompiledOperandsCoerced(filters[1..], joinType, acc');
      case Err(_) =>
    }
  }

  lemma {:induction false} EntriesOperandsCoerced(entries: seq<(string, Value)>, joinType: string, acc: Option<Condition>)
    requires MaybeCoerced(acc)
    ensures CompileEntries(entries, joinType, acc).Ok? ==> MaybeCoerced(CompileEntries(entries, joinType, acc).value)
    decreases entries
  {
    if entries != [] {
      assert entries[0].1 < entries[0];
      EntryOperandsCoerced(entries[0].0, entries[0].1);
      match CompileEntry(entries[0].0, entries[0].1)
      case Err(_) =>
      case Ok(cond) =>
        match Combine(acc, cond, joinType, entries[0].0)
        case Err(_) =>
        case Ok(acc') => EntriesOperandsCoerced(entries[1..], joinType, acc');
    }
  }

  lemma {:induction false} EntryOperandsCoerced(key: string, v: Value)
    ensures CompileEntry(key, v).Ok? ==> MaybeCoerced(CompileEntry(key, v).value)
    decreases v
  {
    match v
    case List(items) =>
      if items != [] && !items[0].Str? {
        CompiledOperandsCoerced(items, key, None);
      }
    case _ =>
  }
}
