/**
 * The comparators of boto3's `conditions.Attr`, which `translate_filters`
 * reaches by evaluating "conditions.Attr(k)." + name + "(...)". The model
 * replaces that reflective call by a fixed table: a name either denotes one
 * of these comparators or it does not.
 */
module Operators {

  import opened Wrappers

  datatype Comparator =
    | Eq | Ne | Lt | Lte | Gt | Gte
    | BeginsWith | Between | IsIn | Contains
    | AttributeType | Size | Exists | NotExists

  /** The method name of the comparator on `Attr`. */
  function Name(c: Comparator): string {
    match c
    case Eq => "eq"
    case Ne => "ne"
    case Lt => "lt"
    case Lte => "lte"
    case Gt => "gt"
    case Gte => "gte"
    case BeginsWith => "begins_with"
    case Between => "between"
    case IsIn => "is_in"
    case Contains => "contains"
    case AttributeType => "attribute_type"
    case Size => "size"
    case Exists => "exists"
    case NotExists => "not_exists"
  }

  /** Resolves a `comparison_operator` string; None when `Attr` has no such comparator. */
  function Lookup(name: string): Option<Comparator> {
    if name == "eq" then Some(Eq)
    else if name == "ne" then Some(Ne)
    else if name == "lt" then Some(Lt)
    else if name == "lte" then Some(Lte)
    else if name == "gt" then Some(Gt)
    else if name == "gte" then Some(Gte)
    else if name == "begins_with" then Some(BeginsWith)
    else if name == "between" then Some(Between)
    else if name == "is_in" then Some(IsIn)
    else if name == "contains" then Some(Contains)
    else if name == "attribute_type" then Some(AttributeType)
    else if name == "size" then Some(Size)
    else if name == "exists" then Some(Exists)
    else if name == "not_exists" then Some(NotExists)
    else None
  }

  /** A name resolves to a comparator exactly when it is that comparator's name. */
  lemma LookupName(name: string, c: Comparator)
    ensures Lookup(name) == Some(c) <==> name == Name(c)
  {
  }

  /** How many operands the comparator's method takes. */
  function Arity(c: Comparator): nat {
    match c
    case Exists | NotExists | Size => 0
    case Between => 2
    case _ => 1
  }

  /** ASCII lower-casing of one character, as `str.lower()` does. */
  function Lower(ch: char): (r: char)
    ensures 'A' <= ch <= 'Z' ==> r as int == ch as int + 32
    ensures !('A' <= ch <= 'Z') ==> r == ch
  {
    if 'A' <= ch <= 'Z' then (ch as int + 32) as char else ch
  }

  /**
   * `join_type.lower() == 'or'`: the one test that chooses OR over AND. It
   * holds for exactly the four spellings of "or"; "and", "AND" and every
   * other key join with AND.
   */
  predicate IsOr(joinType: string)
    ensures IsOr(joinType) <==> joinType in {"or", "Or", "oR", "OR"}
  {
    var lowered := |joinType| == 2 && Lower(joinType[0]) == 'o' && Lower(joinType[1]) == 'r';
    assert lowered ==>
      joinType == [joinType[0], joinType[1]] && joinType[0] in {'o', 'O'} && joinType[1] in {'r', 'R'};
    lowered
  }

  // ---------------------------------------------------------------------
  // The dispatch as written. `eval` raises SyntaxError when the name does
  // not make a Python expression, AttributeError when `Attr` has no such
  // member and TypeError when the member takes another number of operands.
  // The handler at the end of `translate_filters` catches only SyntaxError
  // (and botocore's ClientError), so only the first kind is reported.
  // ---------------------------------------------------------------------

  /** The keywords of Python 2, which cannot follow the dot of an attribute reference. */
  const PythonKeywords: set<string> := {
    "and", "as", "assert", "break", "class", "continue", "def", "del", "elif",
    "else", "except", "exec", "finally", "for", "from", "global", "if",
    "import", "in", "is", "lambda", "not", "or", "pass", "print", "raise",
    "return", "try", "while", "with", "yield"}

  predicate IsNameChar(ch: char) {
    'a' <= ch <= 'z' || 'A' <= ch <= 'Z' || '0' <= ch <= '9' || ch == '_'
  }

  /** A Python name that may follow `Attr(k).` without a syntax error. */
  predicate IsAttributeName(name: string) {
    && |name| > 0
    && !('0' <= name[0] <= '9')
    && (forall i :: 0 <= i < |name| ==> IsNameChar(name[i]))
    && name !in PythonKeywords
  }

  /** Every comparator's name is a plain Python name, so the syntax-error path never sees one. */
  lemma ComparatorNamesAreNames(c: Comparator)
    ensures IsAttributeName(Name(c))
  {
    if c.Eq? || c.Ne? || c.Lt? || c.Lte? || c.Gt? || c.Gte? || c.BeginsWith? {
      FirstNamesAreNames(c);
    } else {
      LaterNamesAreNames(c);
    }
  }

  /** The proof is split in three so that each part stays small. */
  lemma FirstNamesAreNames(c: Comparator)
    requires c.Eq? || c.Ne? || c.Lt? || c.Lte? || c.Gt? || c.Gte? || c.BeginsWith?
    ensures IsAttributeName(Name(c))
  {
    match c
    case Eq => assert IsAttributeName("eq");
    case Ne => assert IsAttributeName("ne");
    case Lt => assert IsAttributeName("lt");
    case Lte => assert IsAttributeName("lte");
    case Gt => assert IsAttributeName("gt");
    case Gte => assert IsAttributeName("gte");
    case BeginsWith => assert IsAttributeName("begins_with");
  }

  lemma LaterNamesAreNames(c: Comparator)
    requires !(c.Eq? || c.Ne? || c.Lt? || c.Lte? || c.Gt? || c.Gte? || c.BeginsWith?)
    ensures IsAttributeName(Name(c))
  {
    match c
    case Between => assert IsAttributeName("between");
    case IsIn => assert IsAttributeName("is_in");
    case Contains => assert IsAttributeName("contains");
    case _ => LastNamesAreNames(c);
  }

  lemma LastNamesAreNames(c: Comparator)
    requires c.AttributeType? || c.Size? || c.Exists? || c.NotExists?
    ensures IsAttributeName(Name(c))
  {
    match c
    case AttributeType => assert IsAttributeName("attribute_type");
    case Size => assert IsAttributeName("size");
    case Exists => assert IsAttributeName("exists");
    case NotExists => assert IsAttributeName("not_exists");
  }

  /** What happens to `eval("conditions.Attr(k)." + name + "(...)")` with `operands` operands. */
  datatype EvalOutcome =
    | Constructed(c: Comparator)
    | SyntaxErrorRaised       // caught: reported as an invalid comparison_operator
    | AttributeErrorRaised    // not caught: escapes translate_filters
    | TypeErrorRaised         // not caught: escapes translate_filters

  function EvalAsWritten(name: string, operands: nat): (r: EvalOutcome)
    ensures r.Constructed? ==> Name(r.c) == name && Arity(r.c) == operands
    ensures r.SyntaxErrorRaised? <==> !IsAttributeName(name)
  {
    if !IsAttributeName(name) then SyntaxErrorRaised
    else match Lookup(name)
      case None => AttributeErrorRaised
      case Some(c) => if Arity(c) == operands then Constructed(c) else TypeErrorRaised
  }

  /** What `translate_filters` does with the outcome of the eval, as its handler is written. */
  datatype HandledOutcome =
    | Built(c: Comparator)
    | ReportedInvalidOperator      // 'Comparison "..." not a valid comparison_operator'
    | ReportedConstructionError    // 'Error constructing filter condition objects'
    | Escapes                      // the exception propagates out of translate_filters

  /**
   * Only SyntaxError is caught; inside the handler, a name that `Attr` has
   * gets the generic message and any other name the invalid-operator one.
   * Since no comparator name is a syntax error, the generic message is never
   * given, and every unknown name or wrong operand count escapes.
   */
  function HandlerAsWritten(name: string, operands: nat): (r: HandledOutcome)
    ensures r.Escapes? <==> IsAttributeName(name) && (Lookup(name).None? || Arity(Lookup(name).value) != operands)
    ensures r.ReportedInvalidOperator? <==> !IsAttributeName(name)
    ensures !r.ReportedConstructionError?
    ensures r.Built? ==> Name(r.c) == name && Arity(r.c) == operands
  {
    match EvalAsWritten(name, operands)
    case Constructed(c) => Built(c)
    case SyntaxErrorRaised =>
      if Lookup(name).Some? then
        LookupName(name, Lookup(name).value);
        ComparatorNamesAreNames(Lookup(name).value);
        assert false;
        ReportedConstructionError
      else ReportedInvalidOperator
    case AttributeErrorRaised => Escapes
    case TypeErrorRaised => Escapes
  }

  /** A misspelt comparator such as "between_badly" is a valid Python name, so it escapes the handler. */
  lemma UnknownNameEscapesHandler()
    ensures EvalAsWritten("between_badly", 1) == AttributeErrorRaised
    ensures HandlerAsWritten("between_badly", 1) == Escapes
  {
    assert Lookup("between_badly") == None;
    assert IsAttributeName("between_badly");
  }

  /** An existence test given a value raises TypeError, which the handler does not catch either. */
  lemma WrongArityEscapesHandler()
    ensures EvalAsWritten("exists", 1) == TypeErrorRaised
    ensures EvalAsWritten("between", 1) == TypeErrorRaised
    ensures HandlerAsWritten("exists", 1) == Escapes && HandlerAsWritten("between", 1) == Escapes
  {
    assert IsAttributeName("exists");
    assert IsAttributeName("between");
  }
}
