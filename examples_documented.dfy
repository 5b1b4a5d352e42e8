/**
 * The filters and the result shown in the module's own documentation,
 * compiled and simplified by the model.
 */
module DocumentedExamples {

  import opened Wrappers
  import opened Values
  import opened TypeCoercer
  import opened Operators
  import opened FilterCompiler
  import opened ResultSimplifier

  function Tagged(tag: string, v: Value): Value {
    Dict([(tag, v)])
  }

  /** `Location: {comparison_operator: eq, value: {S: datacenter}}` and the shorthand `Location: datacenter` compile alike. */
  lemma LocationShorthand()
    ensures Compile([Dict([("Location", Dict([
              ("comparison_operator", Str("eq")),
              ("value", Tagged("S", Str("datacenter")))]))])])
         == Compile([Dict([("Location", Str("datacenter"))])])
    ensures Compile([Dict([("Location", Str("datacenter"))])])
         == Ok(Some(Compare("Location", Eq, Some(Tagged("S", Str("datacenter"))))))
  {
    var explicit := [("comparison_operator", Str("eq")), ("value", Tagged("S", Str("datacenter")))];
    assert explicit[0].0 == "comparison_operator";
    assert Get(explicit, "value") == Some(Tagged("S", Str("datacenter")));
    EqualityShorthand("Location", Str("datacenter"));
  }

  /** `OR: [{GradePercentage: {comparison_operator: lt, value: 20}}, {GradePercentage: {comparison_operator: gt, value: 80}}]` */
  function GradeBounds(): seq<Value> {
    [Dict([("GradePercentage", Dict([("comparison_operator", Str("lt")), ("value", Int(20))]))]),
     Dict([("GradePercentage", Dict([("comparison_operator", Str("gt")), ("value", Int(80))]))])]
  }

  function GradeBoundsCondition(): Condition {
    Or(Compare("GradePercentage", Lt, Some(Tagged("N", Int(20)))),
       Compare("GradePercentage", Gt, Some(Tagged("N", Int(80)))))
  }

  /** An `OR` group of `lt 20` and `gt 80` on GradePercentage is their disjunction. */
  lemma GradeOutsideRange()
    ensures Compile([Dict([("OR", List(GradeBounds()))])])
         == Ok(Some(Or(Compare("GradePercentage", Lt, Some(Tagged("N", Int(20)))),
                       Compare("GradePercentage", Gt, Some(Tagged("N", Int(80)))))))
  {
    var fs := GradeBounds();
    GradeBoundsCompile();
    assert fs != [] && !fs[0].Str?;
    assert CompileEntry("OR", List(fs)) == Ok(Some(GradeBoundsCondition()));
    OneKeyEntry("OR", List(fs), [], "and", None, Some(GradeBoundsCondition()), Some(GradeBoundsCondition()));
    assert [Dict([("OR", List(fs))])] + [] == [Dict([("OR", List(fs))])];
  }

  lemma GradeBoundsCompile()
    ensures CompileFrom(GradeBounds(), "OR", None) == Ok(Some(GradeBoundsCondition()))
  {
    var c := GradeBoundsCondition();
    NumericConstraint("GradePercentage", "lt", Lt, 20);
    NumericConstraint("GradePercentage", "gt", Gt, 80);
    TwoEntryGroup("GradePercentage", Dict([("comparison_operator", Str("lt")), ("value", Int(20))]),
                  "GradePercentage", Dict([("comparison_operator", Str("gt")), ("value", Int(80))]),
                  "OR", c.left, c.right);
  }

  /** A group of two one-key entries that both give conditions is their join. */
  lemma TwoEntryGroup(k1: string, v1: Value, k2: string, v2: Value, joinType: string, c1: Condition, c2: Condition)
    requires CompileEntry(k1, v1) == Ok(Some(c1)) && CompileEntry(k2, v2) == Ok(Some(c2))
    ensures CompileFrom([Dict([(k1, v1)]), Dict([(k2, v2)])], joinType, None)
         == Ok(Some(if IsOr(joinType) then Or(c1, c2) else And(c1, c2)))
  {
    var fs := [Dict([(k1, v1)]), Dict([(k2, v2)])];
    var joined := if IsOr(joinType) then Or(c1, c2) else And(c1, c2);
    assert fs == [Dict([(k1, v1)])] + [Dict([(k2, v2)])];
    OneKeyEntry(k1, v1, [Dict([(k2, v2)])], joinType, None, Some(c1), Some(c1));
    OneKeyEntry(k2, v2, [], joinType, Some(c1), Some(c2), Some(joined));
    assert [Dict([(k2, v2)])] + [] == [Dict([(k2, v2)])];
  }

  /** `{comparison_operator: name, value: n}` under a key: the named comparator with the operand tagged "N". */
  lemma NumericConstraint(key: string, name: string, c: Comparator, n: int)
    requires Lookup(name) == Some(c) && Arity(c) == 1
    ensures CompileEntry(key, Dict([("comparison_operator", Str(name)), ("value", Int(n))]))
         == Ok(Some(Compare(key, c, Some(Tagged("N", Int(n))))))
  {
    var constraint := [("comparison_operator", Str(name)), ("value", Int(n))];
    assert constraint[0].0 == "comparison_operator";
    assert Get(constraint, "value") == Some(Int(n));
  }

  /** `OR: [{ProjectGroup: {comparison_operator: is_in, value: [Phoenix, Pegasus]}}, {Location: Houston}]` */
  function ProjectOrLocation(): seq<Value> {
    [Dict([("ProjectGroup", Dict([
       ("comparison_operator", Str("is_in")),
       ("value", List([Str("Phoenix"), Str("Pegasus")]))]))]),
     Dict([("Location", Str("Houston"))])]
  }

  /** `OR: [{LaunchGroup: green}, {Level: [Manager, Director]}]` */
  function GroupOrLevel(): seq<Value> {
    [Dict([("LaunchGroup", Str("green"))]),
     Dict([("Level", List([Str("Manager"), Str("Director")]))])]
  }

  function ProjectOrLocationCondition(): Condition {
    Or(Compare("ProjectGroup", IsIn, Some(List([Tagged("S", Str("Phoenix")), Tagged("S", Str("Pegasus"))]))),
       Compare("Location", Eq, Some(Tagged("S", Str("Houston")))))
  }

  function GroupOrLevelCondition(): Condition {
    Or(Compare("LaunchGroup", Eq, Some(Tagged("S", Str("green")))),
       Compare("Level", IsIn, Some(List([Tagged("S", Str("Manager")), Tagged("S", Str("Director"))]))))
  }

  /**
   * (ProjectGroup is Phoenix or Pegasus, or Location is Houston) AND
   * (LaunchGroup is green, or Level is Manager or Director).
   */
  lemma ComplexCriteria()
    ensures Compile([Dict([("OR", List(ProjectOrLocation()))]),
                     Dict([("AND", List([Dict([("OR", List(GroupOrLevel()))])]))])])
         == Ok(Some(And(ProjectOrLocationCondition(), GroupOrLevelCondition())))
  {
    var first := ProjectOrLocation();
    ProjectOrLocationCompiles();
    assert first != [] && !first[0].Str?;
    assert CompileEntry("OR", List(first)) == Ok(Some(ProjectOrLocationCondition()));
    var second := [Dict([("OR", List(GroupOrLevel()))])];
    SecondGroupCompiles();
    assert !second[0].Str?;
    assert CompileEntry("AND", List(second)) == Ok(Some(GroupOrLevelCondition()));
    TwoEntryGroup("OR", List(first), "AND", List(second), "and",
                  ProjectOrLocationCondition(), GroupOrLevelCondition());
  }

  /** The `AND` group holds the one `OR` group, so it means that group. */
  lemma SecondGroupCompiles()
    ensures CompileFrom([Dict([("OR", List(GroupOrLevel()))])], "AND", None) == Ok(Some(GroupOrLevelCondition()))
  {
    var inner := GroupOrLevel();
    GroupOrLevelCompiles();
    assert inner != [] && !inner[0].Str?;
    assert CompileEntry("OR", List(inner)) == Ok(Some(GroupOrLevelCondition()));
    OneKeyEntry("OR", List(inner), [], "AND", None, Some(GroupOrLevelCondition()), Some(GroupOrLevelCondition()));
    assert [Dict([("OR", List(inner))])] + [] == [Dict([("OR", List(inner))])];
  }

  lemma ProjectOrLocationCompiles()
    ensures CompileFrom(ProjectOrLocation(), "OR", None) == Ok(Some(ProjectOrLocationCondition()))
  {
    var isIn := [("comparison_operator", Str("is_in")), ("value", List([Str("Phoenix"), Str("Pegasus")]))];
    assert isIn[0].0 == "comparison_operator";
    assert Get(isIn, "value") == Some(List([Str("Phoenix"), Str("Pegasus")]));
    CoercePair("Phoenix", "Pegasus");
    var c := ProjectOrLocationCondition();
    assert CompileEntry("ProjectGroup", Dict(isIn)) == Ok(Some(c.left));
    EqualityShorthand("Location", Str("Houston"));
    assert IsOr("OR");
    TwoEntryGroup("ProjectGroup", Dict(isIn), "Location", Str("Houston"), "OR", c.left, c.right);
  }

  lemma GroupOrLevelCompiles()
    ensures CompileFrom(GroupOrLevel(), "OR", None) == Ok(Some(GroupOrLevelCondition()))
  {
    CoercePair("Manager", "Director");
    var c := GroupOrLevelCondition();
    assert CompileEntry("Level", List([Str("Manager"), Str("Director")])) == Ok(Some(c.right));
    EqualityShorthand("LaunchGroup", Str("green"));
    assert IsOr("OR");
    TwoEntryGroup("LaunchGroup", Str("green"), "Level", List([Str("Manager"), Str("Director")]), "OR", c.left, c.right);
  }

  lemma CoercePair(a: string, b: string)
    ensures Coerce(List([Str(a), Str(b)])) == List([Tagged("S", Str(a)), Tagged("S", Str(b))])
  {
    var c := Coerce(List([Str(a), Str(b)]));
    assert |c.items| == 2 && c.items[0] == Coerce(Str(a)) && c.items[1] == Coerce(Str(b));
    assert c.items == [Tagged("S", Str(a)), Tagged("S", Str(b))];
  }

  /** One step of the fold: an entry with a single key whose condition combines into `acc`. */
  lemma OneKeyEntry(k: string, v: Value, rest: seq<Value>, joinType: string,
                    acc: Option<Condition>, cond: Option<Condition>, acc': Option<Condition>)
    requires CompileEntry(k, v) == Ok(cond)
    requires Combine(acc, cond, joinType, k) == Ok(acc')
    ensures CompileFrom([Dict([(k, v)])] + rest, joinType, acc) == CompileFrom(rest, joinType, acc')
  {
    var filters := [Dict([(k, v)])] + rest;
    assert filters[0] == Dict([(k, v)]) && filters[1..] == rest;
    assert CompileEntries([(k, v)], joinType, acc) == Ok(acc');
  }

  /** A misspelt operator is reported with the key and the operator. */
  lemma MisspeltOperator()
    ensures Compile([Dict([("GradePercentage", Dict([
              ("comparison_operator", Str("between_badly")), ("value", Int(20))]))])])
         == Err(InvalidComparisonOperator("GradePercentage", "between_badly"))
  {
    var constraint := [("comparison_operator", Str("between_badly")), ("value", Int(20))];
    assert constraint[0].0 == "comparison_operator";
  }

  /** The documented scan result: a two-attribute item, one of them a list, has its tags stripped. */
  lemma ReturnedItemSimplified()
    ensures Strip(List([Dict([
              ("AttributeA", Tagged("S", Str("ValueA"))),
              ("AttributeList", Tagged("L", List([Tagged("S", Str("ListItem1")), Tagged("S", Str("ListItem2"))])))])]))
         == List([Dict([
              ("AttributeA", Str("ValueA")),
              ("AttributeList", List([Str("ListItem1"), Str("ListItem2")]))])])
  {
    var l := List([Tagged("S", Str("ListItem1")), Tagged("S", Str("ListItem2"))]);
    assert Strip(Tagged("S", Str("ListItem1"))) == Str("ListItem1");
    assert Strip(Tagged("S", Str("ListItem2"))) == Str("ListItem2");
    assert Strip(l) == List([Str("ListItem1"), Str("ListItem2")]);
    assert Strip(Tagged("L", l)) == Strip(l);
    assert Strip(Tagged("S", Str("ValueA"))) == Str("ValueA");
    var record := Dict([("AttributeA", Tagged("S", Str("ValueA"))), ("AttributeList", Tagged("L", l))]);
    assert Strip(record).entries == [("AttributeA", Str("ValueA")), ("AttributeList", List([Str("ListItem1"), Str("ListItem2")]))];
    assert Strip(List([record])).items == [Strip(record)];
  }
}
