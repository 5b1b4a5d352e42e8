/**
 * What a compiled filter means. One call frame of `translate_filters`
 * produces one condition per key of its entries, in order, and joins them
 * all with the one operator its join type selects; a condition then holds
 * of an item as the AND or OR of those conditions. What each comparator
 * tests on the remote store is a parameter here.
 */
module FilterSemantics {

  import opened Wrappers
  import opened Values
  import opened Operators
  import opened FilterCompiler

  /** What the store's evaluation of a single comparator says about one item. */
  type LeafTest = (string, Comparator, Option<Value>) -> bool

  function Holds(c: Condition, test: LeafTest): bool {
    match c
    case Compare(attr, op, operand) => test(attr, op, operand)
    case And(l, r) => Holds(l, test) && Holds(r, test)
    case Or(l, r) => Holds(l, test) || Holds(r, test)
  }

  /** The keyed conditions one frame produces, before they are joined. */
  function FrameOperands(filters: seq<Value>): Result<seq<(string, Option<Condition>)>, FilterError>
    decreases filters
  {
    if filters == [] then Ok([])
    else match filters[0]
      case Dict(entries) =>
        var first :- EntryOperands(entries);
        var rest :- FrameOperands(filters[1..]);
        Ok(first + rest)
      case _ => Err(NotAMapping(filters[0]))
  }

  function EntryOperands(entries: seq<(string, Value)>): Result<seq<(string, Option<Condition>)>, FilterError>
    decreases entries
  {
    if entries == [] then Ok([])
    else
      var cond :- CompileEntry(entries[0].0, entries[0].1);
      var rest :- EntryOperands(entries[1..]);
      Ok([(entries[0].0, cond)] + rest)
  }

  /** The operands folded left to right into `acc` with one join type. */
  function JoinAll(ops: seq<(string, Option<Condition>)>, joinType: string, acc: Option<Condition>): Compiled {
    if ops == [] then Ok(acc)
    else match Combine(acc, ops[0].1, joinType, ops[0].0)
      case Ok(acc') => JoinAll(ops[1..], joinType, acc')
      case Err(e) => Err(e)
  }

  lemma {:induction false} JoinAllAppend(a: seq<(string, Option<Condition>)>, b: seq<(string, Option<Condition>)>, joinType: string, acc: Option<Condition>)
    ensures JoinAll(a + b, joinType, acc)
         == match JoinAll(a, joinType, acc)
            case Ok(acc') => JoinAll(b, joinType, acc')
            case Err(e) => Err(e)
  {
    if a == [] {
      assert a + b == b;
    } else {
      assert (a + b)[0] == a[0] && (a + b)[1..] == a[1..] + b;
      match Combine(acc, a[0].1, joinType, a[0].0)
      case Ok(acc') => JoinAllAppend(a[1..], b, joinType, acc');
      case Err(_) =>
    }
  }

  /**
   * The nested loops of a frame compute exactly the join of the frame's
   * operands: when every key compiles, the result is their left-to-right
   * join; when one does not, the frame fails too.
   */
  lemma {:induction false} CompileIsJoinOfOperands(filters: seq<Value>, joinType: string, acc: Option<Condition>)
    ensures FrameOperands(filters).Ok? ==>
      CompileFrom(filters, joinType, acc) == JoinAll(FrameOperands(filters).value, joinType, acc)
    ensures FrameOperands(filters).Err? ==> CompileFrom(filters, joinType, acc).Err?
    decreases filters
  {
    if filters != [] && filters[0].Dict? {
      var entries := filters[0].entries;
      EntriesAreJoinOfOperands(entries, joinType, acc);
      if EntryOperands(entries).Ok? {
        var first := EntryOperands(entries).value;
        match JoinAll(first, joinType, acc)
        case Ok(acc') =>
          CompileIsJoinOfOperands(filters[1..], joinType, acc');
          if FrameOperands(filters[1..]).Ok? {
            JoinAllAppend(first, FrameOperands(filters[1..]).value, joinType, acc);
          }
        case Err(_) =>
          if FrameOperands(filters[1..]).Ok? {
            JoinAllAppend(first, FrameOperands(filters[1..]).value, joinType, acc);
          }
      }
    }
  }

  lemma {:induction false} EntriesAreJoinOfOperands(entries: seq<(string, Value)>, joinType: string, acc: Option<Condition>)
    ensures EntryOperands(entries).Ok? ==>
      CompileEntries(entries, joinType, acc) == JoinAll(EntryOperands(entries).value, joinType, acc)
    ensures EntryOperands(entries).Err? ==> CompileEntries(entries, joinType, acc).Err?
    decreases entries
  {
    if entries != [] && CompileEntry(entries[0].0, entries[0].1).Ok? {
      var cond := CompileEntry(entries[0].0, entries[0].1).value;
      var head := [(entries[0].0, cond)];
      match Combine(acc, cond, joinType, entries[0].0)
      case Ok(acc') =>
        EntriesAreJoinOfOperands(entries[1..], joinType, acc');
        if EntryOperands(entries[1..]).Ok? {
          JoinAllAppend(head, EntryOperands(entries[1..]).value, joinType, acc);
        }
      case Err(_) =>
        if EntryOperands(entries[1..]).Ok? {
          JoinAllAppend(head, EntryOperands(entries[1..]).value, joinType, acc);
        }
    }
  }

  /** Joining conditions onto `a` gives the OR of all of them, or the AND, as the join type says. */
  lemma {:induction false} JoinAllHolds(ops: seq<(string, Option<Condition>)>, joinType: string, a: Condition, test: LeafTest)
    requires forall i :: 0 <= i < |ops| ==> ops[i].1.Some?
    ensures JoinAll(ops, joinType, Some(a)).Ok? && JoinAll(ops, joinType, Some(a)).value.Some?
    ensures Holds(JoinAll(ops, joinType, Some(a)).value.value, test) <==>
      if IsOr(joinType) then Holds(a, test) || exists i :: 0 <= i < |ops| && Holds(ops[i].1.value, test)
      else Holds(a, test) && forall i :: 0 <= i < |ops| ==> Holds(ops[i].1.value, test)
  {
    if ops != [] {
      var next := if IsOr(joinType) then Or(a, ops[0].1.value) else And(a, ops[0].1.value);
      JoinAllHolds(ops[1..], joinType, next, test);
      if IsOr(joinType) {
        if exists i :: 0 <= i < |ops| && Holds(ops[i].1.value, test) {
          var i :| 0 <= i < |ops| && Holds(ops[i].1.value, test);
          if i > 0 { assert Holds(ops[1..][i - 1].1.value, test); }
        }
      } else {
        if Holds(next, test) && forall i :: 0 <= i < |ops[1..]| ==> Holds(ops[1..][i].1.value, test) {
          forall i | 0 <= i < |ops| ensures Holds(ops[i].1.value, test) {
            if i > 0 { assert ops[i] == ops[1..][i - 1]; }
          }
        }
      }
    }
  }

  /**
   * A frame whose keys all compile to conditions means the OR of those
   * conditions when its join type is "or" in any case, and their AND
   * otherwise.
   */
  lemma FrameMeaning(filters: seq<Value>, joinType: string, test: LeafTest)
    requires FrameOperands(filters).Ok?
    requires |FrameOperands(filters).value| > 0
    requires forall i :: 0 <= i < |FrameOperands(filters).value| ==> FrameOperands(filters).value[i].1.Some?
    ensures Compile(filters, joinType).Ok? && Compile(filters, joinType).value.Some?
    ensures var ops := FrameOperands(filters).value;
      Holds(Compile(filters, joinType).value.value, test) <==>
      if IsOr(joinType) then exists i :: 0 <= i < |ops| && Holds(ops[i].1.value, test)
      else forall i :: 0 <= i < |ops| ==> Holds(ops[i].1.value, test)
  {
    var ops := FrameOperands(filters).value;
    CompileIsJoinOfOperands(filters, joinType, None);
    JoinAllHolds(ops[1..], joinType, ops[0].1.value, test);
    if IsOr(joinType) {
      if exists i :: 0 <= i < |ops| && Holds(ops[i].1.value, test) {
        var i :| 0 <= i < |ops| && Holds(ops[i].1.value, test);
        if i > 0 { assert Holds(ops[1..][i - 1].1.value, test); }
      }
    } else {
      if Holds(ops[0].1.value, test) && forall i :: 0 <= i < |ops[1..]| ==> Holds(ops[1..][i].1.value, test) {
        forall i | 0 <= i < |ops| ensures Holds(ops[i].1.value, test) {
          if i > 0 { assert ops[i] == ops[1..][i - 1]; }
        }
      }
    }
  }

  /** A frame gives "no condition" exactly when none of its keys gave a condition. */
  lemma {:induction false} JoinAllNone(ops: seq<(string, Option<Condition>)>, joinType: string)
    ensures JoinAll(ops, joinType, None) == Ok(None) <==> forall i :: 0 <= i < |ops| ==> ops[i].1.None?
  {
    if ops != [] {
      JoinAllNone(ops[1..], joinType);
      if ops[0].1.Some? {
        JoinAllSomeStaysSome(ops[1..], joinType, ops[0].1.value);
      } else {
        forall i | 0 <= i < |ops| && (forall j :: 0 <= j < |ops[1..]| ==> ops[1..][j].1.None?)
          ensures ops[i].1.None?
        {
          if i > 0 { assert ops[i] == ops[1..][i - 1]; }
        }
      }
    }
  }

  /** Once a condition has been accumulated, the fold never returns to "no condition". */
  lemma {:induction false} JoinAllSomeStaysSome(ops: seq<(string, Option<Condition>)>, joinType: string, a: Condition)
    ensures JoinAll(ops, joinType, Some(a)) != Ok(None)
  {
    if ops != [] && ops[0].1.Some? {
      var next := if IsOr(joinType) then Or(a, ops[0].1.value) else And(a, ops[0].1.value);
      JoinAllSomeStaysSome(ops[1..], joinType, next);
    }
  }
}
