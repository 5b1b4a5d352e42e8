# DynamoDB conditions helper

A Dafny model of `DynamoDbConditionsHelper` in
`dynamodb_conditions.py`, the helper of the `dynamodb_scan_table_facts`
module. That module uses the helper in two ways:

- **before a scan**, it turns the user's `filter_expression`, a YAML list of
  `{attribute: constraint}` mappings, into one boto3 condition object;
- **after a scan**, it strips the DynamoDB type tags (`{"S": ...}`,
  `{"N": ...}`, `{"L": ...}`) from the returned items.

The model has three operations:

- **`check_type`** tags a bare string as `{"S": s}` and a bare int as
  `{"N": n}`. It coerces a list element by element. Every other value
  passes through unchanged.
- **`translate_filters`** handles every key of every filter entry in order:
  - a list whose first element is a string becomes `is_in` on the coerced
    list;
  - any other list is a nested group, compiled recursively with the key
    (`OR`, `AND`, ...) as its join type;
  - anything else is a constraint `{comparison_operator?, value?}`. A bare
    literal is read as `{value: literal}` and a missing operator as `eq`.

  The conditions are folded left to right. The first one is taken as it
  is; each later one is joined with `|` when `join_type.lower() == 'or'` and
  with `&` otherwise.
- **`simplify`** walks lists and mappings. It replaces every mapping that
  has exactly one key by the simplification of its value. Every other
  mapping keeps its keys and has its values simplified.

## Structure

Python values are the datatype `Values.Value`. A dict is a sequence of
(key, value) pairs in the order `dict.keys()` lists them. Each operation
exists in two forms:

- a function on values that says what the operation returns: `Coerce`,
  `Compile` and `Strip`;
- a method that runs the source's own loops step by step and is proved
  to compute that function: `CheckType`, `TranslateFilters` and `Simplify`.

Errors are values of `FilterCompiler.FilterError` inside a `Result`. This
covers both the Python exceptions the source lets escape and the two
messages its handler reports. The comparator behind an operator name is
resolved through a fixed table (`Operators.Lookup`). In the source, that
name is spliced into an `eval`. How a comparator evaluates on the store is
a parameter of `FilterSemantics.Holds`.

Modules:

| file | module | contents |
|---|---|---|
| `values.dfy` | `Wrappers`, `Values` | `Option`, `Result` and Python values |
| `type_coercer.dfy` | `TypeCoercer` | `check_type` |
| `operators.dfy` | `Operators` | the comparators, the join-type test, and the `eval` dispatch as written |
| `filter_compiler.dfy` | `FilterCompiler` | `translate_filters` as a function, with its properties |
| `filter_semantics.dfy` | `FilterSemantics` | what a compiled frame means |
| `result_simplifier.dfy` | `ResultSimplifier` | `simplify`, as written and as intended |
| `conditions_helper.dfy` | `DynamoDbConditions` | the helper's methods, loop by loop |
| `examples_documented.dfy` | `DocumentedExamples` | the filters and the result from the scan module's documentation |

Three behaviours of the code that a reader might not expect:

- A coerced list stays a bare list of tagged elements; no `{"L": [...]}`
  wrapper is added (dynamodb_conditions.py:44-47).
- The list shorthand is chosen by the shape of the value, whatever the key:
  a list headed by a string is `is_in`, any other list a nested group
  joined by the key (dynamodb_conditions.py:56-62).
- The comment above `simplify` (dynamodb_conditions.py:102-104) describes
  `Attr: {"S": "value"}` becoming `Attr: "value"`, but the code unwraps
  every one-key mapping, so a one-attribute item loses its attribute name
  (see "## Findings").

## Model

| member | source | states |
|---|---|---|
| TypeCoercer.Coerce | plugins/module_utils/aws/dynamodb_conditions.py:39-47 | the result holds no raw str or int along its list spine; it is a list exactly when the input is, and of the same length |
| TypeCoercer.CoerceScalars | plugins/module_utils/aws/dynamodb_conditions.py:40-43 | a str becomes {"S": s} and an int becomes {"N": n}, with the literal kept as the payload |
| TypeCoercer.CoerceList | plugins/module_utils/aws/dynamodb_conditions.py:44-46 | element i of a coerced list is the coercion of element i; no "L" tag is added |
| TypeCoercer.CoerceFixpoint | plugins/module_utils/aws/dynamodb_conditions.py:39-47 | coercion leaves a value unchanged exactly when no raw str or int remains on its list spine |
| TypeCoercer.CoerceIdempotent | plugins/module_utils/aws/dynamodb_conditions.py:39-47 | coercing an already coerced value changes nothing, so a tagged value passes through |
| DynamoDbConditions.CheckType | plugins/module_utils/aws/dynamodb_conditions.py:39-47 | the element-by-element replacement loop returns exactly the coerced value |
| Operators.LookupName | plugins/module_utils/aws/dynamodb_conditions.py:70-74 | an operator name resolves to a comparator exactly when it is that comparator's method name |
| Operators.Lower | plugins/module_utils/aws/dynamodb_conditions.py:78 | `str.lower()` maps A-Z to a-z and leaves every other character alone; what this means for the join is stated by Operators.IsOr |
| Operators.IsOr | plugins/module_utils/aws/dynamodb_conditions.py:78 | `join_type.lower() == 'or'` holds exactly for "or", "Or", "oR" and "OR"; every other join type, "and" included, joins with AND |
| Operators.ComparatorNamesAreNames | plugins/module_utils/aws/dynamodb_conditions.py:70-74 | every comparator name is a Python name that is not a keyword, so it never raises SyntaxError |
| Operators.EvalAsWritten | plugins/module_utils/aws/dynamodb_conditions.py:70-74 | the eval builds a comparator only when the name is that comparator's and the operand count is its arity; it raises SyntaxError exactly when the name is not a Python attribute name |
| Operators.HandlerAsWritten | plugins/module_utils/aws/dynamodb_conditions.py:84-91 | as the handler is written, an exception escapes exactly when the name is a Python name that is not a comparator or the operand count is not the comparator's arity; only non-names are reported as invalid, and the generic construction message is never given |
| Operators.UnknownNameEscapesHandler | plugins/module_utils/aws/dynamodb_conditions.py:74-91 | the misspelt "between_badly" with one operand raises AttributeError, which escapes the handler |
| Operators.WrongArityEscapesHandler | plugins/module_utils/aws/dynamodb_conditions.py:70-91 | "exists" and "between" given one operand raise TypeError, which escapes the handler |
| FilterCompiler.Combine | plugins/module_utils/aws/dynamodb_conditions.py:75-82 | the first condition is taken as it is; a later one is OR-ed when the join type is "or" and AND-ed otherwise; combining onto a condition a group without one is an error; its meaning over a whole frame is proved by FilterSemantics.JoinAllHolds and FilterSemantics.FrameMeaning |
| FilterCompiler.OperatorOf | plugins/module_utils/aws/dynamodb_conditions.py:67-68 | the operator is the given comparison_operator when there is one and "eq" otherwise; FilterCompiler.DefaultOperatorIsEq proves that this is the same as adding "eq" to the constraint |
| FilterCompiler.ConstraintShape | plugins/module_utils/aws/dynamodb_conditions.py:67-74 | a constraint that compiles gives one comparator on its key; it has an operand exactly when the constraint has a value, and that operand is the coerced value |
| FilterCompiler.EqualityShorthand | plugins/module_utils/aws/dynamodb_conditions.py:64-68 | a bare literal under a key compiles to eq on the key with the coerced literal |
| FilterCompiler.DefaultOperatorIsEq | plugins/module_utils/aws/dynamodb_conditions.py:67-68 | a constraint without comparison_operator compiles as if "eq" were added to it |
| FilterCompiler.ListShorthandIsIsIn | plugins/module_utils/aws/dynamodb_conditions.py:56-60 | a list whose first element is a string compiles the same as an explicit is_in constraint on that list |
| FilterCompiler.NamedOperatorUsed | plugins/module_utils/aws/dynamodb_conditions.py:86-89 | an operator name is reported invalid, with its key and name, exactly when no comparator has that name; a compiled comparator is always the named one |
| FilterCompiler.WrongArityReported | plugins/module_utils/aws/dynamodb_conditions.py:90-91 | a known comparator given an operand count it does not take is reported as a construction error |
| FilterCompiler.CorrectedDispatch | plugins/module_utils/aws/dynamodb_conditions.py:70-91 | where the eval builds a comparator, the model builds the same one; each exception the eval raises is reported by the model as the matching handler message |
| FilterCompiler.Compile | plugins/module_utils/aws/dynamodb_conditions.py:50-53 | an empty filter list compiles to "no condition" (False); every operand of a compiled condition has been through check_type |
| FilterCompiler.CompileFrom | plugins/module_utils/aws/dynamodb_conditions.py:54 | the outer loop over the remaining entries: no entries leave the accumulated value as it is, and once a condition has been accumulated a successful result still holds one |
| FilterCompiler.CompileEntries | plugins/module_utils/aws/dynamodb_conditions.py:55 | the inner loop over one entry's remaining keys: no keys leave the accumulated value as it is, and once a condition has been accumulated a successful result still holds one |
| FilterCompiler.CompileEntry | plugins/module_utils/aws/dynamodb_conditions.py:56-66 | an empty list is an error naming the key; a list headed by a string is is_in on the coerced list; any other value that is not a list gives a single comparator on the key; a list with a non-string head is compiled as a frame joined by the key, whose meaning FilterSemantics.CompileIsJoinOfOperands and FilterSemantics.FrameMeaning give |
| FilterCompiler.CompileConstraint | plugins/module_utils/aws/dynamodb_conditions.py:67-74 | a constraint that compiles gives one comparator on its key; one that does not is reported as a non-string operator, an unknown operator or a construction error, always naming the key |
| FilterCompiler.CompileFromAppend | plugins/module_utils/aws/dynamodb_conditions.py:54 | the filter entries are folded left to right: a concatenation continues from the result of its prefix, and an error in the prefix stops the fold |
| FilterCompiler.JoinTypeOnlyThroughIsOr | plugins/module_utils/aws/dynamodb_conditions.py:78-82 | two join types compile every filter list alike when both lower-case to "or" or neither does |
| FilterCompiler.CompiledOperandsCoerced | plugins/module_utils/aws/dynamodb_conditions.py:56-74 | every operand in a compiled condition has been through check_type, so no raw str or int reaches a comparator |
| FilterSemantics.CompileIsJoinOfOperands | plugins/module_utils/aws/dynamodb_conditions.py:54-82 | the nested loops compute the left-to-right join of the per-key conditions of every entry; a frame with a key that fails to compile fails |
| FilterSemantics.JoinAllHolds | plugins/module_utils/aws/dynamodb_conditions.py:75-82 | joining conditions onto one gives the disjunction of all of them under "or" and their conjunction otherwise |
| FilterSemantics.FrameMeaning | plugins/module_utils/aws/dynamodb_conditions.py:54-83 | a frame whose keys all give conditions holds of an item exactly when one of them does (join "or") or all of them do (any other join) |
| FilterSemantics.JoinAllNone | plugins/module_utils/aws/dynamodb_conditions.py:53-76 | a frame gives False exactly when none of its keys gave a condition |
| FilterSemantics.JoinAllSomeStaysSome | plugins/module_utils/aws/dynamodb_conditions.py:75-82 | once a condition has been accumulated, the fold never returns to False |
| DynamoDbConditions.TranslateFilters | plugins/module_utils/aws/dynamodb_conditions.py:50-91 | the outer and inner loops, with the recursive call for groups and the early error exits, return exactly the compiled filter |
| DynamoDbConditions.ConstraintCondition | plugins/module_utils/aws/dynamodb_conditions.py:63-74 | wrapping a bare literal, adding "eq", and coercing the value, performed as the source does on the constraint mapping, give exactly the constraint's compiled condition |
| ResultSimplifier.Strip | plugins/module_utils/aws/dynamodb_conditions.py:101-116 | no mapping with exactly one key is left anywhere in the result; lists keep their length; a mapping with other than one key keeps its keys in order |
| ResultSimplifier.StripFixpoint | plugins/module_utils/aws/dynamodb_conditions.py:101-116 | simplifying leaves a value unchanged exactly when it holds no one-key mapping |
| ResultSimplifier.StripIdempotent | plugins/module_utils/aws/dynamodb_conditions.py:101-116 | simplifying a simplified value changes nothing |
| ResultSimplifier.StripRecordsKeepsShape | plugins/module_utils/aws/dynamodb_conditions.py:105-115 | a list of items keeps one element per item, and an item with several attributes keeps its attribute names |
| ResultSimplifier.SingleAttributeRecordLosesName | plugins/module_utils/aws/dynamodb_conditions.py:109-112 | an item with the single attribute Location tagged "S" simplifies to the bare string, losing the name "Location" |
| ResultSimplifier.StripAttributes | plugins/module_utils/aws/dynamodb_conditions.py:102-104 | the intended stripping of a record's attributes keeps every attribute name in order |
| ResultSimplifier.StripItem | plugins/module_utils/aws/dynamodb_conditions.py:102-104 | an item stripped as intended stays a mapping with the same attribute names |
| ResultSimplifier.StripAgreesWithoutSingletonMaps | plugins/module_utils/aws/dynamodb_conditions.py:101-116 | on an item with other than one attribute and no one-attribute "M" map, the code's result equals the intended one |
| ResultSimplifier.SingleAttributeRecordKeepsName | plugins/module_utils/aws/dynamodb_conditions.py:102-104 | the intended result for the one-attribute item keeps Location: "datacenter" |
| DynamoDbConditions.Simplify | plugins/module_utils/aws/dynamodb_conditions.py:101-116 | the list loop and the mapping loop, with their recursive calls, return exactly the simplified value |
| Values.Get | plugins/module_utils/aws/dynamodb_conditions.py:67-69 | a lookup in a mapping finds a value exactly when the key is present, and returns the first value stored under that key |
| Values.GetAppend | plugins/module_utils/aws/dynamodb_conditions.py:68 | adding a new key to a mapping changes the lookup of that key only |
| DocumentedExamples.LocationShorthand | plugins/modules/cloud/amazon/dynamodb_scan_table_facts.py:84-96 | the explicit "eq" filter on Location and the shorthand `Location: datacenter` compile to the same eq condition |
| DocumentedExamples.GradeOutsideRange | plugins/modules/cloud/amazon/dynamodb_scan_table_facts.py:107-121 | the OR group of "lt 20" and "gt 80" on GradePercentage compiles to their disjunction |
| DocumentedExamples.ComplexCriteria | plugins/modules/cloud/amazon/dynamodb_scan_table_facts.py:124-147 | the documented complex criteria compile to (ProjectGroup is_in or Location eq) AND (LaunchGroup eq or Level is_in) |
| DocumentedExamples.MisspeltOperator | plugins/module_utils/aws/dynamodb_conditions.py:86-89 | an unknown operator under GradePercentage is reported as invalid, naming both the key and the operator |
| DocumentedExamples.ReturnedItemSimplified | plugins/modules/cloud/amazon/dynamodb_scan_table_facts.py:150-166 | the documented sample item has its "S" and "L" tags stripped and keeps both attribute names |

## Left out

- `build_filter_expression` and boto3's `ConditionExpressionBuilder` are left out: they hand the condition to boto3's expression renderer, which is outside this code.
- `main()` of the scan-facts module and the scan call itself are left out. They cover parameter parsing, the AWS client, the single `scan` call and `exit_json`.
- Calls to `fail_json_aws` become `Err` results. The module's exit, and botocore's `ClientError`, are not modelled.
- Python exceptions (AttributeError, IndexError, TypeError and boto3's operation-not-supported error) become `FilterError` values. The traceback and the exact exception class are not kept.
- DynamoDbConditions.CheckType, DynamoDbConditions.TranslateFilters, DynamoDbConditions.ConstraintCondition and DynamoDbConditions.Simplify: these return new values. The source updates the caller's lists and dicts in place, and that update, and any aliasing it causes, is not modelled.
- Operators.Lookup: the reflective `eval` is replaced by a table of the fourteen comparators of `conditions.Attr`. Other members of `Attr` that `eval` could reach, such as inherited Python methods, are not modelled.
- Operators.Arity: the operand count of each comparator comes from boto3's method signatures, as follows: `exists`, `not_exists` and `size` take none, `between` takes two, and all others take one. Since the source passes one operand or none, `between` always fails to construct.
- FilterCompiler.CompileConstraint: `size` yields boto3's `Size` object, which the model treats as a zero-operand comparator.
- Operators.IsAttributeName: the test for Python syntax validity is approximated. It checks an ASCII name that is not a Python 2 keyword, and does not model strings that are valid expressions once spliced, such as `eq(1) or 1 ==`.
- FilterSemantics.Holds: what each comparator tests on a stored item is a parameter and is not modelled.
- Values.Value: `Int` stands for Python 2 ints up to `sys.maxint`; a larger literal is a `long` there, which `check_type` (dynamodb_conditions.py:42) passes through untagged, while the model tags every `Int` as "N". Floats, `unicode`, sets and other types are not modelled; `Bool` and `Null` stand for values that `check_type` passes through. In Python 2, `type(x) is str` is false for `unicode`, and the model does not draw that line.
- Values.Value: a dict's keys are strings, in the order `dict.keys()` lists them. Python 2's hash order is not modelled.
- Values.Value: a `Dict` may hold the same key twice, which no Python dict does; `Values.Get` then reads the first entry, and `Compile` and `Strip` visit every entry. On dicts with distinct keys, the ones Python produces, the model behaves as the source does.
- ResultSimplifier.Strip and DynamoDbConditions.Simplify follow Python 2, where `dict.keys()` is a list. On Python 3, `keys[0]` and `keys[idx]` (dynamodb_conditions.py:110-115) raise TypeError for every non-empty dict, and the model does not capture that.

## Findings

| source | as written | input that shows it | evidently intended | confidence | as-written member | corrected member |
|---|---|---|---|---|---|---|
| plugins/module_utils/aws/dynamodb_conditions.py:86-91 | the handler catches only SyntaxError, which the eval raises only for names that are not Python names | `{comparison_operator: between_badly, value: 20}` raises AttributeError, and `{comparison_operator: exists, value: 1}` raises TypeError; both escape uncaught | an unknown comparator is reported as 'Comparison "…" not a valid comparison_operator', and a wrong operand count as 'Error constructing filter condition objects' | not executed | Operators.HandlerAsWritten, Operators.UnknownNameEscapesHandler, Operators.WrongArityEscapesHandler | FilterCompiler.CorrectedDispatch, FilterCompiler.NamedOperatorUsed, FilterCompiler.WrongArityReported |
| plugins/module_utils/aws/dynamodb_conditions.py:109-112 | every mapping with exactly one key is unwrapped, including an item with one attribute and an "M" map with one entry | `[{"Location": {"S": "datacenter"}}]` simplifies to `["datacenter"]` | the type tag is removed and the attribute name is kept, giving `[{"Location": "datacenter"}]` | not executed | ResultSimplifier.SingleAttributeRecordLosesName | ResultSimplifier.StripItem, ResultSimplifier.SingleAttributeRecordKeepsName, ResultSimplifier.StripAgreesWithoutSingletonMaps |
