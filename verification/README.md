# Slight test runner and number humanizer, modelled in Dafny

This project models two parts of the Slight library.

**The test runner** (`Microsoft.VisualStudio.TestTools.UnitTesting.TestRunner`). It is a small
stand-in for MSTest. It finds the types that carry `[TestClass]`, builds one instance of each, and
sorts the public instance methods into three lists: `[TestInitialize]`, `[TestMethod]` and
`[TestCleanup]`. It runs them as `initializes.All(...)`, then `methods.All(...)`, then
`cleanups.All(...)`. Each call returns `true` when the method returns. It returns `false` when the
method throws an exception whose exact type is named by one of its `[ExpectedException]`
attributes. Any other exception escapes. Because `All` stops at the first `false`:
- each phase stops at its first suppressed method;
- a suppressed initializer cancels the tests and the cleanups;
- an escaping exception ends everything, cleanups and later classes included.

Every step writes a line to `Trace`.

**The humanizer** (`System.Text.Humanize`). It holds two prefix tables: decimal `1000^k` and
binary `1024^k`. `long.ToString(Multiple)` picks the first entry `p` with `0 < value / p.Integer`
(C#'s truncating `long` division) and falls back to `BinaryPrefix.None`.
`HumanizeNumberFormatter` maps the format letters `D`, `B` and the default to those tables.

Files:
- `wrappers.dfy`: `Option`.
- `test_model.dfy`: module `TestModel`. This is the registry that replaces reflection. A
  `MethodDesc` holds a method's role attributes, its expected exception types and its behaviour
  (`Completes` or `Raises(kind)`). A `ClassDesc` holds a type's `TestClass` flag, its constructor
  behaviour and its methods in reflection order. The file also defines trace lines and outcomes.
- `lifecycle.dfy`: module `Lifecycle`. It holds the runner's behaviour as functions:
  - `Tagged` (the `Where` filters);
  - `Invoke` (RunTestMethodInternal);
  - `Phase` (one `All`);
  - `LifecycleRun` and `SuiteRun` (RunTests);
  - `TypeRun` (Run(Type) and Run<T>);
  - `ModuleRun` (Run(Assembly)).

  It also holds the lemmas about these functions.
- `test_runner.dfy`: module `TestRunner`. These are the runner's methods, written imperatively
  over a `TraceSink` object that stands for `Trace`. Each one is proved to write exactly the lines,
  and to end exactly as, the `Lifecycle` functions say.
- `scenarios.dfy`: module `Scenarios`, concrete classes with their exact traces.
- `humanize.dfy`: module `Humanize`, the tables, prefix choice and formatter.

Three consequences of the code worth noting:
- A constructor that throws inside `Run(Assembly)` is not confined to its class. `Run(type)` is
  called inside the `foreach` without a `catch`, so the exception ends the whole assembly run
  (`EscapeSkipsLaterClasses`).
- A suppressed cleanup stops the remaining cleanups, exactly as in the other two phases
  (`cleanups.All`).
- `Format` calls `Convert.ToInt64(arg)` before it looks at the format letter. So with an unknown
  letter, an argument that cannot be converted throws rather than being returned `as string`.

## Model

| member | source | states |
|---|---|---|
| `Lifecycle.Tagged` | Source/Microsoft.VisualStudio.TestTools.UnitTesting.TestRunner.cs:81-84 | the `Where` filter over the class's methods: never longer than the method list; its members are stated by `TaggedMembers`, its order by `TaggedAppend` |
| `Lifecycle.TaggedMembers` | Source/Microsoft.VisualStudio.TestTools.UnitTesting.TestRunner.cs:81-84 | a method is in a role's list exactly when it is a method of the class carrying that role attribute: a method with two role tags is in both lists, an untagged one in none |
| `Lifecycle.TaggedAppend` | Source/Microsoft.VisualStudio.TestTools.UnitTesting.TestRunner.cs:81-84 | the filters keep reflection order: filtering a concatenation is concatenating the filtered parts |
| `Lifecycle.TaggedAllRoles` | Source/Microsoft.VisualStudio.TestTools.UnitTesting.TestRunner.cs:81-84 | a list whose methods all carry the role is kept whole and in order |
| `Lifecycle.Invoke` | Source/Microsoft.VisualStudio.TestTools.UnitTesting.TestRunner.cs:106-121 | a normal return is `true`; an exception whose exact type equals one of the expected types is `false`; any other exception escapes as itself |
| `Lifecycle.Phase` | Source/Microsoft.VisualStudio.TestTools.UnitTesting.TestRunner.cs:85-87 | one `All` over a role list, with the line written before each call; what it does is stated by `PhaseShape`, `PhaseStopsAt`, `PhaseAllComplete`, `PhaseAppend` and `PhaseLines` |
| `Lifecycle.PhaseShape` | Source/Microsoft.VisualStudio.TestTools.UnitTesting.TestRunner.cs:85-104 | a phase attempts a prefix of its list with one labelled line per attempted method; it is `true` exactly when every method completes, and then it has attempted all; otherwise its last attempt is the first method that did not complete, whose value it returns |
| `Lifecycle.PhaseStopsAt` | Source/Microsoft.VisualStudio.TestTools.UnitTesting.TestRunner.cs:85-87 | the first method that does not return `true` stops the phase: exactly the methods up to it are attempted and the rest of the list plays no part |
| `Lifecycle.PhaseAllComplete` | Source/Microsoft.VisualStudio.TestTools.UnitTesting.TestRunner.cs:85-87 | when every method completes, all are attempted in order and the phase is `true` |
| `Lifecycle.PhaseAppend` | Source/Microsoft.VisualStudio.TestTools.UnitTesting.TestRunner.cs:85-87 | after a phase has stopped, methods appended to its list are never attempted; while it has not, they run as a phase of their own |
| `Lifecycle.PhaseLines` | Source/Microsoft.VisualStudio.TestTools.UnitTesting.TestRunner.cs:91-104 | every line a phase writes carries that phase's label and names the method at the same position |
| `Lifecycle.LifecycleRun` | Source/Microsoft.VisualStudio.TestTools.UnitTesting.TestRunner.cs:85-88 | the three `All` calls, the tests and cleanups gated on the initializers; what it does is stated by `ReachedPhasesRunWhole`, `AllCompleteRunsEverything`, `SuppressedInitializersOnly`, `LifecycleShape`, `EscapePropagates` and `PropagatesIffEscapeReached` |
| `Lifecycle.SuiteRun` | Source/Microsoft.VisualStudio.TestTools.UnitTesting.TestRunner.cs:76-89 | `RunTests` on a constructed instance: the class line, then the lifecycle over its role lists (whose lines are fixed by `ReachedPhasesRunWhole`, `AllCompleteRunsEverything` and `SuppressedInitializersOnly`); stated by `TraceShape`, `SuppressedInitializerCancels`, `EscapeIsLastAttempt`, `ClassEscapePropagates` and `ClassDoneIffNoEscape` |
| `Lifecycle.LifecycleShape` | Source/Microsoft.VisualStudio.TestTools.UnitTesting.TestRunner.cs:85-104 | the lifecycle writes lines for a prefix of the initializers, then a prefix of the tests, then a prefix of the cleanups, each in list order |
| `Lifecycle.TraceShape` | Source/Microsoft.VisualStudio.TestTools.UnitTesting.TestRunner.cs:80-104 | a class's trace is exactly one `Class` line, first, then one labelled line per attempted method, initialize then test then cleanup |
| `Lifecycle.SuppressedInitializerCancels` | Source/Microsoft.VisualStudio.TestTools.UnitTesting.TestRunner.cs:85-88 | an initializer returning `false` means no test and no cleanup is attempted, and the class ends normally |
| `Lifecycle.CompletedInitializersRunTestsThenCleanups` | Source/Microsoft.VisualStudio.TestTools.UnitTesting.TestRunner.cs:85-88 | when all initializers complete (also when there are none), the first test is attempted right after them; unless a test lets an exception escape, the first cleanup is attempted right after the tests, even when a test returned `false` |
| `Lifecycle.ReachedPhasesRunWhole` | Source/Microsoft.VisualStudio.TestTools.UnitTesting.TestRunner.cs:85-88 | when all initializers complete, the lines are all the initializers, then the whole test phase, then, unless a test let an exception escape, the whole cleanup phase: each cleanup up to the first that does not complete |
| `Lifecycle.AllCompleteRunsEverything` | Source/Microsoft.VisualStudio.TestTools.UnitTesting.TestRunner.cs:85-88 | when every method completes, every initializer, test and cleanup is attempted once in that order and the run ends normally |
| `Lifecycle.SuppressedInitializersOnly` | Source/Microsoft.VisualStudio.TestTools.UnitTesting.TestRunner.cs:85-88 | an initializer returning `false` leaves exactly the initializer phase's lines (the initializers up to and including it) and ends normally |
| `Lifecycle.EscapingRole` | Source/Microsoft.VisualStudio.TestTools.UnitTesting.TestRunner.cs:85-88 | when a class run ends with an exception, the phase it escaped from returns that exception and its lines end the trace |
| `Lifecycle.EscapeIsLastAttempt` | Source/Microsoft.VisualStudio.TestTools.UnitTesting.TestRunner.cs:85-121 | an escaping exception comes from the first method of its list that did not complete, and that method's line is the last of the trace: nothing after it runs, cleanups included |
| `Lifecycle.EscapePropagates` | Source/Microsoft.VisualStudio.TestTools.UnitTesting.TestRunner.cs:85-121 | the converse: a reached method whose exception escapes (every method before it in its list completes, the tests are reached only when all initializers complete, the cleanups only when in addition no test escapes) ends the lifecycle with that very exception |
| `Lifecycle.PropagatesIffEscapeReached` | Source/Microsoft.VisualStudio.TestTools.UnitTesting.TestRunner.cs:85-121 | the lifecycle ends with an exception exactly when some reached method lets one escape, and ends normally exactly when none does |
| `Lifecycle.ClassEscapePropagates` | Source/Microsoft.VisualStudio.TestTools.UnitTesting.TestRunner.cs:76-121 | for a class run: a reached escaping method ends the run with its exception |
| `Lifecycle.ClassDoneIffNoEscape` | Source/Microsoft.VisualStudio.TestTools.UnitTesting.TestRunner.cs:76-121 | a class run ends normally exactly when no reached method lets an exception escape |
| `Lifecycle.TypeRun` | Source/Microsoft.VisualStudio.TestTools.UnitTesting.TestRunner.cs:55-74 | a type without `TestClass` is a silent no-op that writes nothing; a constructor that throws lets its exception out before any line is written |
| `Lifecycle.ConstructedTypeRun` | Source/Microsoft.VisualStudio.TestTools.UnitTesting.TestRunner.cs:55-74 | a test class whose constructor returns runs its tests as `RunTests` does, and its trace starts with its `Class` line |
| `Lifecycle.ModuleRun` | Source/Microsoft.VisualStudio.TestTools.UnitTesting.TestRunner.cs:44-48 | the `foreach` over the types, stopping at the first exception; `ModuleSingle` and `ModuleAppend` together fix it for every list, and `EscapeSkipsLaterClasses`, `ModuleDoneIffAllDone` and `OnlyTestClassesRun` state its consequences |
| `Lifecycle.ModuleSingle` | Source/Microsoft.VisualStudio.TestTools.UnitTesting.TestRunner.cs:44-48 | an assembly of one type writes and ends exactly as that type's run |
| `Lifecycle.ModuleAppend` | Source/Microsoft.VisualStudio.TestTools.UnitTesting.TestRunner.cs:44-48 | running a list of types is running the first part, then, only if it ended normally, the second |
| `Lifecycle.LastStops` | Source/Microsoft.VisualStudio.TestTools.UnitTesting.TestRunner.cs:44-48 | a run whose last type lets an exception out ends with an exception |
| `Lifecycle.EscapeSkipsLaterClasses` | Source/Microsoft.VisualStudio.TestTools.UnitTesting.TestRunner.cs:44-48 | an exception escaping from one type ends the assembly run: the types after it are never constructed nor traced |
| `Lifecycle.ModuleDoneIffAllDone` | Source/Microsoft.VisualStudio.TestTools.UnitTesting.TestRunner.cs:44-48 | an assembly run ends normally exactly when every type's run does |
| `Lifecycle.TestClasses` | Source/Microsoft.VisualStudio.TestTools.UnitTesting.TestRunner.cs:44-45 | the types the loop hands to `Run(type)` are exactly those carrying `TestClass` |
| `Lifecycle.OnlyTestClassesRun` | Source/Microsoft.VisualStudio.TestTools.UnitTesting.TestRunner.cs:44-48 | types without `TestClass` leave no trace and no effect: the assembly run equals the run of its test classes alone |
| `TestRunner.RunAssembly` | Source/Microsoft.VisualStudio.TestTools.UnitTesting.TestRunner.cs:40-49 | a null assembly throws `ArgumentNullException("assembly")` before any line is written; otherwise the trace grows by, and the call ends as, the assembly run |
| `TestRunner.RunType` | Source/Microsoft.VisualStudio.TestTools.UnitTesting.TestRunner.cs:55-63 | a null type throws `ArgumentNullException("type")` before any line is written; otherwise the trace grows by, and the call ends as, the type's run |
| `TestRunner.RunOf` | Source/Microsoft.VisualStudio.TestTools.UnitTesting.TestRunner.cs:69-74 | `Run<T>()`: the trace grows by, and the call ends as, the type's run |
| `TestRunner.RunTests` | Source/Microsoft.VisualStudio.TestTools.UnitTesting.TestRunner.cs:76-89 | writes the `Class` line, classifies the methods and runs the lifecycle, ending as the class run |
| `TestRunner.RunLifecycle` | Source/Microsoft.VisualStudio.TestTools.UnitTesting.TestRunner.cs:85-88 | the three `All` calls: the trace grows by, and the call ends as, the lifecycle over the three lists |
| `TestRunner.RunAll` | Source/Microsoft.VisualStudio.TestTools.UnitTesting.TestRunner.cs:85-87 | the loop that stands for `All`: the trace grows by, and the call returns, exactly what the phase does |
| `TestRunner.RunTestInitialize` | Source/Microsoft.VisualStudio.TestTools.UnitTesting.TestRunner.cs:91-94 | writes one `TestInitialize` line, then returns the call's outcome |
| `TestRunner.RunTestMethod` | Source/Microsoft.VisualStudio.TestTools.UnitTesting.TestRunner.cs:96-99 | writes one `TestMethod` line, then returns the call's outcome |
| `TestRunner.RunTestCleanup` | Source/Microsoft.VisualStudio.TestTools.UnitTesting.TestRunner.cs:101-104 | writes one `TestCleanup` line, then returns the call's outcome |
| `TestRunner.TraceSink.WriteLine` | Source/Microsoft.VisualStudio.TestTools.UnitTesting.TestRunner.cs:80 | `Trace.WriteLine` appends exactly one line and keeps the earlier ones |
| `Scenarios.ExpectedFailureInLastTest` | Source/Microsoft.VisualStudio.TestTools.UnitTesting.TestRunner.cs:76-88 | class `S` with initializer Init, test A, test B throwing its expected exception, cleanup: the trace is the class line then all four methods in that order, and the run ends normally |
| `Scenarios.ExpectedFailureStopsLaterTests` | Source/Microsoft.VisualStudio.TestTools.UnitTesting.TestRunner.cs:76-88 | a class with tests t1, t2, t3 where t1 throws what it expects, then a cleanup: the trace is the class line, t1, then the cleanup, and the run ends normally |
| `Scenarios.UnexpectedFailureInInitializer` | Source/Microsoft.VisualStudio.TestTools.UnitTesting.TestRunner.cs:85-88 | an initializer throwing an unexpected exception: the trace is the class line and that initializer's line, and the exception escapes |
| `Scenarios.ExpectedFailureInInitializer` | Source/Microsoft.VisualStudio.TestTools.UnitTesting.TestRunner.cs:85-88 | an initializer throwing what it expects: no test nor cleanup runs and nothing escapes |
| `Scenarios.TwoRolesRunTwice` | Source/Microsoft.VisualStudio.TestTools.UnitTesting.TestRunner.cs:81-86 | a method tagged both `TestInitialize` and `TestMethod` is attempted once in each phase |
| `Humanize.Table` | Source/System.Text.Humanize.cs:80-83 | the `_multiples` map: each multiple has a six-entry table whose smallest entry is its base, 1000 or 1024; the full shape is `TableShape` |
| `Humanize.TableShape` | Source/System.Text.Humanize.cs:33-48 | each table has six entries: the k-th from the end is 1000^k (decimal) or 1024^k (binary), each entry is the base times the next, and the entries strictly descend; the symbols are E P T G M k and Ei Pi Ti Gi Mi Ki |
| `Humanize.NoPrefixNotInTables` | Source/System.Text.Humanize.cs:49 | the fallback prefix (Integer 1, empty symbol) is in neither table |
| `Humanize.TruncDiv` | Source/System.Text.Humanize.cs:75 | `long` division truncates toward zero: for a non-negative value `q*b <= a < (q+1)*b`, for a negative value `(q-1)*b < a <= q*b` |
| `Humanize.FitsIffNotAbove` | Source/System.Text.Humanize.cs:75 | `0 < value / p.Integer` holds exactly when `p.Integer <= value`, so never for zero or negative values |
| `Humanize.FirstFit` | Source/System.Text.Humanize.cs:75 | `FirstOrDefault`: the index found fits and no earlier entry fits; when nothing is found, no entry fits |
| `Humanize.ChoosePrefix` | Source/System.Text.Humanize.cs:75 | `FirstOrDefault(...) ?? None`: the chosen prefix is the fallback or an entry of the table; which one is stated by `ChoosesLargestNotAbove` and `QuotientInRange` |
| `Humanize.ChoosesLargestNotAbove` | Source/System.Text.Humanize.cs:75 | the chosen prefix is the largest table entry not above the value; the fallback `None` is chosen exactly when the value is below the smallest entry (below 1000 or 1024, zero, any negative value) |
| `Humanize.Int64BelowCeiling` | Source/System.Text.Humanize.cs:34-42 | every `long` is below the base times the table's largest entry |
| `Humanize.QuotientInRange` | Source/System.Text.Humanize.cs:75-76 | when a real prefix is chosen, `1 <= value / p.Integer < 1000` (decimal) or `< 1024` (binary) for every 64-bit value |
| `Humanize.ToString` | Source/System.Text.Humanize.cs:74-78 | the result is the numeric text of the value over the chosen prefix's Integer, followed by the chosen prefix's symbol |
| `Humanize.KnownValues` | Test/HumanizeTests.cs:23-30 | 1000 takes `k` in decimal and no prefix in binary; 1024 takes `k` in decimal and `Ki` in binary, with the divisors these imply |
| `Humanize.GetFormat` | Source/System.Text.Humanize.cs:91-93 | the formatter hands out itself exactly when asked for `ICustomFormatter`, and null otherwise |
| `Humanize.Format` | Source/System.Text.Humanize.cs:95-103 | null unless the provider is this formatter; a conversion exception escapes; null format means `B`; `D` picks the decimal table, `B` the binary table, any other letter returns `arg as string` |
| `Humanize.FormatThroughProvider` | Test/HumanizeTests.cs:43-53 | through the provider that `GetFormat` hands out, `D` gives the decimal rendering, and `B` and the default format give the binary one, ending with the chosen symbol |
| `Humanize.ForeignProviderGetsNull` | Source/System.Text.Humanize.cs:96 | any provider other than the formatter itself, null included, gets null whatever the format and argument |

## Left out

- Reflection and code generation are not modelled: `GetTypes`, `GetMethods`, `GetCustomAttribute(s)`, `Expression.New/Lambda/Call/Compile` and `DynamicInvoke`. An explicit registry of `ClassDesc` and `MethodDesc` values replaces them, in reflection order.
- `TestRunner.RunType`: does not model that `DynamicInvoke` wraps a throwing constructor's exception in `TargetInvocationException` while `Run<T>` does not; both propagate the constructor's `kind` as given. A missing parameterless constructor is modelled as a constructor that raises.
- A method's behaviour is fixed in its descriptor. Methods that change the instance, so that later calls behave differently, are not modelled. Neither are methods that never return.
- The `null` checks in `RunTests` and `RunTestMethodInternal` are not modelled. The instance comes from a successful constructor and the method from reflection, so neither can be null there.
- `Lifecycle.PhaseLines`: trace lines are events holding the phase label and the method's name. The exact text of `MethodInfo.ToString()` and `Type.ToString()` is not modelled.
- The `#if NET35` attribute declarations are not modelled: they are declarations without logic.
- `Humanize.ToString`: `Math.Round((double)value / Integer, 3)` formatted as `"0.000"` is floating-point, culture-dependent formatting. It is the `numberText` parameter, so the exact strings "1.000k" and "1.024k" are stated only up to that text.
- `Convert.ToInt64(arg)` is a library call. It is the `Arg.toInt64` parameter: a value or the exception it throws.
- The plugin loader (`System.ComponentModel.Plugin`), the attribute-lookup and key/value-pair shims, and the console entry point are not part of this model. They are file-system I/O, runtime loading or thin wrappers over library calls.
