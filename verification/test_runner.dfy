/**
 * The runner itself: the three `Run` entry points, RunTests and the per-phase calls, written
 * as the source writes them (a loop over the assembly's types, `All` over each role list) and
 * proved to write exactly the trace, and end exactly as, the Lifecycle functions say.
 */
module TestRunner {
  import opened Wrappers
  import opened TestModel
  import opened Lifecycle

  /** The trace listener: an append-only list of the lines written so far. */
  class TraceSink {
    var lines: seq<TraceLine>

    constructor ()
      ensures lines == []
    {
      lines := [];
    }

    method WriteLine(line: TraceLine)
      modifies this
      ensures lines == old(lines) + [line]
    {
      lines := lines + [line];
    }
  }

  /** Run(Assembly): a null assembly is rejected before anything runs; otherwise each TestClass type in turn. */
  method RunAssembly(trace: TraceSink, assembly: Option<Assembly>) returns (outcome: Outcome)
    modifies trace
    ensures assembly.None? ==>
      outcome == Propagated(ArgumentNull("assembly")) && trace.lines == old(trace.lines)
    ensures assembly.Some? ==>
      trace.lines == old(trace.lines) + ModuleRun(assembly.value.types).lines &&
      outcome == ModuleRun(assembly.value.types).outcome
  {
    if assembly.None? {
      return Propagated(ArgumentNull("assembly"));
    }
    var types := assembly.value.types;
    var i := 0;
    while i < |types|
      invariant 0 <= i <= |types|
      invariant trace.lines == old(trace.lines) + ModuleRun(types[..i]).lines
      invariant ModuleRun(types[..i]).outcome == Done
    {
      ghost var done := ModuleRun(types[..i]);
      ghost var step := TypeRun(types[i]);
      ModuleAppend(types[..i], [types[i]]);
      assert ModuleRun([types[i]]) == step;
      assert types[..i + 1] == types[..i] + [types[i]];
      if types[i].isTestClass {
        outcome := RunType(trace, Some(types[i]));
        if outcome.Propagated? {
          EscapeSkipsLaterClasses(types, i);
          return;
        }
      }
      assert trace.lines == old(trace.lines) + (done.lines + step.lines);
      i := i + 1;
    }
    assert types[..i] == types;
    return Done;
  }

  /** Run(Type): a null type is rejected; a type without TestClass is skipped; otherwise construct and run. */
  method RunType(trace: TraceSink, suiteType: Option<ClassDesc>) returns (outcome: Outcome)
    modifies trace
    ensures suiteType.None? ==>
      outcome == Propagated(ArgumentNull("type")) && trace.lines == old(trace.lines)
    ensures suiteType.Some? ==>
      trace.lines == old(trace.lines) + TypeRun(suiteType.value).lines &&
      outcome == TypeRun(suiteType.value).outcome
  {
    if suiteType.None? {
      return Propagated(ArgumentNull("type"));
    }
    outcome := RunOf(trace, suiteType.value);
  }

  /** Run<T>(): the type is known statically, so there is no null check; otherwise as Run(Type). */
  method RunOf(trace: TraceSink, suiteType: ClassDesc) returns (outcome: Outcome)
    modifies trace
    ensures trace.lines == old(trace.lines) + TypeRun(suiteType).lines
    ensures outcome == TypeRun(suiteType).outcome
  {
    if !suiteType.isTestClass {
      return Done;
    }
    match suiteType.construct {
      case Raises(kind) =>
        return Propagated(Thrown(kind));
      case Completes =>
        outcome := RunTests(trace, suiteType);
    }
  }

  /** RunTests on a constructed instance: the class line, the three role lists, then the lifecycle. */
  method RunTests(trace: TraceSink, instance: ClassDesc) returns (outcome: Outcome)
    modifies trace
    ensures trace.lines == old(trace.lines) + SuiteRun(instance).lines
    ensures outcome == SuiteRun(instance).outcome
  {
    trace.WriteLine(ClassLine(instance.name));
    var initializes := Tagged(instance.methods, TestInitialize);
    var cleanups := Tagged(instance.methods, TestCleanup);
    var methods := Tagged(instance.methods, TestMethod);
    outcome := RunLifecycle(trace, initializes, methods, cleanups);
  }

  /**
   * The body of RunTests after classification: the initializers; only if they all return
   * `true`, the tests and then the cleanups, whatever the tests returned. An escaping
   * exception leaves at once.
   */
  method RunLifecycle(trace: TraceSink, initializes: seq<MethodDesc>, methods: seq<MethodDesc>,
                      cleanups: seq<MethodDesc>) returns (outcome: Outcome)
    modifies trace
    ensures trace.lines == old(trace.lines) + LifecycleRun(initializes, methods, cleanups).lines
    ensures outcome == LifecycleRun(initializes, methods, cleanups).outcome
  {
    ghost var init := Phase(TestInitialize, initializes);
    ghost var test := Phase(TestMethod, methods);
    ghost var cleanup := Phase(TestCleanup, cleanups);
    var v := RunAll(trace, TestInitialize, initializes);
    if v.Escaped? {
      return Propagated(v.failure);
    }
    if v == Completed {
      v := RunAll(trace, TestMethod, methods);
      if v.Escaped? {
        assert trace.lines == old(trace.lines) + (init.lines + test.lines);
        return Propagated(v.failure);
      }
      v := RunAll(trace, TestCleanup, cleanups);
      assert trace.lines == old(trace.lines) + (init.lines + test.lines + cleanup.lines);
      if v.Escaped? {
        return Propagated(v.failure);
      }
    }
    return Done;
  }

  /** `ms.All(m => RunTestX(instance, m))`: stop at the first call that does not return `true`. */
  method RunAll(trace: TraceSink, role: Role, ms: seq<MethodDesc>) returns (v: Verdict)
    modifies trace
    ensures trace.lines == old(trace.lines) + Phase(role, ms).lines
    ensures v == Phase(role, ms).verdict
  {
    var i := 0;
    while i < |ms|
      invariant 0 <= i <= |ms|
      invariant trace.lines == old(trace.lines) + Attempts(role, ms[..i])
      invariant AllComplete(ms[..i])
    {
      var step: Verdict;
      match role {
        case TestInitialize => step := RunTestInitialize(trace, ms[i]);
        case TestMethod => step := RunTestMethod(trace, ms[i]);
        case TestCleanup => step := RunTestCleanup(trace, ms[i]);
      }
      assert Attempts(role, ms[..i + 1]) == Attempts(role, ms[..i]) + [MethodLine(role, ms[i].name)];
      if step != Completed {
        PhaseStopsAt(role, ms, i);
        return step;
      }
      assert ms[..i + 1] == ms[..i] + [ms[i]];
      i := i + 1;
    }
    assert ms[..i] == ms;
    PhaseAllComplete(role, ms);
    return Completed;
  }

  /** RunTestInitialize: the `TestInitialize` line, then the call. */
  method RunTestInitialize(trace: TraceSink, m: MethodDesc) returns (v: Verdict)
    modifies trace
    ensures trace.lines == old(trace.lines) + [MethodLine(TestInitialize, m.name)]
    ensures v == Invoke(m)
  {
    trace.WriteLine(MethodLine(TestInitialize, m.name));
    v := Invoke(m);
  }

  /** RunTestMethod: the `TestMethod` line, then the call. */
  method RunTestMethod(trace: TraceSink, m: MethodDesc) returns (v: Verdict)
    modifies trace
    ensures trace.lines == old(trace.lines) + [MethodLine(TestMethod, m.name)]
    ensures v == Invoke(m)
  {
    trace.WriteLine(MethodLine(TestMethod, m.name));
    v := Invoke(m);
  }

  /** RunTestCleanup: the `TestCleanup` line, then the call. */
  method RunTestCleanup(trace: TraceSink, m: MethodDesc) returns (v: Verdict)
    modifies trace
    ensures trace.lines == old(trace.lines) + [MethodLine(TestCleanup, m.name)]
    ensures v == Invoke(m)
  {
    trace.WriteLine(MethodLine(TestCleanup, m.name));
    v := Invoke(m);
  }
}
