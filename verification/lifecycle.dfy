/**
 * What the test runner does, as functions of the registry: which methods each role list holds,
 * how one call ends, what one phase (`All` over a list) writes and returns, what running one
 * class and a whole assembly writes and how it ends.
 */
module Lifecycle {
  import opened TestModel

  /** The lines a phase writes and the value its `All` returns (or the exception that escapes it). */
  datatype PhaseRun = PhaseRun(lines: seq<TraceLine>, verdict: Verdict)

  /** The lines a run writes and how it ends. */
  datatype RunResult = RunResult(lines: seq<TraceLine>, outcome: Outcome)

  // ---------------------------------------------------------------- classification

  /** `methods.Where(m => m has the role attribute)`: the methods carrying `role`, in reflection order. */
  function Tagged(ms: seq<MethodDesc>, role: Role): (r: seq<MethodDesc>)
    ensures |r| <= |ms|
  {
    if ms == [] then []
    else (if role in ms[0].roles then [ms[0]] else []) + Tagged(ms[1..], role)
  }

  /**
   * A method is in a role's list exactly when it is one of the class's methods and carries that
   * role: a method with two role attributes is in both lists, one with none in no list.
   */
  lemma {:induction false} TaggedMembers(ms: seq<MethodDesc>, role: Role)
    ensures forall m :: m in Tagged(ms, role) <==> m in ms && role in m.roles
  {
    if ms != [] {
      TaggedMembers(ms[1..], role);
      assert forall m :: m in ms <==> m == ms[0] || m in ms[1..];
    }
  }

  /** Filtering keeps order: the tagged methods of a concatenation are those of each part, in turn. */
  lemma {:induction false} TaggedAppend(a: seq<MethodDesc>, b: seq<MethodDesc>, role: Role)
    ensures Tagged(a + b, role) == Tagged(a, role) + Tagged(b, role)
  {
    if a == [] {
      assert a + b == b;
    } else {
      assert (a + b)[0] == a[0] && (a + b)[1..] == a[1..] + b;
      TaggedAppend(a[1..], b, role);
    }
  }

  /** When every method carries the role, its list is the whole method list, order included. */
  lemma {:induction false} TaggedAllRoles(ms: seq<MethodDesc>, role: Role)
    requires forall i :: 0 <= i < |ms| ==> role in ms[i].roles
    ensures Tagged(ms, role) == ms
  {
    if ms != [] {
      TaggedAllRoles(ms[1..], role);
    }
  }

  // ---------------------------------------------------------------- one call

  /**
   * RunTestMethodInternal: a normal return is `true`; an exception whose exact type is one of
   * the method's expected types is `false`; any other exception escapes unchanged.
   */
  function Invoke(m: MethodDesc): (v: Verdict)
    ensures v == Completed <==> m.behaviour == Completes
    ensures v == Suppressed <==>
      m.behaviour.Raises? && exists i :: 0 <= i < |m.expected| && m.expected[i] == m.behaviour.kind
    ensures v.Escaped? <==> m.behaviour.Raises? && m.behaviour.kind !in m.expected
    ensures v.Escaped? ==> v.failure == Thrown(m.behaviour.kind)
  {
    match m.behaviour
    case Completes => Completed
    case Raises(kind) => if kind in m.expected then Suppressed else Escaped(Thrown(kind))
  }

  /** Every method of `ms` returns normally. */
  predicate AllComplete(ms: seq<MethodDesc>) {
    forall i :: 0 <= i < |ms| ==> Invoke(ms[i]) == Completed
  }

  /** The phase-labelled line written before each of `ms`, in order. */
  function Attempts(role: Role, ms: seq<MethodDesc>): seq<TraceLine> {
    seq(|ms|, i requires 0 <= i < |ms| => MethodLine(role, ms[i].name))
  }

  // ---------------------------------------------------------------- one phase

  /**
   * `ms.All(m => RunTestX(instance, m))`: a line just before each attempted method; the first
   * method that does not complete ends the phase and decides its value.
   */
  function Phase(role: Role, ms: seq<MethodDesc>): PhaseRun
  {
    if ms == [] then PhaseRun([], Completed)
    else
      var v := Invoke(ms[0]);
      if v == Completed then
        var rest := Phase(role, ms[1..]);
        PhaseRun([MethodLine(role, ms[0].name)] + rest.lines, rest.verdict)
      else
        PhaseRun([MethodLine(role, ms[0].name)], v)
  }

  /**
   * What a phase does, without reference to how: it attempts a prefix of its list, writing one
   * labelled line per attempted method; it returns `true` exactly when every method completes,
   * and then it has attempted them all; otherwise the last attempted method is the first that
   * did not complete, and its value (`false` or the escaping exception) is the phase's.
   */
  lemma {:induction false} PhaseShape(role: Role, ms: seq<MethodDesc>)
    ensures |Phase(role, ms).lines| <= |ms|
    ensures Phase(role, ms).lines == Attempts(role, ms[..|Phase(role, ms).lines|])
    ensures Phase(role, ms).verdict == Completed <==> AllComplete(ms)
    ensures Phase(role, ms).verdict == Completed ==> |Phase(role, ms).lines| == |ms|
    ensures var r := Phase(role, ms);
      r.verdict != Completed ==>
        0 < |r.lines| && AllComplete(ms[..|r.lines| - 1]) && r.verdict == Invoke(ms[|r.lines| - 1])
  {
    if ms != [] && Invoke(ms[0]) == Completed {
      var rest := Phase(role, ms[1..]);
      PhaseShape(role, ms[1..]);
      var r := Phase(role, ms);
      assert ms[..|r.lines|][1..] == ms[1..][..|rest.lines|];
      assert r.lines == Attempts(role, ms[..|r.lines|]);
      if r.verdict != Completed {
        assert ms[..|r.lines| - 1][1..] == ms[1..][..|rest.lines| - 1];
      }
      assert AllComplete(ms) ==> AllComplete(ms[1..]);
    }
  }

  /**
   * The first method that does not complete stops the phase: if the methods before position `k`
   * complete and the one at `k` does not, the phase attempts exactly `ms[..k+1]`, returns that
   * method's value, and never reaches `ms[k+1..]`.
   */
  lemma {:induction false} PhaseStopsAt(role: Role, ms: seq<MethodDesc>, k: nat)
    requires k < |ms| && AllComplete(ms[..k]) && Invoke(ms[k]) != Completed
    ensures Phase(role, ms) == PhaseRun(Attempts(role, ms[..k + 1]), Invoke(ms[k]))
    ensures Phase(role, ms) == Phase(role, ms[..k + 1])
  {
    if k == 0 {
      assert ms[..1] == [ms[0]];
    } else {
      assert Invoke(ms[0]) == Completed by { assert ms[..k][0] == ms[0]; }
      assert ms[1..][..k - 1] == ms[..k][1..];
      assert ms[1..][k - 1] == ms[k];
      PhaseStopsAt(role, ms[1..], k - 1);
      assert ms[..k + 1][1..] == ms[1..][..k];
      assert ms[..k + 1][1..][..k] == ms[1..][..k];
      assert ms[..k + 1][0] == ms[0];
      calc {
        Phase(role, ms).lines;
        [MethodLine(role, ms[0].name)] + Attempts(role, ms[1..][..k]);
        { assert ms[1..][..k] == ms[..k + 1][1..]; }
        Attempts(role, ms[..k + 1]);
      }
    }
  }

  /** When every method completes, the phase attempts them all, in order, and returns `true`. */
  lemma {:induction false} PhaseAllComplete(role: Role, ms: seq<MethodDesc>)
    requires AllComplete(ms)
    ensures Phase(role, ms) == PhaseRun(Attempts(role, ms), Completed)
  {
    PhaseShape(role, ms);
    assert ms[..|ms|] == ms;
  }

  /**
   * Once a phase has not completed, nothing appended to its list is attempted; while it has,
   * what follows runs as a phase of its own.
   */
  lemma {:induction false} PhaseAppend(role: Role, a: seq<MethodDesc>, b: seq<MethodDesc>)
    ensures Phase(role, a).verdict != Completed ==> Phase(role, a + b) == Phase(role, a)
    ensures Phase(role, a).verdict == Completed ==>
      Phase(role, a + b) == PhaseRun(Phase(role, a).lines + Phase(role, b).lines, Phase(role, b).verdict)
  {
    if a == [] {
      assert a + b == b;
    } else {
      assert (a + b)[0] == a[0];
      assert (a + b)[1..] == a[1..] + b;
      if Invoke(a[0]) == Completed {
        PhaseAppend(role, a[1..], b);
        var line := MethodLine(role, a[0].name);
        if Phase(role, a).verdict == Completed {
          calc {
            Phase(role, a + b).lines;
            [line] + Phase(role, a[1..] + b).lines;
            [line] + (Phase(role, a[1..]).lines + Phase(role, b).lines);
            ([line] + Phase(role, a[1..]).lines) + Phase(role, b).lines;
            Phase(role, a).lines + Phase(role, b).lines;
          }
        }
      }
    }
  }

  // ---------------------------------------------------------------- one class

  /** The initialize, test and cleanup lists of a class, as the runner builds them. */
  function Initializes(c: ClassDesc): seq<MethodDesc> { Tagged(c.methods, TestInitialize) }
  function Tests(c: ClassDesc): seq<MethodDesc> { Tagged(c.methods, TestMethod) }
  function Cleanups(c: ClassDesc): seq<MethodDesc> { Tagged(c.methods, TestCleanup) }

  /**
   * The lifecycle state machine over the three role lists: the initializers; only when they
   * all return `true` the tests and then the cleanups, whatever the tests returned. An
   * escaping exception ends everything at once.
   */
  function LifecycleRun(inits: seq<MethodDesc>, tests: seq<MethodDesc>, cleanups: seq<MethodDesc>): RunResult
  {
    var init := Phase(TestInitialize, inits);
    match init.verdict
    case Escaped(f) => RunResult(init.lines, Propagated(f))
    case Suppressed => RunResult(init.lines, Done)
    case Completed =>
      var test := Phase(TestMethod, tests);
      match test.verdict
      case Escaped(f) => RunResult(init.lines + test.lines, Propagated(f))
      case _ =>
        var cleanup := Phase(TestCleanup, cleanups);
        var lines := init.lines + test.lines + cleanup.lines;
        match cleanup.verdict
        case Escaped(f) => RunResult(lines, Propagated(f))
        case _ => RunResult(lines, Done)
  }

  /** RunTests on a constructed instance: the class line, then the lifecycle over its role lists. */
  function SuiteRun(c: ClassDesc): RunResult
  {
    var r := LifecycleRun(Initializes(c), Tests(c), Cleanups(c));
    RunResult([ClassLine(c.name)] + r.lines, r.outcome)
  }

  /** Every line a phase writes carries its role and names the method at the same position. */
  lemma PhaseLines(role: Role, ms: seq<MethodDesc>)
    ensures forall i :: 0 <= i < |Phase(role, ms).lines| ==>
      i < |ms| && Phase(role, ms).lines[i] == MethodLine(role, ms[i].name)
  {
    PhaseShape(role, ms);
  }

  /**
   * The lifecycle writes the lines of a prefix of the initializers, then of a prefix of the
   * tests, then of a prefix of the cleanups: one phase-labelled line per attempted method,
   * phase by phase, each phase in list order.
   */
  lemma LifecycleShape(inits: seq<MethodDesc>, tests: seq<MethodDesc>, cleanups: seq<MethodDesc>)
    ensures exists a: nat, b: nat, d: nat ::
      a <= |inits| && b <= |tests| && d <= |cleanups| &&
      LifecycleRun(inits, tests, cleanups).lines ==
        Attempts(TestInitialize, inits[..a]) + Attempts(TestMethod, tests[..b]) + Attempts(TestCleanup, cleanups[..d])
  {
    var init := Phase(TestInitialize, inits);
    var test := Phase(TestMethod, tests);
    var cleanup := Phase(TestCleanup, cleanups);
    PhaseShape(TestInitialize, inits);
    PhaseShape(TestMethod, tests);
    PhaseShape(TestCleanup, cleanups);
    var a, b, d := |init.lines|, 0, 0;
    if init.verdict == Completed {
      b := |test.lines|;
      if !test.verdict.Escaped? {
        d := |cleanup.lines|;
      }
    }
    assert Attempts(TestMethod, tests[..0]) == [];
    assert Attempts(TestCleanup, cleanups[..0]) == [];
    assert LifecycleRun(inits, tests, cleanups).lines ==
      Attempts(TestInitialize, inits[..a]) + Attempts(TestMethod, tests[..b]) + Attempts(TestCleanup, cleanups[..d]);
  }

  /**
   * The trace of a class is exactly one class line, first, followed by the lines of a prefix
   * of its initializers, then of a prefix of its tests, then of a prefix of its cleanups.
   */
  lemma TraceShape(c: ClassDesc)
    ensures exists a: nat, b: nat, d: nat ::
      a <= |Initializes(c)| && b <= |Tests(c)| && d <= |Cleanups(c)| &&
      SuiteRun(c).lines == [ClassLine(c.name)] + Attempts(TestInitialize, Initializes(c)[..a])
        + Attempts(TestMethod, Tests(c)[..b]) + Attempts(TestCleanup, Cleanups(c)[..d])
  {
    var inits, tests, cleanups := Initializes(c), Tests(c), Cleanups(c);
    LifecycleShape(inits, tests, cleanups);
    var a: nat, b: nat, d: nat :| a <= |inits| && b <= |tests| && d <= |cleanups| &&
      LifecycleRun(inits, tests, cleanups).lines ==
        Attempts(TestInitialize, inits[..a]) + Attempts(TestMethod, tests[..b]) + Attempts(TestCleanup, cleanups[..d]);
    assert SuiteRun(c).lines == [ClassLine(c.name)] + Attempts(TestInitialize, inits[..a])
        + Attempts(TestMethod, tests[..b]) + Attempts(TestCleanup, cleanups[..d]);
  }

  /** An initializer returning `false` cancels the class: no test and no cleanup is attempted. */
  lemma SuppressedInitializerCancels(c: ClassDesc)
    requires Phase(TestInitialize, Initializes(c)).verdict == Suppressed
    ensures SuiteRun(c).outcome == Done
    ensures forall i :: 1 <= i < |SuiteRun(c).lines| ==>
      SuiteRun(c).lines[i].MethodLine? && SuiteRun(c).lines[i].role == TestInitialize
  {
    PhaseLines(TestInitialize, Initializes(c));
  }

  /**
   * When every initializer returns `true` (vacuously so when there are none), the tests are
   * attempted right after them, and unless a test lets an exception escape, the cleanups are
   * attempted right after the tests, even when a test returned `false`.
   */
  lemma CompletedInitializersRunTestsThenCleanups(inits: seq<MethodDesc>, tests: seq<MethodDesc>,
                                                  cleanups: seq<MethodDesc>)
    requires AllComplete(inits)
    ensures |tests| > 0 ==>
      |inits| < |LifecycleRun(inits, tests, cleanups).lines| &&
      LifecycleRun(inits, tests, cleanups).lines[|inits|] == MethodLine(TestMethod, tests[0].name)
    ensures var test := Phase(TestMethod, tests);
      !test.verdict.Escaped? && |cleanups| > 0 ==>
        |inits| + |test.lines| < |LifecycleRun(inits, tests, cleanups).lines| &&
        LifecycleRun(inits, tests, cleanups).lines[|inits| + |test.lines|] == MethodLine(TestCleanup, cleanups[0].name)
  {
    var init := Phase(TestInitialize, inits);
    var test := Phase(TestMethod, tests);
    var cleanup := Phase(TestCleanup, cleanups);
    PhaseShape(TestInitialize, inits);
    PhaseShape(TestMethod, tests);
    PhaseShape(TestCleanup, cleanups);
    PhaseLines(TestMethod, tests);
    PhaseLines(TestCleanup, cleanups);
    assert |init.lines| == |inits|;
    if test.verdict.Escaped? {
      assert LifecycleRun(inits, tests, cleanups).lines == init.lines + test.lines;
    } else {
      assert LifecycleRun(inits, tests, cleanups).lines == (init.lines + test.lines) + cleanup.lines;
    }
  }

  /**
   * Once the initializers all complete, each reached phase runs whole: the lines are all the
   * initializers, then every line of the test phase, then (unless a test let an exception
   * escape) every line of the cleanup phase.
   */
  lemma ReachedPhasesRunWhole(inits: seq<MethodDesc>, tests: seq<MethodDesc>, cleanups: seq<MethodDesc>)
    requires AllComplete(inits)
    ensures var test := Phase(TestMethod, tests);
      var r := LifecycleRun(inits, tests, cleanups);
      |inits| + |test.lines| <= |r.lines| &&
      r.lines[..|inits|] == Attempts(TestInitialize, inits) &&
      r.lines[|inits|..|inits| + |test.lines|] == test.lines &&
      (!test.verdict.Escaped? ==> r.lines[|inits| + |test.lines|..] == Phase(TestCleanup, cleanups).lines)
  {
    PhaseAllComplete(TestInitialize, inits);
  }

  /** When every method of every list completes, each is attempted once, in phase order, and the run ends normally. */
  lemma AllCompleteRunsEverything(inits: seq<MethodDesc>, tests: seq<MethodDesc>, cleanups: seq<MethodDesc>)
    requires AllComplete(inits) && AllComplete(tests) && AllComplete(cleanups)
    ensures LifecycleRun(inits, tests, cleanups) == RunResult(
      Attempts(TestInitialize, inits) + Attempts(TestMethod, tests) + Attempts(TestCleanup, cleanups), Done)
  {
    PhaseAllComplete(TestInitialize, inits);
    PhaseAllComplete(TestMethod, tests);
    PhaseAllComplete(TestCleanup, cleanups);
  }

  /** An initializer returning `false` leaves exactly the initializer phase's lines, and the run ends normally. */
  lemma SuppressedInitializersOnly(inits: seq<MethodDesc>, tests: seq<MethodDesc>, cleanups: seq<MethodDesc>)
    requires Phase(TestInitialize, inits).verdict == Suppressed
    ensures LifecycleRun(inits, tests, cleanups) == RunResult(Phase(TestInitialize, inits).lines, Done)
  {
  }

  /**
   * An exception that escapes ends the class: the last line written is the one before the
   * method that threw it, the first method of its list that did not complete, so nothing after
   * it (in its phase or a later one, cleanups included) is attempted.
   */
  lemma EscapeIsLastAttempt(c: ClassDesc)
    requires SuiteRun(c).outcome.Propagated?
    ensures exists role: Role, k: nat ::
      k < |Tagged(c.methods, role)| && AllComplete(Tagged(c.methods, role)[..k]) &&
      Invoke(Tagged(c.methods, role)[k]) == Escaped(SuiteRun(c).outcome.failure) &&
      SuiteRun(c).lines[|SuiteRun(c).lines| - 1] == MethodLine(role, Tagged(c.methods, role)[k].name)
  {
    var r := SuiteRun(c);
    var role := EscapingRole(c);
    var ms := Tagged(c.methods, role);
    var p := Phase(role, ms);
    PhaseShape(role, ms);
    PhaseLines(role, ms);
    var k := |p.lines| - 1;
    assert r.lines[|r.lines| - 1] == p.lines[k];
    assert k < |ms| && AllComplete(ms[..k]) && Invoke(ms[k]) == Escaped(r.outcome.failure);
  }

  /** The phase an escaping exception came from: its lines end the trace and its value is the failure. */
  function EscapingRole(c: ClassDesc): (role: Role)
    requires SuiteRun(c).outcome.Propagated?
    ensures var p := Phase(role, Tagged(c.methods, role));
      p.verdict == Escaped(SuiteRun(c).outcome.failure) &&
      |p.lines| <= |SuiteRun(c).lines| &&
      SuiteRun(c).lines[|SuiteRun(c).lines| - |p.lines|..] == p.lines
  {
    if Phase(TestInitialize, Initializes(c)).verdict.Escaped? then TestInitialize
    else if Phase(TestMethod, Tests(c)).verdict.Escaped? then TestMethod
    else TestCleanup
  }

  /** The list a phase of the lifecycle runs over. */
  function RoleList(inits: seq<MethodDesc>, tests: seq<MethodDesc>, cleanups: seq<MethodDesc>, role: Role): seq<MethodDesc> {
    match role
    case TestInitialize => inits
    case TestMethod => tests
    case TestCleanup => cleanups
  }

  /**
   * The method at position `k` of the `role` list lets an exception escape and is reached: every
   * method before it in its list completes, the tests are reached only when all initializers
   * complete, and the cleanups only when, in addition, no test lets an exception escape.
   */
  predicate EscapesAt(inits: seq<MethodDesc>, tests: seq<MethodDesc>, cleanups: seq<MethodDesc>, role: Role, k: nat) {
    var ms := RoleList(inits, tests, cleanups, role);
    (role != TestInitialize ==> AllComplete(inits)) &&
    (role == TestCleanup ==> !Phase(TestMethod, tests).verdict.Escaped?) &&
    k < |ms| && AllComplete(ms[..k]) && Invoke(ms[k]).Escaped?
  }

  /** A reached method whose exception escapes ends the lifecycle with that very exception. */
  lemma EscapePropagates(inits: seq<MethodDesc>, tests: seq<MethodDesc>, cleanups: seq<MethodDesc>, role: Role, k: nat)
    requires EscapesAt(inits, tests, cleanups, role, k)
    ensures LifecycleRun(inits, tests, cleanups).outcome ==
      Propagated(Invoke(RoleList(inits, tests, cleanups, role)[k]).failure)
  {
    PhaseStopsAt(role, RoleList(inits, tests, cleanups, role), k);
    if role != TestInitialize {
      PhaseShape(TestInitialize, inits);
    }
  }

  /**
   * The lifecycle ends with an exception exactly when some reached method lets one escape, and
   * ends normally exactly when none does, whatever the initializers, tests and cleanups return.
   */
  lemma PropagatesIffEscapeReached(inits: seq<MethodDesc>, tests: seq<MethodDesc>, cleanups: seq<MethodDesc>)
    ensures LifecycleRun(inits, tests, cleanups).outcome.Propagated? <==>
      exists role: Role, k: nat :: EscapesAt(inits, tests, cleanups, role, k)
    ensures LifecycleRun(inits, tests, cleanups).outcome == Done <==>
      forall role: Role, k: nat :: !EscapesAt(inits, tests, cleanups, role, k)
  {
    var r := LifecycleRun(inits, tests, cleanups);
    forall role: Role, k: nat | EscapesAt(inits, tests, cleanups, role, k)
      ensures r.outcome.Propagated?
    {
      EscapePropagates(inits, tests, cleanups, role, k);
    }
    if r.outcome.Propagated? {
      var init := Phase(TestInitialize, inits);
      var test := Phase(TestMethod, tests);
      PhaseShape(TestInitialize, inits);
      PhaseShape(TestMethod, tests);
      var role := if init.verdict.Escaped? then TestInitialize
        else if test.verdict.Escaped? then TestMethod
        else TestCleanup;
      var ms := RoleList(inits, tests, cleanups, role);
      PhaseShape(role, ms);
      var k := |Phase(role, ms).lines| - 1;
      assert EscapesAt(inits, tests, cleanups, role, k);
    }
  }

  /** The class-level reading of `EscapePropagates`: a reached escaping method ends the class run with its exception. */
  lemma ClassEscapePropagates(c: ClassDesc, role: Role, k: nat)
    requires EscapesAt(Initializes(c), Tests(c), Cleanups(c), role, k)
    ensures SuiteRun(c).outcome == Propagated(Invoke(Tagged(c.methods, role)[k]).failure)
  {
    EscapePropagates(Initializes(c), Tests(c), Cleanups(c), role, k);
    assert RoleList(Initializes(c), Tests(c), Cleanups(c), role) == Tagged(c.methods, role);
  }

  /** The class-level reading of `PropagatesIffEscapeReached`: a class run ends normally exactly when no reached method lets an exception escape. */
  lemma ClassDoneIffNoEscape(c: ClassDesc)
    ensures SuiteRun(c).outcome == Done <==>
      forall role: Role, k: nat :: !EscapesAt(Initializes(c), Tests(c), Cleanups(c), role, k)
  {
    PropagatesIffEscapeReached(Initializes(c), Tests(c), Cleanups(c));
  }

  // ---------------------------------------------------------------- one type, one assembly

  /**
   * Run(Type) / Run<T>() on a non-null type: a type without TestClass is skipped silently; a
   * constructor that throws lets the exception out before anything is written; otherwise the
   * instance's tests run.
   */
  function TypeRun(c: ClassDesc): (r: RunResult)
    ensures !c.isTestClass ==> r == RunResult([], Done)
    ensures c.isTestClass && c.construct.Raises? ==>
      r == RunResult([], Propagated(Thrown(c.construct.kind)))
  {
    if !c.isTestClass then RunResult([], Done)
    else
      match c.construct
      case Raises(kind) => RunResult([], Propagated(Thrown(kind)))
      case Completes => SuiteRun(c)
  }

  /** A test class whose constructor returns runs its tests, and its trace starts with its class line. */
  lemma ConstructedTypeRun(c: ClassDesc)
    requires c.isTestClass && c.construct.Completes?
    ensures TypeRun(c) == SuiteRun(c)
    ensures 0 < |TypeRun(c).lines| && TypeRun(c).lines[0] == ClassLine(c.name)
  {
  }

  /** Run(Assembly) on a non-null assembly: each type in turn, until an exception escapes. */
  function ModuleRun(types: seq<ClassDesc>): RunResult
  {
    if types == [] then RunResult([], Done)
    else
      var first := TypeRun(types[0]);
      if first.outcome.Propagated? then first
      else
        var rest := ModuleRun(types[1..]);
        RunResult(first.lines + rest.lines, rest.outcome)
  }

  /** An assembly of one type runs as that type does. */
  lemma ModuleSingle(t: ClassDesc)
    ensures ModuleRun([t]) == TypeRun(t)
  {
    assert [t][1..] == [];
  }

  /** Running a concatenation is running the first part, then (if it ended normally) the second. */
  lemma {:induction false} ModuleAppend(a: seq<ClassDesc>, b: seq<ClassDesc>)
    ensures ModuleRun(a).outcome.Propagated? ==> ModuleRun(a + b) == ModuleRun(a)
    ensures ModuleRun(a).outcome.Done? ==>
      ModuleRun(a + b) == RunResult(ModuleRun(a).lines + ModuleRun(b).lines, ModuleRun(b).outcome)
  {
    if a == [] {
      assert a + b == b;
    } else {
      assert (a + b)[0] == a[0];
      assert (a + b)[1..] == a[1..] + b;
      if TypeRun(a[0]).outcome.Done? {
        ModuleAppend(a[1..], b);
      }
    }
  }

  /** A run that ends with a class whose exception escapes ends with an exception. */
  lemma LastStops(a: seq<ClassDesc>, t: ClassDesc)
    requires TypeRun(t).outcome.Propagated?
    ensures ModuleRun(a + [t]).outcome.Propagated?
  {
    ModuleAppend(a, [t]);
  }

  /**
   * An exception escaping from the class at position `k` ends the assembly run there: the
   * classes after it are never constructed nor traced.
   */
  lemma EscapeSkipsLaterClasses(types: seq<ClassDesc>, k: nat)
    requires k < |types| && TypeRun(types[k]).outcome.Propagated?
    ensures ModuleRun(types) == ModuleRun(types[..k + 1])
    ensures ModuleRun(types).outcome.Propagated?
  {
    var upTo := types[..k + 1];
    LastStops(types[..k], types[k]);
    assert upTo == types[..k] + [types[k]];
    assert types == upTo + types[k + 1..];
    ModuleAppend(upTo, types[k + 1..]);
  }

  /** An assembly run ends normally exactly when every one of its types does. */
  lemma {:induction false} ModuleDoneIffAllDone(types: seq<ClassDesc>)
    ensures ModuleRun(types).outcome.Done? <==> forall i :: 0 <= i < |types| ==> TypeRun(types[i]).outcome.Done?
  {
    if types != [] {
      ModuleDoneIffAllDone(types[1..]);
      assert forall i :: 1 <= i < |types| ==> types[i] == types[1..][i - 1];
    }
  }

  /** The types of an assembly that carry TestClass, in order. */
  function TestClasses(types: seq<ClassDesc>): (r: seq<ClassDesc>)
    ensures forall c :: c in r <==> c in types && c.isTestClass
  {
    if types == [] then []
    else (if types[0].isTestClass then [types[0]] else []) + TestClasses(types[1..])
  }

  /** Types without TestClass leave no mark on an assembly run: it is the run of its test classes alone. */
  lemma {:induction false} OnlyTestClassesRun(types: seq<ClassDesc>)
    ensures ModuleRun(types) == ModuleRun(TestClasses(types))
  {
    if types != [] {
      OnlyTestClassesRun(types[1..]);
      if types[0].isTestClass {
        assert TestClasses(types)[0] == types[0];
        assert TestClasses(types)[1..] == TestClasses(types[1..]);
      } else {
        assert TestClasses(types) == TestClasses(types[1..]);
      }
    }
  }
}
