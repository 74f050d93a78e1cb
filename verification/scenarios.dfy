/** Concrete classes run through the lifecycle, with the exact trace and outcome they give. */
module Scenarios {
  import opened TestModel
  import opened Lifecycle

  const Init := MethodDesc("Init", {TestInitialize}, [], Completes)
  const A := MethodDesc("A", {TestMethod}, [], Completes)
  const B := MethodDesc("B", {TestMethod}, ["Boom"], Raises("Boom"))
  const Cleanup := MethodDesc("Done", {TestCleanup}, [], Completes)

  /** A class with an initializer, two tests and a cleanup. */
  const S := ClassDesc("S", true, Completes, [Init, A, B, Cleanup])

  /** The role lists of `S`: one initializer, two tests, one cleanup. */
  lemma RoleListsOfS()
    ensures Initializes(S) == [Init] && Tests(S) == [A, B] && Cleanups(S) == [Cleanup]
  {
    var l1, l2, l3 := [A, B, Cleanup], [B, Cleanup], [Cleanup];
    assert S.methods[1..] == l1 && l1[1..] == l2 && l2[1..] == l3 && l3[1..] == [];
    assert Tagged(l3, TestInitialize) == [] && Tagged(l3, TestMethod) == [] && Tagged(l3, TestCleanup) == [Cleanup];
    assert Tagged(l2, TestInitialize) == [] && Tagged(l2, TestMethod) == [B] && Tagged(l2, TestCleanup) == [Cleanup];
    assert Tagged(l1, TestInitialize) == [] && Tagged(l1, TestMethod) == [A, B] && Tagged(l1, TestCleanup) == [Cleanup];
  }

  /** A class run given its three role lists. */
  lemma SuiteRunOfLists(c: ClassDesc, inits: seq<MethodDesc>, tests: seq<MethodDesc>, cleanups: seq<MethodDesc>)
    requires Initializes(c) == inits && Tests(c) == tests && Cleanups(c) == cleanups
    ensures SuiteRun(c) == RunResult([ClassLine(c.name)] + LifecycleRun(inits, tests, cleanups).lines,
                                     LifecycleRun(inits, tests, cleanups).outcome)
  {
  }

  /** The lifecycle of `S`'s role lists. */
  lemma LastTestLifecycle()
    ensures LifecycleRun([Init], [A, B], [Cleanup]) == RunResult(
      [MethodLine(TestInitialize, "Init"), MethodLine(TestMethod, "A"),
       MethodLine(TestMethod, "B"), MethodLine(TestCleanup, "Done")], Done)
  {
    assert Phase(TestMethod, [A, B]) ==
      PhaseRun([MethodLine(TestMethod, "A"), MethodLine(TestMethod, "B")], Suppressed) by {
      assert [A, B][1..] == [B];
    }
    assert Phase(TestInitialize, [Init]) == PhaseRun([MethodLine(TestInitialize, "Init")], Completed);
    assert Phase(TestCleanup, [Cleanup]) == PhaseRun([MethodLine(TestCleanup, "Done")], Completed);
  }

  /**
   * Init completes, A completes, B throws the "Boom" it expects, the cleanup completes: every
   * method is attempted in role order and nothing escapes.
   */
  lemma ExpectedFailureInLastTest()
    ensures SuiteRun(S) == RunResult(
      [ClassLine("S"), MethodLine(TestInitialize, "Init"), MethodLine(TestMethod, "A"),
       MethodLine(TestMethod, "B"), MethodLine(TestCleanup, "Done")], Done)
  {
    RoleListsOfS();
    SuiteRunOfLists(S, [Init], [A, B], [Cleanup]);
    LastTestLifecycle();
  }

  const T1 := MethodDesc("t1", {TestMethod}, ["Boom"], Raises("Boom"))
  const T2 := MethodDesc("t2", {TestMethod}, [], Completes)
  const T3 := MethodDesc("t3", {TestMethod}, [], Completes)

  /** The lifecycle of three tests, the first suppressed, and a cleanup. */
  lemma FirstTestLifecycle()
    ensures LifecycleRun([], [T1, T2, T3], [Cleanup]) ==
      RunResult([MethodLine(TestMethod, "t1"), MethodLine(TestCleanup, "Done")], Done)
  {
    assert Invoke(T1) == Suppressed;
    assert Phase(TestMethod, [T1, T2, T3]) == PhaseRun([MethodLine(TestMethod, "t1")], Suppressed);
    assert Phase(TestCleanup, [Cleanup]) == PhaseRun([MethodLine(TestCleanup, "Done")], Completed);
  }

  /** A class with three tests and a cleanup. */
  const Stops := ClassDesc("S", true, Completes, [T1, T2, T3, Cleanup])

  /** The role lists of `Stops`: no initializer, three tests, a cleanup. */
  lemma RoleListsOfStops()
    ensures Initializes(Stops) == [] && Tests(Stops) == [T1, T2, T3] && Cleanups(Stops) == [Cleanup]
  {
    var l0, l1, l2, l3 := Stops.methods, [T2, T3, Cleanup], [T3, Cleanup], [Cleanup];
    assert l0[1..] == l1 && l1[1..] == l2 && l2[1..] == l3 && l3[1..] == [];
    assert Tagged(l0, TestInitialize) == [] && Tagged(l0, TestCleanup) == [Cleanup] by {
      assert Tagged(l3, TestInitialize) == [] && Tagged(l3, TestCleanup) == [Cleanup];
      assert Tagged(l2, TestInitialize) == [] && Tagged(l2, TestCleanup) == [Cleanup];
      assert Tagged(l1, TestInitialize) == [] && Tagged(l1, TestCleanup) == [Cleanup];
    }
    assert Tagged(l0, TestMethod) == [T1, T2, T3] by {
      assert Tagged(l3, TestMethod) == [];
      assert Tagged(l2, TestMethod) == [T3];
      assert Tagged(l1, TestMethod) == [T2] + [T3];
      assert l0 != [] && l0[0] == T1 && TestMethod in l0[0].roles;
      assert Tagged(l0, TestMethod) == [l0[0]] + Tagged(l0[1..], TestMethod);
      assert [T1] + ([T2] + [T3]) == [T1, T2, T3];
    }
  }

  /** Tests t1, t2, t3 where t1 throws an expected exception: only t1 runs, then the cleanup. */
  lemma ExpectedFailureStopsLaterTests()
    ensures SuiteRun(Stops) ==
      RunResult([ClassLine("S"), MethodLine(TestMethod, "t1"), MethodLine(TestCleanup, "Done")], Done)
  {
    var c := Stops;
    RoleListsOfStops();
    SuiteRunOfLists(c, [], [T1, T2, T3], [Cleanup]);
    FirstTestLifecycle();
  }

  /** Init throws an "Oops" it does not expect: the exception escapes and A, B and the cleanup never run. */
  lemma UnexpectedFailureInInitializer()
    ensures var init := MethodDesc("Init", {TestInitialize}, [], Raises("Oops"));
      SuiteRun(ClassDesc("S", true, Completes, [init, A, B, Cleanup])) == RunResult(
        [ClassLine("S"), MethodLine(TestInitialize, "Init")], Propagated(Thrown("Oops")))
  {
  }

  /** An initializer that throws what it expects cancels the tests and the cleanup, silently. */
  lemma ExpectedFailureInInitializer()
    ensures var init := MethodDesc("Init", {TestInitialize}, ["Boom"], Raises("Boom"));
      SuiteRun(ClassDesc("S", true, Completes, [init, A, Cleanup])) == RunResult(
        [ClassLine("S"), MethodLine(TestInitialize, "Init")], Done)
  {
  }

  /** A method tagged both TestInitialize and TestMethod runs once in each phase. */
  lemma TwoRolesRunTwice()
    ensures var both := MethodDesc("Both", {TestInitialize, TestMethod}, [], Completes);
      SuiteRun(ClassDesc("S", true, Completes, [both])) == RunResult(
        [ClassLine("S"), MethodLine(TestInitialize, "Both"), MethodLine(TestMethod, "Both")], Done)
  {
  }
}
