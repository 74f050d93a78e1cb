/**
 * The registry that stands in for reflection in the test runner: what the runner can learn
 * about a type (its TestClass attribute, its parameterless constructor, its public instance
 * methods in reflection order) and about a method (its role attributes, the exception types
 * named by its ExpectedException attributes, and what calling it does).
 */
module TestModel {

  /** The runtime type of an exception; two exceptions match only when their types are equal. */
  type ExceptionType = string

  /** The three method-level role attributes: TestInitialize, TestMethod and TestCleanup. */
  datatype Role = TestInitialize | TestMethod | TestCleanup

  /** What invoking a method (or a constructor) does: return normally, or throw. */
  datatype Behaviour = Completes | Raises(kind: ExceptionType)

  /** A public instance method of a test class. */
  datatype MethodDesc = MethodDesc(
    name: string,
    roles: set<Role>,
    expected: seq<ExceptionType>,
    behaviour: Behaviour)

  /** A type of an assembly: its name, whether it carries TestClass, its constructor, its methods. */
  datatype ClassDesc = ClassDesc(
    name: string,
    isTestClass: bool,
    construct: Behaviour,
    methods: seq<MethodDesc>)

  /** An assembly is the sequence of types reflection enumerates. */
  datatype Assembly = Assembly(types: seq<ClassDesc>)

  /** One line written to the trace: `Class [..]`, or a phase-labelled line before a method. */
  datatype TraceLine = ClassLine(className: string) | MethodLine(role: Role, methodName: string)

  /** An exception that leaves the runner: one thrown by user code, or the runner's own argument check. */
  datatype Failure = Thrown(kind: ExceptionType) | ArgumentNull(paramName: string)

  /**
   * How one call, or one `All` over a phase, ended: `Completed` is `true`, `Suppressed` is
   * `false`, and `Escaped` is an exception that no ExpectedException caught.
   */
  datatype Verdict = Completed | Suppressed | Escaped(failure: Failure)

  /** How a whole `Run` ended: normally, or with an exception propagating to its caller. */
  datatype Outcome = Done | Propagated(failure: Failure)
}
