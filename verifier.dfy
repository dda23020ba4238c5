/**
 * The verifiers of an interactive console test. Each gets the lines the tested
 * program printed during one session (the harness that runs the program is not
 * part of this model) and decides, as the JUnit assertions of the test class
 * do, whether the test passes or which failure it reports.
 */
module Verifier {
  import opened Wrappers
  import opened Text
  import opened Matchers
  import opened Report
  import opened Expectations

  const ErrorPrefix := "Error,"
  const UnexpectedNote := "\n Your code called Terminal.printLine, while it was expected not to output anything!"
  const NeverCalledNote := "\n Your code never called Terminal.printLine!"
  const MoreThanOnceNote := "\n Your code called Terminal.printLine more than once!"
  const CountIntro := "Your program's output had "

  /** The failures a verifier reports; `fail(message)` and a failed `assertThat(reason, actual, matcher)`. */
  datatype Failure =
    | UnexpectedOutput(message: string)
    | NeverPrinted(message: string)
    | PrintedMoreThanOnce(message: string)
    | WrongLineCount(tooFew: bool, message: string)
      // `line` is the 1-based number of the output line that did not match `expected`
    | Mismatch(line: nat, reason: string, expected: Matcher, actual: string)

  datatype Verdict = Pass | Fail(failure: Failure)

  // ---------------------------------------------------------------------------
  // noOutputTest

  /** `noOutputTest(commands, args0)`: the session must print nothing. */
  function NoOutputTest(sep: string, commands: seq<string>, args: Option<seq<string>>, output: seq<string>): (v: Verdict)
    ensures v.Pass? <==> output == []
    ensures v.Fail? ==> v.failure.UnexpectedOutput? && ConsoleMessage(sep, commands, args) <= v.failure.message
  {
    if |output| != 0 then Fail(UnexpectedOutput(ConsoleMessage(sep, commands, args) + UnexpectedNote))
    else Pass
  }

  /** `noOutputTest(command, args0)`: the same for a session of one command. */
  function NoOutputTestOneCommand(sep: string, command: string, args: Option<seq<string>>, output: seq<string>): (v: Verdict)
    ensures v.Pass? <==> output == []
    ensures v.Fail? ==> v.failure.UnexpectedOutput? && ConsoleMessage(sep, [command], args) <= v.failure.message
  {
    NoOutputTest(sep, WrapInArray(command), args, output)
  }

  // ---------------------------------------------------------------------------
  // oneLineTest

  /** `oneLineTest(commands, matcher, args0)`: exactly one line, and `matcher` accepts it. */
  function OneLineTest(sep: string, commands: seq<string>, matcher: Matcher, args: Option<seq<string>>, output: seq<string>): (v: Verdict)
    ensures |output| == 0 ==> v.Fail? && v.failure.NeverPrinted?
    ensures |output| > 1 ==> v.Fail? && v.failure.PrintedMoreThanOnce?
    ensures |output| == 1 ==> (v.Pass? <==> Matches(matcher, output[0]))
    ensures |output| == 1 && v.Fail? ==> v.failure == Mismatch(1, ConsoleMessage(sep, commands, args), matcher, output[0])
  {
    var message := ConsoleMessage(sep, commands, args);
    if |output| == 0 then Fail(NeverPrinted(message + NeverCalledNote))
    else if |output| > 1 then Fail(PrintedMoreThanOnce(message + MoreThanOnceNote))
    else if Matches(matcher, output[0]) then Pass
    else Fail(Mismatch(1, message, matcher, output[0]))
  }

  /** `oneLineTest(commands, expectedOutput, args0)`: the output is exactly the one line `expectedOutput`. */
  function OneLineTestText(sep: string, commands: seq<string>, expectedOutput: string, args: Option<seq<string>>, output: seq<string>): (v: Verdict)
    ensures v.Pass? <==> output == [expectedOutput]
    ensures |output| == 1 && v.Fail? ==> v.failure.Mismatch? && v.failure.actual == output[0]
  {
    OneLineTest(sep, commands, Exact(expectedOutput), args, output)
  }

  /** `oneLineTest(command, matcher, args0)`. */
  function OneLineTestOneCommand(sep: string, command: string, matcher: Matcher, args: Option<seq<string>>, output: seq<string>): (v: Verdict)
    ensures v.Pass? <==> |output| == 1 && Matches(matcher, output[0])
    ensures v.Fail? ==> ConsoleMessage(sep, [command], args) <= FailureText(v.failure)
  {
    OneLineTest(sep, WrapInArray(command), matcher, args, output)
  }

  /** `oneLineTest(command, expectedOutput, args0)`. */
  function OneLineTestOneCommandText(sep: string, command: string, expectedOutput: string, args: Option<seq<string>>, output: seq<string>): (v: Verdict)
    ensures v.Pass? <==> output == [expectedOutput]
  {
    OneLineTestOneCommand(sep, command, Exact(expectedOutput), args, output)
  }

  /** The message a failure is reported with (for a mismatch, the reason given to `assertThat`). */
  function FailureText(f: Failure): string
  {
    match f
    case UnexpectedOutput(message) => message
    case NeverPrinted(message) => message
    case PrintedMoreThanOnce(message) => message
    case WrongLineCount(_, message) => message
    case Mismatch(_, reason, _, _) => reason
  }

  // ---------------------------------------------------------------------------
  // errorTest

  /** `errorTest(commands, args0)`: some output, and its first line starts with "Error,". */
  function ErrorTest(sep: string, commands: seq<string>, args: Option<seq<string>>, output: seq<string>): (v: Verdict)
    ensures |output| == 0 ==> v.Fail? && v.failure.NeverPrinted?
    ensures |output| > 0 ==> (v.Pass? <==> ErrorPrefix <= output[0])
    ensures |output| > 0 && v.Fail? ==> v.failure == Mismatch(1, ConsoleMessage(sep, commands, args), StartsWith(ErrorPrefix), output[0])
  {
    var message := ConsoleMessage(sep, commands, args);
    if |output| == 0 then Fail(NeverPrinted(message + NeverCalledNote))
    else if Matches(StartsWith(ErrorPrefix), output[0]) then Pass
    else Fail(Mismatch(1, message, StartsWith(ErrorPrefix), output[0]))
  }

  /** `errorTest(command, args0)`. */
  function ErrorTestOneCommand(sep: string, command: string, args: Option<seq<string>>, output: seq<string>): (v: Verdict)
    ensures v.Pass? <==> |output| > 0 && ErrorPrefix <= output[0]
    ensures v.Fail? ==> ConsoleMessage(sep, [command], args) <= FailureText(v.failure)
  {
    ErrorTest(sep, WrapInArray(command), args, output)
  }

  /** Only the first line decides an error test: whatever follows it is never looked at. */
  lemma ErrorTestIgnoresLaterLines(sep: string, commands: seq<string>, args: Option<seq<string>>, output1: seq<string>, output2: seq<string>)
    requires |output1| > 0 && |output2| > 0 && output1[0] == output2[0]
    ensures ErrorTest(sep, commands, args, output1) == ErrorTest(sep, commands, args, output2)
  {
  }

  // ---------------------------------------------------------------------------
  // multiLineTest

  /** The first position at or after `i` whose line its matcher rejects, or `|expected|` if there is none. */
  function FirstMismatchFrom(expected: seq<Matcher>, output: seq<string>, i: nat): (k: nat)
    requires |output| == |expected| && i <= |expected|
    ensures i <= k <= |expected|
    ensures forall j :: i <= j < k ==> Matches(expected[j], output[j])
    ensures k < |expected| ==> !Matches(expected[k], output[k])
    decreases |expected| - i
  {
    if i == |expected| then i
    else if !Matches(expected[i], output[i]) then i
    else FirstMismatchFrom(expected, output, i + 1)
  }

  function CountMessage(describe: Matcher -> string, sep: string, commands: seq<string>, expected: seq<Matcher>,
                        args: Option<seq<string>>, output: seq<string>): string
  {
    ConsoleMessage(sep, commands, args) + CountIntro
    + (if |output| < |expected| then "not enough" else "too many")
    + " lines (<=> calls to Terminal.printLine()).\nYour output had "
    + NatToString(|output|) + " lines, expected were " + NatToString(|expected|)
    + ".\n" + ExpectedAndActualText(describe, sep, expected, output)
  }

  function LineErrorMessage(line: nat): string
  {
    "First error at line " + NatToString(line) + ":"
  }

  function LineMessage(describe: Matcher -> string, sep: string, commands: seq<string>, expected: seq<Matcher>,
                       args: Option<seq<string>>, output: seq<string>, line: nat): string
  {
    ConsoleMessage(sep, commands, args) + ExpectedAndActualText(describe, sep, expected, output) + "\n" + LineErrorMessage(line)
  }

  /** What `multiLineTest(commands, expectedResults, args0)` decides: the line count first, then the first rejected line. */
  function MultiLineVerdict(describe: Matcher -> string, sep: string, commands: seq<string>, expected: seq<Matcher>,
                            args: Option<seq<string>>, output: seq<string>): Verdict
  {
    if |output| != |expected| then
      Fail(WrongLineCount(|output| < |expected|, CountMessage(describe, sep, commands, expected, args, output)))
    else
      var k := FirstMismatchFrom(expected, output, 0);
      if k == |expected| then Pass
      else Fail(Mismatch(k + 1, LineMessage(describe, sep, commands, expected, args, output, k + 1), expected[k], output[k]))
  }

  /**
   * A line count that differs from the number of matchers fails before any line
   * is matched, and the report says "not enough" exactly when lines are missing.
   */
  lemma MultiLineCountFirst(describe: Matcher -> string, sep: string, commands: seq<string>, expected: seq<Matcher>,
                            args: Option<seq<string>>, output: seq<string>)
    requires |output| != |expected|
    ensures var v := MultiLineVerdict(describe, sep, commands, expected, args, output);
      && v.Fail? && v.failure.WrongLineCount?
      && (v.failure.tooFew <==> |output| < |expected|)
      && ConsoleMessage(sep, commands, args) + CountIntro + (if v.failure.tooFew then "not enough" else "too many")
         <= v.failure.message
  {
  }

  /** With the right number of lines the test passes exactly when every line matches its own matcher. */
  lemma MultiLinePassIff(describe: Matcher -> string, sep: string, commands: seq<string>, expected: seq<Matcher>,
                         args: Option<seq<string>>, output: seq<string>)
    requires |output| == |expected|
    ensures var v := MultiLineVerdict(describe, sep, commands, expected, args, output);
      && (v.Pass? <==> forall i :: 0 <= i < |output| ==> Matches(expected[i], output[i]))
      && (v.Fail? ==> v.failure.Mismatch?)
  {
  }

  /**
   * A mismatch is reported at the first rejected line, numbered from 1: every
   * line before it matched, and the report names that line and its matcher.
   */
  lemma MultiLineFirstError(describe: Matcher -> string, sep: string, commands: seq<string>, expected: seq<Matcher>,
                            args: Option<seq<string>>, output: seq<string>)
    requires MultiLineVerdict(describe, sep, commands, expected, args, output).Fail?
    requires MultiLineVerdict(describe, sep, commands, expected, args, output).failure.Mismatch?
    ensures var f := MultiLineVerdict(describe, sep, commands, expected, args, output).failure;
      && |output| == |expected| && 1 <= f.line <= |output|
      && (forall j :: 0 <= j < f.line - 1 ==> Matches(expected[j], output[j]))
      && !Matches(expected[f.line - 1], output[f.line - 1])
      && f.expected == expected[f.line - 1] && f.actual == output[f.line - 1]
      && |f.reason| >= |LineErrorMessage(f.line)|
      && f.reason[|f.reason| - |LineErrorMessage(f.line)|..] == LineErrorMessage(f.line)
  {
  }

  /**
   * No line after the first rejected one is looked at: changing the later lines
   * leaves the reported line, matcher and actual text as they were.
   */
  lemma MultiLineStopsAtFirstError(describe: Matcher -> string, sep: string, commands: seq<string>, expected: seq<Matcher>,
                                   args: Option<seq<string>>, output1: seq<string>, output2: seq<string>, line: nat)
    requires MultiLineVerdict(describe, sep, commands, expected, args, output1).Fail?
    requires MultiLineVerdict(describe, sep, commands, expected, args, output1).failure.Mismatch?
    requires MultiLineVerdict(describe, sep, commands, expected, args, output1).failure.line == line
    requires |output2| == |output1| && output2[..line] == output1[..line]
    ensures var f1 := MultiLineVerdict(describe, sep, commands, expected, args, output1).failure;
      var v2 := MultiLineVerdict(describe, sep, commands, expected, args, output2);
      && v2.Fail? && v2.failure.Mismatch? && v2.failure.line == line
      && v2.failure.expected == f1.expected && v2.failure.actual == f1.actual
  {
  }

  /** Expecting exactly the lines a program printed, as `is` matchers, always passes. */
  lemma MultiLineOwnOutputPasses(describe: Matcher -> string, sep: string, commands: seq<string>,
                                 args: Option<seq<string>>, output: seq<string>)
    ensures MultiLineVerdict(describe, sep, commands, Exacts(output), args, output) == Pass
  {
  }

  /** Three lines expected as [l0, "WRONG", l2] fail at line 2 when the second line is not "WRONG". */
  lemma MultiLineReportsSecondLine(describe: Matcher -> string, sep: string, commands: seq<string>,
                                   args: Option<seq<string>>, l0: string, l1: string, l2: string)
    requires l1 != "WRONG"
    ensures var v := MultiLineVerdict(describe, sep, commands, Exacts([l0, "WRONG", l2]), args, [l0, l1, l2]);
      v.Fail? && v.failure.Mismatch? && v.failure.line == 2
  {
    var expected := Exacts([l0, "WRONG", l2]);
    var output := [l0, l1, l2];
    assert FirstMismatchFrom(expected, output, 1) == 1;
    assert FirstMismatchFrom(expected, output, 0) == 1;
  }

  /** `multiLineTest(commands, expectedResults, args0)`; `describe` renders a matcher in the report. */
  method MultiLineTest(describe: Matcher -> string, sep: string, commands: seq<string>, expected: seq<Matcher>,
                       args: Option<seq<string>>, output: seq<string>) returns (v: Verdict)
    ensures v == MultiLineVerdict(describe, sep, commands, expected, args, output)
  {
    var message := "";
    if |output| != |expected| {
      message := message + ConsoleMessage(sep, commands, args);
      assert message == ConsoleMessage(sep, commands, args);
      message := message + CountIntro;
      message := message + (if |output| < |expected| then "not enough" else "too many");
      message := message + " lines (<=> calls to Terminal.printLine()).\nYour output had ";
      message := message + NatToString(|output|) + " lines, expected were " + NatToString(|expected|);
      var dump := ExpectedAndActual(describe, sep, expected, output);
      message := message + ".\n" + dump;
      return Fail(WrongLineCount(|output| < |expected|, message));
    }
    var i := 0;
    while i < |expected|
      invariant 0 <= i <= |expected|
      invariant FirstMismatchFrom(expected, output, 0) == FirstMismatchFrom(expected, output, i)
    {
      var lineErrorMessage := "First error at line " + NatToString(i + 1) + ":";
      var dump := ExpectedAndActual(describe, sep, expected, output);
      message := ConsoleMessage(sep, commands, args) + dump + "\n" + lineErrorMessage;
      if !Matches(expected[i], output[i]) {
        return Fail(Mismatch(i + 1, message, expected[i], output[i]));
      }
      i := i + 1;
    }
    return Pass;
  }

  /** `multiLineTest(command, expectedResults, args0)`. */
  method MultiLineTestOneCommand(describe: Matcher -> string, sep: string, command: string, expected: seq<Matcher>,
                                 args: Option<seq<string>>, output: seq<string>) returns (v: Verdict)
    ensures v == MultiLineVerdict(describe, sep, [command], expected, args, output)
  {
    v := MultiLineTest(describe, sep, WrapInArray(command), expected, args, output);
  }

  /** `multiLineTest(commands, expectedResults, args0)` with strings: passes exactly when the output is those lines. */
  method MultiLineTestStrings(describe: Matcher -> string, sep: string, commands: seq<string>, expected: seq<string>,
                              args: Option<seq<string>>, output: seq<string>) returns (v: Verdict)
    ensures v == MultiLineVerdict(describe, sep, commands, Exacts(expected), args, output)
    ensures v.Pass? <==> output == expected
  {
    var matchers := JoinAsIsMatchers(expected);
    assert matchers == Exacts(expected);
    v := MultiLineTest(describe, sep, commands, matchers, args, output);
    if |output| == |expected| {
      ExactsMatchIff(expected, output);
      MultiLinePassIff(describe, sep, commands, matchers, args, output);
    }
  }

  /** `multiLineTest(command, expectedResults, args0)` with strings. */
  method MultiLineTestOneCommandStrings(describe: Matcher -> string, sep: string, command: string, expected: seq<string>,
                                        args: Option<seq<string>>, output: seq<string>) returns (v: Verdict)
    ensures v == MultiLineVerdict(describe, sep, [command], Exacts(expected), args, output)
    ensures v.Pass? <==> output == expected
  {
    var matchers := JoinAsIsMatchers(expected);
    assert matchers == Exacts(expected);
    v := MultiLineTestOneCommand(describe, sep, command, matchers, args, output);
    if |output| == |expected| {
      ExactsMatchIff(expected, output);
      MultiLinePassIff(describe, sep, [command], matchers, args, output);
    }
  }
}
