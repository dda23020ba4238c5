# Interactive console test verifiers, modelled in Dafny

`InteractiveConsoleTest` is a JUnit base class. It runs a console program on
a sequence of commands, then takes the lines the program printed and checks
them against an expectation:
- `noOutputTest`: no lines at all.
- `oneLineTest`: exactly one line, accepted by one matcher.
- `errorTest`: a first line that starts with `"Error,"`.
- `multiLineTest`: one line per matcher, in order.

When a check fails, the class builds a report. Every report starts with a
description of the session (command line arguments and commands). Only the
reports of `multiLineTest` go on to dump both the expected and the actual
output. `noOutputTest`, `oneLineTest` and `errorTest` add a fixed note, or
give the session description alone as the reason of an `assertThat`.

This project models those decisions and those reports.
- The printed lines are a `seq<string>` parameter, because the harness that
  runs the program is not part of this model.
- JUnit's `fail` and `assertThat` become a `Verdict`: either `Pass` or
  `Fail(failure)`. The `Failure` datatype says which check failed. For a line
  that did not match, it gives the 1-based line number, the matcher and the
  line.
- Matchers are the two Hamcrest matchers the class uses: `Exact` (`is`) and
  `StartsWith` (`startsWith`). `describe` is a parameter that stands for
  `Matcher.toString`, whose text belongs to Hamcrest.
- `sep` is a parameter that stands for `System.lineSeparator()`.
- A `null` argument array is `None`.

Modules:
- `Text` (text.dfy): joining lines with a separator, splitting text back into
  lines, and decimal numerals.
- `Matchers` (matchers.dfy): the matcher datatype.
- `Report` (report.dfy): `getArguments`, `consoleMessage`, `joinOnePerLine`
  and `expectedAndActual`.
- `Expectations` (expectations.dfy): `getMatchers`, `joinAsIsMatchers`,
  `wrapInArray` and `addQuit`.
- `Verifier` (verifier.dfy): every overload of the four tests.
- `Wrappers` (wrappers.dfy): `Option`.

Functions model the tests that only use guards. Methods with loops, proved
equal to specification functions, model the helpers that fill a list, an
array or a string in a loop, and the index loop of `multiLineTest`, which
exits early.

`joinOnePerLine` tests `result != ""` by reference, not by value. The
reference is equal only to the initial literal, before the first element is
appended, because every `+=` yields a new `String`. So the method is a plain
join: even after an empty first element, the separator is still added
(`Report.EmptyFirstLineKept`).

No code checks that the command sequence is non-empty, so the model accepts
any sequence, including an empty one.

The decision of `multiLineTest` is the function `Verifier.MultiLineVerdict`
(src/test/InteractiveConsoleTest.java:288-304), and every multi-line lemma
is stated about it. `Verifier.CountMessage` is the count-failure message of
lines 289-294. `Verifier.LineMessage` is the per-line message of lines
300-302.

## Model

| member | source | states |
|---|---|---|
| `Text.JoinCons` | src/test/InteractiveConsoleTest.java:434-441 | the joined text is the first element, the separator, then the rest joined |
| `Text.SplitJoin` | src/test/InteractiveConsoleTest.java:434-441 | for a non-empty list of elements, none of which contains the one-character separator, splitting the joined text gives back exactly the elements, so each element is one line |
| `Text.NatToString` | src/test/InteractiveConsoleTest.java:293 | the line counts appear as a non-empty run of decimal digits with no leading zero |
| `Text.ParseNatToString` | src/test/InteractiveConsoleTest.java:300 | reading back the numeral gives the number written, so the count or line number in a report is exact |
| `Report.ArrayText` | src/test/InteractiveConsoleTest.java:166 | `Arrays.toString` gives the elements joined by ", " inside brackets |
| `Report.GetArguments` | src/test/InteractiveConsoleTest.java:162-167 | gives "" exactly when the arguments are null or empty; otherwise the fixed phrase, then the bracketed list |
| `Report.ConsoleMessage` | src/test/InteractiveConsoleTest.java:106-111 | the session description starts with the "We ran a session" introduction and ends with "but got unexpected output:" |
| `Report.ConsoleMessageShowsCommands` | src/test/InteractiveConsoleTest.java:106-111 | with a one-character separator that no command contains, two different non-empty command sequences run with the same arguments never give the same session description |
| `Report.JoinOnePerLine` | src/test/InteractiveConsoleTest.java:434-441 | the loop builds the join of the strings: "" for none, otherwise the separator between consecutive elements |
| `Report.EmptyFirstLineKept` | src/test/InteractiveConsoleTest.java:437 | the separator follows the first element even when it is empty, because the test compares references |
| `Report.DescriptionsOnePerLine` | src/test/InteractiveConsoleTest.java:80-82 | the expected part lists each matcher's description in order, each followed by a line feed |
| `Report.ExpectedAndActual` | src/test/InteractiveConsoleTest.java:78-85 | the loop builds the heading, the descriptions one per line, then the actual output joined one per line |
| `Matchers.ExactsMatchIff` | src/test/InteractiveConsoleTest.java:443-449 | lines match a sequence of `is` matchers position by position exactly when they equal the texts |
| `Expectations.GetMatchers` | src/test/InteractiveConsoleTest.java:189-196 | the list holds the given matchers in their order |
| `Expectations.JoinAsIsMatchers` | src/test/InteractiveConsoleTest.java:443-449 | one `is` matcher per string: same length, same order |
| `Expectations.WrapInArray` | src/test/InteractiveConsoleTest.java:451-455 | a one-command session made of the given command |
| `Expectations.AddQuit` | src/test/InteractiveConsoleTest.java:69-76 | returns a fresh array one longer than the input: a copy of the input, then "quit"; the input is not modified |
| `Verifier.NoOutputTest` | src/test/InteractiveConsoleTest.java:349-359 | passes exactly when nothing was printed; otherwise an unexpected-output failure whose report starts with the session description |
| `Verifier.NoOutputTestOneCommand` | src/test/InteractiveConsoleTest.java:335-337 | the same verdict for a one-command session, and the report describes that session |
| `Verifier.OneLineTest` | src/test/InteractiveConsoleTest.java:405-416 | 0 lines gives never-printed; more than 1 gives more-than-once; exactly 1 passes exactly when the matcher accepts it, and otherwise reports a mismatch at line 1 |
| `Verifier.OneLineTestText` | src/test/InteractiveConsoleTest.java:430-432 | passes exactly when the output is the single expected line |
| `Verifier.OneLineTestOneCommand` | src/test/InteractiveConsoleTest.java:373-375 | passes exactly when there is one line and the matcher accepts it; the report describes the one-command session |
| `Verifier.OneLineTestOneCommandText` | src/test/InteractiveConsoleTest.java:389-391 | passes exactly when the output is the single expected line |
| `Verifier.ErrorTest` | src/test/InteractiveConsoleTest.java:141-151 | no output gives never-printed; otherwise passes exactly when line 1 starts with "Error,", else a mismatch at line 1 against `startsWith("Error,")` |
| `Verifier.ErrorTestOneCommand` | src/test/InteractiveConsoleTest.java:125-127 | passes exactly when there is output and its first line starts with "Error," |
| `Verifier.ErrorTestIgnoresLaterLines` | src/test/InteractiveConsoleTest.java:146-150 | two outputs with the same first line get the same verdict, so extra lines are ignored |
| `Verifier.FirstMismatchFrom` | src/test/InteractiveConsoleTest.java:298-304 | the smallest position from `i` on whose line its matcher rejects: every earlier line matches, and the line there does not |
| `Verifier.MultiLineCountFirst` | src/test/InteractiveConsoleTest.java:288-296 | a line count different from the matcher count always fails with a count failure, before any line is matched; "not enough" exactly when there are fewer lines, "too many" otherwise |
| `Verifier.MultiLinePassIff` | src/test/InteractiveConsoleTest.java:297-304 | with equal counts, passes exactly when every line matches its own matcher, and any failure is a line mismatch |
| `Verifier.MultiLineFirstError` | src/test/InteractiveConsoleTest.java:299-304 | a mismatch names the 1-based number of the first rejected line, with its matcher and text; all earlier lines matched; the report ends "First error at line n:" |
| `Verifier.MultiLineStopsAtFirstError` | src/test/InteractiveConsoleTest.java:299-304 | changing the lines after the first rejected line leaves the reported line, matcher and text unchanged |
| `Verifier.MultiLineOwnOutputPasses` | src/test/InteractiveConsoleTest.java:321-323 | expecting exactly the printed lines, as `is` matchers, always passes |
| `Verifier.MultiLineReportsSecondLine` | src/test/InteractiveConsoleTest.java:297-304 | [l0, "WRONG", l2] against three lines whose second is not "WRONG" fails at line 2 |
| `Verifier.MultiLineTest` | src/test/InteractiveConsoleTest.java:282-305 | the early-exit loop gives exactly the verdict of the count check, then the first rejected line |
| `Verifier.MultiLineTestOneCommand` | src/test/InteractiveConsoleTest.java:229-231 | the verdict of the matcher overload on the one-command session |
| `Verifier.MultiLineTestStrings` | src/test/InteractiveConsoleTest.java:321-323 | the verdict of the matcher overload with `is` matchers; passes exactly when the output equals the expected strings |
| `Verifier.MultiLineTestOneCommandStrings` | src/test/InteractiveConsoleTest.java:247-249 | the same for a one-command session |

## Left out

- The harness calls `TestObject.resetClass`, `setNextMethodCallInput`, `runStaticVoid` and `getLastMethodsOutput`. They load the program, run it and capture its output through reflection and I/O redirection, and `TestObject` is not part of this model. The captured lines are an input of each verifier.
- `defaultSystemExitStatus` and `TestObject.allowSystemExit`: an external exit-interception policy with no decision logic in this class.
- The `@Rule Timeout` of 5 seconds: wall-clock enforcement by the test runner.
- The unused protected fields `command`, `commands`, `expectedResult`, `expectedResultMatcher`, `expectedResultMatchers` and `expectedResults`: no code reads or writes them.
- Hamcrest's own text: `Matcher.toString` is the parameter `describe`. A failed `assertThat` is the `Mismatch` failure carrying its reason, matcher and line; Hamcrest's "Expected: … but: …" rendering is not modelled.
- Matchers other than `is` and `startsWith`: callers may pass any Hamcrest matcher, but the model covers only these two.
- Null references inside arrays or lists: Java would print `null` for them or throw. Strings in the model are never null. The one null the source handles, a null argument array, is `None`.
- Subclasses may override `consoleMessage` and `getArguments`. The model has only the default behaviour.
- Java `int` sizes: lengths and line numbers are unbounded naturals here. The line number `i + 1` at line 300 cannot overflow, because `i` is less than a list size, which is at most `Integer.MAX_VALUE`.
- Expectations.AddQuit: does not model the wrap-around of `commands.length + 1` at line 70. For an array of length `Integer.MAX_VALUE`, the sum wraps to `Integer.MIN_VALUE` and `new String[...]` throws `NegativeArraySizeException`. In the model the length is unbounded and the copy always succeeds.
- `System.lineSeparator()` is the parameter `sep`. `expectedAndActual` still ends each description with "\n", as line 81 of `expectedAndActual` does.
