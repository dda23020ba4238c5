/**
 * The failure reports: a description of the session that was run (command line
 * arguments and commands) and a dump of the expected and the actual output.
 */
module Report {
  import opened Wrappers
  import opened Text
  import opened Matchers

  const ArgumentsIntro := "that has been called with the command line arguments "
  const SessionIntro := "We ran a session on your interactive console"
  const CommandsIntro := ", running the commands \n\n"
  const SessionOutro := "\n\n but got unexpected output:\n"
  const ExpectedIntro := "Expected was:\n\n"
  const ActualIntro := "\nYour output was:\n\n"

  /** `Arrays.toString` of a non-null array of strings: the elements in brackets, separated by ", ". */
  function ArrayText(xs: seq<string>): (r: string)
    ensures |r| >= 2 && r[0] == '[' && r[|r| - 1] == ']'
    ensures r[1..|r| - 1] == Join(xs, ", ")
  {
    "[" + Join(xs, ", ") + "]"
  }

  /** `getArguments`: nothing for a null or empty argument array, otherwise a phrase listing them. */
  function GetArguments(args: Option<seq<string>>): (r: string)
    ensures r == "" <==> args.None? || |args.value| == 0
    ensures r != "" ==> ArgumentsIntro <= r && r[|ArgumentsIntro|..] == ArrayText(args.value)
  {
    if args.None? || |args.value| == 0 then ""
    else ArgumentsIntro + ArrayText(args.value)
  }

  /** `consoleMessage`: the session description every failure report starts with. */
  function ConsoleMessage(sep: string, commands: seq<string>, args: Option<seq<string>>): (r: string)
    ensures SessionIntro <= r
    ensures |r| >= |SessionOutro| && r[|r| - |SessionOutro|..] == SessionOutro
  {
    SessionIntro + GetArguments(args) + CommandsIntro + Join(commands, sep) + SessionOutro
  }

  /**
   * The report shows the session: with a one-character line separator that no
   * command contains, two different non-empty command sequences run with the
   * same arguments never give the same session description.
   */
  lemma ConsoleMessageShowsCommands(c: char, commands1: seq<string>, commands2: seq<string>, args: Option<seq<string>>)
    requires |commands1| > 0 && |commands2| > 0
    requires forall i :: 0 <= i < |commands1| ==> c !in commands1[i]
    requires forall i :: 0 <= i < |commands2| ==> c !in commands2[i]
    requires ConsoleMessage([c], commands1, args) == ConsoleMessage([c], commands2, args)
    ensures commands1 == commands2
  {
    var head := SessionIntro + GetArguments(args) + CommandsIntro;
    var j1, j2 := Join(commands1, [c]), Join(commands2, [c]);
    var m := ConsoleMessage([c], commands1, args);
    assert m == head + j1 + SessionOutro;
    assert m == head + j2 + SessionOutro;
    assert j1 == m[|head|..|head| + |j1|];
    assert j2 == m[|head|..|head| + |j2|];
    SplitJoin(commands1, c);
    SplitJoin(commands2, c);
  }

  /** `joinOnePerLine`: the strings in order, one per line, `sep` being the platform's line separator. */
  method JoinOnePerLine(strings: seq<string>, sep: string) returns (result: string)
    ensures result == Join(strings, sep)
  {
    result := "";
    // `joinOnePerLine` tests `result != ""` by reference: it is false only while `result`
    // is still the initial literal, that is, before the first element is appended.
    var appended := false;
    for i := 0 to |strings|
      invariant appended <==> i > 0
      invariant result == Join(strings[..i], sep)
    {
      result := result + (if appended then sep else "");
      result := result + strings[i];
      appended := true;
      assert strings[..i + 1][..i] == strings[..i];
    }
    assert strings[..|strings|] == strings;
  }

  /** A first element that is empty still gets its own line. */
  lemma EmptyFirstLineKept(sep: string, line: string)
    ensures Join(["", line], sep) == sep + line
  {
    assert ["", line] == [""] + [line];
    JoinCons("", [line], sep);
  }

  /** Each matcher's description followed by a line feed. */
  function Descriptions(describe: Matcher -> string, ms: seq<Matcher>): string
  {
    if |ms| == 0 then "" else Descriptions(describe, ms[..|ms| - 1]) + describe(ms[|ms| - 1]) + "\n"
  }

  function DescribeAll(describe: Matcher -> string, ms: seq<Matcher>): seq<string>
  {
    seq(|ms|, i requires 0 <= i < |ms| => describe(ms[i]))
  }

  /** The expected part of a report lists one matcher description per line, in order. */
  lemma {:induction false} DescriptionsOnePerLine(describe: Matcher -> string, ms: seq<Matcher>)
    requires |ms| > 0
    ensures Descriptions(describe, ms) == Join(DescribeAll(describe, ms), "\n") + "\n"
    decreases |ms|
  {
    var ds := DescribeAll(describe, ms);
    if |ms| > 1 {
      var init := ms[..|ms| - 1];
      DescriptionsOnePerLine(describe, init);
      assert ds[..|ds| - 1] == DescribeAll(describe, init);
    }
  }

  /** What `expectedAndActual` builds: the expected descriptions, then the output one per line. */
  function ExpectedAndActualText(describe: Matcher -> string, sep: string, expected: seq<Matcher>, actual: seq<string>): string
  {
    ExpectedIntro + Descriptions(describe, expected) + ActualIntro + Join(actual, sep)
  }

  /** `expectedAndActual`; `describe` stands for Hamcrest's `Matcher.toString`. */
  method ExpectedAndActual(describe: Matcher -> string, sep: string, expected: seq<Matcher>, actual: seq<string>)
    returns (result: string)
    ensures result == ExpectedAndActualText(describe, sep, expected, actual)
  {
    result := ExpectedIntro;
    for i := 0 to |expected|
      invariant result == ExpectedIntro + Descriptions(describe, expected[..i])
    {
      result := result + describe(expected[i]) + "\n";
      assert expected[..i + 1][..i] == expected[..i];
    }
    assert expected[..|expected|] == expected;
    var output := JoinOnePerLine(actual, sep);
    result := result + ActualIntro + output;
  }
}
