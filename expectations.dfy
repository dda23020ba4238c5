/**
 * Building the inputs of a test: the expected matchers, a one-command session,
 * and a session that ends with the console's "quit" command.
 */
module Expectations {
  import opened Matchers

  /** `getMatchers`: list the given matchers, one per expected output line, in order. */
  method GetMatchers(matchers: seq<Matcher>) returns (result: seq<Matcher>)
    ensures result == matchers
  {
    result := [];
    for i := 0 to |matchers|
      invariant result == matchers[..i]
    {
      result := result + [matchers[i]];
    }
    assert matchers[..|matchers|] == matchers;
  }

  /** `joinAsIsMatchers`: an `is` matcher for each expected line, same length, same order. */
  method JoinAsIsMatchers(strings: seq<string>) returns (result: seq<Matcher>)
    ensures |result| == |strings|
    ensures forall i :: 0 <= i < |strings| ==> result[i] == Exact(strings[i])
  {
    result := [];
    for i := 0 to |strings|
      invariant |result| == i
      invariant forall k :: 0 <= k < i ==> result[k] == Exact(strings[k])
    {
      result := result + [Exact(strings[i])];
    }
  }

  /** `wrapInArray`: the session of a single command. */
  function WrapInArray(s: string): (r: seq<string>)
    ensures |r| == 1 && r[0] == s
  {
    [s]
  }

  /** `addQuit`: a fresh copy of `commands` with "quit" added at its end; `commands` is left as it was. */
  method AddQuit(commands: array<string>) returns (allCommands: array<string>)
    ensures fresh(allCommands)
    ensures allCommands.Length == commands.Length + 1
    ensures allCommands[..commands.Length] == commands[..]
    ensures allCommands[commands.Length] == "quit"
  {
    allCommands := new string[commands.Length + 1](_ => "");
    for i := 0 to commands.Length
      invariant forall k :: 0 <= k < i ==> allCommands[k] == commands[k]
    {
      allCommands[i] := commands[i];
    }
    allCommands[commands.Length] := "quit";
  }
}
