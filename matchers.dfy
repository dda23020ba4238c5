/**
 * The two Hamcrest matchers the console tests use on output lines: `is(text)`
 * and `startsWith(prefix)`.
 */
module Matchers {

  datatype Matcher =
    | Exact(text: string)         // `is(text)`: the line equals `text`
    | StartsWith(prefix: string)  // `startsWith(prefix)`: the line begins with `prefix`

  predicate Matches(m: Matcher, line: string)
  {
    match m
    case Exact(text) => line == text
    case StartsWith(prefix) => prefix <= line
  }

  /** One `is` matcher per expected text, in the same order. */
  function Exacts(texts: seq<string>): seq<Matcher>
  {
    seq(|texts|, i requires 0 <= i < |texts| => Exact(texts[i]))
  }

  /** A line matches all exact expectations positionwise exactly when the lines are the texts. */
  lemma ExactsMatchIff(texts: seq<string>, lines: seq<string>)
    requires |lines| == |texts|
    ensures (forall i :: 0 <= i < |lines| ==> Matches(Exacts(texts)[i], lines[i])) <==> lines == texts
  {
  }
}
