/**
 * The engine's standard input, seen as the sequence of lines written to it.
 * Both animal-chess clients talk to a KataGo-derived engine over the Go Text
 * Protocol; each client records every line it writes in a ghost field, so
 * that contracts can state exact command sequences. This module holds what
 * the two clients share about that traffic.
 */
module Pipe {
  import opened Text

  /** The command that (re)starts continuous analysis in the newer client. */
  const Analyze: string := "kata-analyze interval 20"

  /** The analyze command when analysis is switched on, nothing otherwise. */
  function AnalyzeIf(analyzing: bool): (lines: seq<string>) {
    if analyzing then [Analyze] else []
  }

  /** The analyze command is a single line. */
  lemma AnalyzeOneLine()
    ensures '\n' !in Analyze
  {
  }

  /** A string without a line break splits into itself alone. */
  lemma SingleLine(s: string)
    requires '\n' !in s
    ensures Split(s, '\n') == [s]
  {
    SplitFromPlain(s, '\n', [], []);
    assert s + [] == s;
    assert [] + s == s;
  }

  /** A command ending in a line break is sent as the command and then an empty line. */
  lemma TrailingBreak(s: string)
    requires '\n' !in s
    ensures Split(s + "\n", '\n') == [s, ""]
  {
    assert Join([s, ""], '\n') == s + "\n";
    SplitJoin([s, ""], '\n');
  }
}
