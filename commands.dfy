/** What the interaction loop makes of one input line before anything is
    dispatched: `strip()`, the exit and help tokens, and the two
    prefix-triggered log commands. */
module Commands {

  /** Python's `str.isspace()`: the characters `strip()` removes. */
  predicate IsSpace(c: char) {
    || c == ' ' || '\t' <= c <= '\r' || '\U{1c}' <= c <= '\U{1f}'
    || c == '\U{85}' || c == '\U{a0}' || c == '\U{1680}'
    || '\U{2000}' <= c <= '\U{200a}' || c == '\U{2028}' || c == '\U{2029}'
    || c == '\U{202f}' || c == '\U{205f}' || c == '\U{3000}'
  }

  /** The index of the first non-space character of `s` at or after `i`,
      or `|s|` when there is none. */
  function SkipSpace(s: string, i: nat): (lo: nat)
    requires i <= |s|
    ensures i <= lo <= |s|
    decreases |s| - i
  {
    if i < |s| && IsSpace(s[i]) then SkipSpace(s, i + 1) else i
  }

  /** `SkipSpace` skips only spaces and stops at the first non-space. */
  lemma {:induction false} SkipSpaceStops(s: string, i: nat)
    requires i <= |s|
    ensures var lo := SkipSpace(s, i);
            && (forall k :: i <= k < lo ==> IsSpace(s[k]))
            && (lo < |s| ==> !IsSpace(s[lo]))
    decreases |s| - i
  {
    if i < |s| && IsSpace(s[i]) {
      SkipSpaceStops(s, i + 1);
    }
  }

  /** The end of `s[lo..j]` once its trailing spaces are dropped. */
  function SkipSpaceBack(s: string, lo: nat, j: nat): (hi: nat)
    requires lo <= j <= |s|
    ensures lo <= hi <= j
    decreases j
  {
    if j > lo && IsSpace(s[j - 1]) then SkipSpaceBack(s, lo, j - 1) else j
  }

  /** `SkipSpaceBack` drops only spaces and stops at the last non-space. */
  lemma {:induction false} SkipSpaceBackStops(s: string, lo: nat, j: nat)
    requires lo <= j <= |s|
    ensures var hi := SkipSpaceBack(s, lo, j);
            && (forall k :: hi <= k < j ==> IsSpace(s[k]))
            && (hi > lo ==> !IsSpace(s[hi - 1]))
    decreases j
  {
    if j > lo && IsSpace(s[j - 1]) {
      SkipSpaceBackStops(s, lo, j - 1);
    }
  }

  /** Where the stripped line starts and ends within the raw line. */
  function StripStart(s: string): nat {
    SkipSpace(s, 0)
  }

  function StripEnd(s: string): (hi: nat)
    ensures StripStart(s) <= hi <= |s|
  {
    SkipSpaceBack(s, StripStart(s), |s|)
  }

  /** `s.strip()`. */
  function Strip(s: string): (r: string)
    ensures |r| <= |s|
  {
    s[StripStart(s)..StripEnd(s)]
  }

  /** `strip()` keeps the slice of `s` between its leading and its trailing
      whitespace, and neither end of what it keeps is whitespace. */
  lemma StripSpec(s: string)
    ensures var lo, hi, r := StripStart(s), StripEnd(s), Strip(s);
            && r == s[lo..hi]
            && (forall k :: 0 <= k < lo ==> IsSpace(s[k]))
            && (forall k :: hi <= k < |s| ==> IsSpace(s[k]))
            && (r != [] ==> !IsSpace(r[0]) && !IsSpace(r[|r| - 1]))
  {
    SkipSpaceStops(s, 0);
    SkipSpaceBackStops(s, StripStart(s), |s|);
  }

  /** A line with no space at either end is its own stripped form. */
  lemma StrippedIsFixed(s: string)
    requires s == [] || (!IsSpace(s[0]) && !IsSpace(s[|s| - 1]))
    ensures Strip(s) == s
  {
    assert StripStart(s) == 0;
    assert StripEnd(s) == |s|;
  }

  /** Stripping a stripped line changes nothing. */
  lemma StripIdempotent(s: string)
    ensures Strip(Strip(s)) == Strip(s)
  {
    StripSpec(s);
    StrippedIsFixed(Strip(s));
  }

  /** `c.lower()` on the ASCII letters. */
  function LowerChar(c: char): char {
    if 'A' <= c <= 'Z' then (c as int - 'A' as int + 'a' as int) as char else c
  }

  /** `s.lower()` restricted to ASCII letters: no other character lowers to
      a string made only of the letters of the exit tokens, so for the exit
      test this is Python's full lowering. */
  function Lower(s: string): (r: string)
    ensures |r| == |s|
  {
    seq(|s|, k requires 0 <= k < |s| => LowerChar(s[k]))
  }

  predicate StartsWith(s: string, prefix: string) {
    |prefix| <= |s| && s[..|prefix|] == prefix
  }

  const ExitWords: set<string> := {"exit", "quit", "q"}
  const HelpWords: set<string> := {"help", "h", "?"}

  predicate ShowsLogs(text: string) {
    StartsWith(text, "show logs") || StartsWith(text, "顯示記錄")
  }

  predicate ExportsLogs(text: string) {
    StartsWith(text, "export logs") || StartsWith(text, "匯出紀錄")
  }

  /** The branch the loop takes for one line. A routed line goes to the
      interpreter and the dispatcher first; `showLogs` and `exportLogs` then say
      which of the two log commands also run after it. */
  datatype Command =
    | Blank
    | Quit
    | Help
    | Route(text: string, showLogs: bool, exportLogs: bool)

  /** The classification of one raw input line. */
  function Classify(line: string): Command {
    var text := Strip(line);
    if text == [] then Blank
    else if Lower(text) in ExitWords then Quit
    else if text in HelpWords then Help
    else Route(text, ShowsLogs(text), ExportsLogs(text))
  }

  /** A line is blank exactly when nothing is left once it is stripped; it
      ends the session exactly when the stripped line, lowered, is an exit
      token; it asks for help exactly when the stripped line is a help
      token as typed and not an exit token; every other line is routed
      stripped, and the log commands' prefixes are tested on the stripped
      text. */
  lemma ClassifyCases(line: string)
    ensures Classify(line).Blank? <==> Strip(line) == []
    ensures Classify(line).Quit? <==> Strip(line) != [] && Lower(Strip(line)) in ExitWords
    ensures Classify(line).Help? <==> Strip(line) in HelpWords && Lower(Strip(line)) !in ExitWords
    ensures Classify(line).Route? <==>
              Strip(line) != [] && Lower(Strip(line)) !in ExitWords && Strip(line) !in HelpWords
    ensures var c := Classify(line);
            c.Route? ==> && c.text == Strip(line)
                         && c.showLogs == ShowsLogs(c.text)
                         && c.exportLogs == ExportsLogs(c.text)
  {
    assert Lower([]) == [];
  }

  /** Whitespace around a line never changes what the loop does with it. */
  lemma ClassifyIgnoresSurroundingSpace(line: string)
    ensures Classify(Strip(line)) == Classify(line)
  {
    StripIdempotent(line);
  }

  /** Two lines that differ only in the case of their letters (and in the
      whitespace around them) both end the session or neither does. */
  lemma ExitTestIgnoresCase(a: string, b: string)
    requires Lower(Strip(a)) == Lower(Strip(b))
    ensures Classify(a).Quit? <==> Classify(b).Quit?
  {
    ClassifyCases(a);
    ClassifyCases(b);
  }

  /** Exit tokens ignore case: "QUIT" ends the session. */
  lemma ExitIgnoresCase()
    ensures Classify("QUIT") == Quit
  {
    StrippedIsFixed("QUIT");
    assert Strip("QUIT") == "QUIT";
    var l := Lower("QUIT");
    assert l[0] == 'q' && l[1] == 'u' && l[2] == 'i' && l[3] == 't';
    assert l == "quit";
  }

  /** Help tokens do not: "HELP" is sent to the interpreter. */
  lemma HelpIsCaseSensitive()
    ensures Classify("HELP") == Route("HELP", false, false)
  {
    StrippedIsFixed("HELP");
    assert Strip("HELP") == "HELP";
    var l := Lower("HELP");
    assert l[0] == 'h' && l[1] == 'e' && l[2] == 'l' && l[3] == 'p';
    assert l !in ExitWords by {
      assert l[0] != "exit"[0] && l[0] != "quit"[0] && l[0] != "q"[0];
    }
    assert "HELP" !in HelpWords by {
      assert "HELP"[0] != "help"[0] && |"HELP"| != |"h"| && |"HELP"| != |"?"|;
    }
    assert !ShowsLogs("HELP") by {
      assert "HELP"[0] != "顯示記錄"[0];
    }
    assert !ExportsLogs("HELP");
  }

  /** The log commands are recognised by prefix, so text after the trigger
      does not stop them. */
  lemma ShowLogsByPrefix()
    ensures Classify("show logs now") == Route("show logs now", true, false)
  {
    StrippedIsFixed("show logs now");
    assert "show logs now"[..9] == "show logs";
  }
}
