/**
 * The whitelist text box parsed into terms (app.py, line 36):
 * `[t.strip() for t in whitelist_input.split('\n') if t.strip()]`.
 */
module Whitelist {
  import opened Text

  /** The term one line contributes: its stripped text, unless that is empty. */
  function LineTerm(line: string): seq<string> {
    var t := Strip(line);
    if t == [] then [] else [t]
  }

  /** The stripped non-blank lines, in their order. */
  function NonBlank(lines: seq<string>): seq<string> {
    if lines == [] then [] else LineTerm(lines[0]) + NonBlank(lines[1..])
  }

  function ParseWhitelist(input: string): seq<string> {
    NonBlank(SplitOn(input, '\n'))
  }

  /** The terms of a list of lines are exactly the stripped lines that are not blank. */
  lemma {:induction false} NonBlankMembers(lines: seq<string>)
    ensures forall t :: t in NonBlank(lines) <==> exists l :: l in lines && Strip(l) == t && t != []
  {
    if lines != [] {
      NonBlankMembers(lines[1..]);
      assert lines == [lines[0]] + lines[1..];
    }
  }

  /** Parsing lines keeps their order: the terms of two runs of lines are concatenated. */
  lemma {:induction false} NonBlankAppend(a: seq<string>, b: seq<string>)
    ensures NonBlank(a + b) == NonBlank(a) + NonBlank(b)
  {
    if a == [] {
      AppendEmpty(b);
    } else {
      NonBlankAppend(a[1..], b);
      DropConcat(a, b);
      ConcatAssoc(LineTerm(a[0]), NonBlank(a[1..]), NonBlank(b));
    }
  }

  /**
   * Every term is non-blank, has no whitespace at either end, and holds no
   * line break.
   */
  lemma ParseWhitelistTermsClean(input: string)
    ensures forall t :: t in ParseWhitelist(input) ==>
      t != [] && !IsSpace(t[0]) && !IsSpace(t[|t| - 1]) && '\n' !in t
  {
    var lines := SplitOn(input, '\n');
    NonBlankMembers(lines);
    SplitPiecesLackSep(input, '\n');
    forall t | t in ParseWhitelist(input)
      ensures t != [] && !IsSpace(t[0]) && !IsSpace(t[|t| - 1]) && '\n' !in t
    {
      var l :| l in lines && Strip(l) == t && t != [];
      StripChars(l);
      StripEnds(l);
    }
  }

  /** The terms of `a` come first, then those of `b`, when the text is `a`, a line break, `b`. */
  lemma ParseWhitelistLines(a: string, b: string)
    ensures ParseWhitelist(a + "\n" + b) == ParseWhitelist(a) + ParseWhitelist(b)
  {
    SplitAppend(a, b, '\n');
    NonBlankAppend(SplitOn(a, '\n'), SplitOn(b, '\n'));
  }

  /** One line yields its stripped text, or nothing when it is blank. */
  lemma ParseWhitelistOneLine(line: string)
    requires '\n' !in line
    ensures ParseWhitelist(line) == if Strip(line) == [] then [] else [Strip(line)]
  {
    SplitNoSep(line, '\n');
    assert [line][1..] == [];
    assert NonBlank([line]) == (if Strip(line) == [] then [] else [Strip(line)]) + NonBlank([]);
  }

  /** A line without a line break and without whitespace at its ends is one term. */
  lemma ParseWhitelistCleanLine(line: string)
    requires '\n' !in line && line != []
    requires !IsSpace(line[0]) && !IsSpace(line[|line| - 1])
    ensures ParseWhitelist(line) == [line]
  {
    ParseWhitelistOneLine(line);
    assert LeadingSpaces(line) == 0;
    assert line[0..] == line;
    assert TrailingStart(line[0..]) == |line|;
    assert line[0..][..|line|] == line;
    assert Strip(line) == line;
  }
}
