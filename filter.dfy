/**
 * The title relevance filter `passes_filter` (app.py, lines 39-42).
 *
 * The source builds the regular expression `'(' + '|'.join(re.escape(t) ...) + ')'`,
 * compiles it with `re.IGNORECASE` and searches the title with it. The model
 * keeps those three steps: `Escape` is `re.escape`, `ParseGroup` reads the
 * compiled pattern back as its list of literal alternatives, and `Search` is
 * the left-to-right search of an alternation of literals, comparing characters
 * after lower-casing them.
 */
module Filter {
  import opened Wrappers
  import opened Text

  // ----- building the pattern -----

  /** The characters `re.escape` prefixes with a backslash (Python 3.7 and later). */
  const Special: set<char> := {
    '(', ')', '[', ']', '{', '}', '?', '*', '+', '-', '|', '^', '$', '\\',
    '.', '&', '~', '#', ' ', '\t', '\n', '\r', '\U{000B}', '\U{000C}'
  }

  /** Python's `re.escape(t)`. */
  function Escape(t: string): string {
    if t == [] then []
    else (if t[0] in Special then ['\\', t[0]] else [t[0]]) + Escape(t[1..])
  }

  function EscapeAll(terms: seq<string>): seq<string> {
    seq(|terms|, i requires 0 <= i < |terms| => Escape(terms[i]))
  }

  /** The pattern text compiled on line 41. */
  function BuildPattern(terms: seq<string>): string {
    "(" + JoinWith(EscapeAll(terms), '|') + ")"
  }

  // ----- reading the pattern -----

  /** Adds the text `t` to the front of the first alternative. */
  function Extend(t: string, r: Option<seq<string>>): Option<seq<string>>
    requires r.Some? ==> |r.value| >= 1
  {
    match r
    case None => None
    case Some(alts) => Some([t + alts[0]] + alts[1..])
  }

  /**
   * The alternatives of a group body made only of literal characters,
   * escaped operators and `|`; `None` when an unescaped operator appears.
   */
  function Alternatives(body: string): (r: Option<seq<string>>)
    ensures r.Some? ==> |r.value| >= 1
    decreases |body|
  {
    if body == [] then Some([[]])
    else if body[0] == '|' then
      match Alternatives(body[1..])
      case None => None
      case Some(alts) => Some([[]] + alts)
    else if body[0] == '\\' && |body| >= 2 && body[1] in Special then
      Extend([body[1]], Alternatives(body[2..]))
    else if body[0] in Special then None
    else Extend([body[0]], Alternatives(body[1..]))
  }

  /** The literal alternatives of a pattern `( ... )`. */
  function ParseGroup(p: string): Option<seq<string>> {
    if |p| >= 2 && p[0] == '(' && p[|p| - 1] == ')' then Alternatives(p[1..|p| - 1])
    else None
  }

  /** An escaped term read in front of more pattern text contributes itself, literally. */
  lemma {:induction false} AlternativesOfEscape(t: string, rest: string)
    ensures Alternatives(Escape(t) + rest) == Extend(t, Alternatives(rest))
  {
    if t != [] {
      AlternativesOfEscape(t[1..], rest);
      var head := if t[0] in Special then ['\\', t[0]] else [t[0]];
      var tail := Escape(t[1..]) + rest;
      ConcatAssoc(head, Escape(t[1..]), rest);
      DropPrefix(head, tail);
      assert Alternatives(head + tail) == Extend([t[0]], Alternatives(tail));
      match Alternatives(rest)
      case None =>
      case Some(alts) =>
        ConcatAssoc([t[0]], t[1..], alts[0]);
        ConsDrop(t);
    } else {
      assert Escape(t) + rest == rest;
      match Alternatives(rest)
      case None =>
      case Some(alts) =>
        assert t + alts[0] == alts[0];
        ConsDrop(alts);
    }
  }

  /**
   * Escaping makes every term literal: the compiled pattern has exactly the
   * terms as its alternatives, whatever operator characters they contain.
   */
  lemma {:induction false} EscapeRoundTrip(terms: seq<string>)
    requires |terms| >= 1
    ensures ParseGroup(BuildPattern(terms)) == Some(terms)
  {
    BodyRoundTrip(terms);
    var p := BuildPattern(terms);
    assert p[1..|p| - 1] == JoinWith(EscapeAll(terms), '|');
  }

  lemma {:induction false} BodyRoundTrip(terms: seq<string>)
    requires |terms| >= 1
    ensures Alternatives(JoinWith(EscapeAll(terms), '|')) == Some(terms)
  {
    var es := EscapeAll(terms);
    if |terms| == 1 {
      var t0 := terms[0];
      AlternativesOfEscape(t0, "");
      assert Escape(t0) + "" == es[0] == JoinWith(es, '|');
      assert Alternatives("") == Some([""]);
      var one: seq<string> := [""];
      assert one[1..] == [];
      assert t0 + one[0] == t0;
      var x := [t0 + one[0]] + one[1..];
      assert x == [t0];
      assert Extend(t0, Some(one)) == Some(x);
      assert [t0] == terms;
    } else {
      BodyRoundTrip(terms[1..]);
      var tail := JoinWith(EscapeAll(terms[1..]), '|');
      assert es[1..] == EscapeAll(terms[1..]);
      assert JoinWith(es, '|') == Escape(terms[0]) + (['|'] + tail);
      AlternativesOfEscape(terms[0], ['|'] + tail);
      assert (['|'] + tail)[1..] == tail;
      assert Alternatives(['|'] + tail) == Some([[]] + terms[1..]);
      assert ([[]] + terms[1..])[1..] == terms[1..];
      assert terms[0] + [] == terms[0];
      assert terms == [terms[0]] + terms[1..];
    }
  }

  // ----- searching -----

  /** The literal `p` matches at the start of `s`, ignoring case. */
  predicate MatchesAt(s: string, p: string)
    decreases p
  {
    p == [] || (s != [] && Lower(s[0]) == Lower(p[0]) && MatchesAt(s[1..], p[1..]))
  }

  /** Some alternative matches at the start of `s`, tried in order. */
  predicate AnyAlternativeAt(s: string, alts: seq<string>) {
    alts != [] && (MatchesAt(s, alts[0]) || AnyAlternativeAt(s, alts[1..]))
  }

  /** `regex.search(s) is not None`: some start position, from left to right, admits a match. */
  predicate Search(s: string, alts: seq<string>)
    decreases |s|
  {
    AnyAlternativeAt(s, alts) || (s != [] && Search(s[1..], alts))
  }

  /** `passes_filter(title, terms)`. */
  predicate PassesFilter(title: string, terms: seq<string>) {
    if title == [] || terms == [] then true
    else
      match ParseGroup(BuildPattern(terms))
      case Some(alts) => Search(title, alts)
      case None => false
  }

  // ----- what the filter means -----

  lemma {:induction false} MatchesAtSpec(s: string, p: string)
    ensures MatchesAt(s, p) <==> LowerStr(p) <= LowerStr(s)
    decreases p
  {
    if p != [] && s != [] {
      MatchesAtSpec(s[1..], p[1..]);
      PrefixCons(Lower(p[0]), LowerStr(p[1..]), Lower(s[0]), LowerStr(s[1..]));
      assert LowerStr(p) == [Lower(p[0])] + LowerStr(p[1..]);
      assert LowerStr(s) == [Lower(s[0])] + LowerStr(s[1..]);
    }
  }

  lemma PrefixCons(a: char, x: string, b: char, y: string)
    ensures [a] + x <= [b] + y <==> a == b && x <= y
  {
    if [a] + x <= [b] + y {
      assert ([a] + x)[0] == ([b] + y)[0];
      assert x == ([a] + x)[1..];
      assert y[..|x|] == ([b] + y)[1..|x| + 1];
    }
  }

  lemma {:induction false} AnyAlternativeAtSpec(s: string, alts: seq<string>)
    ensures AnyAlternativeAt(s, alts) <==> exists t :: t in alts && LowerStr(t) <= LowerStr(s)
  {
    if alts != [] {
      AnyAlternativeAtSpec(s, alts[1..]);
      MatchesAtSpec(s, alts[0]);
      assert alts == [alts[0]] + alts[1..];
    }
  }

  /** Unfolds `Contains` by one start position. */
  lemma ContainsStep(hay: string, needle: string)
    ensures Contains(hay, needle) <==> needle <= hay || (hay != [] && Contains(hay[1..], needle))
  {
    if Contains(hay, needle) && !(needle <= hay) {
      var i :| 0 <= i <= |hay| && needle <= hay[i..];
      assert i > 0;
      assert hay[1..][i - 1..] == hay[i..];
    }
    if hay != [] && Contains(hay[1..], needle) {
      var i :| 0 <= i <= |hay[1..]| && needle <= hay[1..][i..];
      assert hay[i + 1..] == hay[1..][i..];
    }
    if needle <= hay {
      assert hay[0..] == hay;
    }
  }

  /** The search finds a match exactly when some alternative occurs in `s`, ignoring case. */
  lemma {:induction false} SearchSpec(s: string, alts: seq<string>)
    ensures Search(s, alts) <==> exists t :: t in alts && Contains(LowerStr(s), LowerStr(t))
    decreases |s|
  {
    AnyAlternativeAtSpec(s, alts);
    forall t | t in alts
      ensures Contains(LowerStr(s), LowerStr(t))
          <==> LowerStr(t) <= LowerStr(s) || (s != [] && Contains(LowerStr(s[1..]), LowerStr(t)))
    {
      ContainsStep(LowerStr(s), LowerStr(t));
      if s != [] { LowerSuffix(s, 1); }
    }
    if s != [] {
      SearchSpec(s[1..], alts);
    }
  }

  /**
   * `passes_filter` accepts an empty title and an empty term list, and otherwise
   * accepts exactly when some term, lower-cased, occurs literally in the
   * lower-cased title.
   */
  lemma PassesFilterSpec(title: string, terms: seq<string>)
    ensures PassesFilter(title, terms)
        <==> title == [] || terms == []
             || exists t :: t in terms && Contains(LowerStr(title), LowerStr(t))
  {
    if title != [] && terms != [] {
      EscapeRoundTrip(terms);
      SearchSpec(title, terms);
    }
  }

  /** Upper-casing or lower-casing the title does not change the verdict. */
  lemma PassesFilterIgnoresCase(title: string, terms: seq<string>)
    ensures PassesFilter(UpperStr(title), terms) == PassesFilter(title, terms)
    ensures PassesFilter(LowerStr(title), terms) == PassesFilter(title, terms)
  {
    PassesFilterSpec(title, terms);
    PassesFilterSpec(UpperStr(title), terms);
    PassesFilterSpec(LowerStr(title), terms);
    LowerOfUpper(title);
    LowerOfLower(title);
  }

  /** A term is found in any title that contains it literally, in whatever case. */
  lemma PassesFilterWhenTermOccurs(title: string, terms: seq<string>, t: string)
    requires t in terms
    requires Contains(LowerStr(title), LowerStr(t))
    ensures PassesFilter(title, terms)
  {
    PassesFilterSpec(title, terms);
  }

  /** Operator characters in a term are literal: "C++" is found in "Senior c++ Developer". */
  lemma PlusIsLiteral()
    ensures PassesFilter("Senior c++ Developer", ["C++"])
  {
    var title := "Senior c++ Developer";
    assert LowerStr(title)[7..] == "c++ developer";
    assert LowerStr("C++") == "c++";
    PassesFilterWhenTermOccurs(title, ["C++"], "C++");
  }

  /** A dot in a term matches only a dot: "S.i" is not found in "Data Scientist". */
  lemma DotIsLiteral()
    ensures !PassesFilter("Data Scientist", ["S.i"])
  {
    var title := "Data Scientist";
    var lt, ln := LowerStr(title), LowerStr("S.i");
    assert ln[1] == '.';
    forall i | 0 <= i <= |lt|
      ensures !(ln <= lt[i..])
    {
      if i + 3 <= |lt| {
        assert lt[i..][1] == lt[i + 1] != '.';
      }
    }
    PassesFilterSpec(title, ["S.i"]);
  }
}
