/**
 * The fragment of Python's `re.search` the rebuilt bot's appointment handler
 * uses: patterns made of literal characters, `\s*` and `\b`, with an
 * alternation `(?:x|y)` written as the two patterns it stands for.
 */
module Patterns {
  import Text

  /** One element of a pattern: a literal character, `\s*`, or `\b`. */
  datatype Atom = Char(c: char) | Spaces | Boundary

  type Pattern = seq<Atom>

  /** A character `\w` matches (ASCII letters and digits, and `_`). */
  predicate IsWordChar(c: char) {
    'a' <= c <= 'z' || 'A' <= c <= 'Z' || '0' <= c <= '9' || c == '_'
  }

  /** `\b` holds at position `i`: exactly one of the characters around it is a word character. */
  predicate AtBoundary(s: string, i: nat)
    requires i <= |s|
  {
    (i > 0 && IsWordChar(s[i - 1])) != (i < |s| && IsWordChar(s[i]))
  }

  /** `p` matches a prefix of `s[i..]`; `\s*` may take any number of whitespace characters. */
  predicate MatchesAt(p: Pattern, s: string, i: nat)
    requires i <= |s|
    decreases |p|, |s| - i
  {
    if p == [] then true
    else match p[0]
      case Char(c) => i < |s| && s[i] == c && MatchesAt(p[1..], s, i + 1)
      case Boundary => AtBoundary(s, i) && MatchesAt(p[1..], s, i)
      case Spaces => MatchesAt(p[1..], s, i) || (i < |s| && Text.IsSpace(s[i]) && MatchesAt(p, s, i + 1))
  }

  /** A match of `p` starts at `i` or later. */
  predicate SearchFrom(p: Pattern, s: string, i: nat)
    requires i <= |s|
    decreases |s| - i
  {
    MatchesAt(p, s, i) || (i < |s| && SearchFrom(p, s, i + 1))
  }

  /** `re.search(p, s)` finds a match. */
  predicate Search(p: Pattern, s: string) {
    SearchFrom(p, s, 0)
  }

  /** `any(re.search(p, s) for p in ps)`. */
  predicate SearchAny(ps: seq<Pattern>, s: string) {
    exists p | p in ps :: Search(p, s)
  }

  /** A string spelled out as literal characters. */
  function Literal(w: string): Pattern
  {
    seq(|w|, i requires 0 <= i < |w| => Char(w[i]))
  }

  /** `\bw\b`. */
  function Word(w: string): Pattern {
    [Boundary] + Literal(w) + [Boundary]
  }

  /** `\bh\s*suffix\b`. */
  function Clock(h: string, suffix: string): Pattern {
    [Boundary] + Literal(h) + [Spaces] + Literal(suffix) + [Boundary]
  }

  /** `\bh\s*suffix\b` is a boundary followed by `h`, `\s*`, `suffix` and a boundary. */
  lemma ClockShape(h: string, suffix: string)
    ensures Clock(h, suffix)[0] == Boundary
    ensures Clock(h, suffix)[1..] == Literal(h) + ([Spaces] + (Literal(suffix) + [Boundary]))
  {
    var tail := [Spaces] + (Literal(suffix) + [Boundary]);
    assert Clock(h, suffix) == [Boundary] + (Literal(h) + tail);
  }

  /** A match anywhere at or after `i` is found by the search from `i`. */
  lemma {:induction false} SearchFromFinds(p: Pattern, s: string, i: nat, j: nat)
    requires i <= j <= |s| && MatchesAt(p, s, j)
    ensures SearchFrom(p, s, i)
    decreases j - i
  {
    if i < j {
      SearchFromFinds(p, s, i + 1, j);
    }
  }

  /** A literal matches exactly where its text occurs. */
  lemma {:induction false} LiteralMatches(w: string, rest: Pattern, s: string, i: nat)
    requires i <= |s|
    ensures MatchesAt(Literal(w) + rest, s, i) <==>
      i + |w| <= |s| && s[i..i + |w|] == w && MatchesAt(rest, s, i + |w|)
    decreases |w|
  {
    if w != [] {
      var p := Literal(w) + rest;
      assert p[0] == Char(w[0]);
      assert p[1..] == Literal(w[1..]) + rest;
      if i < |s| {
        LiteralMatches(w[1..], rest, s, i + 1);
        if i + |w| <= |s| {
          assert s[i..i + |w|] == [s[i]] + s[i + 1..i + 1 + |w[1..]|];
          assert w == [w[0]] + w[1..];
        }
      }
    } else {
      assert Literal(w) + rest == rest;
    }
  }

  /** `\bw\b` matches at `i` exactly when `w` occurs there with a boundary on each side. */
  lemma WordMatchesAt(w: string, s: string, i: nat)
    requires i <= |s|
    ensures MatchesAt(Word(w), s, i) <==>
      Text.OccursAt(s, w, i) && AtBoundary(s, i) && AtBoundary(s, i + |w|)
  {
    var p := Word(w);
    assert p[1..] == Literal(w) + [Boundary];
    LiteralMatches(w, [Boundary], s, i);
    if i + |w| <= |s| {
      assert MatchesAt([Boundary], s, i + |w|) <==> AtBoundary(s, i + |w|);
    }
  }

  /** `w` occurring as a whole word is found by `\bw\b`. */
  lemma WordFound(w: string, s: string, i: nat)
    requires Text.OccursAt(s, w, i) && AtBoundary(s, i) && AtBoundary(s, i + |w|)
    ensures Search(Word(w), s)
  {
    WordMatchesAt(w, s, i);
    SearchFromFinds(Word(w), s, 0, i);
  }

  /** A match of `\bw\b` is an occurrence of `w`: word patterns are stricter than substring tests. */
  lemma {:induction false} WordSearchContains(w: string, s: string, i: nat)
    requires i <= |s| && SearchFrom(Word(w), s, i)
    ensures Text.Contains(s, w)
    decreases |s| - i
  {
    if MatchesAt(Word(w), s, i) {
      WordMatchesAt(w, s, i);
      Text.OccursAtContains(s, w, i);
    } else {
      WordSearchContains(w, s, i + 1);
    }
  }

  /** Where `w` never occurs with a boundary on each side, `\bw\b` is not found. */
  lemma {:induction false} WordNotFound(w: string, s: string, i: nat)
    requires i <= |s|
    requires forall k :: i <= k <= |s| ==> !(Text.OccursAt(s, w, k) && AtBoundary(s, k) && AtBoundary(s, k + |w|))
    ensures !SearchFrom(Word(w), s, i)
    decreases |s| - i
  {
    WordMatchesAt(w, s, i);
    if i < |s| {
      WordNotFound(w, s, i + 1);
    }
  }

  /** A search that succeeds has a match position. */
  lemma {:induction false} SearchFromWitness(p: Pattern, s: string, i: nat)
    requires i <= |s| && SearchFrom(p, s, i)
    ensures exists k :: i <= k <= |s| && MatchesAt(p, s, k)
    decreases |s| - i
  {
    if !MatchesAt(p, s, i) {
      SearchFromWitness(p, s, i + 1);
    }
  }

  /** `\s*` followed by `rest` matches only where `rest` matches at or after it. */
  lemma {:induction false} SpacesThen(rest: Pattern, s: string, i: nat)
    requires i <= |s| && MatchesAt([Spaces] + rest, s, i)
    ensures exists j :: i <= j <= |s| && MatchesAt(rest, s, j)
    decreases |s| - i
  {
    assert ([Spaces] + rest)[1..] == rest;
    if !MatchesAt(rest, s, i) {
      SpacesThen(rest, s, i + 1);
    }
  }

  /** A match of `\bh\s*suffix\b` ends with an occurrence of `suffix` followed by a boundary. */
  lemma ClockMatchEnds(h: string, suffix: string, s: string, i: nat)
    requires i <= |s| && MatchesAt(Clock(h, suffix), s, i)
    ensures exists j :: 0 <= j && j + |suffix| <= |s| && Text.OccursAt(s, suffix, j) && AtBoundary(s, j + |suffix|)
  {
    var ending := Literal(suffix) + [Boundary];
    var tail := [Spaces] + ending;
    ClockShape(h, suffix);
    assert MatchesAt(Literal(h) + tail, s, i);
    LiteralMatches(h, tail, s, i);
    SpacesThen(ending, s, i + |h|);
    var j :| i + |h| <= j <= |s| && MatchesAt(ending, s, j);
    LiteralMatches(suffix, [Boundary], s, j);
    assert MatchesAt([Boundary], s, j + |suffix|);
    assert Text.OccursAt(s, suffix, j) && AtBoundary(s, j + |suffix|);
  }

  /**
   * A suffix ending in a period, as in `a\.m\.`, is followed by `\b`, which
   * after a period holds only before a word character: the dotted forms match
   * only when a letter, digit or `_` follows at once.
   */
  lemma DottedClockNeedsWordAfter(h: string, suffix: string, s: string)
    requires |suffix| > 0 && suffix[|suffix| - 1] == '.' && Search(Clock(h, suffix), s)
    ensures exists j :: Text.OccursAt(s, suffix, j) && j + |suffix| < |s| && IsWordChar(s[j + |suffix|])
  {
    SearchFromWitness(Clock(h, suffix), s, 0);
    var k :| 0 <= k <= |s| && MatchesAt(Clock(h, suffix), s, k);
    ClockMatchEnds(h, suffix, s, k);
    var j :| 0 <= j && j + |suffix| <= |s| && Text.OccursAt(s, suffix, j) && AtBoundary(s, j + |suffix|);
    assert s[j + |suffix| - 1] == suffix[|suffix| - 1];
  }

  /** `\s*` can skip any run of whitespace. */
  lemma {:induction false} SpacesSkip(rest: Pattern, s: string, i: nat, j: nat)
    requires i <= j <= |s| && MatchesAt(rest, s, j)
    requires forall k :: i <= k < j ==> Text.IsSpace(s[k])
    ensures MatchesAt([Spaces] + rest, s, i)
    decreases j - i
  {
    assert ([Spaces] + rest)[1..] == rest;
    if i < j {
      SpacesSkip(rest, s, i + 1, j);
    }
  }

  /** `h`, whitespace, then `suffix`, with a boundary before and after, is found by `\bh\s*suffix\b`. */
  lemma ClockFound(h: string, suffix: string, s: string, i: nat, j: nat)
    requires Text.OccursAt(s, h, i) && AtBoundary(s, i)
    requires Text.OccursAt(s, suffix, j) && AtBoundary(s, j + |suffix|)
    requires i + |h| <= j && forall k :: i + |h| <= k < j ==> Text.IsSpace(s[k])
    ensures Search(Clock(h, suffix), s)
  {
    var ending := Literal(suffix) + [Boundary];
    var tail := [Spaces] + ending;
    LiteralMatches(suffix, [Boundary], s, j);
    assert MatchesAt([Boundary], s, j + |suffix|);
    SpacesSkip(ending, s, i + |h|, j);
    LiteralMatches(h, tail, s, i);
    ClockShape(h, suffix);
    assert MatchesAt(Clock(h, suffix), s, i);
    SearchFromFinds(Clock(h, suffix), s, 0, i);
  }
}
