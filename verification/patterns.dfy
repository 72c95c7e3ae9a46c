/**
  The fragment of Python's `re` that the link rules use.

  Every rule pattern of the link detector has the shape
  `(?:https?://)?(?:www\.)?CORE TAIL`, where CORE is a literal host/path fragment
  and TAIL is a sequence of literals, capture groups `(cls+)` or `(cls{n})`, and at
  most one non-capturing alternation of literals. A pattern is written here
  as a sequence of atoms.

  `re.search` is unanchored, and the optional scheme/`www.` prefix changes
  neither whether a pattern matches nor what it captures: no CORE starts with a
  suffix of "https://www.", so the leftmost match always belongs to the leftmost
  occurrence of CORE that is followed by a matching TAIL. The prefix is therefore
  left out of the atom sequences.

  Greedy runs are matched deterministically (longest run). This agrees with the
  backtracking engine because, in every rule, a run is either last or followed
  by a literal whose first character is outside the run's class
  (`Deterministic` below), so no shorter run can succeed where the longest fails.
 */
module Patterns {
  import opened Text

  /** The character classes that occur in the rules. */
  datatype CharClass =
    | Digit       // \d (ASCII digits)
    | IdChar      // [a-zA-Z0-9_-]
    | HandleChar  // [a-zA-Z0-9_.]
    | AlnumChar   // [a-zA-Z0-9]
    | NotSlash    // [^/]

  predicate IsAsciiLetter(c: char) { 'a' <= c <= 'z' || 'A' <= c <= 'Z' }

  predicate IsAsciiDigit(c: char) { '0' <= c <= '9' }

  predicate InClass(c: char, k: CharClass)
  {
    match k
    case Digit => IsAsciiDigit(c)
    case IdChar => IsAsciiLetter(c) || IsAsciiDigit(c) || c == '_' || c == '-'
    case HandleChar => IsAsciiLetter(c) || IsAsciiDigit(c) || c == '_' || c == '.'
    case AlnumChar => IsAsciiLetter(c) || IsAsciiDigit(c)
    case NotSlash => c != '/'
  }

  predicate AllIn(s: string, k: CharClass)
  {
    forall i :: 0 <= i < |s| ==> InClass(s[i], k)
  }

  type Count = n: nat | n > 0 witness 1

  datatype Atom =
    | Lit(text: string)                    // a literal such as `youtube\.com/watch\?v=`
    | Run(cls: CharClass)                  // a capture group (cls+)
    | Exactly(cls: CharClass, count: Count)  // a capture group (cls{count})
    | OneOf(options: seq<string>)          // (?:a|b|...), tried left to right

  type Pattern = seq<Atom>

  predicate Captures(a: Atom) { a.Run? || a.Exactly? }

  /** The capturing atoms in group order: Python's group n is Groups(p)[n - 1]. */
  function Groups(p: Pattern): (r: seq<Atom>)
    ensures forall g :: 0 <= g < |r| ==> Captures(r[g])
  {
    if |p| == 0 then []
    else (if Captures(p[0]) then [p[0]] else []) + Groups(p[1..])
  }

  // The groups of short patterns, spelled out.

  lemma GroupsOfPair(a: Atom, b: Atom)
    ensures Groups([a, b]) == (if Captures(a) then [a] else []) + (if Captures(b) then [b] else [])
  {
    assert [a, b][1..] == [b];
    assert [b][1..] == [];
    assert Groups([b]) == (if Captures(b) then [b] else []) + Groups([]);
  }

  lemma GroupsOfTriple(a: Atom, b: Atom, c: Atom)
    ensures Groups([a, b, c]) == (if Captures(a) then [a] else []) + Groups([b, c])
  {
    assert [a, b, c][1..] == [b, c];
  }

  lemma GroupsOfQuad(a: Atom, b: Atom, c: Atom, d: Atom)
    ensures Groups([a, b, c, d]) == (if Captures(a) then [a] else []) + Groups([b, c, d])
  {
    assert [a, b, c, d][1..] == [b, c, d];
  }

  /** A captured text is what its group can match. */
  predicate Fits(text: string, a: Atom)
  {
    match a
    case Run(k) => |text| > 0 && AllIn(text, k)
    case Exactly(k, n) => |text| == n && AllIn(text, k)
    case _ => false
  }

  predicate FitsGroups(caps: seq<string>, p: Pattern)
  {
    |caps| == |Groups(p)| && forall g :: 0 <= g < |caps| ==> Fits(caps[g], Groups(p)[g])
  }

  /** The patterns for which longest-run matching is the regex semantics. */
  predicate Deterministic(p: Pattern)
  {
    && |p| > 0 && p[0].Lit? && |p[0].text| > 0
    && forall n :: 0 <= n < |p| - 1 && p[n].Run? ==>
         p[n + 1].Lit? && |p[n + 1].text| > 0 && !InClass(p[n + 1].text[0], p[n].cls)
  }

  /** Every group is an atom of the pattern. */
  lemma {:induction false} GroupsIn(p: Pattern, g: nat)
    requires g < |Groups(p)|
    ensures Groups(p)[g] in p
    decreases |p|
  {
    if Captures(p[0]) && g == 0 {
    } else {
      var h := if Captures(p[0]) then g - 1 else g;
      assert Groups(p)[g] == Groups(p[1..])[h];
      GroupsIn(p[1..], h);
    }
  }

  /** In a deterministic pattern no group captures the empty string. */
  lemma CapturesNonEmpty(p: Pattern, caps: seq<string>)
    requires Deterministic(p) && FitsGroups(caps, p)
    ensures forall g :: 0 <= g < |caps| ==> |caps[g]| > 0
  {
    forall g | 0 <= g < |caps|
      ensures |caps[g]| > 0
    {
      GroupsIn(p, g);
    }
  }

  /** The end of the longest run of class `k` starting at `i`. */
  function RunEnd(s: string, i: nat, k: CharClass): (j: nat)
    requires i <= |s|
    ensures i <= j <= |s|
    ensures forall m :: i <= m < j ==> InClass(s[m], k)
    ensures j < |s| ==> !InClass(s[j], k)
    decreases |s| - i
  {
    if i < |s| && InClass(s[i], k) then RunEnd(s, i + 1, k) else i
  }

  /** A run of class `k` from `i` to `j` that cannot be extended ends at `j`. */
  lemma RunEndsAt(s: string, i: nat, j: nat, k: CharClass)
    requires i <= j <= |s|
    requires forall m :: i <= m < j ==> InClass(s[m], k)
    requires j < |s| ==> !InClass(s[j], k)
    ensures RunEnd(s, i, k) == j
  {
    var e := RunEnd(s, i, k);
    assert e < |s| ==> !InClass(s[e], k);
  }

  /** Match `p` at exactly position `i`; on success, the captured groups. */
  function MatchAt(p: Pattern, s: string, i: nat): Option<seq<string>>
    requires i <= |s|
    decreases |p|, 1, 0
  {
    if |p| == 0 then Some([])
    else
      match p[0]
      case Lit(t) =>
        if OccursAt(s, t, i) then MatchAt(p[1..], s, i + |t|) else None
      case Run(k) =>
        var j := RunEnd(s, i, k);
        if j == i then None
        else
          (match MatchAt(p[1..], s, j)
           case Some(rest) => Some([s[i..j]] + rest)
           case None => None)
      case Exactly(k, n) =>
        if i + n <= |s| && AllIn(s[i..i + n], k) then
          (match MatchAt(p[1..], s, i + n)
           case Some(rest) => Some([s[i..i + n]] + rest)
           case None => None)
        else None
      case OneOf(options) => MatchOption(options, p[1..], s, i)
  }

  /** A leading literal that occurs at `i` is stepped over. */
  lemma MatchLitAt(t: string, rest: Pattern, s: string, i: nat)
    requires i <= |s| && OccursAt(s, t, i)
    ensures MatchAt([Lit(t)] + rest, s, i) == MatchAt(rest, s, i + |t|)
  {
    assert ([Lit(t)] + rest)[1..] == rest;
  }

  /** A leading literal that does not occur at `i` fails the match there. */
  lemma MatchLitMissing(t: string, rest: Pattern, s: string, i: nat)
    requires i <= |s| && !OccursAt(s, t, i)
    ensures MatchAt([Lit(t)] + rest, s, i).None?
  {
    assert ([Lit(t)] + rest)[0] == Lit(t);
  }

  /** A leading run from `i` to its end `j` captures `s[i..j]` ahead of the rest's captures. */
  lemma MatchRunAt(k: CharClass, rest: Pattern, s: string, i: nat, j: nat, caps: seq<string>)
    requires i < j <= |s| && RunEnd(s, i, k) == j
    requires MatchAt(rest, s, j) == Some(caps)
    ensures MatchAt([Run(k)] + rest, s, i) == Some([s[i..j]] + caps)
  {
    assert ([Run(k)] + rest)[1..] == rest;
  }

  /** The alternation: the first option after which the rest of the pattern matches. */
  function MatchOption(options: seq<string>, rest: Pattern, s: string, i: nat): Option<seq<string>>
    requires i <= |s|
    decreases |rest| + 1, 0, |options|
  {
    if |options| == 0 then None
    else if OccursAt(s, options[0], i) && MatchAt(rest, s, i + |options[0]|).Some? then
      MatchAt(rest, s, i + |options[0]|)
    else MatchOption(options[1..], rest, s, i)
  }

  /** What a match captures is what the pattern's groups can match. */
  lemma {:induction false} MatchAtFits(p: Pattern, s: string, i: nat)
    requires i <= |s| && MatchAt(p, s, i).Some?
    ensures FitsGroups(MatchAt(p, s, i).value, p)
    decreases |p|, 1, 0
  {
    if |p| > 0 {
      match p[0]
      case Lit(t) =>
        MatchAtFits(p[1..], s, i + |t|);
        FitsSkip(MatchAt(p[1..], s, i + |t|).value, p);
      case Run(k) =>
        var j := RunEnd(s, i, k);
        MatchAtFits(p[1..], s, j);
        FitsCons(s[i..j], MatchAt(p[1..], s, j).value, p);
      case Exactly(k, n) =>
        MatchAtFits(p[1..], s, i + n);
        FitsCons(s[i..i + n], MatchAt(p[1..], s, i + n).value, p);
      case OneOf(options) =>
        MatchOptionFits(options, p[1..], s, i);
        FitsSkip(MatchOption(options, p[1..], s, i).value, p);
    }
  }

  /** A non-capturing first atom adds no group. */
  lemma FitsSkip(caps: seq<string>, p: Pattern)
    requires |p| > 0 && !Captures(p[0]) && FitsGroups(caps, p[1..])
    ensures FitsGroups(caps, p)
  {
  }

  /** A capturing first atom adds the first group. */
  lemma FitsCons(text: string, caps: seq<string>, p: Pattern)
    requires |p| > 0 && Fits(text, p[0]) && FitsGroups(caps, p[1..])
    ensures FitsGroups([text] + caps, p)
  {
    assert Groups(p) == [p[0]] + Groups(p[1..]);
  }

  lemma {:induction false} MatchOptionFits(options: seq<string>, rest: Pattern, s: string, i: nat)
    requires i <= |s| && MatchOption(options, rest, s, i).Some?
    ensures FitsGroups(MatchOption(options, rest, s, i).value, rest)
    decreases |rest| + 1, 0, |options|
  {
    if OccursAt(s, options[0], i) && MatchAt(rest, s, i + |options[0]|).Some? {
      MatchAtFits(rest, s, i + |options[0]|);
    } else {
      MatchOptionFits(options[1..], rest, s, i);
    }
  }

  /** For each start position of `s`, whether `p` matches there. */
  function MatchFlags(p: Pattern, s: string): (flags: seq<bool>)
    ensures |flags| == |s| + 1
    ensures forall k :: 0 <= k <= |s| ==> flags[k] == MatchAt(p, s, k).Some?
  {
    seq(|s| + 1, k requires 0 <= k <= |s| => MatchAt(p, s, k).Some?)
  }

  /** Python's `re.search(p, s)`: the groups of the leftmost match, if any. */
  function Search(p: Pattern, s: string): (r: Option<seq<string>>)
    ensures r.Some? ==> FitsGroups(r.value, p)
    ensures r.None? <==> forall k :: 0 <= k <= |s| ==> MatchAt(p, s, k).None?
    ensures r.Some? ==>
      exists k :: 0 <= k <= |s| && MatchAt(p, s, k) == r && forall j :: 0 <= j < k ==> MatchAt(p, s, j).None?
  {
    var flags := MatchFlags(p, s);
    match FirstTrue(flags, 0)
    case Some(k) =>
      MatchAtFits(p, s, k);
      MatchAt(p, s, k)
    case None => None
  }

  /** A match anywhere makes the search succeed. */
  lemma SearchSucceeds(p: Pattern, s: string, i: nat)
    requires i <= |s| && MatchAt(p, s, i).Some?
    ensures Search(p, s).Some?
  {
  }

  /** A match with none before it is the one the search reports. */
  lemma SearchFindsFirst(p: Pattern, s: string, i: nat)
    requires i <= |s| && MatchAt(p, s, i).Some?
    requires forall j :: 0 <= j < i ==> MatchAt(p, s, j).None?
    ensures Search(p, s) == MatchAt(p, s, i)
  {
  }

  /** A pattern whose leading literal does not occur is found nowhere. */
  lemma LeadingLiteralAbsent(t: string, tail: Pattern, s: string)
    requires !Contains(s, t)
    ensures Search([Lit(t)] + tail, s).None?
  {
    var p := [Lit(t)] + tail;
    assert p[0] == Lit(t);
    forall k | 0 <= k <= |s|
      ensures MatchAt(p, s, k).None?
    {
      assert !OccursAt(s, t, k);
    }
  }

  /**
    A pattern whose leading literal ends with the leading literal of another,
    otherwise identical, pattern: wherever the longer one matches, the shorter one
    matches a little further right, with the same captures.
   */
  lemma ShorterCoreMatches(u: string, core: string, tail: Pattern, s: string, i: nat)
    requires i <= |s|
    requires MatchAt([Lit(u + core)] + tail, s, i).Some?
    ensures i + |u| <= |s|
    ensures MatchAt([Lit(core)] + tail, s, i + |u|) == MatchAt([Lit(u + core)] + tail, s, i)
  {
    var long := [Lit(u + core)] + tail;
    var short := [Lit(core)] + tail;
    assert long[0] == Lit(u + core) && long[1..] == tail;
    assert short[0] == Lit(core) && short[1..] == tail;
    assert OccursAt(s, u + core, i);
    assert s[i + |u|..i + |u| + |core|] == s[i..i + |u + core|][|u|..];
    assert OccursAt(s, core, i + |u|);
  }

  /** Hence the search for the shorter pattern succeeds whenever the longer one's does. */
  lemma ShorterCoreSearch(u: string, core: string, tail: Pattern, s: string)
    requires Search([Lit(u + core)] + tail, s).Some?
    ensures Search([Lit(core)] + tail, s).Some?
  {
    var k :| 0 <= k <= |s| && MatchAt([Lit(u + core)] + tail, s, k) == Search([Lit(u + core)] + tail, s);
    ShorterCoreMatches(u, core, tail, s, k);
    SearchSucceeds([Lit(core)] + tail, s, k + |u|);
  }
}
