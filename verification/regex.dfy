/** The regular expressions of the rule tables, and the part of the regular-expression
    engine the classifier consults.

    Every pattern is compiled case-insensitively (`(?i:...)`). Patterns made of literal
    alternatives are decided here by token search. Patterns with capture groups are
    answered by a `Submatcher`, an abstract stand-in for `FindStringSubmatch`; the model
    relies only on what the patterns guarantee about it (`Sound`, `Complete`). */
module Regex {
  import opened Text

  datatype Option<T> = None | Some(value: T)

  datatype Pattern =
      /** `(?i:a|b|...)`: some alternative occurs in the text. */
    | AnyOf(alternatives: seq<Token>)
      /** `(?i:\(<lead>.*<marker>(\d+)[._](\d+))`, or `(?i:<marker>(\d+)[._](\d+))` when
          `lead` is empty: a release number such as `10_8` after a marker such as `os x `. */
    | Release(lead: string, marker: string)
      /** `(?i:<key>\/([\d\w\.\-]+))`, or `(?i:<key>[\/ ]([\d\w\.\-]+))` when `spaced`:
          a version token after a product name. */
    | Version(key: string, spaced: bool)

  /** `FindStringSubmatch`: `None` for no match, otherwise the whole match followed by
      one string per capture group. */
  type Submatcher = (Pattern, string) -> Option<seq<string>>

  /** The number of capture groups of a pattern. */
  function Groups(p: Pattern): nat {
    match p
    case AnyOf(_) => 0
    case Release(_, _) => 2
    case Version(_, _) => 1
  }

  predicate AnyOccurs(alternatives: seq<Token>, s: string) {
    exists k :: 0 <= k < |alternatives| && Occurs(s, alternatives[k])
  }

  /** `MatchString`: decided by token search for literal alternatives, by the engine
      otherwise. */
  predicate MatchString(p: Pattern, s: string, find: Submatcher) {
    match p
    case AnyOf(alternatives) => AnyOccurs(alternatives, s)
    case _ => find(p, s).Some?
  }

  predicate IsNumber(w: string) {
    w != [] && forall i :: 0 <= i < |w| ==> IsDigit(w[i])
  }

  predicate IsVersionToken(w: string) {
    w != [] && forall i :: 0 <= i < |w| ==> IsVersionChar(w[i])
  }

  /** The end of the longest run of characters of class `a` from position `b` on: where a
      greedy `+` over that class stops. */
  function SpanEnd(s: string, b: nat, a: Atom): (e: nat)
    requires b <= |s|
    ensures b <= e <= |s|
    ensures forall k :: b <= k < e ==> AtomMatches(a, s[k])
    ensures e == |s| || !AtomMatches(a, s[e])
    decreases |s| - b
  {
    if b < |s| && AtomMatches(a, s[b]) then SpanEnd(s, b + 1, a) else b
  }

  /** Where a run stops is fixed by the text: any end with the two properties of `SpanEnd`
      is `SpanEnd`. */
  lemma SpanEndIs(s: string, b: nat, a: Atom, e: nat)
    requires b <= e <= |s| && forall k :: b <= k < e ==> AtomMatches(a, s[k])
    requires e == |s| || !AtomMatches(a, s[e])
    ensures SpanEnd(s, b, a) == e
  {
  }

  /** A match of version pattern `p` can start at `i`: the key, a separator the pattern
      accepts, and a version character. */
  predicate VersionStartsAt(p: Pattern, s: string, i: nat)
    requires p.Version?
  {
    MatchesAt(s, i, Lit(p.key + "/") + [VersionChar])
    || (p.spaced && MatchesAt(s, i, Lit(p.key + " ") + [VersionChar]))
  }

  /** `i` is the leftmost position at which a match of `p` can start. */
  predicate FirstVersionAt(p: Pattern, s: string, i: nat)
    requires p.Version?
  {
    VersionStartsAt(p, s, i) && forall j: nat :: j < i ==> !VersionStartsAt(p, s, j)
  }

  /** The capture of a match starting at `i`: every version character after the separator. */
  function VersionCapture(p: Pattern, s: string, i: nat): string
    requires p.Version? && VersionStartsAt(p, s, i)
  {
    var b := i + |p.key| + 1;
    s[b..SpanEnd(s, b, VersionChar)]
  }

  /** A release number can start at `j`: the marker, the digits after it, one of `.` and
      `_`, and a digit. The first `(\d+)` stops where the digits do, because the class
      after it holds no digit. */
  predicate ReleaseStartsAt(marker: string, s: string, j: nat) {
    MatchesAt(s, j, Lit(marker) + [Digit])
    && var e := SpanEnd(s, j + |marker|, Digit);
       e + 1 < |s| && (s[e] == '.' || s[e] == '_') && IsDigit(s[e + 1])
  }

  /** The major number of a release starting at `j`. */
  function Major(marker: string, s: string, j: nat): string
    requires ReleaseStartsAt(marker, s, j)
  {
    s[j + |marker|..SpanEnd(s, j + |marker|, Digit)]
  }

  /** The minor number of a release starting at `j`: every digit after the separator. */
  function Minor(marker: string, s: string, j: nat): string
    requires ReleaseStartsAt(marker, s, j)
  {
    var e := SpanEnd(s, j + |marker|, Digit) + 1;
    s[e..SpanEnd(s, e, Digit)]
  }

  /** A match of release pattern `p` can take its lead at `i` and its numbers at `j`: `.*`
      covers what lies between and, without the `s` flag, no line break. */
  predicate ReleaseMatchAt(p: Pattern, s: string, i: nat, j: nat)
    requires p.Release?
  {
    i + |p.lead| <= j <= |s| && MatchesAt(s, i, Lit(p.lead)) && ReleaseStartsAt(p.marker, s, j)
    && forall k :: i <= k < j ==> s[k] != '\n'
  }

  /** `j` is the leftmost position at which the release numbers can start. */
  predicate FirstReleaseAt(marker: string, s: string, j: nat) {
    ReleaseStartsAt(marker, s, j) && forall k: nat :: k < j ==> !ReleaseStartsAt(marker, s, k)
  }

  /** With a lead, the match takes the leftmost lead from which a release can be reached
      on the same line, and the greedy `.*` then runs to the last release it can reach. */
  predicate GreedyReleaseAt(p: Pattern, s: string, i: nat, j: nat)
    requires p.Release?
  {
    ReleaseMatchAt(p, s, i, j)
    && (forall i': nat, j': nat | i' < i && j' <= |s| :: !ReleaseMatchAt(p, s, i', j'))
    && (forall j': nat | j < j' <= |s| :: !ReleaseMatchAt(p, s, i, j'))
  }

  /** The lead and the release such a match settles on are determined by the text. */
  lemma GreedyReleaseUnique(p: Pattern, s: string, i: nat, j: nat, i': nat, j': nat)
    requires p.Release? && GreedyReleaseAt(p, s, i, j) && GreedyReleaseAt(p, s, i', j')
    ensures i == i' && j == j'
  {
    assert !(i' < i) && !(i < i');
    assert !(j' < j) && !(j < j');
  }

  /** What a successful match of `p` against `s` with captures `m` shows about `s`. A
      capture is the text itself, not a case-folded copy. The match is the leftmost one,
      and every `+` and `.*` takes as many characters as it can. */
  predicate Evidence(p: Pattern, s: string, m: seq<string>)
    requires |m| == 1 + Groups(p)
  {
    match p
    case AnyOf(alternatives) => AnyOccurs(alternatives, s)
    case Release(lead, marker) =>
      IsNumber(m[1]) && IsNumber(m[2]) && ContainsCI(s, lead)
      && (ContainsCI(s, marker + m[1] + "." + m[2]) || ContainsCI(s, marker + m[1] + "_" + m[2]))
      && exists i: nat, j: nat | i <= j <= |s| :: ReleaseMatchAt(p, s, i, j)
           && m[1] == Major(marker, s, j) && m[2] == Minor(marker, s, j)
           && (lead == "" ==> FirstReleaseAt(marker, s, j))
           && (lead != "" ==> GreedyReleaseAt(p, s, i, j))
    case Version(key, spaced) =>
      IsVersionToken(m[1])
      && (ContainsCI(s, key + "/" + m[1]) || (spaced && ContainsCI(s, key + " " + m[1])))
      && exists i: nat | i <= |s| :: FirstVersionAt(p, s, i) && m[1] == VersionCapture(p, s, i)
  }

  predicate SoundAt(p: Pattern, s: string, r: Option<seq<string>>) {
    (p.AnyOf? ==> (r.Some? <==> AnyOccurs(p.alternatives, s)))
    && (r.Some? ==> |r.value| == 1 + Groups(p) && Evidence(p, s, r.value))
  }

  /** The engine reports one capture per group, and only matches the text supports. */
  ghost predicate Sound(find: Submatcher) {
    forall p: Pattern, s: string :: SoundAt(p, s, find(p, s))
  }

  /** `s` holds the key of version pattern `p`, its separator and a version character. */
  predicate VersionSpotted(p: Pattern, s: string)
    requires p.Version?
  {
    Occurs(s, Lit(p.key + "/") + [VersionChar])
    || (p.spaced && Occurs(s, Lit(p.key + " ") + [VersionChar]))
  }

  /** `s` holds what a release pattern needs: its lead, then on the same line its marker
      and a release number. */
  predicate ReleaseSpotted(p: Pattern, s: string)
    requires p.Release?
  {
    exists i: nat, j: nat | i <= j <= |s| :: ReleaseMatchAt(p, s, i, j)
  }

  /** The engine finds every version and every release number the text holds. */
  ghost predicate Complete(find: Submatcher) {
    forall p: Pattern, s: string ::
      ((p.Version? && VersionSpotted(p, s)) || (p.Release? && ReleaseSpotted(p, s))) ==> find(p, s).Some?
  }
}
