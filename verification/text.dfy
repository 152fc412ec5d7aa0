/** Text primitives the classifier relies on: the case-insensitive token search that every
    non-expanding rule performs, and the whitespace trimming applied to the raw header. */
module Text {

  /** Simple case folding as the `(?i:...)` flag applies it to the ASCII letters of the
      patterns: upper-case ASCII letters fold to lower case, and the only non-ASCII members
      of the folding orbits of ASCII letters, KELVIN SIGN and LATIN SMALL LETTER LONG S,
      fold to 'k' and 's'. */
  function Fold(c: char): char {
    if 'A' <= c <= 'Z' then (c as int + 32) as char
    else if c == '\U{212A}' then 'k'
    else if c == '\U{017F}' then 's'
    else c
  }

  predicate IsDigit(c: char) {
    '0' <= c <= '9'
  }

  /** A character of the class `[\d\w\.\-]` under case folding. */
  predicate IsVersionChar(c: char) {
    var f := Fold(c);
    IsDigit(f) || 'a' <= f <= 'z' || f == '_' || f == '.' || f == '-'
  }

  /** One position of a search token: a literal character (compared after folding),
      the class `\d`, or the class `[\d\w\.\-]`. */
  datatype Atom = Char(c: char) | Digit | VersionChar

  type Token = seq<Atom>

  predicate AtomMatches(a: Atom, x: char) {
    match a
    case Char(c) => Fold(x) == Fold(c)
    case Digit => IsDigit(x)
    case VersionChar => IsVersionChar(x)
  }

  /** The token that matches the literal word `w`, ignoring case. */
  function Lit(w: string): Token {
    seq(|w|, i requires 0 <= i < |w| => Char(w[i]))
  }

  predicate MatchesAt(s: string, i: nat, t: Token) {
    i + |t| <= |s| && forall k :: 0 <= k < |t| ==> AtomMatches(t[k], s[i + k])
  }

  /** Unanchored search: `t` matches somewhere in `s`. */
  predicate Occurs(s: string, t: Token) {
    exists i: nat | i <= |s| :: MatchesAt(s, i, t)
  }

  /** `s` contains `w`, ignoring case. */
  predicate ContainsCI(s: string, w: string) {
    Occurs(s, Lit(w))
  }

  /** Searching for a longer token finds its prefix at the same place. */
  lemma OccursPrefix(s: string, t: Token, u: Token)
    requires Occurs(s, t + u)
    ensures Occurs(s, t)
  {
    var i: nat :| i <= |s| && MatchesAt(s, i, t + u);
    assert forall k :: 0 <= k < |t| ==> (t + u)[k] == t[k];
    assert MatchesAt(s, i, t);
  }

  lemma LitConcat(a: string, b: string)
    ensures Lit(a + b) == Lit(a) + Lit(b)
  {
  }

  /** Nothing non-empty occurs in the empty string. */
  lemma NothingInEmpty(t: Token)
    requires t != []
    ensures !Occurs("", t)
  {
  }

  /** A token whose `k`-th atom is the character `c` cannot match where that atom would fall
      on a stretch of `s` holding no character that folds like `c`. */
  lemma Avoids(s: string, t: Token, k: nat, c: char, lo: nat, hi: nat)
    requires k < |t| && t[k] == Char(c) && lo <= hi <= |s|
    requires forall x :: x in s[lo..hi] ==> Fold(x) != Fold(c)
    ensures forall i: nat :: lo <= i + k < hi ==> !MatchesAt(s, i, t)
  {
    forall i: nat | lo <= i + k < hi ensures !MatchesAt(s, i, t) {
      assert s[i + k] == s[lo..hi][i + k - lo];
    }
  }

  /** White space as Go's `unicode.IsSpace` defines it. */
  predicate IsSpace(c: char) {
    c == '\t' || c == '\n' || c == '\U{000B}' || c == '\U{000C}' || c == '\r' || c == ' '
    || c == '\U{0085}' || c == '\U{00A0}' || c == '\U{1680}'
    || ('\U{2000}' <= c <= '\U{200A}')
    || c == '\U{2028}' || c == '\U{2029}' || c == '\U{202F}' || c == '\U{205F}' || c == '\U{3000}'
  }

  predicate AllSpace(s: string) {
    forall k :: 0 <= k < |s| ==> IsSpace(s[k])
  }

  /** Neither end of `s` is white space. */
  predicate Trimmed(s: string) {
    s == [] || (!IsSpace(s[0]) && !IsSpace(s[|s| - 1]))
  }

  /** The length of the longest all-space prefix of `s`. */
  function LeadingSpaces(s: string): (n: nat)
    ensures n <= |s| && AllSpace(s[..n])
    ensures n < |s| ==> !IsSpace(s[n])
  {
    if s == [] || !IsSpace(s[0]) then 0
    else
      var n := 1 + LeadingSpaces(s[1..]);
      assert forall k :: 1 <= k < n ==> s[k] == s[1..][k - 1];
      n
  }

  /** The length of the longest all-space suffix of `s`. */
  function TrailingSpaces(s: string): (n: nat)
    ensures n <= |s| && AllSpace(s[|s| - n..])
    ensures n < |s| ==> !IsSpace(s[|s| - n - 1])
  {
    if s == [] || !IsSpace(s[|s| - 1]) then 0
    else
      var n := 1 + TrailingSpaces(s[..|s| - 1]);
      assert forall k :: |s| - n <= k < |s| - 1 ==> s[k] == s[..|s| - 1][k];
      n
  }

  /** `strings.TrimSpace`: drops the leading and the trailing white space and nothing else. */
  function TrimSpace(s: string): (r: string)
    ensures |r| <= |s| && Trimmed(r)
  {
    var t := s[LeadingSpaces(s)..];
    assert t != [] ==> !IsSpace(t[0]);
    var r := t[..|t| - TrailingSpaces(t)];
    assert r != [] ==> r[0] == t[0];
    r
  }

  /** Cutting a string twice and gluing the pieces gives it back. */
  lemma Reassemble(s: string, i: nat, j: nat)
    requires i <= j <= |s|
    ensures s == s[..i] + s[i..j] + s[j..]
  {
    assert s[..j] == s[..i] + s[i..j];
    assert s == s[..j] + s[j..];
  }

  /** The trimmed string sits unchanged between the white space that was removed. */
  lemma TrimSpaceSplits(s: string)
    ensures var i := LeadingSpaces(s); var r := TrimSpace(s);
      i + |r| <= |s| && s == s[..i] + r + s[i + |r|..]
      && AllSpace(s[..i]) && AllSpace(s[i + |r|..])
  {
    var i := LeadingSpaces(s);
    var t := s[i..];
    var n := TrailingSpaces(t);
    var j := |s| - n;
    var r := TrimSpace(s);
    assert r == t[..|t| - n] == s[i..j];
    assert i + |r| == j;
    assert AllSpace(s[j..]) by {
      assert s[j..] == t[|t| - n..];
    }
    Reassemble(s, i, j);
  }

  /** The split is unique: whatever white space surrounds a trimmed string, trimming
      recovers exactly that string. */
  lemma {:induction false} TrimSpaceOf(pre: string, r: string, post: string)
    requires AllSpace(pre) && AllSpace(post) && Trimmed(r)
    ensures TrimSpace(pre + r + post) == r
  {
    var s := pre + r + post;
    var i := LeadingSpaces(s);
    if r == [] {
      assert AllSpace(s) by {
        forall k | 0 <= k < |s| ensures IsSpace(s[k]) {
          if k < |pre| { assert s[k] == pre[k]; } else { assert s[k] == post[k - |pre|]; }
        }
      }
      assert i == |s|;
    } else {
      assert s[|pre|] == r[0];
      assert i == |pre|;
      var t := s[i..];
      assert t == r + post;
      var n := TrailingSpaces(t);
      assert t[|r| - 1] == r[|r| - 1];
      assert n == |post|;
      assert t[..|t| - n] == r;
    }
  }

  /** Trimming twice is trimming once. */
  lemma TrimSpaceIdempotent(s: string)
    ensures TrimSpace(TrimSpace(s)) == TrimSpace(s)
  {
    var r := TrimSpace(s);
    assert [] + r + [] == r;
    TrimSpaceOf([], r, []);
  }

  /** `strings.HasPrefix`: a case-sensitive comparison of the first characters. */
  predicate HasPrefix(s: string, prefix: string) {
    |prefix| <= |s| && s[..|prefix|] == prefix
  }
}
