/** The rule-chain evaluator: an ordered list of tests, tried first to last, the first test
    that matches deciding the result, and a fallback when none matches. */
module Rules {
  import opened Text
  import opened Template
  import opened Regex

  /** One rule: the result it yields, its pattern, and whether the captures of the pattern
      are substituted into the result. */
  datatype Test = Test(result: string, pattern: Pattern, expand: bool)

  /** A test that yields its result verbatim when any alternative occurs. */
  function NewSimpleTest(result: string, alternatives: seq<Token>): Test {
    Test(result, AnyOf(alternatives), false)
  }

  datatype Chain = Chain(tests: seq<Test>, fallback: string) {
    /** The chain without its first test. */
    function Rest(): Chain
      requires tests != []
    {
      Chain(tests[1..], fallback)
    }
  }

  /** An expanding test has one `%s` per capture group of its pattern. */
  predicate WellFormedTest(t: Test) {
    t.expand ==> IsTemplate(t.result) && Holes(t.result) == Groups(t.pattern)
  }

  predicate WellFormed(c: Chain) {
    forall i :: 0 <= i < |c.tests| ==> WellFormedTest(c.tests[i])
  }

  /** Every result the chain can produce has text of its own: the fallback and the
      results are non-empty, and a template keeps a literal character. */
  predicate Yields(c: Chain) {
    c.fallback != ""
    && forall i :: 0 <= i < |c.tests| ==>
         (c.tests[i].result != ""
          && (c.tests[i].expand ==> WellFormedTest(c.tests[i]) && |c.tests[i].result| > 2 * Holes(c.tests[i].result)))
  }

  /** An expanding test asks the engine for captures; the others only ask whether the
      pattern matches. */
  predicate Hit(t: Test, ua: string, find: Submatcher) {
    if t.expand then find(t.pattern, ua).Some? else MatchString(t.pattern, ua, find)
  }

  /** A test with a single alternative matches when that token occurs in the text. */
  lemma SimpleHit(result: string, t: Token, ua: string, find: Submatcher)
    ensures Hit(NewSimpleTest(result, [t]), ua, find) == Occurs(ua, t)
  {
    if Occurs(ua, t) {
      assert [t][0] == t;
    }
  }

  /** A test with two alternatives matches when either token occurs in the text. */
  lemma EitherHit(result: string, t: Token, u: Token, ua: string, find: Submatcher)
    ensures Hit(NewSimpleTest(result, [t, u]), ua, find) == (Occurs(ua, t) || Occurs(ua, u))
  {
    if Occurs(ua, t) {
      assert [t, u][0] == t;
    }
    if Occurs(ua, u) {
      assert [t, u][1] == u;
    }
  }

  /** The result of a test that matched: a verbatim rule answers its result, and an
      expanding rule answers its template with the captures in place of its verbs, so it is
      no shorter than the template without them (`OutcomeInterleaves` gives its text). */
  function Outcome(t: Test, ua: string, find: Submatcher): (r: string)
    requires Sound(find) && WellFormedTest(t) && Hit(t, ua, find)
    ensures !t.expand ==> r == t.result
    ensures t.expand ==> |r| >= |t.result| - 2 * Holes(t.result)
  {
    if !t.expand then t.result
    else
      var m := find(t.pattern, ua).value;
      assert SoundAt(t.pattern, ua, find(t.pattern, ua));
      if |m| > 1 then Format(t.result, m[1..]) else t.result
  }

  /** An expanding rule whose template is literal parts joined by `%s` answers those parts
      with the captured groups between them, in order. */
  lemma OutcomeInterleaves(t: Test, ua: string, find: Submatcher, parts: seq<string>)
    requires Sound(find) && WellFormedTest(t) && Hit(t, ua, find) && t.expand
    requires |parts| == Groups(t.pattern) + 1 && t.result == Join(parts)
    requires forall i :: 0 <= i < |parts| ==> Literal(parts[i])
    ensures var m := find(t.pattern, ua).value;
      |m| == |parts| && Outcome(t, ua, find) == Interleave(parts, m[1..])
  {
    var m := find(t.pattern, ua).value;
    assert SoundAt(t.pattern, ua, find(t.pattern, ua));
    FormatJoin(parts, m[1..]);
  }

  /** `matchFirst`: the outcome of the first test that matches, or the fallback. */
  function MatchFirst(c: Chain, ua: string, find: Submatcher): string
    requires Sound(find) && WellFormed(c)
    decreases |c.tests|
  {
    if c.tests == [] then c.fallback
    else if Hit(c.tests[0], ua, find) then Outcome(c.tests[0], ua, find)
    else
      MatchFirst(c.Rest(), ua, find)
  }

  /** The earliest test that matches decides the result; the tests after it are never
      consulted. */
  lemma {:induction false} MatchFirstEarliest(c: Chain, ua: string, find: Submatcher, k: nat)
    requires Sound(find) && WellFormed(c)
    requires k < |c.tests| && Hit(c.tests[k], ua, find)
    requires forall j :: 0 <= j < k ==> !Hit(c.tests[j], ua, find)
    ensures MatchFirst(c, ua, find) == Outcome(c.tests[k], ua, find)
    decreases k
  {
    if k > 0 {
      assert !Hit(c.tests[0], ua, find);
      MatchFirstEarliest(c.Rest(), ua, find, k - 1);
    }
  }

  /** Whatever the chain answers is its fallback or the outcome of one of its tests that
      matches. */
  lemma {:induction false} MatchFirstAnswers(c: Chain, ua: string, find: Submatcher)
    requires Sound(find) && WellFormed(c)
    ensures var r := MatchFirst(c, ua, find);
      r == c.fallback
      || exists k :: 0 <= k < |c.tests| && Hit(c.tests[k], ua, find) && r == Outcome(c.tests[k], ua, find)
    decreases |c.tests|
  {
    if c.tests != [] && !Hit(c.tests[0], ua, find) {
      MatchFirstAnswers(c.Rest(), ua, find);
      var r := MatchFirst(c, ua, find);
      if r != c.fallback {
        var k :| 0 <= k < |c.Rest().tests| && Hit(c.Rest().tests[k], ua, find)
                 && r == Outcome(c.Rest().tests[k], ua, find);
        assert c.Rest().tests[k] == c.tests[k + 1];
      }
    }
  }

  /** A chain none of whose tests matches yields its fallback. */
  lemma {:induction false} MatchFirstFallback(c: Chain, ua: string, find: Submatcher)
    requires Sound(find) && WellFormed(c)
    requires forall j :: 0 <= j < |c.tests| ==> !Hit(c.tests[j], ua, find)
    ensures MatchFirst(c, ua, find) == c.fallback
    decreases |c.tests|
  {
    if c.tests != [] {
      assert !Hit(c.tests[0], ua, find);
      MatchFirstFallback(c.Rest(), ua, find);
    }
  }

  /** Tests appended after a test that matches do not change the result. */
  lemma MatchFirstIgnoresLater(tests: seq<Test>, more: seq<Test>, fallback: string, ua: string,
                               find: Submatcher, k: nat)
    requires Sound(find) && WellFormed(Chain(tests + more, fallback))
    requires k < |tests| && Hit(tests[k], ua, find)
    ensures WellFormed(Chain(tests, fallback))
    ensures MatchFirst(Chain(tests + more, fallback), ua, find) == MatchFirst(Chain(tests, fallback), ua, find)
  {
    var whole := Chain(tests + more, fallback);
    assert forall i :: 0 <= i < |tests| ==> whole.tests[i] == tests[i];
    var j :| 0 <= j <= k && Hit(tests[j], ua, find) && forall i :: 0 <= i < j ==> !Hit(tests[i], ua, find) by {
      EarliestHit(tests, ua, find, k);
    }
    MatchFirstEarliest(whole, ua, find, j);
    MatchFirstEarliest(Chain(tests, fallback), ua, find, j);
  }

  /** Some test at or before `k` is the earliest one that matches. */
  lemma {:induction false} EarliestHit(tests: seq<Test>, ua: string, find: Submatcher, k: nat)
    requires k < |tests| && Hit(tests[k], ua, find)
    ensures exists j :: 0 <= j <= k && Hit(tests[j], ua, find) && forall i :: 0 <= i < j ==> !Hit(tests[i], ua, find)
  {
    if k > 0 && exists j :: 0 <= j < k && Hit(tests[j], ua, find) {
      var j :| 0 <= j < k && Hit(tests[j], ua, find);
      EarliestHit(tests, ua, find, j);
    }
  }

  /** A chain whose every result has text never yields the empty string, so the empty
      string can serve as "not computed yet". */
  lemma {:induction false} MatchFirstNonEmpty(c: Chain, ua: string, find: Submatcher)
    requires Sound(find) && WellFormed(c) && Yields(c)
    ensures MatchFirst(c, ua, find) != ""
    decreases |c.tests|
  {
    if c.tests != [] {
      if Hit(c.tests[0], ua, find) {
        var t := c.tests[0];
        if t.expand {
          var m := find(t.pattern, ua).value;
          assert SoundAt(t.pattern, ua, find(t.pattern, ua));
          if |m| > 1 {
            assert |Format(t.result, m[1..])| >= |t.result| - 2 * Holes(t.result);
          }
        }
      } else {
        MatchFirstNonEmpty(c.Rest(), ua, find);
      }
    }
  }

  /** Every result of the chain is verbatim and belongs to `names`. */
  predicate ResultsIn(c: Chain, names: set<string>) {
    c.fallback in names
    && forall i :: 0 <= i < |c.tests| ==> !c.tests[i].expand && c.tests[i].result in names
  }

  /** A chain without expanding rules yields one of its results or its fallback. */
  lemma {:induction false} MatchFirstIn(c: Chain, ua: string, find: Submatcher, names: set<string>)
    requires Sound(find) && WellFormed(c) && ResultsIn(c, names)
    ensures MatchFirst(c, ua, find) in names
    decreases |c.tests|
  {
    if c.tests != [] && !Hit(c.tests[0], ua, find) {
      MatchFirstIn(c.Rest(), ua, find, names);
    }
  }

  /** Every literal alternative of every rule needs at least one character. */
  predicate NoEmptyAlternative(c: Chain) {
    forall i :: 0 <= i < |c.tests| && c.tests[i].pattern.AnyOf? ==>
      forall k :: 0 <= k < |c.tests[i].pattern.alternatives| ==> c.tests[i].pattern.alternatives[k] != []
  }

  /** On the empty string no rule matches, so every chain yields its fallback. */
  lemma {:induction false} MatchFirstOnEmpty(c: Chain, find: Submatcher)
    requires Sound(find) && WellFormed(c) && NoEmptyAlternative(c)
    ensures MatchFirst(c, "", find) == c.fallback
    decreases |c.tests|
  {
    if c.tests != [] {
      var t := c.tests[0];
      var r := find(t.pattern, "");
      assert SoundAt(t.pattern, "", r);
      if t.pattern.AnyOf? && AnyOccurs(t.pattern.alternatives, "") {
        var k :| 0 <= k < |t.pattern.alternatives| && Occurs("", t.pattern.alternatives[k]);
        NothingInEmpty(t.pattern.alternatives[k]);
      }
      assert !Hit(t, "", find);
      MatchFirstOnEmpty(c.Rest(), find);
    }
  }

  /** `matchFirst` as the source runs it: a scan of the tests with an early return. */
  method MatchFirstScan(c: Chain, ua: string, find: Submatcher) returns (r: string)
    requires Sound(find) && WellFormed(c)
    ensures r == MatchFirst(c, ua, find)
  {
    var i := 0;
    while i < |c.tests|
      invariant 0 <= i <= |c.tests|
      invariant WellFormed(Chain(c.tests[i..], c.fallback))
      invariant MatchFirst(Chain(c.tests[i..], c.fallback), ua, find) == MatchFirst(c, ua, find)
    {
      var t := c.tests[i];
      assert Chain(c.tests[i..], c.fallback).Rest() == Chain(c.tests[i + 1..], c.fallback);
      if t.expand {
        var m := find(t.pattern, ua);
        if m.Some? {
          assert SoundAt(t.pattern, ua, m);
          if |m.value| > 1 {
            return Format(t.result, m.value[1..]);
          } else {
            return t.result;
          }
        }
      } else if MatchString(t.pattern, ua, find) {
        return t.result;
      }
      i := i + 1;
    }
    return c.fallback;
  }
}
