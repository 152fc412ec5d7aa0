/** Result templates: `fmt.Sprintf` restricted to what the rule tables use, namely `%s`
    verbs, each consuming the next string argument. */
module Template {

  /** Every `%` in `t` starts a `%s` verb. */
  predicate IsTemplate(t: string)
    decreases |t|
  {
    if t == [] then true
    else if t[0] == '%' then |t| >= 2 && t[1] == 's' && IsTemplate(t[2..])
    else IsTemplate(t[1..])
  }

  /** The number of `%s` verbs in a template. */
  function Holes(t: string): nat
    requires IsTemplate(t)
    decreases |t|
  {
    if t == [] then 0
    else if t[0] == '%' then 1 + Holes(t[2..])
    else Holes(t[1..])
  }

  function TotalLength(args: seq<string>): nat {
    if args == [] then 0 else |args[0]| + TotalLength(args[1..])
  }

  /** `fmt.Sprintf(t, args...)` for a template of `%s` verbs and exactly one string argument
      per verb: the text of `t`, with the arguments in order in place of the verbs. */
  function Format(t: string, args: seq<string>): (r: string)
    requires IsTemplate(t) && Holes(t) == |args|
    ensures |r| == |t| - 2 * Holes(t) + TotalLength(args)
    decreases |t|
  {
    if t == [] then []
    else if t[0] == '%' then args[0] + Format(t[2..], args[1..])
    else [t[0]] + Format(t[1..], args)
  }

  /** The template whose literal parts are `parts`, with a `%s` between neighbours. */
  function Join(parts: seq<string>): string
    requires |parts| >= 1
  {
    if |parts| == 1 then parts[0] else parts[0] + "%s" + Join(parts[1..])
  }

  /** The literal parts with the arguments between neighbours: the reference meaning of
      formatting `Join(parts)` with `args`. */
  function Interleave(parts: seq<string>, args: seq<string>): string
    requires |parts| == |args| + 1
  {
    if args == [] then parts[0] else parts[0] + args[0] + Interleave(parts[1..], args[1..])
  }

  /** `p` holds no verb. */
  predicate Literal(p: string) {
    forall i :: 0 <= i < |p| ==> p[i] != '%'
  }

  /** A literal character in front of a template is copied and consumes no argument. */
  lemma LiteralStep(q: string, args: seq<string>)
    requires q != [] && q[0] != '%' && IsTemplate(q[1..]) && Holes(q[1..]) == |args|
    ensures IsTemplate(q) && Holes(q) == |args|
    ensures Format(q, args) == [q[0]] + Format(q[1..], args)
  {
  }

  /** Literal text in front of a template is copied unchanged. */
  lemma {:induction false} FormatLiteral(p: string, rest: string, args: seq<string>)
    requires Literal(p) && IsTemplate(rest) && Holes(rest) == |args|
    ensures IsTemplate(p + rest) && Holes(p + rest) == |args|
    ensures Format(p + rest, args) == p + Format(rest, args)
    decreases |p|
  {
    if p == [] {
      assert p + rest == rest;
    } else {
      var q := p + rest;
      assert q[1..] == p[1..] + rest;
      FormatLiteral(p[1..], rest, args);
      LiteralStep(q, args);
      assert [p[0]] + (p[1..] + Format(rest, args)) == p + Format(rest, args);
    }
  }

  /** A verb in front of a template consumes the first argument. */
  lemma FormatHole(rest: string, args: seq<string>)
    requires args != [] && IsTemplate(rest) && Holes(rest) == |args| - 1
    ensures IsTemplate("%s" + rest) && Holes("%s" + rest) == |args|
    ensures Format("%s" + rest, args) == args[0] + Format(rest, args[1..])
  {
    var hole := "%s" + rest;
    assert hole[0] == '%' && hole[1] == 's' && hole[2..] == rest;
  }

  /** Formatting a joined template puts the arguments between the parts, in order, and
      the joined template has one verb per argument. */
  lemma {:induction false} FormatJoin(parts: seq<string>, args: seq<string>)
    requires |parts| == |args| + 1
    requires forall i :: 0 <= i < |parts| ==> Literal(parts[i])
    ensures IsTemplate(Join(parts)) && Holes(Join(parts)) == |args|
    ensures Format(Join(parts), args) == Interleave(parts, args)
  {
    if args == [] {
      assert Join(parts) == parts[0] + [];
      FormatLiteral(parts[0], [], []);
    } else {
      var tail := parts[1..];
      assert forall i :: 0 <= i < |tail| ==> Literal(tail[i]) by {
        forall i | 0 <= i < |tail| ensures Literal(tail[i]) {
          assert tail[i] == parts[i + 1];
        }
      }
      FormatJoin(tail, args[1..]);
      JoinStep(parts, args);
    }
  }

  /** One more part and one more argument in front of a joined template. */
  lemma JoinStep(parts: seq<string>, args: seq<string>)
    requires |parts| == |args| + 1 && args != [] && Literal(parts[0])
    requires IsTemplate(Join(parts[1..])) && Holes(Join(parts[1..])) == |args| - 1
    requires Format(Join(parts[1..]), args[1..]) == Interleave(parts[1..], args[1..])
    ensures IsTemplate(Join(parts)) && Holes(Join(parts)) == |args|
    ensures Format(Join(parts), args) == Interleave(parts, args)
  {
    var rest := Join(parts[1..]);
    FormatHole(rest, args);
    FormatLiteral(parts[0], "%s" + rest, args);
    assert Join(parts) == parts[0] + ("%s" + rest);
    var inner := Interleave(parts[1..], args[1..]);
    assert Format(Join(parts), args) == parts[0] + (args[0] + inner);
  }
}
