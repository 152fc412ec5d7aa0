/** The static rule tables: one chain per axis (browser, engine, operating system,
    platform), the single-rule chains used for iOS devices, and the mobile platforms. */
module Tables {
  import opened Text
  import opened Template
  import opened Regex
  import opened Rules

  // Browsers
  const Electron := "desktop"
  const Chrome := "chrome"
  const Safari := "safari"
  const Opera := "opera"
  const Firefox := "firefox"
  const IEMobile := "iemobile"
  const IE := "ie"

  // Engines
  const Webkit := "webkit"
  const Presto := "presto"
  const Gecko := "gecko"
  const Msie := "msie"

  // Platforms
  const Windows := "windows"
  const Mac := "macintosh"
  const Linux := "linux"
  const Ipad := "ipad"
  const Ipod := "ipod"
  const Iphone := "iphone"
  const Android := "android"
  const Blackberry := "blackberry"
  const WindowsPhone := "windows_phone"

  /** The result of an axis when no rule matches. */
  const Unknown := "unknown"

  /** The start of the user-agent strings sent by the company's own apps. */
  const RemindPrefix := "Remind"

  const Browsers := Chain([
    NewSimpleTest(Electron, [Lit("electron")]),
    NewSimpleTest(Chrome, [Lit("chrome")]),
    NewSimpleTest(Safari, [Lit("safari")]),
    NewSimpleTest(Opera, [Lit("opera")]),
    NewSimpleTest(Firefox, [Lit("firefox")]),
    NewSimpleTest(IEMobile, [Lit("iemobile"), Lit("windows phone")]),
    NewSimpleTest(IE, [Lit("msie")])
  ], Unknown)

  const IosBrowsers := Chain([NewSimpleTest(Safari, [Lit("safari")])], Unknown)

  const Engines := Chain([
    NewSimpleTest(Webkit, [Lit("webkit")]),
    NewSimpleTest(Chrome, [Lit("chrome")]),
    NewSimpleTest(Gecko, [Lit("gecko")]),
    NewSimpleTest(Msie, [Lit("msie")]),
    NewSimpleTest(Presto, [Lit("presto")]),
    NewSimpleTest(Opera, [Lit("opera")])
  ], Unknown)

  const IosEngines := Chain([NewSimpleTest(Webkit, [Lit("webkit")])], Unknown)

  /** `windows (ce|phone|mobile)( os)?`: the optional suffix does not change whether it matches. */
  const WindowsMobileTokens := [Lit("windows ce"), Lit("windows phone"), Lit("windows mobile")]

  const IpadRelease := Release("(iPad", "os ")
  const IphoneRelease := Release("(iPhone", "os ")
  const MacRelease := Release("", "os x ")

  /** The three release rules: a template of two `%s` and a pattern of two groups. */
  const IpadRule := Test("iPad OS %s.%s", IpadRelease, true)
  const IphoneRule := Test("iPhone OS %s.%s", IphoneRelease, true)
  const MacRule := Test("OS X %s.%s", MacRelease, true)

  const Oses := Chain([
    IpadRule,
    IphoneRule,
    NewSimpleTest("Windows Phone", WindowsMobileTokens),
    NewSimpleTest("Windows Vista", [Lit("windows nt 6.0")]),
    NewSimpleTest("Windows 7", [Lit("windows nt 6.") + [Digit]]),
    NewSimpleTest("Windows 2003", [Lit("windows nt 5.2")]),
    NewSimpleTest("Windows XP", [Lit("windows nt 5.1")]),
    NewSimpleTest("Windows 2000", [Lit("windows nt 5.0")]),
    NewSimpleTest("Windows", [Lit("windows")]),
    MacRule,
    NewSimpleTest("Linux", [Lit("linux")])
  ], "Unknown")

  const Platforms := Chain([
    NewSimpleTest(Ipad, [Lit("ipad")]),
    NewSimpleTest(Ipod, [Lit("ipod")]),
    NewSimpleTest(Iphone, [Lit("iphone")]),
    NewSimpleTest(WindowsPhone, WindowsMobileTokens),
    NewSimpleTest(Windows, [Lit("windows")]),
    NewSimpleTest(Mac, [Lit("macintosh")]),
    NewSimpleTest(Android, [Lit("android")]),
    NewSimpleTest(Linux, [Lit("linux")]),
    NewSimpleTest(Blackberry, [Lit("blackberry")])
  ], Unknown)

  const MobilePlatforms := [Android, Blackberry, Ipad, Ipod, Iphone, WindowsPhone]

  /** The OS templates, written as their literal parts. */
  lemma OsTemplates()
    ensures "iPad OS %s.%s" == Join(["iPad OS ", ".", ""])
    ensures "iPhone OS %s.%s" == Join(["iPhone OS ", ".", ""])
    ensures "OS X %s.%s" == Join(["OS X ", ".", ""])
  {
  }

  /** A release template writes its prefix, the major number, a dot and the minor number. */
  lemma ReleaseFormat(prefix: string, major: string, minor: string)
    requires Literal(prefix)
    ensures IsTemplate(Join([prefix, ".", ""])) && Holes(Join([prefix, ".", ""])) == 2
    ensures Format(Join([prefix, ".", ""]), [major, minor]) == prefix + major + "." + minor
  {
    var parts := [prefix, ".", ""];
    FormatJoin(parts, [major, minor]);
    assert parts[1..][1..] == [""];
    assert Interleave(parts[1..], [minor]) == "." + minor + "";
    assert "." + minor + "" == "." + minor;
  }

  /** A matching release rule yields its prefix followed by the two captured numbers
      joined by a dot. */
  lemma ReleaseOutcome(t: Test, prefix: string, s: string, find: Submatcher)
    requires Sound(find) && Literal(prefix)
    requires t.expand && t.pattern.Release? && t.result == Join([prefix, ".", ""])
    requires Hit(t, s, find)
    ensures WellFormedTest(t)
    ensures var m := find(t.pattern, s).value;
      |m| == 3 && IsNumber(m[1]) && IsNumber(m[2]) && Outcome(t, s, find) == prefix + m[1] + "." + m[2]
  {
    var m := find(t.pattern, s).value;
    assert SoundAt(t.pattern, s, find(t.pattern, s));
    assert m[1..] == [m[1], m[2]];
    ReleaseFormat(prefix, m[1], m[2]);
  }

  /** A rule whose template is made of `parts` has one `%s` between neighbouring parts,
      and keeps the text of the parts. */
  lemma TemplateFacts(parts: seq<string>)
    requires |parts| == 3 && Literal(parts[0]) && Literal(parts[1]) && Literal(parts[2])
    requires |parts[0]| > 0
    ensures IsTemplate(Join(parts)) && Holes(Join(parts)) == 2 && |Join(parts)| > 4
  {
    FormatJoin(parts, ["", ""]);
  }

  /** The expanding rules are the two iOS release rules and the OS X release rule. */
  lemma ExpandingRules(i: int)
    requires 0 <= i < |Oses.tests| && Oses.tests[i].expand
    ensures (i == 0 && Oses.tests[i] == IpadRule) || (i == 1 && Oses.tests[i] == IphoneRule)
      || (i == 9 && Oses.tests[i] == MacRule)
  {
  }

  /** A release rule has as many `%s` as its pattern has capture groups (two), and keeps
      literal text of its own. */
  predicate ReleaseRuleWellFormed(t: Test) {
    t.expand && IsTemplate(t.result) && Holes(t.result) == Groups(t.pattern) == 2 && |t.result| > 4
  }

  /** A release rule whose template is `<prefix>%s.%s` is well formed. */
  lemma ReleaseRuleFacts(t: Test, prefix: string)
    requires t.expand && t.pattern.Release? && Literal(prefix) && prefix != ""
    requires t.result == Join([prefix, ".", ""])
    ensures ReleaseRuleWellFormed(t)
  {
    TemplateFacts([prefix, ".", ""]);
  }

  /** Each expanding OS rule is a well-formed release rule. */
  lemma ExpandingRulesWellFormed(i: int)
    requires 0 <= i < |Oses.tests| && Oses.tests[i].expand
    ensures ReleaseRuleWellFormed(Oses.tests[i])
  {
    OsTemplates();
    ExpandingRules(i);
    if i == 0 {
      ReleaseRuleFacts(IpadRule, "iPad OS ");
    } else if i == 1 {
      ReleaseRuleFacts(IphoneRule, "iPhone OS ");
    } else {
      ReleaseRuleFacts(MacRule, "OS X ");
    }
  }

  /** The operating-system chain is well formed, and every answer it gives has text. */
  lemma OsesWellFormed()
    ensures WellFormed(Oses) && Yields(Oses)
  {
    forall i | 0 <= i < |Oses.tests| && Oses.tests[i].expand
      ensures ReleaseRuleWellFormed(Oses.tests[i])
    {
      ExpandingRulesWellFormed(i);
    }
  }

  /** Every chain is well formed and has a non-empty result for every rule and for its
      fallback. */
  lemma TablesWellFormed()
    ensures WellFormed(Browsers) && Yields(Browsers)
    ensures WellFormed(IosBrowsers) && Yields(IosBrowsers)
    ensures WellFormed(Engines) && Yields(Engines)
    ensures WellFormed(IosEngines) && Yields(IosEngines)
    ensures WellFormed(Oses) && Yields(Oses)
    ensures WellFormed(Platforms) && Yields(Platforms)
  {
    OsesWellFormed();
  }

  /** A release pattern only matches text that holds its lead. */
  lemma ReleaseNeedsLead(p: Pattern, s: string, find: Submatcher)
    requires Sound(find) && p.Release?
    ensures find(p, s).Some? ==> ContainsCI(s, p.lead)
  {
    assert SoundAt(p, s, find(p, s));
  }

  /** A release match of a sound engine shows where its numbers start. */
  lemma ReleaseWitness(p: Pattern, s: string, find: Submatcher) returns (j: nat)
    requires Sound(find) && p.Release? && find(p, s).Some?
    ensures |find(p, s).value| == 3 && j <= |s| && ReleaseStartsAt(p.marker, s, j)
    ensures var m := find(p, s).value;
      m[1] == Major(p.marker, s, j) && m[2] == Minor(p.marker, s, j)
    ensures p.lead == "" ==> FirstReleaseAt(p.marker, s, j)
  {
    var r := find(p, s);
    assert SoundAt(p, s, r);
    var m := r.value;
    var i: nat, j': nat :| i <= j' <= |s| && ReleaseMatchAt(p, s, i, j')
      && m[1] == Major(p.marker, s, j') && m[2] == Minor(p.marker, s, j')
      && (p.lead == "" ==> FirstReleaseAt(p.marker, s, j'));
    j := j';
  }

  /** Only one position is the leftmost start of a release. */
  lemma FirstReleaseUnique(marker: string, s: string, j: nat, j': nat)
    requires FirstReleaseAt(marker, s, j) && FirstReleaseAt(marker, s, j')
    ensures j == j'
  {
    assert !(j' < j) && !(j < j');
  }

  /** With an engine that is both sound and complete a release pattern without a lead
      matches as soon as the text holds its marker and a release number, and captures the
      leftmost one. */
  lemma LeadlessReleaseExact(p: Pattern, s: string, j: nat, find: Submatcher)
    requires Sound(find) && Complete(find) && p.Release? && p.lead == ""
    requires FirstReleaseAt(p.marker, s, j)
    ensures find(p, s).Some?
    ensures var m := find(p, s).value;
      |m| == 3 && m[1] == Major(p.marker, s, j) && m[2] == Minor(p.marker, s, j)
  {
    assert MatchesAt(s, j, Lit(p.lead));
    assert ReleaseMatchAt(p, s, j, j);
    assert ReleaseSpotted(p, s);
    var j' := ReleaseWitness(p, s, find);
    FirstReleaseUnique(p.marker, s, j, j');
  }

  /** In particular the OS X pattern captures the leftmost release after `os x `. */
  lemma MacCapturesExact(s: string, j: nat, find: Submatcher)
    requires Sound(find) && Complete(find) && FirstReleaseAt("os x ", s, j)
    ensures find(MacRelease, s).Some?
    ensures var m := find(MacRelease, s).value;
      |m| == 3 && m[1] == Major("os x ", s, j) && m[2] == Minor("os x ", s, j)
  {
    LeadlessReleaseExact(MacRelease, s, j, find);
  }

  /** So the OS X rule then answers "OS X " and the leftmost release. */
  lemma MacReleaseExact(s: string, j: nat, find: Submatcher)
    requires Sound(find) && Complete(find) && FirstReleaseAt("os x ", s, j)
    ensures Hit(MacRule, s, find) && WellFormedTest(MacRule)
    ensures var m := find(MacRelease, s).value;
      |m| == 3 && m[1] == Major("os x ", s, j) && m[2] == Minor("os x ", s, j)
    ensures Outcome(MacRule, s, find) == "OS X " + Major("os x ", s, j) + "." + Minor("os x ", s, j)
  {
    MacCapturesExact(s, j, find);
    MacOutcome(s, find);
  }

  /** No rule of any chain has an empty alternative. */
  lemma TablesHaveNoEmptyAlternative()
    ensures NoEmptyAlternative(Browsers) && NoEmptyAlternative(IosBrowsers)
    ensures NoEmptyAlternative(Engines) && NoEmptyAlternative(IosEngines)
    ensures NoEmptyAlternative(Oses) && NoEmptyAlternative(Platforms)
  {
  }

  /** The iPad release rule, when it matches, answers "iPad OS " and the two captured
      numbers joined by a dot. */
  lemma IpadOutcome(s: string, find: Submatcher)
    requires Sound(find) && Hit(IpadRule, s, find)
    ensures WellFormedTest(IpadRule)
    ensures var m := find(IpadRelease, s).value;
      |m| == 3 && IsNumber(m[1]) && IsNumber(m[2])
      && Outcome(IpadRule, s, find) == "iPad OS " + m[1] + "." + m[2]
  {
    OsTemplates();
    ReleaseOutcome(IpadRule, "iPad OS ", s, find);
  }

  /** The iPhone release rule, when it matches, answers "iPhone OS " and the two captured
      numbers joined by a dot. */
  lemma IphoneOutcome(s: string, find: Submatcher)
    requires Sound(find) && Hit(IphoneRule, s, find)
    ensures WellFormedTest(IphoneRule)
    ensures var m := find(IphoneRelease, s).value;
      |m| == 3 && IsNumber(m[1]) && IsNumber(m[2])
      && Outcome(IphoneRule, s, find) == "iPhone OS " + m[1] + "." + m[2]
  {
    OsTemplates();
    ReleaseOutcome(IphoneRule, "iPhone OS ", s, find);
  }

  /** The Mac OS X release rule, when it matches, answers "OS X " and the two captured
      numbers joined by a dot. */
  lemma MacOutcome(s: string, find: Submatcher)
    requires Sound(find) && Hit(MacRule, s, find)
    ensures WellFormedTest(MacRule)
    ensures var m := find(MacRelease, s).value;
      |m| == 3 && IsNumber(m[1]) && IsNumber(m[2])
      && Outcome(MacRule, s, find) == "OS X " + m[1] + "." + m[2]
  {
    OsTemplates();
    ReleaseOutcome(MacRule, "OS X ", s, find);
  }
}
