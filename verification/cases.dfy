/** Concrete user-agent strings and what the classifier answers for them.

    The first case of the test suite: desktop Safari 6.1.3 (WebKit 537.75.14) on Mac OS X
    10.8. Its string is written as ten pieces of twelve characters (the last one of
    eleven), so that each fact about one of its 119 characters is a fact about one short
    piece: the places of the few letters the searches turn on are established piece by
    piece, and each match is read off two neighbouring pieces.

    Then an iPad string with two releases after its lead, which shows which one the
    greedy release rule answers. */
module Cases {
  import opened Text
  import opened Regex
  import opened Tables
  import opened Versions
  import opened Agent

  const Piece0 := "Mozilla/5.0 "
  const Piece1 := "(Macintosh; "
  const Piece2 := "Intel Mac OS"
  const Piece3 := " X 10_8_5) A"
  const Piece4 := "ppleWebKit/5"
  const Piece5 := "37.75.14 (KH"
  const Piece6 := "TML, like Ge"
  const Piece7 := "cko) Version"
  const Piece8 := "/6.1.3 Safar"
  const Piece9 := "i/537.75.14"

  const Pieces := [Piece0, Piece1, Piece2, Piece3, Piece4, Piece5, Piece6, Piece7, Piece8, Piece9]

  /** The pieces one after the other. */
  function Cat(ps: seq<string>): string {
    if ps == [] then "" else ps[0] + Cat(ps[1..])
  }

  /** The suite's first user-agent string. */
  const SuiteAgent := Cat(Pieces)

  /** Every piece but the last has twelve characters. */
  predicate Regular(ps: seq<string>) {
    forall k :: 0 <= k < |ps| - 1 ==> |ps[k]| == 12
  }

  /** Leaving out the first `k` pieces leaves out the first `12 * k` characters. */
  lemma {:induction false} CatFrom(ps: seq<string>, k: nat)
    requires Regular(ps) && k < |ps|
    ensures |Cat(ps)| == 12 * k + |Cat(ps[k..])|
    ensures Cat(ps)[12 * k..] == Cat(ps[k..])
  {
    if k > 0 {
      assert Regular(ps[1..]) by {
        forall j | 0 <= j < |ps[1..]| - 1 ensures |ps[1..][j]| == 12 {
          assert ps[1..][j] == ps[j + 1];
        }
      }
      CatFrom(ps[1..], k - 1);
      assert ps[1..][k - 1..] == ps[k..];
    }
  }

  /** Character `12 * k + r` of the whole is character `r` of piece `k`. */
  lemma CatIndex(ps: seq<string>, k: nat, r: nat)
    requires Regular(ps) && k < |ps| && r < |ps[k]|
    ensures 12 * k + r < |Cat(ps)| && Cat(ps)[12 * k + r] == ps[k][r]
  {
    CatFrom(ps, k);
    assert Cat(ps[k..]) == ps[k] + Cat(ps[k + 1..]);
    assert Cat(ps)[12 * k + r] == Cat(ps[k..])[r];
  }

  lemma PiecesRegular()
    ensures Regular(Pieces) && |Pieces| == 10 && |Pieces[9]| == 11
  {
  }

  /** The string has 119 characters. */
  lemma SuiteLength()
    ensures |SuiteAgent| == 119
  {
    PiecesRegular();
    CatFrom(Pieces, 9);
    assert Pieces[9..] == [Piece9];
    assert Cat(Pieces[9..]) == Piece9 + Cat([]);
  }

  /** Character `x` of the string, looked up in its piece. */
  lemma At(x: nat)
    requires x < 119
    ensures x < |SuiteAgent| && SuiteAgent[x] == Pieces[x / 12][x % 12]
  {
    PiecesRegular();
    CatIndex(Pieces, x / 12, x % 12);
  }

  /** Two neighbouring pieces, read off the whole. */
  lemma CatWindow(ps: seq<string>, k: nat)
    requires Regular(ps) && k + 1 < |ps|
    ensures 12 * k + 12 + |ps[k + 1]| <= |Cat(ps)|
    ensures Cat(ps)[12 * k..12 * k + 12 + |ps[k + 1]|] == ps[k] + ps[k + 1]
  {
    CatFrom(ps, k);
    var pair, rest := ps[k] + ps[k + 1], Cat(ps[k + 2..]);
    assert Cat(ps[k..]) == pair + rest by {
      assert ps[k..][1..] == ps[k + 1..];
      assert ps[k + 1..][1..] == ps[k + 2..];
    }
    assert Cat(ps)[12 * k..][..|pair|] == pair;
  }

  /** Two neighbouring pieces, read off the string. */
  lemma Window(k: nat)
    requires k < 9
    ensures 12 * k + 12 + |Pieces[k + 1]| <= |SuiteAgent|
    ensures SuiteAgent[12 * k..12 * k + 12 + |Pieces[k + 1]|] == Pieces[k] + Pieces[k + 1]
  {
    PiecesRegular();
    CatWindow(Pieces, k);
  }

  /** Character `r` of a piece starting at `base` is the letter `c`, in either case, only
      where `at` says. */
  predicate FoldsOnlyAt(t: string, c: char, base: nat, at: set<nat>)
    requires 'a' <= c <= 'z'
  {
    forall r :: 0 <= r < |t| && (t[r] == c || t[r] == (c as int - 32) as char) ==> base + r in at
  }

  /** Where the string holds the letters the searches below turn on. */
  const AtP: set<nat> := {48, 49}
  const AtW: set<nat> := {52}
  const AtR: set<nat> := {91, 107}
  const AtH: set<nat> := {21, 71}
  const AtX: set<nat> := {37}
  const AtV: set<nat> := {89}

  /** The letters of the platform and OS searches. */
  predicate PlatformMarks(t: string, base: nat) {
    FoldsOnlyAt(t, 'p', base, AtP) && FoldsOnlyAt(t, 'w', base, AtW) && FoldsOnlyAt(t, 'x', base, AtX)
  }

  /** The letters of the browser searches. */
  predicate BrowserMarks(t: string, base: nat) {
    FoldsOnlyAt(t, 'r', base, AtR) && FoldsOnlyAt(t, 'h', base, AtH) && FoldsOnlyAt(t, 'v', base, AtV)
  }

  lemma PlatformMarks0()
    ensures PlatformMarks(Piece0, 0)
  {
  }

  lemma PlatformMarks1()
    ensures PlatformMarks(Piece1, 12)
  {
  }

  lemma PlatformMarks2()
    ensures PlatformMarks(Piece2, 24)
  {
  }

  lemma PlatformMarks3()
    ensures PlatformMarks(Piece3, 36)
  {
  }

  lemma PlatformMarks4()
    ensures PlatformMarks(Piece4, 48)
  {
  }

  lemma PlatformMarks5()
    ensures PlatformMarks(Piece5, 60)
  {
  }

  lemma PlatformMarks6()
    ensures PlatformMarks(Piece6, 72)
  {
  }

  lemma PlatformMarks7()
    ensures PlatformMarks(Piece7, 84)
  {
  }

  lemma PlatformMarks8()
    ensures PlatformMarks(Piece8, 96)
  {
  }

  lemma PlatformMarks9()
    ensures PlatformMarks(Piece9, 108)
  {
  }

  lemma BrowserMarks0()
    ensures BrowserMarks(Piece0, 0)
  {
  }

  lemma BrowserMarks1()
    ensures BrowserMarks(Piece1, 12)
  {
  }

  lemma BrowserMarks2()
    ensures BrowserMarks(Piece2, 24)
  {
  }

  lemma BrowserMarks3()
    ensures BrowserMarks(Piece3, 36)
  {
  }

  lemma BrowserMarks4()
    ensures BrowserMarks(Piece4, 48)
  {
  }

  lemma BrowserMarks5()
    ensures BrowserMarks(Piece5, 60)
  {
  }

  lemma BrowserMarks6()
    ensures BrowserMarks(Piece6, 72)
  {
  }

  lemma BrowserMarks7()
    ensures BrowserMarks(Piece7, 84)
  {
  }

  lemma BrowserMarks8()
    ensures BrowserMarks(Piece8, 96)
  {
  }

  lemma BrowserMarks9()
    ensures BrowserMarks(Piece9, 108)
  {
  }

  /** Each piece holds those letters only where the sets say. */
  lemma AllMarked(k: nat)
    requires k < 10
    ensures PlatformMarks(Pieces[k], 12 * k) && BrowserMarks(Pieces[k], 12 * k)
  {
    if k == 0 { PlatformMarks0(); BrowserMarks0(); }
    else if k == 1 { PlatformMarks1(); BrowserMarks1(); }
    else if k == 2 { PlatformMarks2(); BrowserMarks2(); }
    else if k == 3 { PlatformMarks3(); BrowserMarks3(); }
    else if k == 4 { PlatformMarks4(); BrowserMarks4(); }
    else if k == 5 { PlatformMarks5(); BrowserMarks5(); }
    else if k == 6 { PlatformMarks6(); BrowserMarks6(); }
    else if k == 7 { PlatformMarks7(); BrowserMarks7(); }
    else if k == 8 { PlatformMarks8(); BrowserMarks8(); }
    else { PlatformMarks9(); BrowserMarks9(); }
  }

  /** Only the letter itself and its capital fold to a letter other than `k` and `s`. */
  lemma FoldToLetter(y: char, c: char)
    requires 'a' <= c <= 'z' && c != 'k' && c != 's' && Fold(y) == c
    ensures y == c || y == (c as int - 32) as char
  {
  }

  /** So in the whole string a character folds to `c` only at the places `at` names. */
  lemma OnlyAt(c: char, at: set<nat>)
    requires 'a' <= c <= 'z' && c != 'k' && c != 's'
    requires forall k :: 0 <= k < 10 ==> FoldsOnlyAt(Pieces[k], c, 12 * k, at)
    ensures forall x :: 0 <= x < |SuiteAgent| && Fold(SuiteAgent[x]) == c ==> x in at
  {
    SuiteLength();
    forall x | 0 <= x < |SuiteAgent| && Fold(SuiteAgent[x]) == c ensures x in at {
      At(x);
      FoldToLetter(SuiteAgent[x], c);
      assert FoldsOnlyAt(Pieces[x / 12], c, 12 * (x / 12), at);
    }
  }

  /** Where the string holds the letter `c`. */
  function Places(c: char): set<nat> {
    match c
    case 'p' => AtP
    case 'w' => AtW
    case 'r' => AtR
    case 'h' => AtH
    case 'x' => AtX
    case 'v' => AtV
    case _ => {}
  }

  /** The places of each of those letters in the whole string. */
  lemma Letter(c: char)
    requires c in "pwrhxv"
    ensures forall x :: 0 <= x < |SuiteAgent| && Fold(SuiteAgent[x]) == c ==> x in Places(c)
  {
    forall k | 0 <= k < 10 ensures PlatformMarks(Pieces[k], 12 * k) && BrowserMarks(Pieces[k], 12 * k) {
      AllMarked(k);
    }
    if c == 'p' {
      OnlyAt('p', AtP);
    } else if c == 'w' {
      OnlyAt('w', AtW);
    } else if c == 'r' {
      OnlyAt('r', AtR);
    } else if c == 'h' {
      OnlyAt('h', AtH);
    } else if c == 'x' {
      OnlyAt('x', AtX);
    } else {
      OnlyAt('v', AtV);
    }
  }

  /** A token whose `k`-th atom folds to `c` can only match where that atom meets one of
      the places `at` that the string folds to `c`; if it matches at none of them, it does
      not occur. */
  lemma Absent(s: string, t: Token, k: nat, c: char, at: set<nat>)
    requires k < |t| && t[k].Char? && Fold(t[k].c) == c
    requires forall x :: 0 <= x < |s| && Fold(s[x]) == c ==> x in at
    requires forall x :: x in at && k <= x ==> !MatchesAt(s, x - k, t)
    ensures !Occurs(s, t)
  {
    forall i: nat | i <= |s| ensures !MatchesAt(s, i, t) {
      if i + k < |s| {
        assert AtomMatches(t[k], s[i + k]) ==> i + k in at;
      }
    }
  }

  /** A token matching a stretch `w` of `s` that starts at `lo` matches `s` at the same
      place. */
  lemma MatchesInside(s: string, lo: nat, w: string, i: nat, t: Token)
    requires lo + |w| <= |s| && s[lo..lo + |w|] == w && MatchesAt(w, i, t)
    ensures MatchesAt(s, lo + i, t)
  {
    forall r | 0 <= r < |t| ensures AtomMatches(t[r], s[lo + i + r]) {
      assert s[lo..lo + |w|][i + r] == w[i + r];
    }
  }

  /** Part of a stretch `w` of `s` that starts at `lo` is the same part of `s`. */
  lemma SliceInside(s: string, lo: nat, w: string, b: nat, e: nat)
    requires lo + |w| <= |s| && s[lo..lo + |w|] == w && b <= e <= |w|
    ensures s[lo + b..lo + e] == w[b..e]
  {
    forall x | 0 <= x < e - b ensures s[lo + b..lo + e][x] == w[b..e][x] {
      assert s[lo + b + x] == s[lo..lo + |w|][b + x];
    }
  }

  /** A run of `a` in a stretch `w` of `s` that starts at `lo`, ending before the end of
      `w`, is the same run in `s`. */
  lemma SpanInside(s: string, lo: nat, w: string, b: nat, e: nat, a: Atom)
    requires lo + |w| <= |s| && s[lo..lo + |w|] == w && b <= e < |w|
    requires forall r :: b <= r < e ==> AtomMatches(a, w[r])
    requires !AtomMatches(a, w[e])
    ensures SpanEnd(s, lo + b, a) == lo + e
  {
    forall x | lo + b <= x <= lo + e ensures s[x] == w[x - lo] {
      assert s[x] == s[lo..lo + |w|][x - lo];
    }
    SpanEndIs(s, lo + b, a, lo + e);
  }

  /** A token that fails one of its atoms at `i` does not match there. */
  lemma Mismatch(s: string, i: nat, t: Token, r: nat)
    requires r < |t| && i + r < |s| && !AtomMatches(t[r], s[i + r])
    ensures !MatchesAt(s, i, t)
  {
  }

  /** The characters next to the letters' places that keep the absent words out. */
  lemma Neighbours()
    ensures |SuiteAgent| == 119
    ensures SuiteAgent[0] == 'M' && SuiteAgent[20] == 's' && SuiteAgent[46] == ' '
    ensures SuiteAgent[47] == 'A' && SuiteAgent[48] == 'p' && SuiteAgent[53] == 'e'
    ensures SuiteAgent[70] == 'K' && SuiteAgent[86] == 'o' && SuiteAgent[102] == ' '
    ensures SuiteAgent[118] == '4'
  {
    SuiteLength();
    At(0);
    At(20);
    At(46);
    At(47);
    At(48);
    At(53);
    At(70);
    At(86);
    At(102);
    At(118);
  }

  /** "ipad", "ipod" and "iphone" could only sit where their "p" meets one, at 48 or 49,
      and neither 47 nor 48 holds an "i". */
  lemma NotAnIosDevice(t: Token)
    requires |t| > 1 && t[0] == Char('i') && t[1] == Char('p')
    ensures !Occurs(SuiteAgent, t)
  {
    assert !MatchesAt(SuiteAgent, 47, t) && !MatchesAt(SuiteAgent, 48, t) by {
      Neighbours();
      Mismatch(SuiteAgent, 47, t, 0);
      Mismatch(SuiteAgent, 48, t, 0);
    }
    Letter('p');
    Absent(SuiteAgent, t, 1, 'p', Places('p'));
  }

  /** A word starting "wi" could only sit at the only "w", which "e" follows. */
  lemma NotWindows(t: Token)
    requires |t| > 1 && t[0] == Char('w') && t[1] == Char('i')
    ensures !Occurs(SuiteAgent, t)
  {
    assert !MatchesAt(SuiteAgent, 52, t) by {
      Neighbours();
      Mismatch(SuiteAgent, 52, t, 1);
    }
    Letter('w');
    Absent(SuiteAgent, t, 0, 'w', Places('w'));
  }

  /** The string names no iOS device. */
  lemma SuiteNotIos()
    ensures !ContainsCI(SuiteAgent, "ipad") && !ContainsCI(SuiteAgent, "ipod")
    ensures !ContainsCI(SuiteAgent, "iphone")
  {
    NotAnIosDevice(Lit("ipad"));
    NotAnIosDevice(Lit("ipod"));
    NotAnIosDevice(Lit("iphone"));
  }

  /** The string names no Windows. */
  lemma SuiteNotWindows()
    ensures !ContainsCI(SuiteAgent, "windows") && !AnyOccurs(WindowsMobileTokens, SuiteAgent)
  {
    NotWindows(Lit("windows"));
    NotWindows(Lit("windows ce"));
    NotWindows(Lit("windows phone"));
    NotWindows(Lit("windows mobile"));
  }

  /** The string was not sent by one of the company's apps: it starts with "M". */
  lemma SuiteNotRemind()
    ensures !IsRemind(SuiteAgent)
  {
    Neighbours();
    assert SuiteAgent[..|RemindPrefix|][0] != RemindPrefix[0];
  }

  /** "Macintosh" at 13, read off pieces 1 and 2. */
  lemma MacintoshAt()
    ensures MatchesAt(SuiteAgent, 13, Lit("macintosh"))
  {
    Window(1);
    MatchesInside(SuiteAgent, 12, Piece1 + Piece2, 1, Lit("macintosh"));
  }

  /** The platform: "macintosh" at position 13, after no word of an earlier rule. */
  lemma SuitePlatform(find: Submatcher)
    requires Sound(find)
    ensures PlatformOf(SuiteAgent, find) == Mac && Mac !in MobilePlatforms
  {
    SuiteNotIos();
    SuiteNotWindows();
    MacintoshAt();
    PlatformIsLadder(SuiteAgent, find);
  }

  /** "electron" could only sit where its "r" meets one, at 91 or 107, and neither 86 nor
      102 holds an "e". */
  lemma NotElectron(t: Token)
    requires |t| > 5 && t[0] == Char('e') && t[5] == Char('r')
    ensures !Occurs(SuiteAgent, t)
  {
    assert !MatchesAt(SuiteAgent, 86, t) && !MatchesAt(SuiteAgent, 102, t) by {
      Neighbours();
      Mismatch(SuiteAgent, 86, t, 0);
      Mismatch(SuiteAgent, 102, t, 0);
    }
    Letter('r');
    Absent(SuiteAgent, t, 5, 'r', Places('r'));
  }

  /** "chrome" could only sit where its "h" meets one, at 21 or 71, and neither 20 nor 70
      holds a "c". */
  lemma NotChrome(t: Token)
    requires |t| > 1 && t[0] == Char('c') && t[1] == Char('h')
    ensures !Occurs(SuiteAgent, t)
  {
    assert !MatchesAt(SuiteAgent, 20, t) && !MatchesAt(SuiteAgent, 70, t) by {
      Neighbours();
      Mismatch(SuiteAgent, 20, t, 0);
      Mismatch(SuiteAgent, 70, t, 0);
    }
    Letter('h');
    Absent(SuiteAgent, t, 1, 'h', Places('h'));
  }

  /** "Safari" at 103, read off pieces 8 and 9. */
  lemma SafariAt()
    ensures MatchesAt(SuiteAgent, 103, Lit("safari"))
  {
    Window(8);
    MatchesInside(SuiteAgent, 96, Piece8 + Piece9, 7, Lit("safari"));
  }

  /** The browser: no iOS device, no "electron", no "chrome", and "safari" at 103. */
  lemma SuiteBrowser(find: Submatcher)
    requires Sound(find)
    ensures BrowserOf(SuiteAgent, find) == Safari
  {
    SuiteNotRemind();
    SuiteNotIos();
    NotElectron(Lit("electron"));
    NotChrome(Lit("chrome"));
    SafariAt();
    BrowserRouting(SuiteAgent, find);
  }

  /** Safari's version pattern is the key "version", without a spaced form. */
  lemma SafariKey()
    ensures BrowserVersionRegexp(Safari) == Version("version", false)
  {
  }

  /** "Version/6" at 89, read off pieces 7 and 8. */
  lemma VersionAt()
    ensures MatchesAt(SuiteAgent, 89, Lit("version/") + [VersionChar])
  {
    var t := Lit("version/") + [VersionChar];
    assert MatchesAt(Piece7 + Piece8, 5, t) by {
      assert forall r :: 0 <= r < 8 ==> t[r] == Char("version/"[r]);
    }
    Window(7);
    MatchesInside(SuiteAgent, 84, Piece7 + Piece8, 5, t);
  }

  /** It is the first "version/" followed by a version character: no "v" comes earlier. */
  lemma SuiteFirstVersion()
    ensures FirstVersionAt(Version("version", false), SuiteAgent, 89)
  {
    var p := Version("version", false);
    var t := Lit("version/") + [VersionChar];
    assert Lit(p.key + "/") + [VersionChar] == t;
    assert VersionStartsAt(p, SuiteAgent, 89) by {
      VersionAt();
    }
    SuiteLength();
    Letter('v');
    forall j: nat | j < 89 ensures !VersionStartsAt(p, SuiteAgent, j) {
      assert AtomMatches(t[0], SuiteAgent[j]) ==> j in Places('v');
    }
  }

  /** The version characters after "Version/" are "6.1.3", up to the space at 102. */
  lemma SafariCapture()
    ensures |SuiteAgent| == 119
    ensures SpanEnd(SuiteAgent, 97, VersionChar) == 102 && SuiteAgent[97..102] == "6.1.3"
  {
    SuiteLength();
    Window(8);
    SpanInside(SuiteAgent, 96, Piece8 + Piece9, 1, 6, VersionChar);
    SliceInside(SuiteAgent, 96, Piece8 + Piece9, 1, 6);
    assert (Piece8 + Piece9)[1..6] == "6.1.3" by {
      assert forall r :: 0 <= r < 5 ==> (Piece8 + Piece9)[1..6][r] == "6.1.3"[r];
    }
  }

  /** The browser version: the version characters after "Version/", "6.1.3". */
  lemma SuiteBrowserVersion(find: Submatcher)
    requires Sound(find) && Complete(find)
    ensures ExtractVersion(BrowserVersionRegexp(Safari), SuiteAgent, find) == "6.1.3"
  {
    SafariKey();
    SuiteFirstVersion();
    SafariCapture();
    ExtractVersionExact(Version("version", false), SuiteAgent, 89, find);
  }

  /** "WebKit/5" at 52, read off pieces 4 and 5. */
  lemma WebkitAt()
    ensures MatchesAt(SuiteAgent, 52, Lit("webkit/") + [VersionChar])
  {
    Window(4);
    MatchesInside(SuiteAgent, 48, Piece4 + Piece5, 4, Lit("webkit/") + [VersionChar]);
  }

  /** The engine: no iOS device, and "WebKit" at 52. */
  lemma SuiteEngine(find: Submatcher)
    requires Sound(find)
    ensures EngineOf(SuiteAgent, find) == Webkit
  {
    SuiteNotRemind();
    SuiteNotIos();
    assert ContainsCI(SuiteAgent, "webkit") by {
      WebkitAt();
      LitConcat("webkit", "/");
      assert "webkit" + "/" == "webkit/";
      assert Lit("webkit/") + [VersionChar] == Lit("webkit") + (Lit("/") + [VersionChar]);
      OccursPrefix(SuiteAgent, Lit("webkit"), Lit("/") + [VersionChar]);
    }
    EngineRouting(SuiteAgent, find);
  }

  /** It is the first match of the engine's synthesized pattern: no "w" comes earlier. */
  lemma SuiteFirstWebkit()
    ensures FirstVersionAt(Synthesized(Webkit), SuiteAgent, 52)
  {
    var p := Synthesized(Webkit);
    var t := Lit("webkit/") + [VersionChar];
    var u := Lit("webkit ") + [VersionChar];
    assert Lit(p.key + "/") + [VersionChar] == t && Lit(p.key + " ") + [VersionChar] == u;
    assert VersionStartsAt(p, SuiteAgent, 52) by {
      WebkitAt();
    }
    SuiteLength();
    Letter('w');
    forall j: nat | j < 52 ensures !VersionStartsAt(p, SuiteAgent, j) {
      assert AtomMatches(t[0], SuiteAgent[j]) ==> j in Places('w');
      assert AtomMatches(u[0], SuiteAgent[j]) ==> j in Places('w');
    }
  }

  /** The version characters after "WebKit/" are "537.75.14", up to the space at 68. */
  lemma WebkitCapture()
    ensures |SuiteAgent| == 119
    ensures SpanEnd(SuiteAgent, 59, VersionChar) == 68 && SuiteAgent[59..68] == "537.75.14"
  {
    SuiteLength();
    Window(4);
    WebkitNumber();
    SpanInside(SuiteAgent, 48, Piece4 + Piece5, 11, 20, VersionChar);
    SliceInside(SuiteAgent, 48, Piece4 + Piece5, 11, 20);
  }

  /** Pieces 4 and 5 hold "537.75.14" from 11 to the space at 20. */
  lemma WebkitNumber()
    ensures (Piece4 + Piece5)[11..20] == "537.75.14"
    ensures forall r :: 11 <= r < 20 ==> AtomMatches(VersionChar, (Piece4 + Piece5)[r])
    ensures !AtomMatches(VersionChar, (Piece4 + Piece5)[20])
  {
    var w := Piece4 + Piece5;
    assert w[11..20] == [w[11]] + Piece5[..8];
  }

  /** The engine version: the version characters after "WebKit/", "537.75.14". */
  lemma SuiteEngineVersion(find: Submatcher)
    requires Sound(find) && Complete(find)
    ensures ExtractVersion(Synthesized(Webkit), SuiteAgent, find) == "537.75.14"
  {
    SuiteFirstWebkit();
    WebkitCapture();
    ExtractVersionExact(Synthesized(Webkit), SuiteAgent, 52, find);
  }

  /** "(iPad" and "(iPhone" could only sit where their "p" meets one, at 48 or 49, and
      neither 46 nor 47 holds a "(". */
  lemma NoIosLead(t: Token)
    requires |t| > 2 && t[0] == Char('(') && t[2] == Char('P')
    ensures !Occurs(SuiteAgent, t)
  {
    assert !MatchesAt(SuiteAgent, 46, t) && !MatchesAt(SuiteAgent, 47, t) by {
      Neighbours();
      Mismatch(SuiteAgent, 46, t, 0);
      Mismatch(SuiteAgent, 47, t, 0);
    }
    Letter('p');
    Absent(SuiteAgent, t, 2, 'p', Places('p'));
  }

  /** "OS X 1" at 34, read off pieces 2 and 3. */
  lemma OsXAt()
    ensures MatchesAt(SuiteAgent, 34, Lit("os x ") + [Digit])
  {
    Window(2);
    MatchesInside(SuiteAgent, 24, Piece2 + Piece3, 10, Lit("os x ") + [Digit]);
  }

  /** The major digits of "10_8_5": "10", from 39 to the "_" at 41. */
  lemma OsXMajorDigits()
    ensures |SuiteAgent| == 119
    ensures SpanEnd(SuiteAgent, 39, Digit) == 41 && SuiteAgent[39..41] == "10"
  {
    SuiteLength();
    var w := Piece2 + Piece3;
    Window(2);
    SpanInside(SuiteAgent, 24, w, 15, 17, Digit);
    SliceInside(SuiteAgent, 24, w, 15, 17);
    assert w[15..17] == "10" by {
      assert forall r :: 0 <= r < 2 ==> w[15..17][r] == "10"[r];
    }
  }

  /** The separator and the minor digits: "_" at 41, then "8", from 42 to the "_" at 43. */
  lemma OsXMinorDigits()
    ensures |SuiteAgent| == 119
    ensures SpanEnd(SuiteAgent, 42, Digit) == 43 && SuiteAgent[41..43] == "_8"
  {
    SuiteLength();
    var w := Piece2 + Piece3;
    Window(2);
    SpanInside(SuiteAgent, 24, w, 18, 19, Digit);
    SliceInside(SuiteAgent, 24, w, 17, 19);
    assert w[17..19] == "_8" by {
      assert forall r :: 0 <= r < 2 ==> w[17..19][r] == "_8"[r];
    }
  }

  /** A release starts at 34, "OS X 10_8", with major number "10" and minor number "8". */
  lemma SuiteMacStarts()
    ensures ReleaseStartsAt("os x ", SuiteAgent, 34)
    ensures Major("os x ", SuiteAgent, 34) == "10" && Minor("os x ", SuiteAgent, 34) == "8"
  {
    OsXAt();
    OsXMajorDigits();
    OsXMinorDigits();
    assert SuiteAgent[41] == SuiteAgent[41..43][0] && SuiteAgent[42] == SuiteAgent[41..43][1];
    assert SuiteAgent[42..43] == SuiteAgent[41..43][1..];
  }

  /** No "os x " followed by a digit starts before 34: no "x" comes before 37. */
  lemma NoOsXBefore()
    ensures forall j: nat :: j < 34 ==> !MatchesAt(SuiteAgent, j, Lit("os x ") + [Digit])
  {
    var t := Lit("os x ") + [Digit];
    SuiteLength();
    Letter('x');
    forall j: nat | j < 34 ensures !MatchesAt(SuiteAgent, j, t) {
      assert AtomMatches(t[3], SuiteAgent[j + 3]) ==> j + 3 in Places('x');
    }
  }

  /** It is the first release after "os x ". */
  lemma SuiteMacRelease()
    ensures FirstReleaseAt("os x ", SuiteAgent, 34)
    ensures Major("os x ", SuiteAgent, 34) == "10" && Minor("os x ", SuiteAgent, 34) == "8"
  {
    SuiteMacStarts();
    NoOsXBefore();
  }

  /** The operating system: no "(iPad", no "(iPhone", no "windows", and the release of
      "OS X 10_8". */
  lemma SuiteOs(find: Submatcher)
    requires Sound(find) && Complete(find)
    ensures OsOf(SuiteAgent, find) == "OS X 10.8"
  {
    NoIosLead(Lit("(iPad"));
    NoIosLead(Lit("(iPhone"));
    SuiteNotWindows();
    SuiteMacRelease();
    OsXExact(SuiteAgent, 34, find);
  }

  /** The string has no white space at either end, so trimming leaves it as it is. */
  lemma SuiteTrimmed()
    ensures TrimSpace(SuiteAgent) == SuiteAgent
  {
    Neighbours();
    assert [] + SuiteAgent + [] == SuiteAgent;
    TrimSpaceOf([], SuiteAgent, []);
  }

  /** The suite's first case: parsing the string answers browser "safari" at version
      "6.1.3", engine "webkit" at version "537.75.14", OS "OS X 10.8" and platform
      "macintosh", not mobile. */
  method FirstCase(regexp: Submatcher)
    returns (browser: string, browserVersion: string, engine: string, engineVersion: string,
             os: string, platform: string, mobile: bool)
    requires Sound(regexp) && Complete(regexp)
    ensures browser == "safari" && browserVersion == "6.1.3"
    ensures engine == "webkit" && engineVersion == "537.75.14"
    ensures os == "OS X 10.8" && platform == "macintosh" && !mobile
  {
    browser, browserVersion, engine, engineVersion, os, platform, mobile := Parse(SuiteAgent, regexp);
    SuiteTrimmed();
    SuitePlatform(regexp);
    SuiteBrowser(regexp);
    SuiteBrowserVersion(regexp);
    SuiteEngine(regexp);
    SuiteEngineVersion(regexp);
    SuiteOs(regexp);
  }

  /** An iPad string with two releases on the lead's line. */
  const TwoReleases := "(iPad; CPU OS 7_1 like Mac OS 10_9"

  /** A release starts at 27, "OS 10_9", with major number "10" and minor number "9". */
  lemma SecondReleaseStarts()
    ensures ReleaseStartsAt("os ", TwoReleases, 27)
    ensures Major("os ", TwoReleases, 27) == "10" && Minor("os ", TwoReleases, 27) == "9"
  {
    var s := TwoReleases;
    assert MatchesAt(s, 27, Lit("os ") + [Digit]);
    SpanEndIs(s, 30, Digit, 32);
    SpanEndIs(s, 33, Digit, 34);
    assert s[30..32] == "10" && s[33..34] == "9";
  }

  /** No release starts after 27: no "o" follows. */
  lemma NoLaterRelease()
    ensures forall j: nat :: 27 < j <= |TwoReleases| ==> !ReleaseStartsAt("os ", TwoReleases, j)
  {
    var s, t := TwoReleases, Lit("os ") + [Digit];
    forall j: nat | 27 < j <= |s| ensures !MatchesAt(s, j, t) {
      assert j < |s| ==> !AtomMatches(t[0], s[j]);
    }
  }

  /** The lead at 0 and the release at 27 form the greedy match. */
  lemma TwoReleasesGreedy()
    ensures GreedyReleaseAt(IpadRelease, TwoReleases, 0, 27)
  {
    var s := TwoReleases;
    SecondReleaseStarts();
    NoLaterRelease();
    assert MatchesAt(s, 0, Lit("(iPad"));
    assert forall k :: 0 <= k < 27 ==> s[k] != '\n';
  }

  /** The greedy `.*` passes over the earlier release on the lead's line: after "(iPad",
      "OS 7_1" is skipped for the last release, "OS 10_9". */
  lemma IpadLastRelease(find: Submatcher)
    requires Sound(find) && Complete(find)
    ensures OsOf(TwoReleases, find) == "iPad OS 10.9"
  {
    TwoReleasesGreedy();
    SecondReleaseStarts();
    assert "iPad OS " + "10" + "." + "9" == "iPad OS 10.9";
    IpadAnswer(TwoReleases, 0, 27, find);
  }
}
