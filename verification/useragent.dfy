/** The `UserAgent` facade: one trimmed user-agent string and four lazily filled caches
    (browser, engine, operating system, platform), the empty string meaning "not computed
    yet". Strings from the company's own apps (prefix "Remind") have an unknown browser and
    engine, and iOS devices are classified by the single-rule iOS chains. */
module Agent {
  import opened Text
  import opened Regex
  import opened Rules
  import opened Tables
  import opened Versions

  /** `IsRemind`: the string was sent by one of the company's own apps. */
  predicate IsRemind(s: string) {
    HasPrefix(s, RemindPrefix)
  }

  /** The platforms `IsIos` recognises. */
  predicate IsIosPlatform(p: string) {
    p == Iphone || p == Ipad || p == Ipod
  }

  /** What `Platform` computes. */
  function PlatformOf(s: string, find: Submatcher): string
    requires Sound(find)
  {
    TablesWellFormed();
    MatchFirst(Platforms, s, find)
  }

  /** What `BrowserName` computes. */
  function BrowserOf(s: string, find: Submatcher): string
    requires Sound(find)
  {
    TablesWellFormed();
    if IsRemind(s) then Unknown
    else if IsIosPlatform(PlatformOf(s, find)) then MatchFirst(IosBrowsers, s, find)
    else MatchFirst(Browsers, s, find)
  }

  /** What `Engine` computes. */
  function EngineOf(s: string, find: Submatcher): string
    requires Sound(find)
  {
    TablesWellFormed();
    if IsRemind(s) then Unknown
    else if IsIosPlatform(PlatformOf(s, find)) then MatchFirst(IosEngines, s, find)
    else MatchFirst(Engines, s, find)
  }

  /** What `OS` computes. */
  function OsOf(s: string, find: Submatcher): string
    requires Sound(find)
  {
    TablesWellFormed();
    MatchFirst(Oses, s, find)
  }

  class UserAgent {
    /** The user-agent string, trimmed. */
    const s: string
    /** The regular-expression engine the capturing patterns are run with. */
    const regexp: Submatcher
    var browser: string
    var engine: string
    var os: string
    var platform: string

    /** Each cache is empty or holds what its accessor computes from the string. */
    ghost predicate Valid()
      reads this
    {
      Sound(regexp) && Trimmed(s)
      && (browser != "" ==> browser == BrowserOf(s, regexp))
      && (engine != "" ==> engine == EngineOf(s, regexp))
      && (os != "" ==> os == OsOf(s, regexp))
      && (platform != "" ==> platform == PlatformOf(s, regexp))
    }

    /** `New`: keeps the string without its leading and trailing white space; nothing is
        computed yet. */
    constructor New(ua: string, regexp: Submatcher)
      requires Sound(regexp)
      ensures Valid() && this.regexp == regexp
      ensures s == TrimSpace(ua)
      ensures browser == "" && engine == "" && os == "" && platform == ""
    {
      s := TrimSpace(ua);
      this.regexp := regexp;
      browser, engine, os, platform := "", "", "", "";
    }

    /** `Platform`: fills the platform cache once; later calls change nothing. */
    method Platform() returns (r: string)
      requires Valid()
      modifies this`platform
      ensures Valid()
      ensures r == platform == PlatformOf(s, regexp) && r != ""
      ensures old(platform) != "" ==> unchanged(this)
    {
      AccessorsNonEmpty(s, regexp);
      if platform == "" {
        TablesWellFormed();
        platform := MatchFirstScan(Platforms, s, regexp);
      }
      r := platform;
    }

    /** `IsIos`: whether the platform is an iPhone, iPad or iPod; fills the platform cache. */
    method IsIos() returns (b: bool)
      requires Valid()
      modifies this`platform
      ensures Valid()
      ensures b == IsIosPlatform(PlatformOf(s, regexp))
      ensures platform == PlatformOf(s, regexp)
    {
      var p := Platform();
      b := p == Iphone || p == Ipad || p == Ipod;
    }

    /** `BrowserName`: fills the browser cache once. On a string from the company's apps it
        also sets the engine cache to unknown; otherwise it routes through the platform,
        filling that cache too. Later calls change nothing. */
    method BrowserName() returns (r: string)
      requires Valid()
      modifies this`browser, this`engine, this`platform
      ensures Valid()
      ensures r == browser == BrowserOf(s, regexp) && r != ""
      ensures engine == (if old(browser) == "" && IsRemind(s) then Unknown else old(engine))
      ensures platform == (if old(browser) == "" && !IsRemind(s) then PlatformOf(s, regexp) else old(platform))
      ensures old(browser) != "" ==> unchanged(this)
    {
      AccessorsNonEmpty(s, regexp);
      if browser == "" {
        if IsRemind(s) {
          engine := Unknown;
          browser := Unknown;
        } else {
          var ios := IsIos();
          TablesWellFormed();
          if ios {
            browser := MatchFirstScan(IosBrowsers, s, regexp);
          } else {
            browser := MatchFirstScan(Browsers, s, regexp);
          }
        }
      }
      r := browser;
    }

    /** `BrowserVersion`: capture group 1 of the browser's version pattern, or "". */
    method BrowserVersion() returns (v: string)
      requires Valid()
      modifies this`browser, this`engine, this`platform
      ensures Valid()
      ensures v == ExtractVersion(BrowserVersionRegexp(BrowserOf(s, regexp)), s, regexp)
      ensures browser == BrowserOf(s, regexp)
      ensures engine == (if old(browser) == "" && IsRemind(s) then Unknown else old(engine))
      ensures platform == (if old(browser) == "" && !IsRemind(s) then PlatformOf(s, regexp) else old(platform))
    {
      var name := BrowserName();
      v := ExtractVersion(BrowserVersionRegexp(name), s, regexp);
    }

    /** `Engine`: fills the engine cache once, like `BrowserName` with the roles of the two
        caches exchanged. */
    method Engine() returns (r: string)
      requires Valid()
      modifies this`browser, this`engine, this`platform
      ensures Valid()
      ensures r == engine == EngineOf(s, regexp) && r != ""
      ensures browser == (if old(engine) == "" && IsRemind(s) then Unknown else old(browser))
      ensures platform == (if old(engine) == "" && !IsRemind(s) then PlatformOf(s, regexp) else old(platform))
      ensures old(engine) != "" ==> unchanged(this)
    {
      AccessorsNonEmpty(s, regexp);
      if engine == "" {
        if IsRemind(s) {
          engine := Unknown;
          browser := Unknown;
        } else {
          var ios := IsIos();
          TablesWellFormed();
          if ios {
            engine := MatchFirstScan(IosEngines, s, regexp);
          } else {
            engine := MatchFirstScan(Engines, s, regexp);
          }
        }
      }
      r := engine;
    }

    /** `EngineVersion`: capture group 1 of the pattern synthesized from the engine, or "". */
    method EngineVersion() returns (v: string)
      requires Valid()
      modifies this`browser, this`engine, this`platform
      ensures Valid()
      ensures v == ExtractVersion(Synthesized(EngineOf(s, regexp)), s, regexp)
      ensures engine == EngineOf(s, regexp)
      ensures browser == (if old(engine) == "" && IsRemind(s) then Unknown else old(browser))
      ensures platform == (if old(engine) == "" && !IsRemind(s) then PlatformOf(s, regexp) else old(platform))
    {
      var name := Engine();
      v := ExtractVersion(Synthesized(name), s, regexp);
    }

    /** `OS`: fills the operating-system cache once; later calls change nothing. */
    method OS() returns (r: string)
      requires Valid()
      modifies this`os
      ensures Valid()
      ensures r == os == OsOf(s, regexp) && r != ""
      ensures old(os) != "" ==> unchanged(this)
    {
      AccessorsNonEmpty(s, regexp);
      if os == "" {
        TablesWellFormed();
        os := MatchFirstScan(Oses, s, regexp);
      }
      r := os;
    }

    /** `Mobile`: whether the platform is one of the mobile platforms. */
    method Mobile() returns (b: bool)
      requires Valid()
      modifies this`platform
      ensures Valid()
      ensures b <==> PlatformOf(s, regexp) in MobilePlatforms
      ensures platform == PlatformOf(s, regexp)
    {
      var p := Platform();
      for i := 0 to |MobilePlatforms|
        invariant p !in MobilePlatforms[..i]
      {
        if MobilePlatforms[i] == p {
          return true;
        }
      }
      assert MobilePlatforms[..|MobilePlatforms|] == MobilePlatforms;
      return false;
    }
  }

  /** A caller that reads every attribute of one string, in the order the test suite does:
      each answer is the one the string determines, whatever was asked before. */
  method Parse(ua: string, regexp: Submatcher)
    returns (browser: string, browserVersion: string, engine: string, engineVersion: string,
             os: string, platform: string, mobile: bool)
    requires Sound(regexp)
    ensures var s := TrimSpace(ua);
      browser == BrowserOf(s, regexp)
      && browserVersion == ExtractVersion(BrowserVersionRegexp(browser), s, regexp)
      && engine == EngineOf(s, regexp)
      && engineVersion == ExtractVersion(Synthesized(engine), s, regexp)
      && os == OsOf(s, regexp) && platform == PlatformOf(s, regexp)
      && mobile == (platform in MobilePlatforms)
  {
    var agent := new UserAgent.New(ua, regexp);
    browser := agent.BrowserName();
    browserVersion := agent.BrowserVersion();
    engine := agent.Engine();
    engineVersion := agent.EngineVersion();
    os := agent.OS();
    platform := agent.Platform();
    mobile := agent.Mobile();
  }

  /** No accessor ever yields the empty string, so a filled cache is never mistaken for an
      empty one. */
  lemma AccessorsNonEmpty(s: string, find: Submatcher)
    requires Sound(find)
    ensures BrowserOf(s, find) != "" && EngineOf(s, find) != ""
    ensures OsOf(s, find) != "" && PlatformOf(s, find) != ""
  {
    TablesWellFormed();
    MatchFirstNonEmpty(Browsers, s, find);
    MatchFirstNonEmpty(IosBrowsers, s, find);
    MatchFirstNonEmpty(Engines, s, find);
    MatchFirstNonEmpty(IosEngines, s, find);
    MatchFirstNonEmpty(Oses, s, find);
    MatchFirstNonEmpty(Platforms, s, find);
  }

  /** A string from the company's apps has an unknown browser and an unknown engine. */
  lemma RemindIsUnknown(s: string, find: Submatcher)
    requires Sound(find) && IsRemind(s)
    ensures BrowserOf(s, find) == Unknown && EngineOf(s, find) == Unknown
  {
  }

  /** The platform chain written as a ladder of conditions, first to last. */
  function PlatformLadder(s: string): string {
    if ContainsCI(s, "ipad") then Ipad
    else if ContainsCI(s, "ipod") then Ipod
    else if ContainsCI(s, "iphone") then Iphone
    else if AnyOccurs(WindowsMobileTokens, s) then WindowsPhone
    else if ContainsCI(s, "windows") then Windows
    else if ContainsCI(s, "macintosh") then Mac
    else if ContainsCI(s, "android") then Android
    else if ContainsCI(s, "linux") then Linux
    else if ContainsCI(s, "blackberry") then Blackberry
    else Unknown
  }

  /** What makes each platform rule match. */
  lemma PlatformHits(s: string, find: Submatcher)
    ensures Hit(Platforms.tests[0], s, find) == ContainsCI(s, "ipad")
    ensures Hit(Platforms.tests[1], s, find) == ContainsCI(s, "ipod")
    ensures Hit(Platforms.tests[2], s, find) == ContainsCI(s, "iphone")
    ensures Hit(Platforms.tests[3], s, find) == AnyOccurs(WindowsMobileTokens, s)
    ensures Hit(Platforms.tests[4], s, find) == ContainsCI(s, "windows")
    ensures Hit(Platforms.tests[5], s, find) == ContainsCI(s, "macintosh")
    ensures Hit(Platforms.tests[6], s, find) == ContainsCI(s, "android")
    ensures Hit(Platforms.tests[7], s, find) == ContainsCI(s, "linux")
    ensures Hit(Platforms.tests[8], s, find) == ContainsCI(s, "blackberry")
  {
    SimpleHit(Ipad, Lit("ipad"), s, find);
    SimpleHit(Ipod, Lit("ipod"), s, find);
    SimpleHit(Iphone, Lit("iphone"), s, find);
    SimpleHit(Windows, Lit("windows"), s, find);
    SimpleHit(Mac, Lit("macintosh"), s, find);
    SimpleHit(Android, Lit("android"), s, find);
    SimpleHit(Linux, Lit("linux"), s, find);
    SimpleHit(Blackberry, Lit("blackberry"), s, find);
  }

  /** The platform rule table, tried in order, agrees with the ladder. */
  lemma PlatformIsLadder(s: string, find: Submatcher)
    requires Sound(find)
    ensures PlatformOf(s, find) == PlatformLadder(s)
  {
    TablesWellFormed();
    PlatformHits(s, find);
    var t := Platforms.tests;
    var k := if ContainsCI(s, "ipad") then 0
      else if ContainsCI(s, "ipod") then 1
      else if ContainsCI(s, "iphone") then 2
      else if AnyOccurs(WindowsMobileTokens, s) then 3
      else if ContainsCI(s, "windows") then 4
      else if ContainsCI(s, "macintosh") then 5
      else if ContainsCI(s, "android") then 6
      else if ContainsCI(s, "linux") then 7
      else if ContainsCI(s, "blackberry") then 8
      else 9;
    forall j | 0 <= j < k ensures !Hit(t[j], s, find) {
      assert j == 0 || j == 1 || j == 2 || j == 3 || j == 4 || j == 5 || j == 6 || j == 7 || j == 8;
    }
    if k < 9 {
      MatchFirstEarliest(Platforms, s, find, k);
    } else {
      MatchFirstFallback(Platforms, s, find);
    }
  }

  /** `IsIos` holds exactly when the string names an iPad, an iPod or an iPhone. */
  lemma IosIff(s: string, find: Submatcher)
    requires Sound(find)
    ensures IsIosPlatform(PlatformOf(s, find))
      <==> ContainsCI(s, "ipad") || ContainsCI(s, "ipod") || ContainsCI(s, "iphone")
  {
    PlatformIsLadder(s, find);
  }

  /** `Mobile` holds exactly for the Apple handhelds and Windows mobile devices, and for
      Android and BlackBerry devices that no earlier platform rule claims. */
  lemma MobileIff(s: string, find: Submatcher)
    requires Sound(find)
    ensures PlatformOf(s, find) in MobilePlatforms
      <==> (ContainsCI(s, "ipad") || ContainsCI(s, "ipod") || ContainsCI(s, "iphone")
            || AnyOccurs(WindowsMobileTokens, s)
            || (!ContainsCI(s, "windows") && !ContainsCI(s, "macintosh")
                && (ContainsCI(s, "android") || (!ContainsCI(s, "linux") && ContainsCI(s, "blackberry")))))
  {
    PlatformIsLadder(s, find);
  }

  /** The desktop browser chain written as a ladder of conditions. */
  function BrowserLadder(s: string): string {
    if ContainsCI(s, "electron") then Electron
    else if ContainsCI(s, "chrome") then Chrome
    else if ContainsCI(s, "safari") then Safari
    else if ContainsCI(s, "opera") then Opera
    else if ContainsCI(s, "firefox") then Firefox
    else if ContainsCI(s, "iemobile") || ContainsCI(s, "windows phone") then IEMobile
    else if ContainsCI(s, "msie") then IE
    else Unknown
  }

  /** The desktop engine chain written as a ladder of conditions. */
  function EngineLadder(s: string): string {
    if ContainsCI(s, "webkit") then Webkit
    else if ContainsCI(s, "chrome") then Chrome
    else if ContainsCI(s, "gecko") then Gecko
    else if ContainsCI(s, "msie") then Msie
    else if ContainsCI(s, "presto") then Presto
    else if ContainsCI(s, "opera") then Opera
    else Unknown
  }

  /** What makes each browser rule and each engine rule match. */
  lemma BrowserEngineHits(s: string, find: Submatcher)
    ensures Hit(Browsers.tests[0], s, find) == ContainsCI(s, "electron")
    ensures Hit(Browsers.tests[1], s, find) == ContainsCI(s, "chrome")
    ensures Hit(Browsers.tests[2], s, find) == ContainsCI(s, "safari")
    ensures Hit(Browsers.tests[3], s, find) == ContainsCI(s, "opera")
    ensures Hit(Browsers.tests[4], s, find) == ContainsCI(s, "firefox")
    ensures Hit(Browsers.tests[5], s, find) == (ContainsCI(s, "iemobile") || ContainsCI(s, "windows phone"))
    ensures Hit(Browsers.tests[6], s, find) == ContainsCI(s, "msie")
    ensures Hit(Engines.tests[0], s, find) == ContainsCI(s, "webkit")
    ensures Hit(Engines.tests[1], s, find) == ContainsCI(s, "chrome")
    ensures Hit(Engines.tests[2], s, find) == ContainsCI(s, "gecko")
    ensures Hit(Engines.tests[3], s, find) == ContainsCI(s, "msie")
    ensures Hit(Engines.tests[4], s, find) == ContainsCI(s, "presto")
    ensures Hit(Engines.tests[5], s, find) == ContainsCI(s, "opera")
  {
    SimpleHit(Electron, Lit("electron"), s, find);
    SimpleHit(Chrome, Lit("chrome"), s, find);
    SimpleHit(Safari, Lit("safari"), s, find);
    SimpleHit(Opera, Lit("opera"), s, find);
    SimpleHit(Firefox, Lit("firefox"), s, find);
    EitherHit(IEMobile, Lit("iemobile"), Lit("windows phone"), s, find);
    SimpleHit(IE, Lit("msie"), s, find);
    SimpleHit(Webkit, Lit("webkit"), s, find);
    SimpleHit(Gecko, Lit("gecko"), s, find);
    SimpleHit(Msie, Lit("msie"), s, find);
    SimpleHit(Presto, Lit("presto"), s, find);
  }

  /** The browser rule table, tried in order, agrees with the ladder. */
  lemma BrowsersAreLadder(s: string, find: Submatcher)
    requires Sound(find) && WellFormed(Browsers)
    ensures MatchFirst(Browsers, s, find) == BrowserLadder(s)
  {
    TablesWellFormed();
    BrowserEngineHits(s, find);
    var k := if ContainsCI(s, "electron") then 0
      else if ContainsCI(s, "chrome") then 1
      else if ContainsCI(s, "safari") then 2
      else if ContainsCI(s, "opera") then 3
      else if ContainsCI(s, "firefox") then 4
      else if ContainsCI(s, "iemobile") || ContainsCI(s, "windows phone") then 5
      else if ContainsCI(s, "msie") then 6
      else 7;
    forall j | 0 <= j < k ensures !Hit(Browsers.tests[j], s, find) {
      assert j == 0 || j == 1 || j == 2 || j == 3 || j == 4 || j == 5 || j == 6;
    }
    if k < 7 {
      MatchFirstEarliest(Browsers, s, find, k);
    } else {
      MatchFirstFallback(Browsers, s, find);
    }
  }

  /** The engine rule table, tried in order, agrees with the ladder. */
  lemma EnginesAreLadder(s: string, find: Submatcher)
    requires Sound(find) && WellFormed(Engines)
    ensures MatchFirst(Engines, s, find) == EngineLadder(s)
  {
    TablesWellFormed();
    BrowserEngineHits(s, find);
    var k := if ContainsCI(s, "webkit") then 0
      else if ContainsCI(s, "chrome") then 1
      else if ContainsCI(s, "gecko") then 2
      else if ContainsCI(s, "msie") then 3
      else if ContainsCI(s, "presto") then 4
      else if ContainsCI(s, "opera") then 5
      else 6;
    forall j | 0 <= j < k ensures !Hit(Engines.tests[j], s, find) {
      assert j == 0 || j == 1 || j == 2 || j == 3 || j == 4 || j == 5;
    }
    if k < 6 {
      MatchFirstEarliest(Engines, s, find, k);
    } else {
      MatchFirstFallback(Engines, s, find);
    }
  }

  /** The iOS browser chain recognises Safari and nothing else. */
  lemma IosBrowsersLadder(s: string, find: Submatcher)
    requires Sound(find)
    ensures WellFormed(IosBrowsers)
    ensures MatchFirst(IosBrowsers, s, find) == if ContainsCI(s, "safari") then Safari else Unknown
  {
    TablesWellFormed();
    SimpleHit(Safari, Lit("safari"), s, find);
    if ContainsCI(s, "safari") {
      MatchFirstEarliest(IosBrowsers, s, find, 0);
    } else {
      MatchFirstFallback(IosBrowsers, s, find);
    }
  }

  /** The iOS engine chain recognises WebKit and nothing else. */
  lemma IosEnginesLadder(s: string, find: Submatcher)
    requires Sound(find)
    ensures WellFormed(IosEngines)
    ensures MatchFirst(IosEngines, s, find) == if ContainsCI(s, "webkit") then Webkit else Unknown
  {
    TablesWellFormed();
    SimpleHit(Webkit, Lit("webkit"), s, find);
    if ContainsCI(s, "webkit") {
      MatchFirstEarliest(IosEngines, s, find, 0);
    } else {
      MatchFirstFallback(IosEngines, s, find);
    }
  }

  /** The browser: unknown for the company's apps; on an iPad, iPod or iPhone, Safari when
      the string says so and unknown otherwise; the desktop ladder everywhere else. */
  lemma BrowserRouting(s: string, find: Submatcher)
    requires Sound(find)
    ensures BrowserOf(s, find)
      == if IsRemind(s) then Unknown
         else if ContainsCI(s, "ipad") || ContainsCI(s, "ipod") || ContainsCI(s, "iphone") then
           (if ContainsCI(s, "safari") then Safari else Unknown)
         else BrowserLadder(s)
  {
    TablesWellFormed();
    IosIff(s, find);
    BrowsersAreLadder(s, find);
    IosBrowsersLadder(s, find);
  }

  /** The engine: unknown for the company's apps; on an iPad, iPod or iPhone, WebKit when
      the string says so and unknown otherwise; the desktop ladder everywhere else. */
  lemma EngineRouting(s: string, find: Submatcher)
    requires Sound(find)
    ensures EngineOf(s, find)
      == if IsRemind(s) then Unknown
         else if ContainsCI(s, "ipad") || ContainsCI(s, "ipod") || ContainsCI(s, "iphone") then
           (if ContainsCI(s, "webkit") then Webkit else Unknown)
         else EngineLadder(s)
  {
    TablesWellFormed();
    IosIff(s, find);
    EnginesAreLadder(s, find);
    IosEnginesLadder(s, find);
  }

  /** Chrome advertises Safari as well: both rules hit, and the earlier Chrome rule wins. */
  lemma ChromeBeforeSafari(s: string, find: Submatcher)
    requires Sound(find) && !IsRemind(s)
    requires !ContainsCI(s, "ipad") && !ContainsCI(s, "ipod") && !ContainsCI(s, "iphone")
    requires ContainsCI(s, "chrome") && !ContainsCI(s, "electron") && ContainsCI(s, "safari")
    ensures Hit(Browsers.tests[2], s, find) && BrowserOf(s, find) == Chrome
  {
    BrowserRouting(s, find);
    BrowserEngineHits(s, find);
  }

  /** The browser and engine names: lower-case words from a fixed set, which is why the
      version pattern synthesized from a name reads the name literally. */
  const BrowserNames: set<string> := {Electron, Chrome, Safari, Opera, Firefox, IEMobile, IE, Unknown}
  const EngineNames: set<string> := {Webkit, Chrome, Gecko, Msie, Presto, Opera, Unknown}

  predicate IsWord(w: string) {
    w != [] && forall i :: 0 <= i < |w| ==> 'a' <= w[i] <= 'z'
  }

  lemma NamesAreWords(s: string, find: Submatcher)
    requires Sound(find)
    ensures BrowserOf(s, find) in BrowserNames && IsWord(BrowserOf(s, find))
    ensures EngineOf(s, find) in EngineNames && IsWord(EngineOf(s, find))
  {
    BrowserRouting(s, find);
    EngineRouting(s, find);
    NamesListedAreWords();
  }

  /** Every name either chain can answer is a lower-case word. */
  lemma NamesListedAreWords()
    ensures forall n :: n in BrowserNames + EngineNames ==> IsWord(n)
  {
    forall n | n in BrowserNames + EngineNames ensures IsWord(n) {
    }
  }

  /** The operating-system chain written as a ladder, with each release template written
      out as the text it expands to. */
  function OsLadder(s: string, find: Submatcher): string
    requires Sound(find)
  {
    var ipad := find(IpadRelease, s);
    var iphone := find(IphoneRelease, s);
    var mac := find(MacRelease, s);
    assert SoundAt(IpadRelease, s, ipad) && SoundAt(IphoneRelease, s, iphone) && SoundAt(MacRelease, s, mac);
    if ipad.Some? then "iPad OS " + ipad.value[1] + "." + ipad.value[2]
    else if iphone.Some? then "iPhone OS " + iphone.value[1] + "." + iphone.value[2]
    else if AnyOccurs(WindowsMobileTokens, s) then "Windows Phone"
    else if ContainsCI(s, "windows nt 6.0") then "Windows Vista"
    else if Occurs(s, Lit("windows nt 6.") + [Digit]) then "Windows 7"
    else if ContainsCI(s, "windows nt 5.2") then "Windows 2003"
    else if ContainsCI(s, "windows nt 5.1") then "Windows XP"
    else if ContainsCI(s, "windows nt 5.0") then "Windows 2000"
    else if ContainsCI(s, "windows") then "Windows"
    else if mac.Some? then "OS X " + mac.value[1] + "." + mac.value[2]
    else if ContainsCI(s, "linux") then "Linux"
    else "Unknown"
  }

  /** What makes each operating-system rule match. */
  lemma OsHits(s: string, find: Submatcher)
    ensures Hit(Oses.tests[0], s, find) == find(IpadRelease, s).Some?
    ensures Hit(Oses.tests[1], s, find) == find(IphoneRelease, s).Some?
    ensures Hit(Oses.tests[2], s, find) == AnyOccurs(WindowsMobileTokens, s)
    ensures Hit(Oses.tests[3], s, find) == ContainsCI(s, "windows nt 6.0")
    ensures Hit(Oses.tests[4], s, find) == Occurs(s, Lit("windows nt 6.") + [Digit])
    ensures Hit(Oses.tests[5], s, find) == ContainsCI(s, "windows nt 5.2")
    ensures Hit(Oses.tests[6], s, find) == ContainsCI(s, "windows nt 5.1")
    ensures Hit(Oses.tests[7], s, find) == ContainsCI(s, "windows nt 5.0")
    ensures Hit(Oses.tests[8], s, find) == ContainsCI(s, "windows")
    ensures Hit(Oses.tests[9], s, find) == find(MacRelease, s).Some?
    ensures Hit(Oses.tests[10], s, find) == ContainsCI(s, "linux")
  {
    SimpleHit("Windows Vista", Lit("windows nt 6.0"), s, find);
    SimpleHit("Windows 7", Lit("windows nt 6.") + [Digit], s, find);
    SimpleHit("Windows 2003", Lit("windows nt 5.2"), s, find);
    SimpleHit("Windows XP", Lit("windows nt 5.1"), s, find);
    SimpleHit("Windows 2000", Lit("windows nt 5.0"), s, find);
    SimpleHit("Windows", Lit("windows"), s, find);
    SimpleHit("Linux", Lit("linux"), s, find);
  }

  /** The operating-system rule table, tried in order, agrees with the ladder: in
      particular each release rule expands its template with the two captured numbers. */
  lemma OsIsLadder(s: string, find: Submatcher)
    requires Sound(find)
    ensures OsOf(s, find) == OsLadder(s, find)
  {
    TablesWellFormed();
    OsHits(s, find);
    OsTemplates();
    var t := Oses.tests;
    if find(IpadRelease, s).Some? {
      MatchFirstEarliest(Oses, s, find, 0);
      IpadOutcome(s, find);
    } else if find(IphoneRelease, s).Some? {
      forall j | 0 <= j < 1 ensures !Hit(t[j], s, find) {
        assert j == 0;
      }
      MatchFirstEarliest(Oses, s, find, 1);
      IphoneOutcome(s, find);
    } else if AnyOccurs(WindowsMobileTokens, s) {
      forall j | 0 <= j < 2 ensures !Hit(t[j], s, find) {
        assert j == 0 || j == 1;
      }
      MatchFirstEarliest(Oses, s, find, 2);
    } else if ContainsCI(s, "windows nt 6.0") {
      forall j | 0 <= j < 3 ensures !Hit(t[j], s, find) {
        assert j == 0 || j == 1 || j == 2;
      }
      MatchFirstEarliest(Oses, s, find, 3);
    } else if Occurs(s, Lit("windows nt 6.") + [Digit]) {
      forall j | 0 <= j < 4 ensures !Hit(t[j], s, find) {
        assert j == 0 || j == 1 || j == 2 || j == 3;
      }
      MatchFirstEarliest(Oses, s, find, 4);
    } else if ContainsCI(s, "windows nt 5.2") {
      forall j | 0 <= j < 5 ensures !Hit(t[j], s, find) {
        assert j == 0 || j == 1 || j == 2 || j == 3 || j == 4;
      }
      MatchFirstEarliest(Oses, s, find, 5);
    } else if ContainsCI(s, "windows nt 5.1") {
      forall j | 0 <= j < 6 ensures !Hit(t[j], s, find) {
        assert j == 0 || j == 1 || j == 2 || j == 3 || j == 4 || j == 5;
      }
      MatchFirstEarliest(Oses, s, find, 6);
    } else if ContainsCI(s, "windows nt 5.0") {
      forall j | 0 <= j < 7 ensures !Hit(t[j], s, find) {
        assert j == 0 || j == 1 || j == 2 || j == 3 || j == 4 || j == 5 || j == 6;
      }
      MatchFirstEarliest(Oses, s, find, 7);
    } else if ContainsCI(s, "windows") {
      forall j | 0 <= j < 8 ensures !Hit(t[j], s, find) {
        assert j == 0 || j == 1 || j == 2 || j == 3 || j == 4 || j == 5 || j == 6 || j == 7;
      }
      MatchFirstEarliest(Oses, s, find, 8);
    } else if find(MacRelease, s).Some? {
      forall j | 0 <= j < 9 ensures !Hit(t[j], s, find) {
        assert j == 0 || j == 1 || j == 2 || j == 3 || j == 4 || j == 5 || j == 6 || j == 7 || j == 8;
      }
      MatchFirstEarliest(Oses, s, find, 9);
      MacOutcome(s, find);
    } else if ContainsCI(s, "linux") {
      forall j | 0 <= j < 10 ensures !Hit(t[j], s, find) {
        assert j == 0 || j == 1 || j == 2 || j == 3 || j == 4 || j == 5 || j == 6 || j == 7 || j == 8 || j == 9;
      }
      MatchFirstEarliest(Oses, s, find, 10);
    } else {
      forall j | 0 <= j < 11 ensures !Hit(t[j], s, find) {
        assert j == 0 || j == 1 || j == 2 || j == 3 || j == 4 || j == 5 || j == 6 || j == 7 || j == 8 || j == 9 || j == 10;
      }
      MatchFirstFallback(Oses, s, find);
    }
  }

  /** "windows nt 6.0" is also a "windows nt 6." followed by a digit. */
  lemma VistaIsSixDigit(s: string)
    requires ContainsCI(s, "windows nt 6.0")
    ensures Occurs(s, Lit("windows nt 6.") + [Digit])
  {
    var i: nat :| i <= |s| && MatchesAt(s, i, Lit("windows nt 6.0"));
    var t := Lit("windows nt 6.") + [Digit];
    forall k | 0 <= k < |t| ensures AtomMatches(t[k], s[i + k]) {
      if k < 13 {
        assert t[k] == Lit("windows nt 6.0")[k];
      } else {
        assert AtomMatches(Lit("windows nt 6.0")[13], s[i + 13]);
      }
    }
    assert MatchesAt(s, i, t);
  }

  /** Windows Vista also satisfies the Windows 7 rule; the earlier Vista rule wins. */
  lemma VistaBeforeSeven(s: string, find: Submatcher)
    requires Sound(find) && find(IpadRelease, s).None? && find(IphoneRelease, s).None?
    requires !AnyOccurs(WindowsMobileTokens, s) && ContainsCI(s, "windows nt 6.0")
    ensures Hit(Oses.tests[4], s, find)
    ensures OsOf(s, find) == "Windows Vista"
  {
    OsHits(s, find);
    VistaIsSixDigit(s);
    OsIsLadder(s, find);
  }

  /** Every Windows rule mentions "windows". */
  lemma WindowsRulesSayWindows(s: string)
    requires AnyOccurs(WindowsMobileTokens, s) || ContainsCI(s, "windows nt 6.0")
      || Occurs(s, Lit("windows nt 6.") + [Digit]) || ContainsCI(s, "windows nt 5.2")
      || ContainsCI(s, "windows nt 5.1") || ContainsCI(s, "windows nt 5.0")
    ensures ContainsCI(s, "windows")
  {
    var w := Lit("windows");
    if AnyOccurs(WindowsMobileTokens, s) {
      var k :| 0 <= k < 3 && Occurs(s, WindowsMobileTokens[k]);
      var tail := if k == 0 then " ce" else if k == 1 then " phone" else " mobile";
      assert "windows" + tail == ["windows ce", "windows phone", "windows mobile"][k];
      LitConcat("windows", tail);
      OccursPrefix(s, w, Lit(tail));
    } else if Occurs(s, Lit("windows nt 6.") + [Digit]) {
      assert "windows" + " nt 6." == "windows nt 6.";
      LitConcat("windows", " nt 6.");
      assert Lit("windows nt 6.") + [Digit] == w + (Lit(" nt 6.") + [Digit]);
      OccursPrefix(s, w, Lit(" nt 6.") + [Digit]);
    } else if ContainsCI(s, "windows nt 6.0") {
      assert "windows" + " nt 6.0" == "windows nt 6.0";
      WindowsThen(s, " nt 6.0");
    } else if ContainsCI(s, "windows nt 5.2") {
      assert "windows" + " nt 5.2" == "windows nt 5.2";
      WindowsThen(s, " nt 5.2");
    } else if ContainsCI(s, "windows nt 5.1") {
      assert "windows" + " nt 5.1" == "windows nt 5.1";
      WindowsThen(s, " nt 5.1");
    } else {
      assert "windows" + " nt 5.0" == "windows nt 5.0";
      WindowsThen(s, " nt 5.0");
    }
  }

  lemma WindowsThen(s: string, tail: string)
    requires ContainsCI(s, "windows" + tail)
    ensures ContainsCI(s, "windows")
  {
    LitConcat("windows", tail);
    OccursPrefix(s, Lit("windows"), Lit(tail));
  }

  /** Outside iOS and Windows, a Mac OS X release number names the operating system. */
  lemma OsXRelease(s: string, find: Submatcher, m: seq<string>)
    requires Sound(find) && find(IpadRelease, s).None? && find(IphoneRelease, s).None?
    requires !ContainsCI(s, "windows") && find(MacRelease, s) == Some(m)
    ensures |m| == 3 && IsNumber(m[1]) && IsNumber(m[2])
    ensures OsOf(s, find) == "OS X " + m[1] + "." + m[2]
  {
    assert SoundAt(MacRelease, s, find(MacRelease, s));
    if AnyOccurs(WindowsMobileTokens, s) || ContainsCI(s, "windows nt 6.0")
      || Occurs(s, Lit("windows nt 6.") + [Digit]) || ContainsCI(s, "windows nt 5.2")
      || ContainsCI(s, "windows nt 5.1") || ContainsCI(s, "windows nt 5.0")
    {
      WindowsRulesSayWindows(s);
      assert false;
    }
    OsIsLadder(s, find);
  }

  /** With an engine that is both sound and complete, a string that names no iOS device
      release and no Windows has the operating system of its leftmost OS X release. */
  lemma OsXExact(s: string, j: nat, find: Submatcher)
    requires Sound(find) && Complete(find)
    requires !ContainsCI(s, "(iPad") && !ContainsCI(s, "(iPhone") && !ContainsCI(s, "windows")
    requires FirstReleaseAt("os x ", s, j)
    ensures OsOf(s, find) == "OS X " + Major("os x ", s, j) + "." + Minor("os x ", s, j)
  {
    ReleaseNeedsLead(IpadRelease, s, find);
    ReleaseNeedsLead(IphoneRelease, s, find);
    MacReleaseExact(s, j, find);
    OsXRelease(s, find, find(MacRelease, s).value);
  }

  /** With an engine that is both sound and complete, the iOS release rules match exactly
      when the text holds "(iPad" (or "(iPhone") and later on that line a release number.
      They answer with the last such number on the line of the leftmost such lead, the one
      Go's greedy `.*` reaches. */
  lemma IosReleaseExact(s: string, find: Submatcher)
    requires Sound(find) && Complete(find)
    ensures ReleaseSpotted(IpadRelease, s) ==>
      (exists i: nat, j: nat | i <= j <= |s| :: GreedyReleaseAt(IpadRelease, s, i, j)
         && OsOf(s, find) == "iPad OS " + Major("os ", s, j) + "." + Minor("os ", s, j))
    ensures !ReleaseSpotted(IpadRelease, s) && ReleaseSpotted(IphoneRelease, s) ==>
      (exists i: nat, j: nat | i <= j <= |s| :: GreedyReleaseAt(IphoneRelease, s, i, j)
         && OsOf(s, find) == "iPhone OS " + Major("os ", s, j) + "." + Minor("os ", s, j))
  {
    OsIsLadder(s, find);
    var ipad := find(IpadRelease, s);
    var iphone := find(IphoneRelease, s);
    assert SoundAt(IpadRelease, s, ipad) && SoundAt(IphoneRelease, s, iphone);
    if ReleaseSpotted(IpadRelease, s) {
      var m := ipad.value;
      var i: nat, j: nat :| i <= j <= |s| && GreedyReleaseAt(IpadRelease, s, i, j)
        && m[1] == Major("os ", s, j) && m[2] == Minor("os ", s, j);
    } else if ReleaseSpotted(IphoneRelease, s) {
      var m := iphone.value;
      var i: nat, j: nat :| i <= j <= |s| && GreedyReleaseAt(IphoneRelease, s, i, j)
        && m[1] == Major("os ", s, j) && m[2] == Minor("os ", s, j);
    }
  }

  /** So once the greedy match after "(iPad" is known, so is the answer. */
  lemma IpadAnswer(s: string, i: nat, j: nat, find: Submatcher)
    requires Sound(find) && Complete(find) && GreedyReleaseAt(IpadRelease, s, i, j)
    ensures OsOf(s, find) == "iPad OS " + Major("os ", s, j) + "." + Minor("os ", s, j)
  {
    assert ReleaseSpotted(IpadRelease, s);
    IosReleaseExact(s, find);
    var i': nat, j': nat :| i' <= j' <= |s| && GreedyReleaseAt(IpadRelease, s, i', j')
      && OsOf(s, find) == "iPad OS " + Major("os ", s, j') + "." + Minor("os ", s, j');
    GreedyReleaseUnique(IpadRelease, s, i, j, i', j');
  }

  /** On the empty string every axis yields its fallback. */
  lemma EmptyAxes(find: Submatcher)
    requires Sound(find)
    ensures BrowserOf("", find) == Unknown && EngineOf("", find) == Unknown
    ensures OsOf("", find) == "Unknown" && PlatformOf("", find) == Unknown
  {
    TablesWellFormed();
    TablesHaveNoEmptyAlternative();
    MatchFirstOnEmpty(Platforms, find);
    MatchFirstOnEmpty(Browsers, find);
    MatchFirstOnEmpty(Engines, find);
    MatchFirstOnEmpty(Oses, find);
  }

  /** The empty string: every axis falls back, no version is found, and the device is not
      mobile. */
  lemma EmptyAgent(find: Submatcher)
    requires Sound(find)
    ensures BrowserOf("", find) == Unknown && EngineOf("", find) == Unknown
    ensures OsOf("", find) == "Unknown" && PlatformOf("", find) == Unknown
    ensures PlatformOf("", find) !in MobilePlatforms
    ensures ExtractVersion(BrowserVersionRegexp(BrowserOf("", find)), "", find) == ""
    ensures ExtractVersion(Synthesized(EngineOf("", find)), "", find) == ""
  {
    EmptyAxes(find);
    NoVersionInEmpty(BrowserVersionRegexp(Unknown), find);
    NoVersionInEmpty(Synthesized(Unknown), find);
  }

  /** A string of white space only is trimmed to the empty string. */
  lemma BlankIsEmpty(ua: string)
    requires AllSpace(ua)
    ensures TrimSpace(ua) == ""
  {
    assert ua + "" + "" == ua;
    TrimSpaceOf(ua, "", "");
  }
}
