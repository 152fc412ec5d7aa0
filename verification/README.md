# gopheragent classifier, modelled in Dafny

gopheragent classifies HTTP `User-Agent` strings. It answers seven questions about one string:
browser name, browser version, rendering engine, engine version, operating system, platform
(device family) and whether the device is mobile. Each question except the version questions
is answered by an ordered rule chain. The chain tries its rules first to last. The first rule
whose case-insensitive pattern matches gives the answer, and a fallback answers when none
matches. Three operating-system rules capture a release number (`10_8`) and splice it into a
`%s.%s` template (`OS X 10.8`). A version answer is capture group 1 of a per-browser pattern,
or of a pattern built from the name itself. A `UserAgent` object keeps the trimmed string and
fills four caches lazily. The empty string means "not computed yet". Strings from the
company's own apps (prefix `Remind`) have an unknown browser and engine. iPhones, iPads and
iPods use one-rule chains that only recognise Safari and WebKit.

The model has eight modules, one file each:

- `text.dfy` (`Text`): case-insensitive token search, used by every non-capturing rule; Go's
  `strings.TrimSpace` with the `unicode.IsSpace` set; `strings.HasPrefix`.
- `template.dfy` (`Template`): `fmt.Sprintf` limited to `%s` verbs with string arguments.
- `regex.dfy` (`Regex`): the three pattern shapes of the tables. It also holds `Submatcher`,
  an abstract `FindStringSubmatch`. The model relies on two properties of it. It is *sound*:
  it reports one capture per group, the match is leftmost, each `+` takes as much as it
  can, and the captures are the text itself. It is *complete*: when the text holds what a
  version or release pattern demands, it reports a match.
- `rules.dfy` (`Rules`): rules, chains and `matchFirst`. `MatchFirst` is the specification
  and `MatchFirstScan` is the early-return loop, proved equal to it.
- `tables.dfy` (`Tables`): the constants, the six chains, the dedicated version patterns and
  the mobile platforms, with their well-formedness lemmas.
- `versions.dfy` (`Versions`): the version pattern of each browser name and the extraction
  of capture group 1, with what a found version is and when one is found.
- `useragent.dfy` (`Agent`): the `UserAgent` class with the source's cache fields and
  methods. Each method is specified by a function of the trimmed string (`BrowserOf`,
  `EngineOf`, `OsOf`, `PlatformOf`). Every chain is also proved equal to a plain ladder of
  conditions.
- `cases.dfy` (`Cases`): the first case of the test suite (Safari 6.1.3, WebKit 537.75.14,
  OS X 10.8), proved on its whole 119-character user-agent string, and an iPad string with
  two releases that shows which one the greedy iPad rule answers.

## Model

| member | source | states |
|---|---|---|
| Text.TrimSpace | useragent.go:79 | the result is no longer than the input and starts and ends with a non-space character |
| Text.TrimSpaceSplits | useragent.go:79 | the input is leading white space, then the trimmed string unchanged, then trailing white space |
| Text.TrimSpaceOf | useragent.go:79 | trimming any white space around a trimmed string gives back exactly that string |
| Text.TrimSpaceIdempotent | useragent.go:79 | trimming a trimmed string changes nothing |
| Template.Format | useragent.go:227 | the `%s` expansion has the template's literal characters plus the arguments' characters |
| Template.FormatJoin | useragent.go:227 | a template built from literal parts has one verb per argument, and expanding it puts the arguments between the parts in order |
| Rules.SimpleHit | useragent.go:249-251 | a one-alternative rule matches exactly when its token occurs in the string |
| Rules.EitherHit | useragent.go:262 | a two-alternative rule matches exactly when either token occurs |
| Rules.NewSimpleTest | useragent.go:249-251 | builds a rule that answers its result verbatim when one of its alternatives occurs (when it matches is stated by `SimpleHit` and `EitherHit`) |
| Rules.Outcome | useragent.go:215-234 | a verbatim rule answers its result; an expanding rule's answer is at least as long as its template less two characters per `%s` |
| Rules.OutcomeInterleaves | useragent.go:215-227 | an expanding rule whose template is literal parts joined by `%s` answers those parts with the captured groups between them, in order |
| Rules.MatchFirst | useragent.go:212-239 | the outcome of the first rule that matches, or the fallback, defined rule by rule |
| Rules.MatchFirstAnswers | useragent.go:212-239 | the answer is the fallback or the outcome of some rule of the chain that matches |
| Rules.MatchFirstEarliest | useragent.go:212-236 | when rule k matches and no earlier rule does, the chain answers rule k's outcome |
| Rules.MatchFirstFallback | useragent.go:238 | when no rule matches, the chain answers its fallback |
| Rules.MatchFirstIgnoresLater | useragent.go:214-236 | appending rules after one that matches does not change the answer |
| Rules.MatchFirstNonEmpty | useragent.go:212-239 | a chain whose results, templates and fallback all have text never answers "" |
| Rules.MatchFirstIn | useragent.go:212-239 | a chain without expanding rules answers one of its results or its fallback |
| Rules.MatchFirstOnEmpty | useragent.go:212-239 | on the empty string no rule matches and the chain answers its fallback |
| Rules.MatchFirstScan | useragent.go:212-239 | the loop with early returns computes `MatchFirst` |
| Tables.OsTemplates | useragent.go:302-311 | the three OS templates are `<prefix>%s.%s` |
| Tables.ReleaseFormat | useragent.go:227 | a release template expands to prefix, major number, dot, minor number |
| Tables.ReleaseOutcome | useragent.go:215-227 | a matching release rule captures two numbers and answers prefix + major + "." + minor |
| Tables.ExpandingRules | useragent.go:300-315 | the only expanding OS rules are the iPad rule (first), the iPhone rule (second) and the OS X rule (tenth) |
| Tables.ReleaseRuleFacts | useragent.go:302-311 | a release rule whose template is `<prefix>%s.%s` has two `%s`, as many as its pattern has groups, and literal text besides |
| Tables.ExpandingRulesWellFormed | useragent.go:300-315 | every expanding OS rule is such a well-formed release rule |
| Tables.IpadOutcome | useragent.go:302 | a matching iPad rule captures two numbers and answers "iPad OS major.minor" |
| Tables.IphoneOutcome | useragent.go:303 | a matching iPhone rule captures two numbers and answers "iPhone OS major.minor" |
| Tables.MacOutcome | useragent.go:311 | a matching OS X rule captures two numbers and answers "OS X major.minor" |
| Tables.ReleaseNeedsLead | useragent.go:302-303 | an iPad or iPhone release pattern matches only when `(iPad` or `(iPhone` occurs |
| Tables.LeadlessReleaseExact | useragent.go:311 | a release pattern without a lead matches as soon as its marker and a release occur, and captures the numbers of the leftmost release |
| Tables.MacCapturesExact | useragent.go:311 | given `os x ` and a release in the text, the OS X pattern matches and captures the major and minor numbers of the leftmost release |
| Tables.MacReleaseExact | useragent.go:311 | the OS X rule then answers "OS X " + major + "." + minor of the leftmost release |
| Tables.OsesWellFormed | useragent.go:300-315 | the OS chain is well formed and every result, template and the fallback has text |
| Tables.TablesWellFormed | useragent.go:255-330 | all six chains are well formed; every result and fallback is non-empty |
| Tables.TablesHaveNoEmptyAlternative | useragent.go:255-330 | no literal alternative of any rule is empty |
| Versions.BrowserVersionRegexp | useragent.go:200-210 | the pattern is a version pattern; it accepts a space separator exactly when the name has no dedicated pattern |
| Versions.Synthesized | useragent.go:204-206 | the pattern for a name without a dedicated one: the name, then a slash or a space, then the version |
| Versions.ExtractVersion | useragent.go:106-115 | capture group 1 of the first match, or "" when nothing matches |
| Versions.ExtractVersionSound | useragent.go:104-152 | a non-empty version is a version token right after the key and a separator |
| Versions.ExtractVersionComplete | useragent.go:108-115 | when the string holds key, separator and a version character, the version is non-empty |
| Versions.ExtractVersionExact | useragent.go:106-115 | the version is every version character after the leftmost key and separator, as Go's leftmost greedy match gives |
| Versions.DedicatedVersionKeys | useragent.go:275-279 | Safari's version follows `version/`, the desktop app's `electron/`, Chrome's `chrome/` |
| Versions.SynthesizedVersionKey | useragent.go:202-206 | any other browser's version follows its own name and a slash or space |
| Versions.NoVersionInEmpty | useragent.go:110-115 | the empty string has no version |
| Agent.IsRemind | useragent.go:181-183 | the string starts with `Remind`, case-sensitively |
| Agent.PlatformOf | useragent.go:166-174 | the platform chain's answer for the trimmed string |
| Agent.BrowserOf | useragent.go:86-101 | unknown for a Remind string, the iOS browser chain on iOS platforms, the browser chain otherwise |
| Agent.EngineOf | useragent.go:119-134 | unknown for a Remind string, the iOS engine chain on iOS platforms, the engine chain otherwise |
| Agent.OsOf | useragent.go:155-163 | the OS chain's answer for the trimmed string |
| Agent.UserAgent.New | useragent.go:76-83 | keeps the trimmed string, all caches empty |
| Agent.UserAgent.Platform | useragent.go:166-174 | answers `PlatformOf`, fills only the platform cache; a second call changes nothing |
| Agent.UserAgent.IsIos | useragent.go:176-179 | true exactly for iphone, ipad and ipod; fills the platform cache |
| Agent.UserAgent.BrowserName | useragent.go:86-101 | answers `BrowserOf`; on a Remind string also sets the engine to unknown, otherwise fills the platform cache; a second call changes nothing |
| Agent.UserAgent.BrowserVersion | useragent.go:104-116 | capture 1 of the browser's version pattern, or "" |
| Agent.UserAgent.Engine | useragent.go:119-134 | answers `EngineOf`, with the same cache effects as `BrowserName`, roles exchanged |
| Agent.UserAgent.EngineVersion | useragent.go:137-152 | capture 1 of the pattern built from the engine name, or "" |
| Agent.UserAgent.OS | useragent.go:155-163 | answers `OsOf`, fills only the OS cache; a second call changes nothing |
| Agent.UserAgent.Mobile | useragent.go:186-198 | true exactly when the platform is in the mobile list |
| Agent.Parse | useragent_test.go:22-91 | asking all seven questions in the test suite's order gives each answer the string determines |
| Agent.AccessorsNonEmpty | useragent.go:88-172 | no answer is "", so a filled cache is never taken for an empty one |
| Agent.RemindIsUnknown | useragent.go:88-124 | a Remind string has unknown browser and engine |
| Agent.PlatformHits | useragent.go:317-330 | what makes each platform rule match |
| Agent.PlatformIsLadder | useragent.go:317-330 | the platform chain equals the ladder ipad, ipod, iphone, windows phone, windows, macintosh, android, linux, blackberry, unknown |
| Agent.IosIff | useragent.go:176-179 | `IsIos` holds exactly when the string mentions ipad, ipod or iphone |
| Agent.MobileIff | useragent.go:186-198 | `Mobile` holds exactly for Apple handhelds, Windows mobile strings, and Android or BlackBerry strings no earlier platform rule claims |
| Agent.BrowserEngineHits | useragent.go:255-291 | what makes each browser rule and each engine rule match |
| Agent.BrowsersAreLadder | useragent.go:255-266 | the browser chain equals its ladder of conditions |
| Agent.EnginesAreLadder | useragent.go:281-291 | the engine chain equals its ladder of conditions |
| Agent.IosBrowsersLadder | useragent.go:268-273 | the iOS browser chain answers Safari when the string says "safari", unknown otherwise |
| Agent.IosEnginesLadder | useragent.go:293-298 | the iOS engine chain answers WebKit when the string says "webkit", unknown otherwise |
| Agent.BrowserRouting | useragent.go:86-101 | the browser is unknown for Remind strings, Safari or unknown on iOS devices, the desktop ladder otherwise |
| Agent.EngineRouting | useragent.go:119-134 | the engine is unknown for Remind strings, WebKit or unknown on iOS devices, the desktop ladder otherwise |
| Agent.ChromeBeforeSafari | useragent.go:258-259 | a desktop string naming both Chrome and Safari (the suite's second case) satisfies the Safari rule, yet is classified as Chrome |
| Agent.NamesListedAreWords | useragent.go:255-298 | every name the browser and engine chains list is a lower-case word |
| Agent.NamesAreWords | useragent.go:139 | every browser and engine answer is a lower-case word from a fixed set, so a pattern built from it reads it literally |
| Agent.OsHits | useragent.go:300-315 | what makes each OS rule match |
| Agent.OsIsLadder | useragent.go:300-315 | the OS chain equals its ladder, each release template written out as the text it expands to |
| Agent.VistaIsSixDigit | useragent.go:305-306 | a string that matches the Vista rule also matches the Windows 7 rule |
| Agent.VistaBeforeSeven | useragent.go:305-306 | Windows NT 6.0 satisfies the Windows 7 rule too, yet is classified as Windows Vista |
| Agent.WindowsRulesSayWindows | useragent.go:304-309 | every specific Windows rule implies the string mentions "windows" |
| Agent.OsXRelease | useragent.go:310-311 | outside iOS and Windows, an OS X release match answers "OS X major.minor" with both parts numbers |
| Agent.OsXExact | useragent.go:300-315 | outside iOS and Windows, with `os x ` and a release in the text, the OS is "OS X " + major + "." + minor of the leftmost release |
| Agent.IosReleaseExact | useragent.go:302-303 | when an iPad (else iPhone) release follows its lead on one line, the OS is "iPad OS" (else "iPhone OS") and the numbers of the last release on the line of the leftmost lead, as the greedy `.*` gives |
| Agent.IpadAnswer | useragent.go:302 | once the leftmost `(iPad` and the last release on its line are known, the OS is "iPad OS " + major + "." + minor of that release |
| Agent.EmptyAxes | useragent.go:255-330 | on the empty string every chain answers its fallback |
| Agent.EmptyAgent | useragent.go:86-198 | the empty string: all answers unknown, no versions, not mobile |
| Agent.BlankIsEmpty | useragent.go:79 | a string of white space only is trimmed to the empty string |
| Cases.SuitePlatform | useragent_test.go:98-105 | the first suite string's platform is "macintosh", which is not a mobile platform |
| Cases.SuiteBrowser | useragent_test.go:98-99 | its browser is "safari" |
| Cases.SuiteBrowserVersion | useragent_test.go:98-100 | its browser version is "6.1.3" |
| Cases.SuiteEngine | useragent_test.go:98-101 | its engine is "webkit" |
| Cases.SuiteEngineVersion | useragent_test.go:98-102 | its engine version is "537.75.14" |
| Cases.SuiteOs | useragent_test.go:98-103 | its OS is "OS X 10.8" |
| Cases.SuiteTrimmed | useragent.go:79 | trimming leaves the suite string as it is |
| Cases.FirstCase | useragent_test.go:97-106 | asking a `UserAgent` made from the first suite string all seven questions gives the suite's seven expected answers |
| Cases.IpadLastRelease | useragent.go:302 | for "(iPad; CPU OS 7_1 like Mac OS 10_9" the OS is "iPad OS 10.9": the greedy `.*` passes the first release and takes the last |

## Left out

- Go's regular-expression engine is not implemented. Compilation and `MustCompile` panics
  are not modelled. Rules made of literal alternatives are decided by case-insensitive
  token search. Capturing patterns are answered by the `Submatcher` parameter, of which
  the model uses only what `Regex.Sound` and `Regex.Complete` state.
- Case folding covers what `(?i)` does to the patterns' ASCII letters: ASCII case, plus
  KELVIN SIGN and LONG S folding to `k` and `s`. Folding for other scripts is not modelled.
- `( os)?` after the Windows mobile tokens is dropped, because it cannot change whether the
  pattern matches.
- A version missing from the string is answered with "", as the source does; no error is raised.
- `Template.Format` requires one argument per `%s`. Go's `%!s(MISSING)` and `%!(EXTRA …)`
  outputs for mismatched counts are not modelled. `Tables.TablesWellFormed` shows that no
  rule of the tables can produce a mismatch.
- `browserVersionRegexp` and `EngineVersion` return an error when a synthesized pattern fails
  to compile. That cannot happen here, because every name is a lower-case word
  (`Agent.NamesAreWords`), so the error path is not modelled.
- Only the first case of the test suite is proved on its literal string. The other cases
  are covered by the general lemmas (the ladders, routing and the exact-capture lemmas), not
  one by one.
- Concurrent use of one `UserAgent` and of the package-level tables is not modelled.
- main/main.go, a benchmark over a fixed corpus, is not part of this model.
- The code has no secondary "legacy mobile browser" signal and no separate "computed" flag:
  `Mobile` looks only at the platform, and the caches use "" as the sentinel. The model does
  the same.
