/** Version extraction: a pattern whose first capture group is the version, chosen per
    browser name, or synthesized from the name itself. */
module Versions {
  import opened Text
  import opened Regex
  import opened Tables

  /** Browsers whose version is not found by the generic `<name>/<version>` search: the
      desktop app reports `electron/`, and Safari reports its version after `version/`. */
  const BrowserVersions: map<string, Pattern> := map[
    Electron := Version("electron", false),
    Chrome := Version("chrome", false),
    Safari := Version("version", false)
  ]

  /** The generic pattern `(?i:<name>[\/ ]([\d\w\.\-]+))`: the name, then a slash or a
      space, then the version token. The name is placed into the pattern as it is, which
      reads it literally because every category name consists of letters only. */
  function Synthesized(name: string): Pattern {
    Version(name, true)
  }

  /** `browserVersionRegexp`: the dedicated pattern of a browser, or the synthesized one.
      Only a synthesized pattern accepts a space between the name and the version. */
  function BrowserVersionRegexp(b: string): (p: Pattern)
    ensures p.Version?
    ensures p.spaced <==> b !in BrowserVersions
  {
    if b in BrowserVersions then BrowserVersions[b] else Synthesized(b)
  }

  /** Capture group 1 of the first match, or "" when there is no match or no group. */
  function ExtractVersion(p: Pattern, s: string, find: Submatcher): string {
    match find(p, s)
    case None => ""
    case Some(m) => if |m| > 1 then m[1] else ""
  }

  /** A version that was found is a version token standing right after the key and its
      separator in the text. */
  lemma ExtractVersionSound(p: Pattern, s: string, find: Submatcher)
    requires Sound(find) && p.Version?
    ensures var v := ExtractVersion(p, s, find);
      v == "" || (IsVersionToken(v)
        && (ContainsCI(s, p.key + "/" + v) || (p.spaced && ContainsCI(s, p.key + " " + v))))
  {
    assert SoundAt(p, s, find(p, s));
  }

  /** When the text holds the key, a separator and a version character, a version is found. */
  lemma ExtractVersionComplete(p: Pattern, s: string, find: Submatcher)
    requires Sound(find) && Complete(find) && p.Version? && VersionSpotted(p, s)
    ensures ExtractVersion(p, s, find) != ""
  {
    assert SoundAt(p, s, find(p, s));
  }

  /** A version match of a sound engine shows where its key starts. */
  lemma VersionWitness(p: Pattern, s: string, find: Submatcher) returns (i: nat)
    requires Sound(find) && p.Version? && find(p, s).Some?
    ensures |find(p, s).value| == 2 && i <= |s| && FirstVersionAt(p, s, i)
    ensures find(p, s).value[1] == VersionCapture(p, s, i)
  {
    var r := find(p, s);
    assert SoundAt(p, s, r);
    i :| i <= |s| && FirstVersionAt(p, s, i) && r.value[1] == VersionCapture(p, s, i);
  }

  /** Only one position is the leftmost start of a version. */
  lemma FirstVersionUnique(p: Pattern, s: string, i: nat, i': nat)
    requires p.Version? && FirstVersionAt(p, s, i) && FirstVersionAt(p, s, i')
    ensures i == i'
  {
    assert !(i' < i) && !(i < i');
  }

  /** With an engine that is both sound and complete the version is fixed by the text: it
      is every version character after the leftmost key and separator. */
  lemma ExtractVersionExact(p: Pattern, s: string, i: nat, find: Submatcher)
    requires Sound(find) && Complete(find) && p.Version? && FirstVersionAt(p, s, i)
    ensures ExtractVersion(p, s, find) == VersionCapture(p, s, i)
  {
    if MatchesAt(s, i, Lit(p.key + "/") + [VersionChar]) {
      assert Occurs(s, Lit(p.key + "/") + [VersionChar]);
    } else {
      assert Occurs(s, Lit(p.key + " ") + [VersionChar]);
    }
    var i' := VersionWitness(p, s, find);
    FirstVersionUnique(p, s, i, i');
  }

  /** Safari's version is the token after `version/`; the desktop app's the token after
      `electron/`; Chrome's the token after `chrome/`. */
  lemma DedicatedVersionKeys(s: string, find: Submatcher)
    requires Sound(find)
    ensures var v := ExtractVersion(BrowserVersionRegexp(Safari), s, find);
      v == "" || ContainsCI(s, "version/" + v)
    ensures var v := ExtractVersion(BrowserVersionRegexp(Electron), s, find);
      v == "" || ContainsCI(s, "electron/" + v)
    ensures var v := ExtractVersion(BrowserVersionRegexp(Chrome), s, find);
      v == "" || ContainsCI(s, "chrome/" + v)
  {
    assert BrowserVersionRegexp(Safari) == Version("version", false);
    assert BrowserVersionRegexp(Electron) == Version("electron", false);
    assert BrowserVersionRegexp(Chrome) == Version("chrome", false);
    assert "version" + "/" == "version/" && "electron" + "/" == "electron/" && "chrome" + "/" == "chrome/";
    ExtractVersionSound(BrowserVersionRegexp(Safari), s, find);
    ExtractVersionSound(BrowserVersionRegexp(Electron), s, find);
    ExtractVersionSound(BrowserVersionRegexp(Chrome), s, find);
  }

  /** Any other name is its own key: the version found follows the name and a slash or a
      space. */
  lemma SynthesizedVersionKey(b: string, s: string, find: Submatcher)
    requires Sound(find) && b !in BrowserVersions
    ensures var v := ExtractVersion(BrowserVersionRegexp(b), s, find);
      v == "" || (IsVersionToken(v) && (ContainsCI(s, b + "/" + v) || ContainsCI(s, b + " " + v)))
  {
    ExtractVersionSound(BrowserVersionRegexp(b), s, find);
  }

  /** Nothing is found in the empty string. */
  lemma NoVersionInEmpty(p: Pattern, find: Submatcher)
    requires Sound(find) && p.Version?
    ensures ExtractVersion(p, "", find) == ""
  {
    var v := ExtractVersion(p, "", find);
    ExtractVersionSound(p, "", find);
    if v != "" {
      NothingInEmpty(Lit(p.key + "/" + v));
      NothingInEmpty(Lit(p.key + " " + v));
    }
  }
}
