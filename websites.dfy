/** Target resolution and the per-site capture object of websites.py. */
module Websites {
  import opened Wrappers
  import opened Strings
  import opened Urls
  import opened Records
  import opened Browser

  /** The class a target is captured with: `Website`, or its subclass `VRT`
      or `RTBF`, which differ only in their consent-popup handling. */
  datatype Variant = Generic | Vrt | Rtbf

  /** The value of `self.state`: `'ini'` or `'page_loaded'`. */
  datatype State = Ini | PageLoaded

  /** The configuration entries a capture reads; the folder-name format of the
      timestamp is applied by the caller, which passes the formatted time. */
  datatype Config = Config(
    dataFolder: string,
    sourceCodeFilename: string,
    screenshotFilename: string,
    mhtmlArchiveFilename: string)

  /** A resolved target: the URL the object is built with and its class. */
  datatype Target = Target(url: string, variant: Variant)

  /** The two exceptions the core raises: an input that two known websites
      list among their aliases, and a capture folder that exists and is not
      empty. */
  datatype Error = Ambiguous(url: string) | LocationTaken(folder: string)

  /** Every key has a host with at least two labels, so its aliases exist. */
  ghost predicate Dotted(keys: seq<string>)
  {
    forall k :: k in keys ==> '.' in Host(k)
  }

  ghost predicate Distinct(keys: seq<string>)
  {
    forall i, j :: 0 <= i < j < |keys| ==> keys[i] != keys[j]
  }

  /** A dictionary of known websites: its keys in insertion order and, for
      each key, the specialised class registered for it, or None. */
  datatype Registry = Registry(keys: seq<string>, classes: map<string, Option<Variant>>)
  {
    ghost predicate Valid()
    {
      Distinct(keys) && Dotted(keys) && (forall k :: k in classes <==> k in keys)
    }
  }

  /** `KNOWN_WEBSITES` */
  const KnownWebsites := Registry(KnownKeys, KnownClasses)

  const KnownKeys: seq<string> :=
    [ "https://www.lesoir.be", "https://www.lalibre.be", "https://www.rtbf.be/info/",
      "https://www.dhnet.be", "https://www.rtl.be/info/", "https://www.lecho.be",
      "https://www.vrt.be", "https://www.standaard.be", "https://www.tijd.be",
      "https://www.nieuwsblad.be" ]

  const KnownClasses: map<string, Option<Variant>> :=
    map[ "https://www.lesoir.be" := None, "https://www.lalibre.be" := None,
         "https://www.rtbf.be/info/" := Some(Rtbf), "https://www.dhnet.be" := None,
         "https://www.rtl.be/info/" := None, "https://www.lecho.be" := None,
         "https://www.vrt.be" := Some(Vrt), "https://www.standaard.be" := None,
         "https://www.tijd.be" := None, "https://www.nieuwsblad.be" := None ]

  /** The class `get_website_object` instantiates for a registry value. */
  function ClassOf(registered: Option<Variant>): (v: Variant)
    ensures registered.Some? ==> v == registered.value
    ensures registered.None? ==> v == Generic
  {
    if registered.None? then Generic else registered.value
  }

  // ---------------------------------------------------------------------
  // Aliases, names and folders
  // ---------------------------------------------------------------------

  /** `get_default_aliases`: the URL, its host, the host's second-to-last
      label (the bare name) and its last two labels joined by a dot. */
  function DefaultAliases(url: string): (aliases: seq<string>)
    requires '.' in Host(url)
    ensures |aliases| == 4 && aliases[0] == url && aliases[1] == Host(url)
    ensures aliases[2..] == NameAndSuffix(Host(url))
  {
    var host := Host(url);
    [url, host] + NameAndSuffix(host)
  }

  /** The bare name and the name-plus-suffix of a dotted host. The bare name
      and the last label hold no dot, and the name-plus-suffix is the end of
      the host, starting at a label boundary. */
  function NameAndSuffix(host: string): (pair: seq<string>)
    requires '.' in host
    ensures |pair| == 2
    ensures '.' !in pair[0]
    ensures HasPrefix(pair[1], pair[0] + ".") && '.' !in pair[1][|pair[0]| + 1..]
    ensures HasSuffix(host, pair[1])
    ensures |pair[1]| == |host| || host[|host| - |pair[1]| - 1] == '.'
  {
    var labels := Split(host, '.');
    LastTwoLabels(host);
    [labels[|labels| - 2], Join(labels[|labels| - 2..], '.')]
  }

  /** The last two labels of a dotted host, joined, end the host at a label
      boundary. */
  lemma LastTwoLabels(host: string)
    requires '.' in host
    ensures var labels := Split(host, '.');
            var tail := Join(labels[|labels| - 2..], '.');
            && tail == labels[|labels| - 2] + "." + labels[|labels| - 1]
            && '.' !in labels[|labels| - 2] && '.' !in labels[|labels| - 1]
            && HasPrefix(tail, labels[|labels| - 2] + ".")
            && tail[|labels[|labels| - 2]| + 1..] == labels[|labels| - 1]
            && HasSuffix(host, tail)
            && (|tail| == |host| || host[|host| - |tail| - 1] == '.')
  {
    var labels := Split(host, '.');
    var n := |labels|;
    var tail := labels[n - 2..];
    JoinSplit(host, '.');
    assert Join(tail, '.') == labels[n - 2] + "." + labels[n - 1] by {
      assert tail[1..] == [labels[n - 1]];
    }
    if n > 2 {
      JoinSlices(labels, '.', n - 2);
    } else {
      assert tail == labels;
    }
    var t := Join(tail, '.');
    assert t[..|labels[n - 2]| + 1] == labels[n - 2] + ".";
    assert t[|labels[n - 2]| + 1..] == labels[n - 1];
  }

  /** `get_website_name`: the host with at most one leading `www.` and at
      most one trailing `.be` removed; nothing else changes. */
  function WebsiteName(url: string): (name: string)
    ensures var host := Host(url);
            var rest := if HasPrefix(host, "www.") then host[4..] else host;
            && host == (if HasPrefix(host, "www.") then "www." else "") + rest
            && rest == name + (if HasSuffix(rest, ".be") then ".be" else "")
    ensures '/' !in name
  {
    var host := Host(url);
    var rest := StripPrefix(host, "www.");
    var name := StripSuffix(rest, ".be");
    assert forall i :: 0 <= i < |name| ==> name[i] == rest[i];
    assert forall i :: 0 <= i < |rest| ==> rest[i] == host[|host| - |rest| + i];
    name
  }

  /** `get_folder_path`: `data_folder + name + '/' + formatted_time + '/'`. */
  function FolderPath(dataFolder: string, name: string, formattedTime: string): (path: string)
    ensures HasPrefix(path, dataFolder + name + "/")
    ensures HasSuffix(path, "/" + formattedTime + "/")
    ensures |path| == |dataFolder| + |name| + |formattedTime| + 2
  {
    dataFolder + name + "/" + formattedTime + "/"
  }

  /** Two captures share a folder only when they have the same name and the
      same formatted time. */
  lemma {:induction false} FolderPathUnique(root: string, n1: string, t1: string, n2: string, t2: string)
    requires '/' !in n1 && '/' !in n2
    requires FolderPath(root, n1, t1) == FolderPath(root, n2, t2)
    ensures n1 == n2 && t1 == t2
  {
    var p := FolderPath(root, n1, t1);
    assert p == root + (n1 + "/" + (t1 + "/"));
    assert p == root + (n2 + "/" + (t2 + "/"));
    assert n1 + "/" + (t1 + "/") == p[|root|..] == n2 + "/" + (t2 + "/");
    SlashCancel(n1, n2, t1 + "/", t2 + "/");
    assert t1 == (t1 + "/")[..|t1|];
  }

  /** A slash-free piece before a slash is determined by the whole string. */
  lemma {:induction false} SlashCancel(a: string, b: string, x: string, y: string)
    requires '/' !in a && '/' !in b
    requires a + "/" + x == b + "/" + y
    ensures a == b && x == y
  {
    var s := a + "/" + x;
    if a != [] && b != [] {
      assert s[0] == a[0] && (b + "/" + y)[0] == b[0];
      assert s[1..] == a[1..] + "/" + x;
      assert (b + "/" + y)[1..] == b[1..] + "/" + y;
      SlashCancel(a[1..], b[1..], x, y);
      assert a == [a[0]] + a[1..] && b == [b[0]] + b[1..];
    } else {
      assert s[0] == (b + "/" + y)[0];
      assert a == [] && b == [];
      assert s[1..] == x && (b + "/" + y)[1..] == y;
    }
  }

  /** `'https://' + url` unless the URL already starts with `https://` or
      `http://`; the result always names one of the two schemes. */
  function WithScheme(url: string): (u: string)
    ensures HasPrefix(u, "https://") || HasPrefix(u, "http://")
    ensures u == url <==> HasPrefix(url, "https://") || HasPrefix(url, "http://")
    ensures u != url ==> u == "https://" + url
  {
    if !HasPrefix(url, "https://") && !HasPrefix(url, "http://") then
      assert ("https://" + url)[..8] == "https://";
      "https://" + url
    else url
  }

  // ---------------------------------------------------------------------
  // Target resolution
  // ---------------------------------------------------------------------

  /** The keys, in order, whose default aliases contain `url`: the list
      `matched_urls` that `get_website_object` builds. */
  function MatchingKeys(url: string, keys: seq<string>): (m: seq<string>)
    requires Dotted(keys)
    ensures |m| <= |keys|
    ensures forall k :: k in m ==> k in keys && url in DefaultAliases(k)
  {
    if keys == [] then []
    else
      var init := keys[..|keys| - 1];
      var last := keys[|keys| - 1];
      assert forall k :: k in init ==> k in keys;
      MatchingKeys(url, init) + (if url in DefaultAliases(last) then [last] else [])
  }

  /** Every key whose aliases contain `url` is matched. */
  lemma {:induction false} MatchingKeysComplete(url: string, keys: seq<string>, k: string)
    requires Dotted(keys)
    requires k in keys && url in DefaultAliases(k)
    ensures k in MatchingKeys(url, keys)
  {
    var init := keys[..|keys| - 1];
    assert keys == init + [keys[|keys| - 1]];
    if k != keys[|keys| - 1] {
      assert k in init;
      assert forall x :: x in init ==> x in keys;
      MatchingKeysComplete(url, init, k);
    }
  }

  /** Distinct keys give distinct matches. */
  lemma {:induction false} MatchingKeysDistinct(url: string, keys: seq<string>)
    requires Dotted(keys) && Distinct(keys)
    ensures Distinct(MatchingKeys(url, keys))
  {
    if keys != [] {
      var init := keys[..|keys| - 1];
      var last := keys[|keys| - 1];
      assert forall k :: k in init ==> k in keys;
      MatchingKeysDistinct(url, init);
      assert last !in init;
      assert last !in MatchingKeys(url, init);
    }
  }

  /** Two different keys that both list `url` among their aliases. */
  ghost predicate TwoKeysMatch(url: string, keys: seq<string>)
    requires Dotted(keys)
  {
    exists i, j :: 0 <= i < j < |keys| && url in DefaultAliases(keys[i]) && url in DefaultAliases(keys[j])
  }

  /** More than one match exactly when two different keys both list `url`
      among their aliases. */
  lemma AmbiguousIffTwoKeys(url: string, keys: seq<string>)
    requires Dotted(keys) && Distinct(keys)
    ensures |MatchingKeys(url, keys)| > 1 <==> TwoKeysMatch(url, keys)
  {
    if |MatchingKeys(url, keys)| > 1 {
      AmbiguousHasTwoKeys(url, keys);
    }
    if TwoKeysMatch(url, keys) {
      var i, j :| 0 <= i < j < |keys| && url in DefaultAliases(keys[i]) && url in DefaultAliases(keys[j]);
      TwoKeysAmbiguous(url, keys, i, j);
    }
  }

  lemma AmbiguousHasTwoKeys(url: string, keys: seq<string>)
    requires Dotted(keys) && Distinct(keys)
    requires |MatchingKeys(url, keys)| > 1
    ensures TwoKeysMatch(url, keys)
  {
    var m := MatchingKeys(url, keys);
    MatchingKeysDistinct(url, keys);
    assert m[0] in m && m[1] in m && m[0] != m[1];
    var i :| 0 <= i < |keys| && keys[i] == m[0];
    var j :| 0 <= j < |keys| && keys[j] == m[1];
    if i < j {
      assert url in DefaultAliases(keys[i]) && url in DefaultAliases(keys[j]);
    } else {
      assert url in DefaultAliases(keys[j]) && url in DefaultAliases(keys[i]);
    }
  }

  lemma TwoKeysAmbiguous(url: string, keys: seq<string>, i: nat, j: nat)
    requires Dotted(keys) && Distinct(keys)
    requires i < j < |keys| && url in DefaultAliases(keys[i]) && url in DefaultAliases(keys[j])
    ensures |MatchingKeys(url, keys)| > 1
  {
    var m := MatchingKeys(url, keys);
    MatchingKeysComplete(url, keys, keys[i]);
    MatchingKeysComplete(url, keys, keys[j]);
    var p :| 0 <= p < |m| && m[p] == keys[i];
    var q :| 0 <= q < |m| && m[q] == keys[j];
    assert p != q;
  }

  /** Some key matches exactly when the match list is not empty. */
  lemma SomeMatchIffNonEmpty(url: string, keys: seq<string>)
    requires Dotted(keys)
    ensures (exists k :: k in keys && url in DefaultAliases(k)) <==> |MatchingKeys(url, keys)| >= 1
  {
    if exists k :: k in keys && url in DefaultAliases(k) {
      var k :| k in keys && url in DefaultAliases(k);
      MatchingKeysComplete(url, keys, k);
    }
  }

  /** What `get_website_object` resolves `url` to, before it builds the
      object: an ambiguity error when two known websites list `url` among
      their aliases; the matching key with its registered class when exactly
      one does; otherwise the URL with a scheme, captured generically. */
  function ResolveTarget(url: string, reg: Registry): (r: Result<Target, Error>)
    requires reg.Valid()
    ensures r.Failure? <==> TwoKeysMatch(url, reg.keys)
    ensures r.Failure? ==> r.error == Ambiguous(url)
    ensures r.Success? && (exists k :: k in reg.keys && url in DefaultAliases(k)) ==>
            && r.value.url in reg.keys && url in DefaultAliases(r.value.url)
            && r.value.variant == ClassOf(reg.classes[r.value.url])
    ensures (forall k :: k in reg.keys ==> url !in DefaultAliases(k)) ==>
            r == Success(Target(WithScheme(url), Generic))
  {
    var m := MatchingKeys(url, reg.keys);
    AmbiguousIffTwoKeys(url, reg.keys);
    SomeMatchIffNonEmpty(url, reg.keys);
    if |m| > 1 then Failure(Ambiguous(url))
    else if |m| == 1 then
      assert m[0] in m;
      Success(Target(m[0], ClassOf(reg.classes[m[0]])))
    else Success(Target(WithScheme(url), Generic))
  }

  /** The loop of `get_website_object` over the known keys: collect, in
      registry order, every key that lists `url` among its aliases. */
  method CollectMatches(url: string, reg: Registry) returns (matched: seq<string>)
    requires Dotted(reg.keys)
    ensures matched == MatchingKeys(url, reg.keys)
  {
    matched := [];
    for i := 0 to |reg.keys|
      invariant Dotted(reg.keys[..i])
      invariant matched == MatchingKeys(url, reg.keys[..i])
    {
      assert reg.keys[..i + 1][..i] == reg.keys[..i];
      assert reg.keys[i] in reg.keys;
      if url in DefaultAliases(reg.keys[i]) {
        matched := matched + [reg.keys[i]];
      }
    }
    assert reg.keys[..|reg.keys|] == reg.keys;
  }

  /** `get_website_object` up to building the object: the loop, then its
      three outcomes. */
  method Resolve(url: string, reg: Registry) returns (r: Result<Target, Error>)
    requires reg.Valid()
    ensures r == ResolveTarget(url, reg)
  {
    var matched := CollectMatches(url, reg);
    if |matched| > 1 {
      r := Failure(Ambiguous(url));
    } else if |matched| == 1 {
      var fullUrl := matched[0];
      assert fullUrl in matched;
      if reg.classes[fullUrl].Some? {
        r := Success(Target(fullUrl, reg.classes[fullUrl].value));
      } else {
        r := Success(Target(fullUrl, Generic));
      }
    } else {
      var u := url;
      if !HasPrefix(u, "https://") && !HasPrefix(u, "http://") {
        u := "https://" + u;
      }
      r := Success(Target(u, Generic));
    }
  }

  // ---------------------------------------------------------------------
  // Consent-popup policies
  // ---------------------------------------------------------------------

  const DidomiButton := ById("didomi-notice-agree-button")
  const VrtButton := ById("widget-vrt-cookiebalk3__button")
  const RtbfButton := ByClassName("button__acceptAll")
  const VrtClickScript := "document.getElementById('widget-vrt-cookiebalk3__button').click()"

  const DidomiClicked := Message("Didomi-style GDPR popup")
  const VrtClicked := Message("Clicked VRT GDPR popup")
  const VrtAbsent := Message("No VRT GDPR popup")
  const RtbfClicked := Message("Clicked RTBF GDPR popup")
  const RtbfAbsent := Message("No RTBF GDPR popup")
  const RtbfAmbiguous := Message("Multiple matches for RTBF GDPR popup")

  /** The consent button each class looks for. */
  function PopupSelector(v: Variant): Selector
  {
    match v
    case Generic => DidomiButton
    case Vrt => VrtButton
    case Rtbf => RtbfButton
  }

  /** What `_GDPR_popup` appends to the log when `n` buttons match: the base
      class logs only a single match, `VRT` also logs the absence of the
      button, `RTBF` always logs exactly one of its three outcomes. Every
      entry is a plain message. */
  function PopupLog(v: Variant, n: nat): (log: seq<LogEntry>)
    ensures |log| <= 1
    ensures forall i :: 0 <= i < |log| ==> log[i].Message?
    ensures v == Generic ==> (log != [] <==> n == 1)
    ensures v == Vrt ==> (log != [] <==> n <= 1)
    ensures v == Rtbf ==> |log| == 1
    ensures v == Rtbf ==> (log == [RtbfAmbiguous] <==> n > 1)
  {
    match v
    case Generic => if n == 1 then [DidomiClicked] else []
    case Vrt => if n == 1 then [VrtClicked] else if n == 0 then [VrtAbsent] else []
    case Rtbf => if n == 1 then [RtbfClicked] else if n == 0 then [RtbfAbsent] else [RtbfAmbiguous]
  }

  /** What `_GDPR_popup` asks of the browser when `n` buttons match: every
      class acts exactly when one button matches, never guessing among
      several, and every action it takes is logged. */
  function PopupActions(v: Variant, n: nat): (acts: seq<Action>)
    ensures |acts| <= 1
    ensures acts != [] <==> n == 1
    ensures acts != [] ==> |PopupLog(v, n)| == 1
  {
    if n != 1 then []
    else if v == Vrt then [RunScript(VrtClickScript)]
    else [Click(PopupSelector(v))]
  }

  /** `ArtifactRecord(saved, filename)`: the record the `metadata` property
      stores for one artifact. */
  function ArtifactRecord(saved: bool, filename: Option<string>): (a: Artifact)
    ensures a.saved == saved
    ensures saved ==> a.filename == filename
    ensures !saved ==> a.filename == None
  {
    if saved then Artifact(true, filename) else Unsaved
  }

  // ---------------------------------------------------------------------
  // The capture object
  // ---------------------------------------------------------------------

  /** One capture of one website: the class `Website` with its subclasses
      folded into `variant`. */
  class Website {
    const url: string
    const variant: Variant
    const config: Config
    const name: string
    const scrapeTime: string
    const dataFolder: string
    var driver: Driver?
    var state: State
    var logs: seq<LogEntry>
    var trueUrl: Option<string>
    var sourceCodeFilename: Option<string>
    var sourceCodeSaved: bool
    var screenshotFilename: Option<string>
    var screenshotTaken: bool
    var mhtmlFilename: Option<string>
    var mhtmlArchiveSaved: bool

    ghost predicate Valid()
      reads this
    {
      && (state == PageLoaded <==> trueUrl.Some?)
      && (sourceCodeSaved ==> sourceCodeFilename == Some(config.sourceCodeFilename))
      && (screenshotTaken ==> screenshotFilename == Some(config.screenshotFilename))
      && (mhtmlArchiveSaved ==> mhtmlFilename == Some(config.mhtmlArchiveFilename))
      && (forall i :: 0 <= i < |logs| ==> logs[i].Message?)
    }

    /** The state right after `__init__`. */
    ghost predicate Initial()
      reads this
    {
      && driver == null && state == Ini && logs == [] && trueUrl == None
      && sourceCodeFilename == None && !sourceCodeSaved
      && screenshotFilename == None && !screenshotTaken
      && mhtmlFilename == None && !mhtmlArchiveSaved
    }

    /** The field assignments of `__init__`; the folder check that precedes
        them is `NewWebsite`. */
    constructor (url: string, variant: Variant, config: Config, scrapeTime: string)
      ensures Valid() && Initial()
      ensures this.url == url && this.variant == variant
      ensures this.config == config && this.scrapeTime == scrapeTime
      ensures name == WebsiteName(url) && dataFolder == FolderPath(config.dataFolder, name, scrapeTime)
    {
      this.url := url;
      this.variant := variant;
      this.config := config;
      this.scrapeTime := scrapeTime;
      var name := WebsiteName(url);
      this.name := name;
      dataFolder := FolderPath(config.dataFolder, name, scrapeTime);
      driver := null;
      state := Ini;
      logs := [];
      trueUrl := None;
      sourceCodeFilename := None;
      sourceCodeSaved := false;
      screenshotFilename := None;
      screenshotTaken := false;
      mhtmlFilename := None;
      mhtmlArchiveSaved := false;
    }

    /** `set_driver` */
    method SetDriver(d: Driver)
      modifies this`driver
      ensures driver == d
    {
      driver := d;
    }

    /** The effect of `load_page` between the old and the new state: the
        browser went to the URL, the consent popup was handled on the page it
        landed on, and the landing URL was recorded. */
    twostate predicate Loaded()
      reads this, driver
    {
      && driver == old(driver) && driver != null
      && state == PageLoaded
      && driver.currentUrl == driver.Landing(url)
      && trueUrl == Some(driver.Landing(url))
      && logs == old(logs) + PopupLog(variant, driver.Count(PopupSelector(variant)))
      && driver.trace == old(driver.trace) + [Navigate(url)] + PopupActions(variant, driver.Count(PopupSelector(variant)))
    }

    /** `Website._GDPR_popup`: click the Didomi button when exactly one matches. */
    method DefaultPopup()
      requires driver != null
      modifies this`logs, driver`trace
      ensures logs == old(logs) + PopupLog(Generic, driver.Count(DidomiButton))
      ensures driver.trace == old(driver.trace) + PopupActions(Generic, driver.Count(DidomiButton))
    {
      var n := driver.Count(DidomiButton);
      if n == 1 {
        logs := logs + [DidomiClicked];
        driver.ClickOn(DidomiButton);
      }
    }

    /** `VRT._GDPR_popup`: click through a script when exactly one button
        matches, note its absence when none does, do nothing otherwise. */
    method VrtPopup()
      requires driver != null
      modifies this`logs, driver`trace
      ensures logs == old(logs) + PopupLog(Vrt, driver.Count(VrtButton))
      ensures driver.trace == old(driver.trace) + PopupActions(Vrt, driver.Count(VrtButton))
    {
      var n := driver.Count(VrtButton);
      if n == 1 {
        driver.ExecuteScript(VrtClickScript);
        logs := logs + [VrtClicked];
      } else if n == 0 {
        logs := logs + [VrtAbsent];
      }
    }

    /** `RTBF._GDPR_popup`: log one of three outcomes and click only a
        single match. */
    method RtbfPopup()
      requires driver != null
      modifies this`logs, driver`trace
      ensures logs == old(logs) + PopupLog(Rtbf, driver.Count(RtbfButton))
      ensures driver.trace == old(driver.trace) + PopupActions(Rtbf, driver.Count(RtbfButton))
    {
      var n := driver.Count(RtbfButton);
      if n == 1 {
        logs := logs + [RtbfClicked];
        driver.ClickOn(RtbfButton);
      } else if n == 0 {
        logs := logs + [RtbfAbsent];
      } else {
        logs := logs + [RtbfAmbiguous];
      }
    }

    /** `_GDPR_popup` as dispatched on the object's class. */
    method GdprPopup()
      requires driver != null
      modifies this`logs, driver`trace
      ensures logs == old(logs) + PopupLog(variant, driver.Count(PopupSelector(variant)))
      ensures driver.trace == old(driver.trace) + PopupActions(variant, driver.Count(PopupSelector(variant)))
    {
      match variant
      case Generic => DefaultPopup();
      case Vrt => VrtPopup();
      case Rtbf => RtbfPopup();
    }

    /** `load_page` */
    method LoadPage()
      requires Valid() && driver != null
      modifies this`logs, this`trueUrl, this`state, driver`currentUrl, driver`trace
      ensures Valid() && Loaded()
    {
      driver.Get(url);
      GdprPopup();
      trueUrl := Some(driver.currentUrl);
      state := PageLoaded;
    }

    /** `reach_state`: only a request for the loaded page from the initial
        state does anything, and then it loads the page. */
    method ReachState(desired: State)
      requires Valid() && driver != null
      modifies this`logs, this`trueUrl, this`state, driver`currentUrl, driver`trace
      ensures Valid() && driver == old(driver)
      ensures state == (if desired == PageLoaded then PageLoaded else old(state))
      ensures desired == PageLoaded && old(state) == Ini ==> Loaded()
      ensures !(desired == PageLoaded && old(state) == Ini) ==> unchanged(this) && unchanged(driver)
    {
      if desired == PageLoaded && state == Ini {
        LoadPage();
      }
    }

    /** `save_source`: load the page if needed, then write its markup to the
        configured file in the capture folder. */
    method SaveSource(fs: FileStore)
      requires Valid() && driver != null
      modifies this`logs, this`trueUrl, this`state, this`sourceCodeFilename, this`sourceCodeSaved, driver`currentUrl, driver`trace, fs
      ensures Valid() && driver == old(driver) && state == PageLoaded
      ensures old(state) == Ini ==> Loaded()
      ensures old(state) == PageLoaded ==> logs == old(logs) && trueUrl == old(trueUrl) && unchanged(driver)
      ensures sourceCodeSaved && sourceCodeFilename == Some(config.sourceCodeFilename)
      ensures fs.files == old(fs.files)[dataFolder + config.sourceCodeFilename := driver.Shown().source]
      ensures fs.dirs == old(fs.dirs)[dataFolder := old(fs.Entries(dataFolder)) + {config.sourceCodeFilename}]
    {
      ReachState(PageLoaded);
      sourceCodeFilename := Some(config.sourceCodeFilename);
      fs.Write(dataFolder, config.sourceCodeFilename, driver.Shown().source);
      sourceCodeSaved := true;
    }

    /** `take_screenshot`: load the page if needed, then have the browser
        write a screenshot to the configured file in the capture folder. */
    method TakeScreenshot(fs: FileStore)
      requires Valid() && driver != null
      modifies this`logs, this`trueUrl, this`state, this`screenshotFilename, this`screenshotTaken, driver`currentUrl, driver`trace, fs
      ensures Valid() && driver == old(driver) && state == PageLoaded
      ensures old(state) == Ini ==> Loaded()
      ensures old(state) == PageLoaded ==> logs == old(logs) && trueUrl == old(trueUrl) && unchanged(driver)
      ensures screenshotTaken && screenshotFilename == Some(config.screenshotFilename)
      ensures fs.files == old(fs.files)[dataFolder + config.screenshotFilename := driver.Shown().screenshot]
      ensures fs.dirs == old(fs.dirs)[dataFolder := old(fs.Entries(dataFolder)) + {config.screenshotFilename}]
    {
      ReachState(PageLoaded);
      screenshotFilename := Some(config.screenshotFilename);
      driver.SaveScreenshot(fs, dataFolder, config.screenshotFilename);
      screenshotTaken := true;
    }

    /** `save_mhtml_archive`: write the archive of whatever page the shared
        browser shows to the configured file. Unlike the other two steps it
        does not load the page first, so from `ini` the archive is of the
        blank page or of the page another capture navigated to; the state is
        left as it was. */
    method SaveMhtmlArchive(fs: FileStore)
      requires Valid() && driver != null
      modifies this`mhtmlFilename, this`mhtmlArchiveSaved, fs
      ensures Valid() && state == old(state) && logs == old(logs) && trueUrl == old(trueUrl)
      ensures mhtmlArchiveSaved && mhtmlFilename == Some(config.mhtmlArchiveFilename)
      ensures fs.files == old(fs.files)[dataFolder + config.mhtmlArchiveFilename := driver.Shown().archive]
      ensures fs.dirs == old(fs.dirs)[dataFolder := old(fs.Entries(dataFolder)) + {config.mhtmlArchiveFilename}]
    {
      var data := driver.CaptureSnapshot();
      mhtmlFilename := Some(config.mhtmlArchiveFilename);
      fs.Write(dataFolder, config.mhtmlArchiveFilename, data);
      mhtmlArchiveSaved := true;
    }

    /** The record the `metadata` property builds, given the flag it reads for
        the archive. */
    function Assemble(archiveSaved: bool): MetadataRecord
      reads this
    {
      MetadataRecord(
        name, url, trueUrl, scrapeTime, Some(logs), dataFolder,
        ArtifactRecord(sourceCodeSaved, sourceCodeFilename),
        ArtifactRecord(screenshotTaken, screenshotFilename),
        ArtifactRecord(archiveSaved, mhtmlFilename))
    }

    /** The `metadata` property, reading the archive flag that
        `save_mhtml_archive` sets. The scraped URL is absent until the page
        is loaded, and each artifact record names its file exactly when it
        is marked saved. */
    function Metadata(): (m: MetadataRecord)
      reads this
      requires Valid()
      ensures m.name == name && m.queriedUrl == url && m.scrapeTime == scrapeTime
      ensures m.folderPath == dataFolder && m.logs == Some(logs)
      ensures m.scrapedUrl == trueUrl && (m.scrapedUrl == None <==> state == Ini)
      ensures Consistent(m.source) && Consistent(m.screenshot) && Consistent(m.mhtmlArchive)
      ensures m.source == (if sourceCodeSaved then Artifact(true, Some(config.sourceCodeFilename)) else Unsaved)
      ensures m.screenshot == (if screenshotTaken then Artifact(true, Some(config.screenshotFilename)) else Unsaved)
      ensures m.mhtmlArchive == (if mhtmlArchiveSaved then Artifact(true, Some(config.mhtmlArchiveFilename)) else Unsaved)
    {
      Assemble(mhtmlArchiveSaved)
    }

    /** The `metadata` property as written: it reads `mhtml_archived_saved`,
        an attribute nothing sets, so the archive is always reported unsaved. */
    function MetadataAsWritten(): (m: MetadataRecord)
      reads this
      requires Valid()
      ensures m.mhtmlArchive == Unsaved
      ensures m == Metadata().(mhtmlArchive := Unsaved)
    {
      Assemble(false)
    }
  }

  /** After `save_mhtml_archive` the metadata as written still reports the
      archive as not saved, while the file is on disk. */
  lemma ArchiveDroppedAsWritten(w: Website)
    requires w.Valid() && w.mhtmlArchiveSaved
    ensures !w.MetadataAsWritten().mhtmlArchive.saved
    ensures w.Metadata().mhtmlArchive == Artifact(true, Some(w.config.mhtmlArchiveFilename))
    ensures w.MetadataAsWritten() != w.Metadata()
  {
  }

  // ---------------------------------------------------------------------
  // Building the object
  // ---------------------------------------------------------------------

  /** The outcome of `Website(url)` for a target: refused when the capture
      folder exists and is not empty, otherwise a fresh object in its initial
      state whose folder now exists and is empty. */
  twostate predicate Opened(new r: Result<Website, Error>, t: Target, config: Config, scrapeTime: string, fs: FileStore)
    reads fs, if r.Success? then {r.value} else {}
  {
    var folder := FolderPath(config.dataFolder, WebsiteName(t.url), scrapeTime);
    && (r.Failure? <==> old(fs.Taken(folder)))
    && (r.Failure? ==> r.error == LocationTaken(folder) && fs.dirs == old(fs.dirs) && fs.files == old(fs.files))
    && (r.Success? ==>
          && fresh(r.value) && r.value.Valid() && r.value.Initial()
          && r.value.url == t.url && r.value.variant == t.variant
          && r.value.config == config && r.value.scrapeTime == scrapeTime
          && r.value.name == WebsiteName(t.url) && r.value.dataFolder == folder
          && fs.dirs == old(fs.dirs)[folder := {}] && fs.files == old(fs.files))
  }

  /** `__init__`: compute the folder, refuse a non-empty one, create it. */
  method NewWebsite(t: Target, config: Config, scrapeTime: string, fs: FileStore) returns (r: Result<Website, Error>)
    modifies fs
    ensures Opened(r, t, config, scrapeTime, fs)
  {
    var folder := FolderPath(config.dataFolder, WebsiteName(t.url), scrapeTime);
    if fs.Taken(folder) {
      r := Failure(LocationTaken(folder));
    } else {
      fs.MakeDirs(folder);
      var w := new Website(t.url, t.variant, config, scrapeTime);
      r := Success(w);
    }
  }

  /** `get_website_object` over `KNOWN_WEBSITES`: resolve, then build. */
  method GetWebsiteObject(url: string, config: Config, scrapeTime: string, fs: FileStore) returns (r: Result<Website, Error>)
    modifies fs
    ensures KnownWebsites.Valid()
    ensures ResolveTarget(url, KnownWebsites).Failure? ==>
              r == Failure(ResolveTarget(url, KnownWebsites).error) && unchanged(fs)
    ensures ResolveTarget(url, KnownWebsites).Success? ==>
              Opened(r, ResolveTarget(url, KnownWebsites).value, config, scrapeTime, fs)
  {
    KnownWebsitesValid();
    var target := Resolve(url, KnownWebsites);
    if target.Failure? {
      r := Failure(target.error);
    } else {
      r := NewWebsite(target.value, config, scrapeTime, fs);
    }
  }

  // ---------------------------------------------------------------------
  // The known websites
  // ---------------------------------------------------------------------

  /** `www.<name>.be`, the host of every key of `KNOWN_WEBSITES`. */
  function KeyHost(name: string): string
  {
    "www." + name + ".be"
  }

  /** `https://www.<name>.be<path>`, the form of every key of `KNOWN_WEBSITES`. */
  function KeyOf(name: string, path: string): string
  {
    "https://" + KeyHost(name) + path
  }

  /** A single host label: no dot and no URL delimiter. */
  predicate LabelLike(name: string)
  {
    '.' !in name && '/' !in name && '?' !in name && '#' !in name
  }

  /** Empty, or a path, query or fragment, without a dot. */
  predicate PathLike(path: string)
  {
    '.' !in path && (path == [] || IsDelimiter(path[0]))
  }

  /** Every key is `KeyOf(names[i], paths[i])` for single-label names that
      differ pairwise. */
  ghost predicate Shaped(keys: seq<string>, names: seq<string>, paths: seq<string>)
  {
    && |names| == |keys| && |paths| == |keys|
    && (forall i :: 0 <= i < |keys| ==>
          LabelLike(names[i]) && PathLike(paths[i]) && keys[i] == KeyOf(names[i], paths[i]))
    && (forall i, j :: 0 <= i < j < |names| ==> names[i] != names[j])
  }

  /** Three dot-free labels joined by dots split back into those labels. */
  lemma SplitLabels(a: string, b: string, c: string)
    requires '.' !in a && '.' !in b && '.' !in c
    ensures Split(a + "." + b + "." + c, '.') == [a, b, c]
  {
    assert a + "." + b + "." + c == a + ['.'] + (b + ['.'] + c);
    SplitAfterPiece(a, b + ['.'] + c, '.');
    SplitAfterPiece(b, c, '.');
    SplitWhole(c, '.');
  }

  /** The host of a key of the known form is `www.<name>.be`. */
  lemma KeyHostOf(name: string, path: string)
    requires LabelLike(name) && PathLike(path)
    ensures Host(KeyOf(name, path)) == KeyHost(name)
  {
    var host := KeyHost(name);
    assert forall i :: 0 <= i < |host| ==> host[i] in host;
    HostOfHttps(host, path);
  }

  /** `www.<name>.be` splits at its dots into `www`, the name and `be`. */
  lemma KeyHostLabels(name: string)
    requires LabelLike(name)
    ensures Split(KeyHost(name), '.') == ["www", name, "be"]
  {
    assert KeyHost(name) == "www" + "." + name + "." + "be";
    SplitLabels("www", name, "be");
  }

  /** The four aliases of a key of the known form. */
  lemma KeyAliases(name: string, path: string)
    requires LabelLike(name) && PathLike(path)
    ensures Host(KeyOf(name, path)) == KeyHost(name)
    ensures '.' in Host(KeyOf(name, path))
    ensures DefaultAliases(KeyOf(name, path)) == KeyAliasList(name, path)
  {
    KeyHostOf(name, path);
    KeyHostLabels(name);
    assert KeyHost(name)[3] == '.';
    assert [name, "be"][1..] == ["be"];
    assert Join([name, "be"], '.') == name + ".be";
  }

  /** The second-to-last dot label of `s`, or its only label. */
  function BareName(s: string): string
  {
    var labels := Split(s, '.');
    if |labels| >= 2 then labels[|labels| - 2] else labels[0]
  }

  /** The bare name of three dot-free labels joined by dots is the middle one. */
  lemma BareNameOfThree(a: string, b: string, c: string)
    requires '.' !in a && '.' !in b && '.' !in c
    ensures BareName(a + "." + b + "." + c) == b
  {
    SplitLabels(a, b, c);
  }

  /** The bare name of two dot-free labels joined by a dot is the first one,
      and a dot-free string is its own bare name. */
  lemma BareNameOfTwo(a: string, b: string)
    requires '.' !in a && '.' !in b
    ensures BareName(a + "." + b) == a
    ensures BareName(a) == a
  {
    assert a + "." + b == a + ['.'] + b;
    SplitAfterPiece(a, b, '.');
    SplitWhole(b, '.');
    SplitWhole(a, '.');
  }

  /** Each alias of a key of the known form carries the key's name as its
      bare name, so the name can be read back from any alias. */
  lemma AliasesNamed(name: string, path: string)
    requires LabelLike(name) && PathLike(path)
    ensures forall a :: a in KeyAliasList(name, path) ==> BareName(a) == name
  {
    var aliases := KeyAliasList(name, path);
    assert KeyOf(name, path) == "https://www" + "." + name + "." + ("be" + path);
    BareNameOfThree("https://www", name, "be" + path);
    assert KeyHost(name) == "www" + "." + name + "." + "be";
    BareNameOfThree("www", name, "be");
    assert name + ".be" == name + "." + "be";
    BareNameOfTwo(name, "be");
    assert aliases == [KeyOf(name, path), KeyHost(name), name, name + ".be"];
    assert BareName(aliases[0]) == name && BareName(aliases[1]) == name;
    assert BareName(aliases[2]) == name && BareName(aliases[3]) == name;
    forall a | a in aliases
      ensures BareName(a) == name
    {
      assert a == aliases[0] || a == aliases[1] || a == aliases[2] || a == aliases[3];
    }
  }

  /** Keys of the known form have dotted hosts. */
  lemma ShapedDotted(keys: seq<string>, names: seq<string>, paths: seq<string>)
    requires Shaped(keys, names, paths)
    ensures Dotted(keys)
  {
    forall k | k in keys
      ensures '.' in Host(k)
    {
      var i :| 0 <= i < |keys| && keys[i] == k;
      KeyAliases(names[i], paths[i]);
    }
  }

  /** For keys of the known form, an alias listed by two keys is listed by
      the same key twice: no two keys share an alias. */
  lemma AliasOwner(keys: seq<string>, names: seq<string>, paths: seq<string>, i: nat, i2: nat, a: string)
    requires Shaped(keys, names, paths)
    requires i < |keys| && i2 < |keys|
    requires a in KeyAliasList(names[i], paths[i]) && a in KeyAliasList(names[i2], paths[i2])
    ensures i == i2
  {
    AliasesNamed(names[i], paths[i]);
    AliasesNamed(names[i2], paths[i2]);
  }

  /** The aliases `KeyAliases` computes. */
  function KeyAliasList(name: string, path: string): seq<string>
  {
    [KeyOf(name, path), KeyHost(name), name, name + ".be"]
  }

  /** For keys of the known form, the only key listing an alias of key `i`
      is key `i`. */
  lemma OnlyOwner(keys: seq<string>, names: seq<string>, paths: seq<string>, i: nat, a: string)
    requires Shaped(keys, names, paths) && Dotted(keys)
    requires i < |keys| && a in KeyAliasList(names[i], paths[i])
    ensures forall p :: 0 <= p < |keys| && a in DefaultAliases(keys[p]) ==> p == i
  {
    forall p | 0 <= p < |keys| && a in DefaultAliases(keys[p])
      ensures p == i
    {
      KeyAliases(names[p], paths[p]);
      AliasOwner(keys, names, paths, p, i, a);
    }
  }

  /** In a registry whose keys have the known form, every alias of a key
      resolves to that key with its registered class. */
  lemma ShapedAliasesResolve(reg: Registry, names: seq<string>, paths: seq<string>, i: nat, j: nat)
    requires reg.Valid() && Shaped(reg.keys, names, paths)
    requires i < |reg.keys| && j < 4
    ensures ResolveTarget(DefaultAliases(reg.keys[i])[j], reg) ==
              Success(Target(reg.keys[i], ClassOf(reg.classes[reg.keys[i]])))
  {
    var keys := reg.keys;
    KeyAliases(names[i], paths[i]);
    var a := KeyAliasList(names[i], paths[i])[j];
    assert a in KeyAliasList(names[i], paths[i]);
    OnlyOwner(keys, names, paths, i, a);
    assert !TwoKeysMatch(a, keys);
    assert keys[i] in keys && a in DefaultAliases(keys[i]);
    var r := ResolveTarget(a, reg);
    var p :| 0 <= p < |keys| && keys[p] == r.value.url;
  }

  const KnownNames: seq<string> :=
    ["lesoir", "lalibre", "rtbf", "dhnet", "rtl", "lecho", "vrt", "standaard", "tijd", "nieuwsblad"]

  const KnownPaths: seq<string> := ["", "", "/info/", "", "/info/", "", "", "", "", ""]

  /** The keys of `KNOWN_WEBSITES` are `https://www.<name>.be`, two of them
      followed by `/info/`, for ten different names. */
  lemma KnownShaped()
    ensures Shaped(KnownKeys, KnownNames, KnownPaths)
  {
    KnownKeysOfForm(KnownKeys);
    KnownNamesLabels(KnownNames);
  }

  /** The ten names are single labels and differ pairwise. */
  lemma KnownNamesLabels(names: seq<string>)
    requires names == KnownNames
    ensures forall i :: 0 <= i < |names| ==> LabelLike(names[i]) && PathLike(KnownPaths[i])
    ensures forall i, j :: 0 <= i < j < |names| ==> names[i] != names[j]
  {
  }

  /** Each key is `KeyOf` of its name and path. */
  lemma KnownKeysOfForm(keys: seq<string>)
    requires keys == KnownKeys
    ensures forall i :: 0 <= i < |keys| ==> keys[i] == KeyOf(KnownNames[i], KnownPaths[i])
  {
    KnownKeyOfForm0(keys);
    KnownKeyOfForm1(keys);
    KnownKeyOfForm2(keys);
    KnownKeyOfForm3(keys);
    KnownKeyOfForm4(keys);
    KnownKeyOfForm5(keys);
    KnownKeyOfForm6(keys);
    KnownKeyOfForm7(keys);
    KnownKeyOfForm8(keys);
    KnownKeyOfForm9(keys);
    TenOfForm(keys, KnownNames, KnownPaths);
  }

  /** Ten keys, each of the known form, are all of the known form. */
  lemma TenOfForm(keys: seq<string>, names: seq<string>, paths: seq<string>)
    requires |keys| == 10 && |names| == 10 && |paths| == 10
    requires keys[0] == KeyOf(names[0], paths[0]) && keys[1] == KeyOf(names[1], paths[1])
    requires keys[2] == KeyOf(names[2], paths[2]) && keys[3] == KeyOf(names[3], paths[3])
    requires keys[4] == KeyOf(names[4], paths[4]) && keys[5] == KeyOf(names[5], paths[5])
    requires keys[6] == KeyOf(names[6], paths[6]) && keys[7] == KeyOf(names[7], paths[7])
    requires keys[8] == KeyOf(names[8], paths[8]) && keys[9] == KeyOf(names[9], paths[9])
    ensures forall i :: 0 <= i < |keys| ==> keys[i] == KeyOf(names[i], paths[i])
  {
    forall i | 0 <= i < |keys|
      ensures keys[i] == KeyOf(names[i], paths[i])
    {
      assert i in {0, 1, 2, 3, 4, 5, 6, 7, 8, 9};
    }
  }

  lemma KnownKeyOfForm0(keys: seq<string>)
    requires keys == KnownKeys
    ensures keys[0] == KeyOf(KnownNames[0], KnownPaths[0])
  {
  }

  lemma KnownKeyOfForm1(keys: seq<string>)
    requires keys == KnownKeys
    ensures keys[1] == KeyOf(KnownNames[1], KnownPaths[1])
  {
  }

  lemma KnownKeyOfForm2(keys: seq<string>)
    requires keys == KnownKeys
    ensures keys[2] == KeyOf(KnownNames[2], KnownPaths[2])
  {
  }

  lemma KnownKeyOfForm3(keys: seq<string>)
    requires keys == KnownKeys
    ensures keys[3] == KeyOf(KnownNames[3], KnownPaths[3])
  {
  }

  lemma KnownKeyOfForm4(keys: seq<string>)
    requires keys == KnownKeys
    ensures keys[4] == KeyOf(KnownNames[4], KnownPaths[4])
  {
  }

  lemma KnownKeyOfForm5(keys: seq<string>)
    requires keys == KnownKeys
    ensures keys[5] == KeyOf(KnownNames[5], KnownPaths[5])
  {
  }

  lemma KnownKeyOfForm6(keys: seq<string>)
    requires keys == KnownKeys
    ensures keys[6] == KeyOf(KnownNames[6], KnownPaths[6])
  {
  }

  lemma KnownKeyOfForm7(keys: seq<string>)
    requires keys == KnownKeys
    ensures keys[7] == KeyOf(KnownNames[7], KnownPaths[7])
  {
  }

  lemma KnownKeyOfForm8(keys: seq<string>)
    requires keys == KnownKeys
    ensures keys[8] == KeyOf(KnownNames[8], KnownPaths[8])
  {
  }

  lemma KnownKeyOfForm9(keys: seq<string>)
    requires keys == KnownKeys
    ensures keys[9] == KeyOf(KnownNames[9], KnownPaths[9])
  {
  }

  /** The keys of `KNOWN_WEBSITES` are distinct, each is registered, and
      each has a dotted host. */
  lemma KnownWebsitesValid()
    ensures KnownWebsites.Valid()
  {
    KnownShaped();
    ShapedDotted(KnownKeys, KnownNames, KnownPaths);
    KnownKeysDistinct();
    KnownClassesRegistered();
  }

  /** Every alias of every known website resolves to that website with its
      registered class: no alias of the table is ambiguous. */
  lemma KnownAliasesResolve(i: nat, j: nat)
    requires i < |KnownKeys| && j < 4
    ensures KnownWebsites.Valid()
    ensures ResolveTarget(DefaultAliases(KnownKeys[i])[j], KnownWebsites) ==
              Success(Target(KnownKeys[i], ClassOf(KnownClasses[KnownKeys[i]])))
  {
    KnownWebsitesValid();
    KnownShaped();
    ShapedAliasesResolve(KnownWebsites, KnownNames, KnownPaths, i, j);
  }

  lemma KnownKeysDistinct()
    ensures Distinct(KnownKeys)
  {
  }

  lemma KnownClassesRegistered()
    ensures forall k :: k in KnownClasses <==> k in KnownKeys
  {
  }
}
