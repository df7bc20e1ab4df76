# Verified model of the AutoMeMo snapshot core

AutoMeMo captures snapshots of Belgian news websites. It does this in four steps:

- A short name such as `lesoir` or a full URL is resolved to a target. The target is one of the known websites or a generic page.
- A capture folder is created for the target.
- A headless browser loads the page and accepts the consent ("GDPR") popup with a site-specific policy. The capture then saves the page source, a screenshot and an MHTML archive.
- A metadata record describing the capture is derived. From it a row for the `snapshots` table is built.

This project models that core in Dafny and proves what each step promises.

- `websites.dfy` (module `Websites`) models `websites.py`:
  - The alias computation and `get_website_object` resolution, as a loop proved against a specification function.
  - The website name and the folder path.
  - The `KNOWN_WEBSITES` registry.
  - The class `Website`, a Dafny class whose methods update its fields. Its subclasses `VRT` and `RTBF` become a `variant` field, and the popup dispatches on that field.
- `database.dfy` (module `Database`) models the row that `database.save_snapshot` builds.
- `database_and_logging.dfy` (module `DatabaseAndLogging`) models the row that `database_and_logging.save_snapshot` builds. It includes the `failed` scan, which is a loop with an early exit.
- `browser.dfy` (module `Browser`) models the world a capture acts on:
  - a `Driver` class standing for the Selenium driver that every capture of a batch shares. The web it browses is fixed: redirect targets, and for each URL the page shown there (its markup, screenshot, MHTML archive and how many elements each selector finds), with a blank page before the first navigation. The driver's state is the URL it is at and a trace of the actions asked of it;
  - a `FileStore` class standing for the file system, as directories with their entries and files with their contents.
- `strings.dfy`, `urls.dfy`, `records.dfy` and `wrappers.dfy` hold:
  - Python's `split` and `join`;
  - a simplified `urlparse(...).netloc`. The host is the authority part after `https://` or `http://`, up to the first `/`, `?` or `#` (section 3.2 of RFC 3986);
  - the metadata record;
  - `Option` and `Result`.

Some source values are parameters of the model. The formatted scrape time and the configuration values are passed in. The configuration values are the data folder and the three file names. Exceptions the source raises become `Failure` results.

## Model

| member | source | states |
|---|---|---|
| Strings.Split | websites.py:21-22 | `split('.')` yields at least one piece. No piece contains the separator. There are two or more pieces exactly when the separator occurs. |
| Strings.JoinSplit | websites.py:22 | Joining the pieces of a split with the same separator gives back the original string. |
| Urls.Authority | websites.py:17 | The authority is the longest prefix free of `/`, `?` and `#`. Whatever follows it starts with one of those characters. |
| Urls.Host | websites.py:17 | The host never contains `/`. It is empty for a URL without an `http(s)://` scheme. |
| Urls.HostOfHttps | websites.py:17 | The host of `https://` + host + path is that host, when the host has no delimiter and the path is empty or starts with one. |
| Websites.DefaultAliases | websites.py:16-24 | Exactly four aliases, in order: the URL, its host, then the host's bare name and name-plus-suffix. |
| Websites.NameAndSuffix | websites.py:21-22 | The bare name is the host's second-to-last label and has no dot. The name-plus-suffix is that label, a dot and the last label, and it ends the host at a label boundary. |
| Websites.LastTwoLabels | websites.py:21-22 | The last two labels of a dotted host, joined by a dot, are a suffix of the host that starts right after a dot or at the host's start. |
| Websites.WebsiteName | websites.py:88-94 | The host is an optional `www.`, then the name, then an optional `.be`; each is removed at most once and nothing else changes. The name never contains `/`. |
| Websites.FolderPath | websites.py:172-176 | The folder is the data folder, the name and `/`, followed by the formatted time and `/`, and is exactly as long as those parts and the two slashes. |
| Websites.FolderPathUnique | websites.py:172-176 | For names without `/`, two captures share a folder only when their names and formatted times are both equal. |
| Websites.WithScheme | websites.py:51-55 | The result starts with `https://` or `http://`. It equals the input exactly when the input already had one of them; otherwise it is `https://` + input. |
| Websites.MatchingKeys | websites.py:34-37 | There are no more matched keys than known keys. Each matched key is a known key that lists the input among its aliases. |
| Websites.MatchingKeysComplete | websites.py:35-37 | Every known key whose aliases contain the input is matched. |
| Websites.MatchingKeysDistinct | websites.py:35-37 | Matched keys are distinct when the registry keys are. |
| Websites.AmbiguousIffTwoKeys | websites.py:39-40 | More than one key is matched exactly when two different known keys both list the input. |
| Websites.SomeMatchIffNonEmpty | websites.py:41-49 | Some key is matched exactly when some known key lists the input. |
| Websites.ResolveTarget | websites.py:27-55 | Ambiguous exactly when two known websites list the input. With a single match, the target is that key with its registered class, or the generic class when `None` is registered. With no match, the target is the input given a scheme, with the generic class. |
| Websites.CollectMatches | websites.py:34-37 | The loop over the known keys and its appends compute exactly `MatchingKeys`. |
| Websites.Resolve | websites.py:34-55 | The collected matches and the three outcomes that follow compute exactly `ResolveTarget`. |
| Websites.PopupLog | websites.py:183-206 | What each popup appends:<br>• Base class: one message exactly when one button matches.<br>• `VRT`: one message exactly when at most one matches.<br>• `RTBF`: always exactly one message, the "multiple" one exactly when several match.<br>All entries are plain messages. |
| Websites.PopupActions | websites.py:96-104 | Every class acts on the browser exactly when one button matches, and every action is logged. |
| Websites.Website.constructor | websites.py:62-77 | The new object holds the URL and its name. Its folder is the folder path for that name and time. It is in state `ini` with an empty log, no scraped URL and nothing saved. |
| Websites.Website.SetDriver | websites.py:79-80 | The object uses the given driver. |
| Websites.Website.DefaultPopup | websites.py:96-104 | The log and the browser's action trace grow by the base-class policy applied to the Didomi button count. |
| Websites.Website.VrtPopup | websites.py:183-191 | The log and the trace grow by the `VRT` policy. The click is done by a script. |
| Websites.Website.RtbfPopup | websites.py:198-206 | The log and the trace grow by the `RTBF` policy. |
| Websites.Website.GdprPopup | websites.py:178-206 | The popup handler of the object's class is applied. |
| Websites.Website.LoadPage | websites.py:106-110 | The browser navigates to the URL and ends at its landing URL, and the popup is handled on the page shown there. The landing URL becomes the scraped URL and the state becomes `page_loaded`. |
| Websites.Website.ReachState | websites.py:112-114 | Asking for `page_loaded` from `ini` loads the page. Any other request, including a second one, changes neither the object nor the browser. |
| Websites.Website.SaveSource | websites.py:116-121 | Reaches `page_loaded` first, loading the page only from `ini`. Then it writes the source of the page the browser shows to the configured file in the capture folder and marks it saved with that file name. |
| Websites.Website.TakeScreenshot | websites.py:123-127 | Reaches `page_loaded` first, loading the page only from `ini`. Then the browser writes the screenshot of the page it shows to the configured file, which is marked saved with that file name. |
| Websites.Website.SaveMhtmlArchive | websites.py:129-134 | Writes the archive of the page the browser shows to the configured file and marks it saved, without loading the page first: from `ini` that is the blank page or the page another capture left. The state, the log and the scraped URL are unchanged. |
| Websites.Website.Metadata | websites.py:137-162 | The record carries the name, URL, time, log and folder. The scraped URL is absent exactly while the state is `ini`. Each artifact record names its configured file exactly when it is saved, and `None` otherwise. |
| Websites.Website.MetadataAsWritten | websites.py:137-162 | Always reports the archive as unsaved. Otherwise it agrees with `Metadata`. |
| Websites.ArchiveDroppedAsWritten | websites.py:157-160 | After the archive has been saved, the record as written still reports it unsaved, so it differs from the corrected record. |
| Websites.NewWebsite | websites.py:62-77 | Fails with the "location is already taken" error exactly when the capture folder exists and is not empty; the file system is then untouched. Otherwise the folder exists, is empty, and the new object is in its initial state. |
| Websites.GetWebsiteObject | websites.py:27-55 | Resolution over `KNOWN_WEBSITES`: an ambiguous input fails without touching the file system. Otherwise the resolved target's object is built. |
| Websites.KnownWebsitesValid | websites.py:210-223 | The registry keys are distinct. Each key has a registered class or `None`. Each key's host has a dot, so its aliases exist. |
| Websites.ClassOf | websites.py:45-48 | A registered class is used as is; a registered `None` gives the generic `Website` class. |
| Websites.KeyAliases | websites.py:16-24 | The aliases of `https://www.` + name + `.be` + path are that URL, its host `www.` + name + `.be`, the name, and the name + `.be`. |
| Websites.AliasesNamed | websites.py:16-24 | Every alias of such a key has that name as its bare name, so the key is the only one of its shape it can belong to. |
| Websites.AliasOwner | websites.py:34-40 | In a registry of such keys with pairwise different names, two keys whose aliases both list the same input are the same key. |
| Websites.KeyHostOf | websites.py:17 | The host of `https://www.` + name + `.be` + path is `www.` + name + `.be`. |
| Websites.KeyHostLabels | websites.py:21-22 | `www.` + name + `.be` splits at its dots into `www`, the name and `be`. |
| Websites.OnlyOwner | websites.py:34-40 | In a registry of such keys, the only key whose aliases list an alias of key `i` is key `i`. |
| Websites.ShapedAliasesResolve | websites.py:27-48 | In a registry of such keys, every alias of every key resolves to that key with its registered class: no alias is ambiguous. |
| Websites.KnownShaped | websites.py:210-223 | Every key of `KNOWN_WEBSITES` is `https://www.` + a dot-free name + `.be` + an empty or `/`-started path, and the ten names are pairwise different. |
| Websites.KnownAliasesResolve | websites.py:27-48 | Every one of the four aliases of every key of `KNOWN_WEBSITES` resolves to that key with its registered class. |
| Websites.ArtifactRecord | websites.py:147-160 | The saved flag is kept. The file name is the one given when the artifact is saved, and `None` when it is not. |
| Browser.Driver.Get | websites.py:107-109 | The browser is at the landing URL of the navigation, which is the URL itself when it does not redirect. The navigation is appended to the trace. |
| Browser.Driver.Landing | websites.py:109 | A URL that does not redirect lands on itself. |
| Browser.Driver.Shown | websites.py:120 | The page shown is the page at the current URL, or the blank page at a URL without content. |
| Browser.Driver.Count | websites.py:100 | `len(find_elements_by_*)` on the page shown; zero for a selector the page does not match. |
| Browser.Driver.ClickOn | websites.py:103 | The click on the single match is appended to the trace. |
| Browser.Driver.ExecuteScript | websites.py:188 | The script run is appended to the trace. |
| Browser.Driver.SaveScreenshot | websites.py:125 | The screenshot file is written into the capture folder. |
| Browser.Driver.CaptureSnapshot | websites.py:130 | Returns the archive of the page the browser shows now, whichever capture navigated to it; before any navigation that is the blank page's archive. |
| Browser.FileStore.Taken | websites.py:71 | A folder is taken exactly when it exists and has an entry. |
| Browser.FileStore.MakeDirs | websites.py:74 | The folder exists afterwards and keeps its entries. Files are untouched. |
| Browser.FileStore.Write | websites.py:119-120 | The file is written with the content and added to its folder's entries. |
| Database.ArtifactPath | database.py:18-20 | The path column is the folder followed by the file name when the artifact is saved, and absent otherwise. It is an error when a saved artifact names no file. |
| Database.ArtifactPathRoundTrip | database.py:18-20 | For a consistent artifact record, removing the folder from the path gives back the file name. An absent path means the artifact is unsaved. |
| Database.SnapshotRow | database.py:18-26 | Fails exactly when a saved artifact names no file, reporting the first such column. Otherwise there are eight values in column order: name, queried URL, scraped URL (NULL when absent), the three paths (each the folder followed by the file name when saved, NULL when not), scrape time and the record itself. |
| Database.ConsistentRow | database.py:18-26 | Records with consistent artifacts always get a row, with each path column being the folder plus the file name or NULL. |
| Database.WebsiteRowStored | database.py:18-26 | A website object's metadata always gets a row. Each path column names the file the matching capture step wrote, or is NULL when that step did not run. |
| Database.ArchiveColumnNullAsWritten | database.py:20 | With the metadata as written, the archive column is NULL even after the archive was saved. |
| DatabaseAndLogging.ScanForFailure | database_and_logging.py:26-31 | The loop with its early `break` returns true exactly when some log entry is a dictionary with an `Exception` key, and false when there is no `logs` key. |
| DatabaseAndLogging.FailedAppend | database_and_logging.py:28-31 | Logs made of two parts record a failure exactly when one of the parts does. |
| DatabaseAndLogging.MessagesNeverFail | database_and_logging.py:27-29 | Logs of plain messages, or no logs at all, never set `failed`. |
| DatabaseAndLogging.SnapshotRow | database_and_logging.py:20-37 | Fails exactly when the eight-value row does. Otherwise there are nine values. Column 7 is `failed`; removing it leaves the eight-value row of `database.py`. |
| DatabaseAndLogging.SaveSnapshotRow | database_and_logging.py:20-37 | Computes the paths, then the scan, then the row, giving exactly `SnapshotRow`. |
| DatabaseAndLogging.ColumnsAgree | database_and_logging.py:33-44 | Every column other than `failed` has the same name and value as the column of the eight-value row it corresponds to. |
| DatabaseAndLogging.WebsiteNeverFailed | database_and_logging.py:26-31 | A website object's own metadata is always stored with `failed` false, because its log holds only popup messages. |

## Left out

- `snapshot.py` is not part of this model. It holds the command line, the headless browser setup and the batch loop. `website.run`, which it calls, is defined in no modelled file.
- The report aggregator `make_report` is not part of this model. It is defined in no modelled file.
- Selenium is modelled only as far as a capture observes it: redirect targets and, per URL, element counts per selector and opaque page source, screenshot and archive contents. The web is fixed: a page does not change between visits, and a click or script does not change the page or the URL.
- Opening and writing files, `os.makedirs` and `os.listdir` are modelled by `FileStore` as paths with entries and files with contents. Write failures, permissions and a path that exists as a plain file are not modelled.
- Browser.FileStore.MakeDirs: creates only the folder itself. `os.makedirs` also creates the intermediate folders (`data_folder` and `data_folder/name/`) and adds the new folder to its parent's entries. The core never checks a parent folder, so nothing modelled depends on it.
- The following are not modelled: `json.dump`/`json.dumps`, the sqlite connection, the insert and the returned row id, `logging`, `save_failure`, `save_metadata` and `save_to_db`. Each row stops at the tuple of values, and the serialised record is represented by the record itself.
- `datetime.now`, `strftime` and `config.ini` are not modelled. The formatted time and the configuration values are parameters.
- Urls.Host: `urlparse` is simplified. Only `https://` and `http://` URLs have a host; other schemes and scheme-relative `//` URLs are treated as having an empty host. The scheme is matched in lower case only, where `urlparse` ignores its case, and a malformed bracketed host, on which `urlparse` raises `ValueError`, is taken as is. `Host` is applied only to the registry keys and to the URL of a website object, which is a registry key or an input after `WithScheme`; both start with a lower-case `https://` or `http://`, so the scheme case never matters. An input whose host opens a `[` without closing it makes `get_website_name` raise `ValueError` in the source, where the model names the website after the host as is. `urlsplit` also deletes tab, CR and LF anywhere in the URL and, in current Python versions, strips leading control characters and spaces; the model keeps them, so an input such as `lesoir` followed by a tab gets a name and a folder ending in that tab where the source's do not.
- Websites.DefaultAliases: requires a dot in the host. The source raises `IndexError` for a dotless host. No registry key has one, which `KnownWebsitesValid` proves.
- Websites.Website.LoadPage, ReachState, SaveSource, TakeScreenshot, SaveMhtmlArchive, GdprPopup, DefaultPopup, VrtPopup and RtbfPopup require a driver. The source raises `AttributeError` when `set_driver` was never called.
- An exception raised in the middle of a capture step (after the file name is set, before the file is written) is not modelled. The model's steps complete.
- `reach_state` takes a state string in the source. The model takes a `State` value, so requests for unknown states are the "any other state" case.

## Findings

| source | as written | input that shows it | evidently intended | confidence | as-written member | corrected member |
|---|---|---|---|---|---|---|
| websites.py:157 | `metadata` reads the attribute `mhtml_archived_saved`. Nothing sets that attribute: `save_mhtml_archive` sets `mhtml_archive_saved` (line 134). The `getattr` default makes the archive always reported as not saved, and the database stores a NULL archive path. | Any capture that calls `save_mhtml_archive` and then builds the metadata | Read `mhtml_archive_saved`, so a saved archive is reported with its file name | high; not executed | Websites.Website.MetadataAsWritten | Websites.Website.Metadata |
