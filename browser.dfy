/** The world a capture acts on: the remote-controlled browser and the file
    system. Neither is modelled beyond what a capture observes of it. */
module Browser {

  /** How a page element is looked up. */
  datatype Selector = ById(id: string) | ByClassName(name: string)

  /** What a capture asks the browser to do, in order. */
  datatype Action = Navigate(url: string) | Click(target: Selector) | RunScript(js: string)

  /** What the browser shows at one URL: its markup, its screenshot, its
      MHTML archive and how many elements each selector finds on it. */
  datatype Page = Page(source: string, screenshot: string, archive: string, matches: map<Selector, nat>)

  /** A browser session, shared by every capture of a batch. The web it
      browses is fixed: where each URL redirects, the page at each URL, and
      the blank page shown before the first navigation or at a URL with no
      content. What changes is the URL the browser is at and the actions
      asked of it. */
  class Driver {
    const redirects: map<string, string>
    const pages: map<string, Page>
    const blank: Page
    var currentUrl: string
    var trace: seq<Action>

    constructor (redirects: map<string, string>, pages: map<string, Page>, blank: Page)
      requires [] !in pages
      ensures this.redirects == redirects && this.pages == pages && this.blank == blank
      ensures currentUrl == [] && trace == [] && Shown() == blank
    {
      this.redirects := redirects;
      this.pages := pages;
      this.blank := blank;
      currentUrl := [];
      trace := [];
    }

    /** Where navigating to `url` ends up, after redirects. */
    function Landing(url: string): (landing: string)
      reads this
      ensures url !in redirects ==> landing == url
    {
      if url in redirects then redirects[url] else url
    }

    /** The page the browser currently shows. */
    function Shown(): (page: Page)
      reads this
      ensures currentUrl !in pages ==> page == blank
    {
      if currentUrl in pages then pages[currentUrl] else blank
    }

    /** The number of elements `find_elements_by_*` returns for `sel` on the
        page currently shown. */
    function Count(sel: Selector): (n: nat)
      reads this
      ensures sel !in Shown().matches ==> n == 0
    {
      if sel in Shown().matches then Shown().matches[sel] else 0
    }

    /** `driver.get(url)` */
    method Get(url: string)
      modifies this`currentUrl, this`trace
      ensures currentUrl == Landing(url)
      ensures trace == old(trace) + [Navigate(url)]
    {
      currentUrl := Landing(url);
      trace := trace + [Navigate(url)];
    }

    /** `element.click()` on the single element `sel` finds. */
    method ClickOn(sel: Selector)
      modifies this`trace
      ensures trace == old(trace) + [Click(sel)]
    {
      trace := trace + [Click(sel)];
    }

    /** `driver.execute_script(js)` */
    method ExecuteScript(js: string)
      modifies this`trace
      ensures trace == old(trace) + [RunScript(js)]
    {
      trace := trace + [RunScript(js)];
    }

    /** `driver.execute_cdp_cmd('Page.captureSnapshot', {'format': 'mhtml'})['data']`:
        the archive of the page currently shown, whichever capture navigated
        to it. */
    method CaptureSnapshot() returns (data: string)
      ensures data == Shown().archive
      ensures currentUrl !in pages ==> data == blank.archive
    {
      data := Shown().archive;
    }

    /** `driver.save_screenshot(folder + filename)` */
    method SaveScreenshot(fs: FileStore, folder: string, filename: string)
      modifies fs
      ensures fs.files == old(fs.files)[folder + filename := Shown().screenshot]
      ensures fs.dirs == old(fs.dirs)[folder := old(fs.Entries(folder)) + {filename}]
    {
      fs.Write(folder, filename, Shown().screenshot);
    }
  }

  /** The file system: each folder with the names of its entries, and each
      file with its content. */
  class FileStore {
    var dirs: map<string, set<string>>
    var files: map<string, string>

    constructor (dirs: map<string, set<string>>, files: map<string, string>)
      ensures this.dirs == dirs && this.files == files
    {
      this.dirs := dirs;
      this.files := files;
    }

    /** `os.listdir(path)` for an existing folder; empty otherwise. */
    function Entries(path: string): set<string>
      reads this
    {
      if path in dirs then dirs[path] else {}
    }

    /** `os.path.isdir(path) and os.listdir(path)`: the folder exists and
        has an entry. */
    predicate Taken(path: string)
      reads this
      ensures Taken(path) <==> path in dirs && Entries(path) != {}
    {
      path in dirs && dirs[path] != {}
    }

    /** `os.makedirs(path, exist_ok=True)` */
    method MakeDirs(path: string)
      modifies this
      ensures dirs == old(dirs)[path := old(Entries(path))]
      ensures files == old(files)
    {
      dirs := dirs[path := Entries(path)];
    }

    /** `open(folder + filename, 'w').write(content)` */
    method Write(folder: string, filename: string, content: string)
      modifies this
      ensures dirs == old(dirs)[folder := old(Entries(folder)) + {filename}]
      ensures files == old(files)[folder + filename := content]
    {
      dirs := dirs[folder := Entries(folder) + {filename}];
      files := files[folder + filename := content];
    }
  }
}
