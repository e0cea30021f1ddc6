/**
 * The knowledge-base builder of `scripts/prepare_training_dataset.py`:
 * it walks the project tree for text files of the allowed kinds, collects the
 * URLs they mention, keeps those of a fixed list of important domains,
 * downloads their visible text, and assembles instruction/output records
 * (one per file, one per downloaded page, and four fixed FAQ entries).
 *
 * The file system is a tree value; a file whose read fails carries no
 * content. The network and the HTML parser are a map from URL to the
 * page's visible text, one line per text node (no entry, or `None`, when
 * the download raises).
 */
module TrainingCorpus {
  import opened Wrappers
  import opened Text
  import opened Seqs
  import UrlScan

  // ------------------------------------------------------------ constants

  const AllowedExtensions: seq<string> :=
    [".md", ".txt", ".sql", ".ts", ".tsx", ".js", ".jsx", ".py", ".yml", ".yaml", ".json", ".env.example"]

  const ExcludedDirs: seq<string> :=
    ["node_modules", ".git", ".next", "dist", "build", "__pycache__", ".venv", "venv", "archive"]

  const ImportantDomains: seq<string> :=
    ["data.gov.il", "ica.justice.gov.il", "taxes.gov.il", "court.gov.il", "boi.org.il",
     "docs.python.org", "nextjs.org", "postgresql.org", "github.com/Zasada1980"]

  /** The project root is a Windows drive path, so `str(Path)` joins components with a backslash. */
  const PathSeparator: string := "\\"

  /** The per-record output cap ("token limit"). */
  const OutputLimit: nat := 4000

  // ----------------------------------------------------------- data model

  /** An entry of a directory listing; `content` is `None` when reading it as UTF-8 fails. */
  datatype Node =
    | File(name: string, content: Option<string>)
    | Dir(name: string, children: seq<Node>)

  /** One step of the top-down walk: a directory and the files listed in it. */
  datatype Visit = Visit(dirs: seq<string>, files: seq<Node>)

  /** A collected project file, its path relative to the project root. */
  datatype FileRecord = FileRecord(dirs: seq<string>, name: string, content: string)
  {
    function FilePath(): string
    {
      Join(dirs + [name], PathSeparator)
    }
  }

  /** A downloaded external page. */
  datatype PageRecord = PageRecord(url: string, content: string)

  /** A record of the Alpaca-format dataset. */
  datatype DatasetRecord = DatasetRecord(instruction: string, input: string, output: string, system: string)

  // ------------------------------------------------------- file selection

  /** `any(file.endswith(ext) for ext in ALLOWED_EXTENSIONS)`. */
  predicate AllowedFile(name: string)
  {
    exists k | 0 <= k < |AllowedExtensions| :: EndsWith(name, AllowedExtensions[k])
  }

  predicate EndsWith(s: string, suffix: string)
  {
    |suffix| <= |s| && s[|s| - |suffix|..] == suffix
  }

  predicate Descended(n: Node)
  {
    n.Dir? && n.name !in ExcludedDirs
  }

  /**
   * The visits of `os.walk` from a directory at `dirs` whose listing is
   * `children`: this directory first, then each subdirectory that the
   * in-place pruning of `dirs[:]` keeps, in listing order.
   */
  function Walk(dirs: seq<string>, children: seq<Node>): seq<Visit>
    decreases children, 1
  {
    [Visit(dirs, Filter(children, (n: Node) => n.File?))] + WalkSubdirs(dirs, children)
  }

  function WalkSubdirs(dirs: seq<string>, children: seq<Node>): seq<Visit>
    decreases children, 0
  {
    if children == [] then []
    else
      var first := children[0];
      (if Descended(first) then Walk(dirs + [first.name], first.children) else [])
      + WalkSubdirs(dirs, children[1..])
  }

  /** The records the collection loop produces for the files of one visit. */
  function RecordsOf(dirs: seq<string>, files: seq<Node>): seq<FileRecord>
  {
    if files == [] then []
    else
      var f := files[0];
      (if f.File? && AllowedFile(f.name) && f.content.Some?
       then [FileRecord(dirs, f.name, f.content.value)] else [])
      + RecordsOf(dirs, files[1..])
  }

  /** The records produced for a sequence of visits. */
  function Collected(visits: seq<Visit>): seq<FileRecord>
  {
    if visits == [] then []
    else
      var last := visits[|visits| - 1];
      Collected(visits[..|visits| - 1]) + RecordsOf(last.dirs, last.files)
  }

  /** The body of the walk loop for one directory: the files it keeps. */
  method CollectVisit(dirs: seq<string>, files: seq<Node>) returns (kept: seq<FileRecord>)
    ensures kept == RecordsOf(dirs, files)
  {
    kept := [];
    for f := 0 to |files|
      invariant kept == RecordsOf(dirs, files[..f])
    {
      var file := files[f];
      RecordsOfSnoc(dirs, files[..f], file);
      assert files[..f + 1] == files[..f] + [file];
      if file.File? && AllowedFile(file.name) {
        match file.content
        case Some(text) =>
          kept := kept + [FileRecord(dirs, file.name, text)];
        case None =>
      }
    }
    assert files[..|files|] == files;
  }

  /**
   * `collect_project_files`: walks the tree top-down, skips files of other
   * kinds and files whose read fails, and counts what it keeps.
   */
  method CollectProjectFiles(root: seq<Node>) returns (filesData: seq<FileRecord>, fileCount: nat)
    ensures filesData == Collected(Walk([], root))
    ensures fileCount == |filesData|
  {
    var visits := Walk([], root);
    filesData, fileCount := [], 0;
    for v := 0 to |visits|
      invariant filesData == Collected(visits[..v])
      invariant fileCount == |filesData|
    {
      var kept := CollectVisit(visits[v].dirs, visits[v].files);
      assert visits[..v + 1][..v] == visits[..v];
      filesData := filesData + kept;
      fileCount := fileCount + |kept|;
    }
    assert visits[..|visits|] == visits;
  }

  lemma {:induction false} RecordsOfSnoc(dirs: seq<string>, files: seq<Node>, f: Node)
    ensures RecordsOf(dirs, files + [f]) == RecordsOf(dirs, files) + RecordsOf(dirs, [f])
  {
    if files == [] {
      assert files + [f] == [f];
    } else {
      var g := files[0];
      var head := if g.File? && AllowedFile(g.name) && g.content.Some? then [FileRecord(dirs, g.name, g.content.value)] else [];
      assert (files + [f])[0] == g && (files + [f])[1..] == files[1..] + [f];
      assert RecordsOf(dirs, files + [f]) == head + RecordsOf(dirs, files[1..] + [f]);
      assert RecordsOf(dirs, files) == head + RecordsOf(dirs, files[1..]);
      RecordsOfSnoc(dirs, files[1..], f);
      AppendAssoc(head, RecordsOf(dirs, files[1..]), RecordsOf(dirs, [f]));
    }
  }

  lemma {:induction false} CollectedAppend(a: seq<Visit>, b: seq<Visit>)
    ensures Collected(a + b) == Collected(a) + Collected(b)
    decreases |b|
  {
    if b == [] {
      assert a + b == a;
    } else {
      var b' := b[..|b| - 1];
      var last := b[|b| - 1];
      var r := RecordsOf(last.dirs, last.files);
      assert (a + b)[..|a + b| - 1] == a + b';
      assert (a + b)[|a + b| - 1] == last;
      assert Collected(a + b) == Collected(a + b') + r;
      assert Collected(b) == Collected(b') + r;
      CollectedAppend(a, b');
      AppendAssoc(Collected(a), Collected(b'), r);
    }
  }

  lemma CollectedOne(v: Visit)
    ensures Collected([v]) == RecordsOf(v.dirs, v.files)
  {
    assert [v][..0] == [];
  }

  // --------------------------------------------- what the walk collects

  /**
   * `f` is listed in the directory reached from `children` through the
   * subdirectory names `dirs`, none of which the walk prunes.
   */
  ghost predicate ListedAt(children: seq<Node>, dirs: seq<string>, f: Node)
  {
    if dirs == [] then f in children
    else exists d :: d in children && Descended(d) && d.name == dirs[0] && ListedAt(d.children, dirs[1..], f)
  }

  lemma {:induction false} RecordsOfMember(dirs: seq<string>, files: seq<Node>, name: string, text: string)
    requires File(name, Some(text)) in files && AllowedFile(name)
    ensures FileRecord(dirs, name, text) in RecordsOf(dirs, files)
  {
    if files[0] != File(name, Some(text)) {
      RecordsOfMember(dirs, files[1..], name, text);
    }
  }

  lemma {:induction false} FilterFilesMember(children: seq<Node>, f: Node)
    requires f in children && f.File?
    ensures f in Filter(children, (n: Node) => n.File?)
  {
  }

  lemma {:induction false} WalkSubdirsMember(dirs: seq<string>, children: seq<Node>, d: Node, r: FileRecord)
    requires d in children && Descended(d)
    requires r in Collected(Walk(dirs + [d.name], d.children))
    ensures r in Collected(WalkSubdirs(dirs, children))
  {
    var first := children[0];
    var head := if Descended(first) then Walk(dirs + [first.name], first.children) else [];
    CollectedAppend(head, WalkSubdirs(dirs, children[1..]));
    if first != d {
      WalkSubdirsMember(dirs, children[1..], d, r);
    }
  }

  /**
   * The walk starts with the directory itself and its files, and every
   * directory it visits lies below the start by names that are not excluded.
   */
  lemma {:induction false} WalkPruned(dirs: seq<string>, children: seq<Node>, v: Visit)
    requires v in Walk(dirs, children)
    ensures Walk(dirs, children)[0] == Visit(dirs, Filter(children, (n: Node) => n.File?))
    ensures dirs <= v.dirs
    ensures forall k :: |dirs| <= k < |v.dirs| ==> v.dirs[k] !in ExcludedDirs
    decreases children, 1
  {
    if v != Walk(dirs, children)[0] {
      WalkSubdirsPruned(dirs, children, v);
    }
  }

  lemma {:induction false} WalkSubdirsPruned(dirs: seq<string>, children: seq<Node>, v: Visit)
    requires v in WalkSubdirs(dirs, children)
    ensures dirs <= v.dirs
    ensures forall k :: |dirs| <= k < |v.dirs| ==> v.dirs[k] !in ExcludedDirs
    decreases children, 0
  {
    var first := children[0];
    var head := if Descended(first) then Walk(dirs + [first.name], first.children) else [];
    if v in head {
      WalkPruned(dirs + [first.name], first.children, v);
      assert v.dirs[|dirs|] == first.name;
    } else {
      WalkSubdirsPruned(dirs, children[1..], v);
    }
  }

  /**
   * Completeness: every readable file of an allowed kind that is not below
   * an excluded directory is collected, under its relative path.
   */
  lemma {:induction false} CollectComplete(
    prefix: seq<string>, children: seq<Node>, dirs: seq<string>, name: string, text: string)
    requires ListedAt(children, dirs, File(name, Some(text))) && AllowedFile(name)
    ensures FileRecord(prefix + dirs, name, text) in Collected(Walk(prefix, children))
    decreases dirs
  {
    if dirs == [] {
      assert prefix + dirs == prefix;
      CollectHere(prefix, children, name, text);
    } else {
      var d :| d in children && Descended(d) && d.name == dirs[0] && ListedAt(d.children, dirs[1..], File(name, Some(text)));
      CollectComplete(prefix + [d.name], d.children, dirs[1..], name, text);
      assert prefix + [d.name] + dirs[1..] == prefix + dirs;
      CollectBelow(prefix, children, d, FileRecord(prefix + dirs, name, text));
    }
  }

  /** A file listed in the directory itself is collected with the directory's path. */
  lemma CollectHere(prefix: seq<string>, children: seq<Node>, name: string, text: string)
    requires File(name, Some(text)) in children && AllowedFile(name)
    ensures FileRecord(prefix, name, text) in Collected(Walk(prefix, children))
  {
    var here := Visit(prefix, Filter(children, (n: Node) => n.File?));
    CollectedAppend([here], WalkSubdirs(prefix, children));
    CollectedOne(here);
    FilterFilesMember(children, File(name, Some(text)));
    RecordsOfMember(prefix, here.files, name, text);
  }

  /** What the walk of a kept subdirectory collects, the walk of its parent collects too. */
  lemma CollectBelow(prefix: seq<string>, children: seq<Node>, d: Node, r: FileRecord)
    requires d in children && Descended(d)
    requires r in Collected(Walk(prefix + [d.name], d.children))
    ensures r in Collected(Walk(prefix, children))
  {
    var here := Visit(prefix, Filter(children, (n: Node) => n.File?));
    CollectedAppend([here], WalkSubdirs(prefix, children));
    WalkSubdirsMember(prefix, children, d, r);
  }

  lemma {:induction false} RecordsOfSound(dirs: seq<string>, files: seq<Node>, r: FileRecord)
    requires r in RecordsOf(dirs, files)
    ensures r.dirs == dirs && AllowedFile(r.name) && File(r.name, Some(r.content)) in files
  {
    var f := files[0];
    if !(f.File? && AllowedFile(f.name) && f.content.Some? && r == FileRecord(dirs, f.name, f.content.value)) {
      RecordsOfSound(dirs, files[1..], r);
    }
  }

  /**
   * Soundness: every collected record is a readable file of an allowed kind,
   * listed under its recorded path, which crosses no excluded directory.
   */
  lemma {:induction false} CollectSound(prefix: seq<string>, children: seq<Node>, r: FileRecord)
    requires r in Collected(Walk(prefix, children))
    ensures prefix <= r.dirs && AllowedFile(r.name)
    ensures ListedAt(children, r.dirs[|prefix|..], File(r.name, Some(r.content)))
    decreases children, 1
  {
    var here := Visit(prefix, Filter(children, (n: Node) => n.File?));
    CollectedAppend([here], WalkSubdirs(prefix, children));
    CollectedOne(here);
    if r in RecordsOf(prefix, here.files) {
      RecordsOfSound(prefix, here.files, r);
      assert r.dirs[|prefix|..] == [];
    } else {
      SubdirsSound(prefix, children, r);
    }
  }

  lemma {:induction false} SubdirsSound(prefix: seq<string>, children: seq<Node>, r: FileRecord)
    requires r in Collected(WalkSubdirs(prefix, children))
    ensures prefix <= r.dirs && AllowedFile(r.name)
    ensures ListedAt(children, r.dirs[|prefix|..], File(r.name, Some(r.content)))
    decreases children, 0
  {
    var first := children[0];
    var head := if Descended(first) then Walk(prefix + [first.name], first.children) else [];
    CollectedAppend(head, WalkSubdirs(prefix, children[1..]));
    if r in Collected(head) {
      CollectSound(prefix + [first.name], first.children, r);
      FirstSubdirListed(prefix, children, r);
    } else {
      SubdirsSound(prefix, children[1..], r);
      LaterSubdirListed(children, r.dirs[|prefix|..], File(r.name, Some(r.content)));
    }
  }

  /** A file found below the first subdirectory is listed below it. */
  lemma FirstSubdirListed(prefix: seq<string>, children: seq<Node>, r: FileRecord)
    requires children != [] && Descended(children[0])
    requires prefix + [children[0].name] <= r.dirs
    requires ListedAt(children[0].children, r.dirs[|prefix| + 1..], File(r.name, Some(r.content)))
    ensures prefix <= r.dirs
    ensures ListedAt(children, r.dirs[|prefix|..], File(r.name, Some(r.content)))
  {
    var first := children[0];
    var path := r.dirs[|prefix|..];
    assert path[0] == first.name;
    assert path[1..] == r.dirs[|prefix| + 1..];
  }

  /** What is listed from the later children is listed from all of them. */
  lemma LaterSubdirListed(children: seq<Node>, path: seq<string>, f: Node)
    requires children != [] && ListedAt(children[1..], path, f)
    ensures ListedAt(children, path, f)
  {
    if path != [] {
      var d :| d in children[1..] && Descended(d) && d.name == path[0] && ListedAt(d.children, path[1..], f);
      assert d in children;
    }
  }

  // ------------------------------------------------------------ URLs

  /** A character of `[^\s<>"{}|\\^`\[\])]`, the URL class of the script. */
  predicate PyUrlChar(c: char)
  {
    !IsPySpace(c) && c !in "<>\"{}|\\^`[])"
  }

  /** `extract_urls_from_text`: `re.findall` of the URL pattern. */
  function ExtractUrls(text: string): seq<string>
  {
    UrlScan.FindAll(text, PyUrlChar)
  }

  /**
   * Every extracted URL is a well-formed URL that occurs in the text, at a
   * place where the text ends or leaves the URL class right after it.
   */
  lemma ExtractUrlsSound(text: string)
    ensures forall u :: u in ExtractUrls(text) ==> UrlScan.WellFormed(u, PyUrlChar) && Contains(text, u)
    ensures forall u :: u in ExtractUrls(text) ==> exists i :: UrlScan.EndsRunAt(text, u, i, PyUrlChar)
  {
    UrlScan.FindAllSound(text, PyUrlChar);
    UrlScan.FindAllMaximal(text, PyUrlChar);
  }

  /**
   * A closing parenthesis ends a URL here: a text that starts with a URL
   * followed by `)` yields the URL without the parenthesis first.
   */
  lemma ParenthesisEndsUrl(u: string, rest: string)
    requires UrlScan.WellFormed(u, PyUrlChar)
    ensures ExtractUrls(u + ")" + rest) != [] && ExtractUrls(u + ")" + rest)[0] == u
  {
    var s := u + ")" + rest;
    assert s[..|u|] == u && s[|u|] == ')';
    UrlScan.LeadingUrl(s, PyUrlChar, |u|);
  }

  /** `any(domain in url for domain in domains)`. */
  predicate ImportantFor(domains: seq<string>, url: string)
  {
    exists k | 0 <= k < |domains| :: Contains(url, domains[k])
  }

  /** The test with the script's list of domains. */
  predicate Important(url: string)
  {
    ImportantFor(ImportantDomains, url)
  }

  /** A URL that contains one of the domains is important, and more domains never make one unimportant. */
  lemma ImportantForMonotone(domains: seq<string>, d: string, url: string)
    ensures ImportantFor(domains, url) ==> ImportantFor(domains + [d], url)
    ensures ImportantFor(domains + [d], url) <==> ImportantFor(domains, url) || Contains(url, d)
  {
    if ImportantFor(domains, url) {
      var k :| 0 <= k < |domains| && Contains(url, domains[k]);
      assert (domains + [d])[k] == domains[k];
    }
    if Contains(url, d) {
      assert (domains + [d])[|domains|] == d;
    }
    if ImportantFor(domains + [d], url) {
      var k :| 0 <= k < |domains| + 1 && Contains(url, (domains + [d])[k]);
      if k < |domains| {
        assert (domains + [d])[k] == domains[k];
      }
    }
  }

  function UrlSet(urls: seq<string>): set<string>
  {
    set k | 0 <= k < |urls| :: urls[k]
  }

  /** The set the first loop accumulates: every URL of every collected file. */
  function UrlsOf(files: seq<FileRecord>): set<string>
  {
    if files == [] then {}
    else UrlsOf(files[..|files| - 1]) + UrlSet(ExtractUrls(files[|files| - 1].content))
  }

  /** The visible text after the script's clean-up, or "" when the download failed. */
  function FetchContent(fetch: map<string, Option<string>>, url: string): string
  {
    if url in fetch && fetch[url].Some? then CleanLines(fetch[url].value) else ""
  }

  /** The records the download loop keeps, for URLs tried in the order given. */
  function PagesFor(urls: seq<string>, fetch: map<string, Option<string>>): seq<PageRecord>
  {
    PagesBy(urls, (u: string) => FetchContent(fetch, u))
  }

  /** The same for any way of getting a URL's content: a record for each URL whose content is not empty. */
  function PagesBy(urls: seq<string>, content: string -> string): seq<PageRecord>
  {
    if urls == [] then []
    else
      PagesBy(urls[..|urls| - 1], content)
      + (var c := content(urls[|urls| - 1]); if c != "" then [PageRecord(urls[|urls| - 1], c)] else [])
  }

  /**
   * `extract_and_fetch_urls`. The important URLs are tried in the iteration
   * order of a Python set, which the program does not fix: the model takes
   * them out of the set in an arbitrary order and returns that order.
   */
  method ExtractAndFetchUrls(filesData: seq<FileRecord>, fetch: map<string, Option<string>>)
    returns (urlData: seq<PageRecord>, filteredUrls: seq<string>)
    ensures Distinct(filteredUrls)
    ensures forall u :: u in filteredUrls <==> u in UrlsOf(filesData) && Important(u)
    ensures urlData == PagesFor(filteredUrls, fetch)
  {
    var allUrls := GatherUrls(filesData);
    filteredUrls := ImportantUrls(allUrls);
    urlData := FetchPages(filteredUrls, fetch);
  }

  /** The first loop: the URLs of all files, merged into one set. */
  method GatherUrls(filesData: seq<FileRecord>) returns (allUrls: set<string>)
    ensures allUrls == UrlsOf(filesData)
  {
    allUrls := {};
    for i := 0 to |filesData|
      invariant allUrls == UrlsOf(filesData[..i])
    {
      assert filesData[..i + 1][..i] == filesData[..i];
      allUrls := allUrls + UrlSet(ExtractUrls(filesData[i].content));
    }
    assert filesData[..|filesData|] == filesData;
  }

  /** The second loop: the important URLs of the set, each once, in the order they are taken out. */
  method ImportantUrls(allUrls: set<string>) returns (filteredUrls: seq<string>)
    ensures Distinct(filteredUrls)
    ensures forall u :: u in filteredUrls <==> u in allUrls && Important(u)
  {
    var remaining := allUrls;
    filteredUrls := [];
    while remaining != {}
      invariant remaining <= allUrls
      invariant Distinct(filteredUrls)
      invariant forall u :: u in filteredUrls <==> u in allUrls - remaining && Important(u)
      decreases |remaining|
    {
      var url :| url in remaining;
      remaining := remaining - {url};
      if Important(url) {
        filteredUrls := filteredUrls + [url];
      }
    }
  }

  /** The download loop: one record per URL whose cleaned content is not empty. */
  method FetchPages(filteredUrls: seq<string>, fetch: map<string, Option<string>>) returns (urlData: seq<PageRecord>)
    ensures urlData == PagesFor(filteredUrls, fetch)
  {
    urlData := [];
    for i := 0 to |filteredUrls|
      invariant urlData == PagesFor(filteredUrls[..i], fetch)
    {
      assert filteredUrls[..i + 1][..i] == filteredUrls[..i];
      var content := FetchContent(fetch, filteredUrls[i]);
      if content != "" {
        urlData := urlData + [PageRecord(filteredUrls[i], content)];
      }
    }
    assert filteredUrls[..|filteredUrls|] == filteredUrls;
  }

  /** Each page kept is an important URL with non-empty cleaned content. */
  lemma PagesForSound(urls: seq<string>, fetch: map<string, Option<string>>, p: PageRecord)
    requires p in PagesFor(urls, fetch)
    ensures p.url in urls && p.content == FetchContent(fetch, p.url) && p.content != ""
  {
    PagesBySound(urls, (u: string) => FetchContent(fetch, u), p);
  }

  lemma {:induction false} PagesBySound(urls: seq<string>, content: string -> string, p: PageRecord)
    requires p in PagesBy(urls, content)
    ensures p.url in urls && p.content == content(p.url) && p.content != ""
  {
    var init := urls[..|urls| - 1];
    if p in PagesBy(init, content) {
      PagesBySound(init, content, p);
    }
  }

  /** A URL whose cleaned content is not empty gets a page. */
  lemma PagesForComplete(urls: seq<string>, fetch: map<string, Option<string>>, u: string)
    requires u in urls && FetchContent(fetch, u) != ""
    ensures PageRecord(u, FetchContent(fetch, u)) in PagesFor(urls, fetch)
  {
    PagesByComplete(urls, (u: string) => FetchContent(fetch, u), u);
  }

  lemma {:induction false} PagesByComplete(urls: seq<string>, content: string -> string, u: string)
    requires u in urls && content(u) != ""
    ensures PageRecord(u, content(u)) in PagesBy(urls, content)
  {
    var init := urls[..|urls| - 1];
    if u != urls[|urls| - 1] {
      assert u in init by {
        var k :| 0 <= k < |urls| && urls[k] == u;
        assert init[k] == u;
      }
      PagesByComplete(init, content, u);
    }
  }

  // ------------------------------------------------------ page clean-up

  /**
   * `[line.strip() for line in text.splitlines() if line.strip()]`.
   * Splitting at every line-break character gives the same result as
   * `splitlines`: a `\r\n` pair only adds an empty piece, which is dropped.
   */
  function CleanedLines(text: string): seq<string>
  {
    Filter(StripAll(SplitBy(text, IsPyLineBreak)), (l: string) => l != "")
  }

  function StripAll(lines: seq<string>): (r: seq<string>)
    ensures |r| == |lines|
    ensures forall k :: 0 <= k < |r| ==> r[k] == PyStrip(lines[k])
  {
    seq(|lines|, k requires 0 <= k < |lines| => PyStrip(lines[k]))
  }

  /** The lines joined back with `\n`. */
  function CleanLines(text: string): string
  {
    Join(CleanedLines(text), "\n")
  }

  predicate NotPyLineBreak(c: char)
  {
    !IsPyLineBreak(c)
  }

  lemma StrippedLine(line: string)
    requires forall j :: 0 <= j < |line| ==> NotPyLineBreak(line[j])
    ensures forall j :: 0 <= j < |PyStrip(line)| ==> NotPyLineBreak(PyStrip(line)[j])
  {
    TrimKeepsClass(line, IsPySpace, NotPyLineBreak);
  }

  /**
   * The cleaned text has no blank line and no line with surrounding
   * whitespace: it is empty or its `\n`-separated lines are exactly the
   * kept lines, each non-empty and already stripped.
   */
  lemma CleanLinesShape(text: string)
    ensures var lines := CleanedLines(text);
      (lines == [] ==> CleanLines(text) == "")
      && (lines != [] ==> SplitBy(CleanLines(text), IsPyLineBreak) == lines)
      && forall k :: 0 <= k < |lines| ==> lines[k] != "" && PyStrip(lines[k]) == lines[k]
  {
    var lines := CleanedLines(text);
    KeptLinesClean(text);
    if lines != [] {
      assert forall k, j :: 0 <= k < |lines| && 0 <= j < |lines[k]| ==> !IsPyLineBreak(lines[k][j]) by {
        forall k, j | 0 <= k < |lines| && 0 <= j < |lines[k]|
          ensures !IsPyLineBreak(lines[k][j])
        {
          assert NoPyLineBreak(lines[k]);
        }
      }
      assert IsPyLineBreak('\n');
      SplitByJoin(lines, '\n', IsPyLineBreak);
    }
  }

  /** No character of `s` ends a line. */
  predicate NoPyLineBreak(s: string)
  {
    forall j :: 0 <= j < |s| ==> NotPyLineBreak(s[j])
  }

  /** Each kept line is non-empty, already stripped and free of line breaks. */
  lemma KeptLinesClean(text: string)
    ensures forall k :: 0 <= k < |CleanedLines(text)| ==>
      var l := CleanedLines(text)[k];
      l != "" && PyStrip(l) == l && NoPyLineBreak(l)
  {
    var pieces := SplitBy(text, IsPyLineBreak);
    var stripped := StripAll(pieces);
    forall k | 0 <= k < |stripped|
      ensures NoPyLineBreak(stripped[k]) && PyStrip(stripped[k]) == stripped[k]
    {
      assert forall j :: 0 <= j < |pieces[k]| ==> NotPyLineBreak(pieces[k][j]);
      StrippedLine(pieces[k]);
      StripIdempotent(pieces[k]);
    }
    var lines := CleanedLines(text);
    forall k | 0 <= k < |lines|
      ensures lines[k] != "" && PyStrip(lines[k]) == lines[k] && NoPyLineBreak(lines[k])
    {
      assert lines[k] in stripped;
    }
  }

  lemma StripIdempotent(s: string)
    ensures PyStrip(PyStrip(s)) == PyStrip(s)
  {
    TrimIdempotent(s, IsPySpace);
  }

  /** Cleaning twice changes nothing. */
  lemma CleanLinesIdempotent(text: string)
    ensures CleanLines(CleanLines(text)) == CleanLines(text)
  {
    var lines := CleanedLines(text);
    CleanLinesShape(text);
    if lines == [] {
      assert CleanLines(text) == "";
      assert SplitBy("", IsPyLineBreak) == [""];
      assert StripAll([""]) == [PyStrip("")];
    } else {
      var again := SplitBy(CleanLines(text), IsPyLineBreak);
      assert again == lines;
      assert StripAll(lines) == lines;
      FilterAll(lines, (l: string) => l != "");
    }
  }

  // ---------------------------------------------------------- dataset

  const FileSystemPrompt := "Ты - AI ассистент проекта TrustCheck Israel. Знаешь всю кодовую базу и документацию."
  const PageSystemPrompt := "Ты - AI ассистент проекта TrustCheck Israel с доступом к внешним источникам данных."
  const FaqSystemPrompt := "Ты - AI ассистент проекта TrustCheck Israel."

  function FileEntry(f: FileRecord): DatasetRecord
  {
    DatasetRecord("Объясни содержимое файла " + f.FilePath() + " в проекте TrustCheck Israel",
                  "", Take(f.content, OutputLimit), FileSystemPrompt)
  }

  function PageEntry(p: PageRecord): DatasetRecord
  {
    DatasetRecord("Какая информация доступна по ссылке " + p.url + "?",
                  "", Take(p.content, OutputLimit), PageSystemPrompt)
  }

  // The four fixed question/answer pairs about the project.
  const FaqQuestion1: string := "Что такое TrustCheck Israel?"
  const FaqAnswer1: string :=
    "TrustCheck Israel - это B2C платформа для проверки надежности израильских бизнесов. Целевая аудитория: родители, проверяющие частные бизнесы (детские сады, репетиторы) перед оплатой. Стек: Next.js 14 + PostgreSQL + Google Gemini AI + Docker."
  const FaqQuestion2: string := "Какие типы бизнесов проверяет TrustCheck?"
  const FaqAnswer2: string :=
    "TrustCheck проверяет 3 типа бизнесов: עוסק פטור (exempt business), עוסק מורשה (registered business), חברות בע״מ (Israeli LLC)."
  const FaqQuestion3: string := "Откуда берутся данные для проверки?"
  const FaqAnswer3: string :=
    "Данные собираются из 3 источников: 1) PostgreSQL кэш (datasets с data.gov.il - 716K компаний), 2) Real-time scraping (ica.justice.gov.il, court.gov.il), 3) Mock data для разработки (lib/checkid.ts)."
  const FaqQuestion4: string := "Как работает система оценки надежности?"
  const FaqAnswer4: string :=
    "Система использует Google Gemini 2.0 Flash для генерации Hebrew trust reports. Gemini анализирует unified data (companies_registry, legal_cases, execution_proceedings) и выдает trust score от 1.0 до 5.0 звезд."

  const Faq: seq<(string, string)> := [
    (FaqQuestion1, FaqAnswer1),
    (FaqQuestion2, FaqAnswer2),
    (FaqQuestion3, FaqAnswer3),
    (FaqQuestion4, FaqAnswer4)
  ]

  function FaqEntry(q: (string, string)): DatasetRecord
  {
    DatasetRecord(q.0, "", q.1, FaqSystemPrompt)
  }

  /**
   * `create_training_dataset`: the file records, then the page records, then
   * the FAQ records, each in its input order. The fixed question list of the
   * script is the parameter `faq`; `BuildDataset` passes `Faq`.
   */
  method CreateTrainingDataset(filesData: seq<FileRecord>, urlData: seq<PageRecord>, faq: seq<(string, string)>)
    returns (dataset: seq<DatasetRecord>)
    ensures |dataset| == |filesData| + |urlData| + |faq|
    ensures forall i :: 0 <= i < |filesData| ==> dataset[i] == FileEntry(filesData[i])
    ensures forall j :: 0 <= j < |urlData| ==> dataset[|filesData| + j] == PageEntry(urlData[j])
    ensures forall q :: 0 <= q < |faq| ==> dataset[|filesData| + |urlData| + q] == FaqEntry(faq[q])
  {
    var files := FileEntries(filesData);
    var pages := PageEntries(urlData);
    var questions := FaqEntries(faq);
    dataset := files + pages + questions;
    assert forall i :: 0 <= i < |filesData| ==> dataset[i] == files[i];
    assert forall j :: 0 <= j < |urlData| ==> dataset[|filesData| + j] == pages[j];
    assert forall q :: 0 <= q < |faq| ==> dataset[|filesData| + |urlData| + q] == questions[q];
  }

  /** The first loop of `create_training_dataset`: one record per file. */
  method FileEntries(filesData: seq<FileRecord>) returns (out: seq<DatasetRecord>)
    ensures |out| == |filesData| && forall i :: 0 <= i < |filesData| ==> out[i] == FileEntry(filesData[i])
  {
    out := [];
    for i := 0 to |filesData|
      invariant |out| == i
      invariant forall k :: 0 <= k < i ==> out[k] == FileEntry(filesData[k])
    {
      out := out + [FileEntry(filesData[i])];
    }
  }

  /** The second loop: one record per page. */
  method PageEntries(urlData: seq<PageRecord>) returns (out: seq<DatasetRecord>)
    ensures |out| == |urlData| && forall j :: 0 <= j < |urlData| ==> out[j] == PageEntry(urlData[j])
  {
    out := [];
    for j := 0 to |urlData|
      invariant |out| == j
      invariant forall k :: 0 <= k < j ==> out[k] == PageEntry(urlData[k])
    {
      out := out + [PageEntry(urlData[j])];
    }
  }

  /** The third loop: one record per question. */
  method FaqEntries(faq: seq<(string, string)>) returns (out: seq<DatasetRecord>)
    ensures |out| == |faq| && forall q :: 0 <= q < |faq| ==> out[q] == FaqEntry(faq[q])
  {
    out := [];
    for q := 0 to |faq|
      invariant |out| == q
      invariant forall k :: 0 <= k < q ==> out[k] == FaqEntry(faq[k])
    {
      out := out + [FaqEntry(faq[q])];
    }
  }

  /**
   * Every file and page record has an empty input and an output of at most
   * 4000 characters that begins the source text, and is the whole text when
   * that is short enough.
   */
  lemma EntryOutputs(f: FileRecord, p: PageRecord)
    ensures FileEntry(f).input == "" && PageEntry(p).input == ""
    ensures |FileEntry(f).output| <= OutputLimit && FileEntry(f).output <= f.content
    ensures |f.content| <= OutputLimit ==> FileEntry(f).output == f.content
    ensures |PageEntry(p).output| <= OutputLimit && PageEntry(p).output <= p.content
    ensures |p.content| <= OutputLimit ==> PageEntry(p).output == p.content
  {
  }

  /** There are four FAQ records. */
  lemma FaqSize()
    ensures |Faq| == 4
  {
  }

  /** The FAQ records have empty inputs and outputs within the limit. */
  lemma FaqOutputs()
    ensures forall q :: 0 <= q < |Faq| ==> FaqEntry(Faq[q]).input == "" && |FaqEntry(Faq[q]).output| <= OutputLimit
  {
  }

  /**
   * `main` without the final save: collect, fetch, assemble. One record per
   * collected file, one per page with content, and the four FAQ records.
   */
  method BuildDataset(root: seq<Node>, fetch: map<string, Option<string>>)
    returns (dataset: seq<DatasetRecord>, filesData: seq<FileRecord>, urlData: seq<PageRecord>)
    ensures filesData == Collected(Walk([], root))
    ensures forall p :: p in urlData ==> p.url in UrlsOf(filesData) && Important(p.url) && p.content != ""
    ensures |dataset| == |filesData| + |urlData| + 4
    ensures forall i :: 0 <= i < |filesData| ==> dataset[i] == FileEntry(filesData[i])
    ensures forall j :: 0 <= j < |urlData| ==> dataset[|filesData| + j] == PageEntry(urlData[j])
    ensures forall q :: 0 <= q < 4 ==> dataset[|filesData| + |urlData| + q] == FaqEntry(Faq[q])
  {
    var fileCount;
    filesData, fileCount := CollectProjectFiles(root);
    var filtered;
    urlData, filtered := ExtractAndFetchUrls(filesData, fetch);
    forall p | p in urlData
      ensures p.url in UrlsOf(filesData) && Important(p.url) && p.content != ""
    {
      PagesForSound(filtered, fetch, p);
    }
    dataset := CreateTrainingDataset(filesData, urlData, Faq);
    FaqSize();
  }
}
