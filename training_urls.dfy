/**
 * `app/api/admin/training/urls/route.ts`: up to ten URLs are fetched, the
 * readable text and the title of each page are extracted, the texts are
 * cut into 500-character pieces appended to the retrieval store, and the
 * run is logged. The fetches, the session check and the files are inputs;
 * timestamps are left out.
 */
module TrainingUrls {
  import opened Wrappers
  import opened Text
  import opened Seqs
  import opened Whitespace
  import Chunking

  // -------------------------------------------------- case-blind matching

  /** `pat` (written in lower case) opens `s`, ignoring the case of ASCII letters as a `/i` pattern does. */
  predicate CiPrefix(pat: string, s: string)
  {
    |pat| <= |s| && ToLower(s[..|pat|]) == pat
  }

  /** The first position of `s` from `from` on where `pat` matches, ignoring case. */
  function CiIndexFrom(s: string, pat: string, from: nat): (r: Option<nat>)
    requires from <= |s|
    ensures r.Some? ==> from <= r.value && r.value + |pat| <= |s| && CiPrefix(pat, s[r.value..])
    ensures r.Some? ==> forall k :: from <= k < r.value ==> !CiPrefix(pat, s[k..])
    ensures r.None? ==> forall k :: from <= k <= |s| ==> !CiPrefix(pat, s[k..])
    decreases |s| - from
  {
    if CiPrefix(pat, s[from..]) then Some(from)
    else if from == |s| then None
    else CiIndexFrom(s, pat, from + 1)
  }

  predicate AnyChar(c: char)
  {
    true
  }

  /** A character `.` matches: anything but a line terminator. */
  predicate NotLineTerminator(c: char)
  {
    !(c == '\n' || c == '\r' || c == '\U{2028}' || c == '\U{2029}')
  }

  /** Where an element match lies: its content is `s[contentStart..contentEnd]`, the match is `s[..end]`. */
  datatype Span = Span(contentStart: nat, contentEnd: nat, end: nat)

  /**
   * A match of `<tag[^>]*>(inner*?)</tag>` (case-blind) at the front of `s`:
   * the opening tag runs to its first `>`, and the content is the shortest
   * run of `inner` characters followed by the closing tag.
   */
  function ElementAt(s: string, tag: string, inner: char -> bool): (m: Option<Span>)
    ensures m.Some? ==> IsElement(s, tag, inner, m.value)
  {
    var open := "<" + tag;
    if !CiPrefix(open, s) then None
    else
      var gt := |open| + FindChar(s[|open|..], '>');
      if gt >= |s| then None
      else
        var start := gt + 1;
        var close := "</" + tag + ">";
        match CiIndexFrom(s, close, start)
        case None => None
        case Some(e) =>
          if forall j :: start <= j < e ==> inner(s[j]) then
            assert forall j :: |open| <= j < gt ==> s[j] == s[|open|..][j - |open|];
            Some(Span(start, e, e + |close|))
          else None
  }

  /**
   * `sp` is the element match at the front of `s`: the opening tag, up to
   * its first `>`; then `inner` characters up to the first closing tag.
   */
  predicate IsElement(s: string, tag: string, inner: char -> bool, sp: Span)
  {
    && |tag| + 2 <= sp.contentStart <= sp.contentEnd && sp.end == sp.contentEnd + |tag| + 3 <= |s|
    && CiPrefix("<" + tag, s) && s[sp.contentStart - 1] == '>'
    && (forall j :: |tag| + 1 <= j < sp.contentStart - 1 ==> s[j] != '>')
    && (forall j :: sp.contentStart <= j < sp.contentEnd ==> inner(s[j]))
    && CiPrefix("</" + tag + ">", s[sp.contentEnd..])
    && (forall j :: sp.contentStart <= j < sp.contentEnd ==> !CiPrefix("</" + tag + ">", s[j..]))
  }

  /** Every element match at the front of `s` is the one found. */
  lemma ElementAtComplete(s: string, tag: string, inner: char -> bool, sp: Span)
    requires IsElement(s, tag, inner, sp)
    ensures ElementAt(s, tag, inner) == Some(sp)
  {
    OpeningTagEnd(s, tag, inner, sp);
    ClosingTagFound(s, tag, inner, sp);
  }

  /** The opening tag of a match ends at the first `>` after its name. */
  lemma OpeningTagEnd(s: string, tag: string, inner: char -> bool, sp: Span)
    requires IsElement(s, tag, inner, sp)
    ensures |tag| + 1 + FindChar(s[|tag| + 1..], '>') == sp.contentStart - 1
  {
    var u := s[|tag| + 1..];
    var g := FindChar(u, '>');
    var d := sp.contentStart - 1 - (|tag| + 1);
    assert u[d] == '>';
    assert forall j :: 0 <= j < d ==> u[j] != '>' by {
      assert forall j :: 0 <= j < d ==> u[j] == s[|tag| + 1 + j];
    }
  }

  /** The content of a match ends at the first closing tag after the opening one. */
  lemma ClosingTagFound(s: string, tag: string, inner: char -> bool, sp: Span)
    requires IsElement(s, tag, inner, sp)
    ensures CiIndexFrom(s, "</" + tag + ">", sp.contentStart) == Some(sp.contentEnd)
  {
  }

  /** `replace(/<tag[^>]*>[\s\S]*?<\/tag>/gi, '')`: every element, tags and content, is deleted. */
  function RemoveElements(s: string, tag: string): (r: string)
    ensures |r| <= |s|
    decreases |s|
  {
    if s == [] then []
    else match ElementAt(s, tag, AnyChar)
      case Some(sp) => RemoveElements(s[sp.end..], tag)
      case None => [s[0]] + RemoveElements(s[1..], tag)
  }

  /** A text with no opening tag of the element is left as it is. */
  lemma {:induction false} NoElementUnchanged(s: string, tag: string)
    requires forall k :: 0 <= k <= |s| ==> !CiPrefix("<" + tag, s[k..])
    ensures RemoveElements(s, tag) == s
    decreases |s|
  {
    if s != [] {
      assert s[0..] == s;
      assert forall k :: 0 <= k <= |s| - 1 ==> s[1..][k..] == s[k + 1..];
      NoElementUnchanged(s[1..], tag);
    }
  }

  /**
   * Every `<` left by `replace(/<[^>]+>/g, ' ')` either is directly followed
   * by `>` or has no `>` anywhere after it.
   */
  predicate NoTagLeft(r: string)
  {
    forall i :: 0 <= i < |r| && r[i] == '<' ==> (i + 1 < |r| && r[i + 1] == '>') || '>' !in r[i + 1..]
  }

  /** `replace(/<[^>]+>/g, ' ')`: each tag becomes a space. */
  function StripTags(s: string): (r: string)
    ensures NoTagLeft(r)
    ensures '>' in r ==> '>' in s
    ensures s != [] && s[0] == '>' ==> r != [] && r[0] == '>'
    decreases |s|
  {
    if s == [] then []
    else
      var g := FindChar(s[1..], '>');
      if s[0] == '<' && g >= 1 && g < |s| - 1 then
        var rest := StripTags(s[g + 2..]);
        SuffixMember(s, g + 2, '>');
        NoTagCons(' ', rest);
        [' '] + rest
      else
        var rest := StripTags(s[1..]);
        SuffixMember(s, 1, '>');
        assert s[0] == '<' && |s| >= 2 ==> (g == 0 && s[1] == '>') || '>' !in s[1..] by {
          if s[0] == '<' && |s| >= 2 && g != 0 {
            assert s[1..][..g] == s[1..];
          }
        }
        NoTagCons(s[0], rest);
        [s[0]] + rest
  }

  /** A text without `<` has no tag to strip. */
  lemma {:induction false} NoTagUnchanged(s: string)
    requires '<' !in s
    ensures StripTags(s) == s
    decreases |s|
  {
    if s != [] {
      assert s[0] != '<' && '<' !in s[1..];
      NoTagUnchanged(s[1..]);
    }
  }

  /** A text without `<` in front of another passes through unchanged. */
  lemma {:induction false} KeptPrefix(a: string, rest: string)
    requires '<' !in a
    ensures StripTags(a + rest) == a + StripTags(rest)
    decreases |a|
  {
    if a != [] {
      assert a[0] != '<' && '<' !in a[1..];
      assert (a + rest)[1..] == a[1..] + rest;
      KeptPrefix(a[1..], rest);
      AppendAssoc([a[0]], a[1..], StripTags(rest));
      assert a == [a[0]] + a[1..];
    } else {
      assert a + rest == rest;
    }
  }

  /**
   * A tag `<t>` (a non-empty `t` without `>`) after a text without `<`
   * becomes one space, and the rest is stripped on its own.
   */
  lemma TagBecomesSpace(a: string, t: string, b: string)
    requires '<' !in a && t != [] && '>' !in t
    ensures StripTags(a + "<" + t + ">" + b) == a + " " + StripTags(b)
  {
    var r := "<" + t + ">" + b;
    assert a + "<" + t + ">" + b == a + r;
    KeptPrefix(a, r);
    TagFound(t, b);
    assert r[|t| + 2..] == b;
    AppendAssoc(a, " ", StripTags(b));
  }

  /** At a `<`, the closing `>` of a tag body without `>` is the first one. */
  lemma TagFound(t: string, b: string)
    requires '>' !in t
    ensures var s := "<" + t + ">" + b; FindChar(s[1..], '>') == |t|
  {
    var s := "<" + t + ">" + b;
    var u := s[1..];
    assert u == t + ">" + b;
    var g := FindChar(u, '>');
    assert u[|t|] == '>';
  }

  /** A character of a suffix is a character of the string. */
  lemma SuffixMember(s: string, k: nat, c: char)
    requires k <= |s|
    ensures c in s[k..] ==> c in s
  {
    if c in s[k..] {
      var j :| 0 <= j < |s[k..]| && s[k..][j] == c;
      assert s[k + j] == c;
    }
  }

  /** Putting a character in front keeps `NoTagLeft` when a `<` is followed by `>` or by no `>` at all. */
  lemma NoTagCons(c: char, rest: string)
    requires NoTagLeft(rest)
    requires c == '<' ==> (rest != [] && rest[0] == '>') || '>' !in rest
    ensures NoTagLeft([c] + rest)
  {
    var r := [c] + rest;
    assert r[1..] == rest;
    assert forall i :: 1 <= i < |r| ==> r[i + 1..] == rest[i..];
  }

  /** The readable text of a page: scripts and styles deleted, tags spaced, whitespace collapsed and trimmed. */
  function PageText(html: string): string
  {
    JsTrim(CollapseSpaces(StripTags(RemoveElements(RemoveElements(html, "script"), "style"))))
  }

  /** `textContent.slice(0, 5000)`. */
  function ScrapedContent(html: string): string
  {
    Take(PageText(html), 5000)
  }

  /**
   * The stored content is at most 5000 characters of the page text: it
   * starts with no whitespace and never has two whitespace characters side
   * by side. (The cut may end it on a space.)
   */
  lemma ScrapedContentShape(html: string)
    ensures var c := ScrapedContent(html);
      && |c| <= 5000 && c <= PageText(html)
      && (c == [] || !IsJsSpace(c[0]))
      && NoDoubleRun(c, IsJsSpace)
  {
    var collapsed := CollapseSpaces(StripTags(RemoveElements(RemoveElements(html, "script"), "style")));
    TrimKeepsSpacing(collapsed, IsJsSpace);
    var t := PageText(html);
    var c := ScrapedContent(html);
    assert forall k :: 0 <= k < |c| ==> c[k] == t[k];
  }

  /** The first title element whose content has no line break, scanning from the left. */
  function FindTitle(html: string): (t: Option<string>)
    ensures t.Some? ==> Contains(html, t.value) && forall k :: 0 <= k < |t.value| ==> NotLineTerminator(t.value[k])
    decreases |html|
  {
    if html == [] then None
    else match ElementAt(html, "title", NotLineTerminator)
      case Some(sp) =>
        var t := html[sp.contentStart..sp.contentEnd];
        ContainsAt(html, t, sp.contentStart);
        Some(t)
      case None =>
        var t := FindTitle(html[1..]);
        assert t.Some? ==> Contains(html, t.value) by {
          if t.Some? {
            ContainsAt(html, html[1..], 1);
            ContainsTrans(html, html[1..], t.value);
          }
        }
        t
  }

  /** The title element match that starts at position `j`, if any. */
  function TitleAt(html: string, j: nat): Option<Span>
    requires j <= |html|
  {
    ElementAt(html[j..], "title", NotLineTerminator)
  }

  /** The leftmost title element is the one found. */
  lemma FindTitleLeftmost(html: string, i: nat, sp: Span)
    requires i < |html| && TitleAt(html, i) == Some(sp)
    requires forall j :: 0 <= j < i ==> TitleAt(html, j).None?
    ensures FindTitle(html) == Some(html[i + sp.contentStart..i + sp.contentEnd])
  {
    FindTitleSkipTo(html, i);
    FindTitleFrom(html, i, sp);
  }

  /** The title element at position `i` is found by a scan that starts there. */
  lemma FindTitleFrom(html: string, i: nat, sp: Span)
    requires i < |html| && TitleAt(html, i) == Some(sp)
    ensures FindTitle(html[i..]) == Some(html[i + sp.contentStart..i + sp.contentEnd])
  {
    FindTitleHere(html[i..], sp);
    SliceOfSuffix(html, i, sp.contentStart, sp.contentEnd);
  }

  /** Positions where no title element starts are passed over. */
  lemma {:induction false} FindTitleSkipTo(html: string, i: nat)
    requires i <= |html|
    requires forall j :: 0 <= j < i ==> TitleAt(html, j).None?
    ensures FindTitle(html) == FindTitle(html[i..])
  {
    assert html[0..] == html;
    if i > 0 {
      assert TitleAt(html, 0).None?;
      FindTitleSkip(html);
      var t := html[1..];
      forall j | 0 <= j < i - 1
        ensures TitleAt(t, j).None?
      {
        assert t[j..] == html[j + 1..];
        assert TitleAt(html, j + 1).None?;
      }
      FindTitleSkipTo(t, i - 1);
      assert t[i - 1..] == html[i..];
    }
  }

  /** Without a title element anywhere, none is found. */
  lemma FindTitleAbsent(html: string)
    requires forall j :: 0 <= j < |html| ==> TitleAt(html, j).None?
    ensures FindTitle(html) == None
  {
    FindTitleSkipTo(html, |html|);
    assert html[|html|..] == [];
  }

  lemma FindTitleHere(html: string, sp: Span)
    requires html != [] && ElementAt(html, "title", NotLineTerminator) == Some(sp)
    ensures FindTitle(html) == Some(html[sp.contentStart..sp.contentEnd])
  {
  }

  lemma FindTitleSkip(html: string)
    requires html != [] && ElementAt(html, "title", NotLineTerminator).None?
    ensures FindTitle(html) == FindTitle(html[1..])
  {
  }

  /** `titleMatch ? titleMatch[1].trim() : url`. */
  function Title(html: string, url: string): (title: string)
    ensures FindTitle(html).None? ==> title == url
    ensures FindTitle(html).Some? ==> title == JsTrim(FindTitle(html).value)
  {
    match FindTitle(html)
    case Some(t) => JsTrim(t)
    case None => url
  }

  // ------------------------------------------------------------- scraping

  /** What the fetch of one URL gave: an exception (network error, timeout), or a response. */
  datatype FetchOutcome = Unreachable | Fetched(ok: bool, html: string)

  datatype Scrape = Scrape(content: string, title: string)

  /** `scrapeUrl`: nothing for an exception or a non-OK response. */
  function ScrapeUrl(url: string, outcome: FetchOutcome): (r: Option<Scrape>)
    ensures r.Some? <==> outcome.Fetched? && outcome.ok
    ensures r.Some? ==> r.value.content == ScrapedContent(outcome.html) && |r.value.content| <= 5000
    ensures r.Some? ==> r.value.title == Title(outcome.html, url)
  {
    match outcome
    case Unreachable => None
    case Fetched(ok, html) => if !ok then None else Some(Scrape(ScrapedContent(html), Title(html, url)))
  }

  /** The present values, in order (`filter(r => r !== null)`). */
  function Present(xs: seq<Option<Scrape>>): (r: seq<Scrape>)
    ensures |r| <= |xs|
  {
    if xs == [] then []
    else
      var init := Present(xs[..|xs| - 1]);
      if xs[|xs| - 1].Some? then init + [xs[|xs| - 1].value] else init
  }

  /** The successful scrapes of the first ten URLs; `outcomes[k]` is what fetching `urls[k]` gives. */
  function SuccessfulScrapes(urls: seq<string>, outcomes: seq<FetchOutcome>): (r: seq<Scrape>)
    requires |outcomes| == |urls|
    ensures |r| <= 10 && |r| <= |urls|
  {
    Present(Answers(urls, outcomes))
  }

  /** `urls.slice(0, 10).map(url => scrapeUrl(url))`. */
  function Answers(urls: seq<string>, outcomes: seq<FetchOutcome>): (xs: seq<Option<Scrape>>)
    requires |outcomes| == |urls|
    ensures |xs| == if |urls| <= 10 then |urls| else 10
    ensures forall k :: 0 <= k < |xs| ==> xs[k] == ScrapeUrl(urls[k], outcomes[k])
  {
    var batch := Take(urls, 10);
    seq(|batch|, k requires 0 <= k < |batch| => ScrapeUrl(batch[k], outcomes[k]))
  }

  /** A scrape is kept exactly when it is one of the present values. */
  lemma {:induction false} PresentIff(xs: seq<Option<Scrape>>, sc: Scrape)
    ensures sc in Present(xs) <==> Some(sc) in xs
    decreases |xs|
  {
    if xs != [] {
      PresentIff(xs[..|xs| - 1], sc);
      assert xs == xs[..|xs| - 1] + [xs[|xs| - 1]];
    }
  }

  /** The successful scrapes are exactly the answers of the first ten URLs that were fetched with success. */
  lemma SuccessfulScrapesIff(urls: seq<string>, outcomes: seq<FetchOutcome>, sc: Scrape)
    requires |outcomes| == |urls|
    ensures sc in SuccessfulScrapes(urls, outcomes) <==>
      exists k :: 0 <= k < |urls| && k < 10 && ScrapeUrl(urls[k], outcomes[k]) == Some(sc)
  {
    var xs := Answers(urls, outcomes);
    PresentIff(xs, sc);
    if Some(sc) in xs {
      var k :| 0 <= k < |xs| && xs[k] == Some(sc);
    }
    if exists k :: 0 <= k < |urls| && k < 10 && ScrapeUrl(urls[k], outcomes[k]) == Some(sc) {
      var k :| 0 <= k < |urls| && k < 10 && ScrapeUrl(urls[k], outcomes[k]) == Some(sc);
      assert xs[k] == Some(sc);
    }
  }

  // ------------------------------------------------------------ chunking

  datatype VectorChunk = VectorChunk(
    content: string, documentId: Option<string>, title: string, source: string, chunkIndex: nat)

  /** The pieces stored for one scrape. */
  function ChunksOf(sc: Scrape, documentId: Option<string>): (cs: seq<VectorChunk>)
    ensures |cs| == CeilDiv(|sc.content|, Chunking.ChunkSize)
  {
    var n := CeilDiv(|sc.content|, Chunking.ChunkSize);
    seq(n, k requires 0 <= k < n =>
      VectorChunk(Chunking.PieceAt(sc.content, k), documentId, sc.title, "web_scraping", k))
  }

  function AllChunks(scrapes: seq<Scrape>, documentId: Option<string>): seq<VectorChunk>
  {
    if scrapes == [] then []
    else AllChunks(scrapes[..|scrapes| - 1], documentId) + ChunksOf(scrapes[|scrapes| - 1], documentId)
  }

  function ContentsOf(cs: seq<VectorChunk>): (r: seq<string>)
    ensures |r| == |cs| && forall k :: 0 <= k < |r| ==> r[k] == cs[k].content
  {
    seq(|cs|, k requires 0 <= k < |cs| => cs[k].content)
  }

  /** The pieces of a scrape cover its content; piece k has index k, the page title and the fixed source. */
  lemma ChunksOfSliced(sc: Scrape, documentId: Option<string>)
    ensures Chunking.Sliced(sc.content, ContentsOf(ChunksOf(sc, documentId)))
    ensures Flatten(ContentsOf(ChunksOf(sc, documentId))) == sc.content
    ensures forall k :: 0 <= k < |ChunksOf(sc, documentId)| ==>
      var c := ChunksOf(sc, documentId)[k];
      c.chunkIndex == k && c.title == sc.title && c.documentId == documentId && c.source == "web_scraping"
  {
    Chunking.SlicedConcat(sc.content, ContentsOf(ChunksOf(sc, documentId)));
  }

  /** The inner loop of the route: one scrape cut into numbered pieces. */
  method ChunkScrape(scrape: Scrape, documentId: Option<string>) returns (pieces: seq<VectorChunk>)
    ensures pieces == ChunksOf(scrape, documentId)
  {
    ghost var want := ChunksOf(scrape, documentId);
    pieces := [];
    var i := 0;
    ghost var k := 0;
    while i < |scrape.content|
      invariant i == Chunking.ChunkSize * k && k <= |want|
      invariant pieces == want[..k]
      decreases |scrape.content| - i
    {
      var piece := scrape.content[i..Chunking.Min(i + Chunking.ChunkSize, |scrape.content|)];
      assert want[k] == VectorChunk(piece, documentId, scrape.title, "web_scraping", i / Chunking.ChunkSize);
      pieces := pieces + [VectorChunk(piece, documentId, scrape.title, "web_scraping", i / Chunking.ChunkSize)];
      assert want[..k + 1] == want[..k] + [want[k]];
      i := i + Chunking.ChunkSize;
      k := k + 1;
    }
    assert want[..k] == want;
  }

  /** One more scrape adds its pieces at the end. */
  lemma AllChunksStep(scrapes: seq<Scrape>, s: nat, documentId: Option<string>)
    requires s < |scrapes|
    ensures AllChunks(scrapes[..s + 1], documentId) == AllChunks(scrapes[..s], documentId) + ChunksOf(scrapes[s], documentId)
  {
    assert scrapes[..s + 1][..s] == scrapes[..s];
  }

  /** The nested loop of the route: the pieces of every successful scrape, in order, after the stored ones. */
  method VectorizeScrapes(scrapes: seq<Scrape>, documentId: Option<string>, documents: seq<VectorChunk>)
    returns (out: seq<VectorChunk>)
    ensures out == documents + AllChunks(scrapes, documentId)
  {
    out := documents;
    for s := 0 to |scrapes|
      invariant out == documents + AllChunks(scrapes[..s], documentId)
    {
      AllChunksStep(scrapes, s, documentId);
      var pieces := ChunkScrape(scrapes[s], documentId);
      AppendAssoc(documents, AllChunks(scrapes[..s], documentId), pieces);
      out := out + pieces;
    }
    assert scrapes[..|scrapes|] == scrapes;
  }

  // ---------------------------------------------------------------- route

  datatype LogEntry = LogEntry(documentId: Option<string>, urlsProcessed: nat, totalUrls: nat)

  datatype Reply = Failed(status: nat, error: string) | Trained(urlsProcessed: nat, totalUrls: nat)

  /**
   * `POST`: `parsed` says whether the body was a JSON object (reading it
   * did not throw); `urls` is its field when it is an array, absent
   * otherwise; `vectorDbFile` and `logsFile` are the stored lists (absent
   * when the file is missing or unreadable). The two written lists are
   * returned, or nothing when the route stops early.
   */
  method PostTrainingUrls(
    authenticated: bool, parsed: bool, documentId: Option<string>, urls: Option<seq<string>>, outcomes: seq<FetchOutcome>,
    vectorDbFile: Option<seq<VectorChunk>>, logsFile: Option<seq<LogEntry>>)
    returns (reply: Reply, vectorDb: Option<seq<VectorChunk>>, logs: Option<seq<LogEntry>>)
    requires urls.Some? ==> |outcomes| == |urls.value|
    ensures !authenticated ==> reply == Failed(401, "Unauthorized")
    ensures authenticated && !parsed ==> reply == Failed(500, "Training failed")
    ensures authenticated && parsed && (urls.None? || urls.value == []) ==> reply == Failed(400, "URLs array required")
    ensures authenticated && parsed && urls.Some? && urls.value != [] ==>
      var ok := SuccessfulScrapes(urls.value, outcomes);
      && (ok == [] ==> reply == Failed(500, "Failed to scrape any URLs"))
      && (ok != [] ==>
            && reply == Trained(|ok|, |urls.value|)
            && vectorDb == Some(vectorDbFile.GetOr([]) + AllChunks(ok, documentId))
            && logs == Some(logsFile.GetOr([]) + [LogEntry(documentId, |ok|, |urls.value|)]))
    ensures reply.Failed? <==> vectorDb.None?
    ensures vectorDb.None? <==> logs.None?
    ensures reply.Trained? ==> 0 < reply.urlsProcessed <= 10 && reply.urlsProcessed <= reply.totalUrls
  {
    if !authenticated {
      return Failed(401, "Unauthorized"), None, None;
    }
    if !parsed {
      return Failed(500, "Training failed"), None, None;
    }
    if urls.None? || |urls.value| == 0 {
      return Failed(400, "URLs array required"), None, None;
    }
    var successful := SuccessfulScrapes(urls.value, outcomes);
    if |successful| == 0 {
      return Failed(500, "Failed to scrape any URLs"), None, None;
    }
    var documents := VectorizeScrapes(successful, documentId, vectorDbFile.GetOr([]));
    vectorDb := Some(documents);
    logs := Some(logsFile.GetOr([]) + [LogEntry(documentId, |successful|, |urls.value|)]);
    reply := Trained(|successful|, |urls.value|);
  }
}
