/**
 * `app/api/admin/documents/upload/route.ts`: what the upload route does to
 * a document before storing it: the text is taken from the file according
 * to its extension, the URLs in it are listed, and it is cut into 500-
 * character pieces for the retrieval store. The file's bytes enter already
 * decoded as UTF-8; the session check, the writes and the generated ids
 * are left out.
 */
module DocumentUpload {
  import opened Wrappers
  import opened Text
  import opened Seqs
  import opened Whitespace
  import UrlScan
  import Chunking

  // ----------------------------------------------------------------- URLs

  /** A character of `[^\s<>"{}|\\^`\[\]]`: unlike the Python extractor's class, `)` is allowed. */
  predicate UrlChar(c: char)
  {
    !IsJsSpace(c) && c !in "<>\"{}|\\^`[]"
  }

  /** `extractUrls`: the matches of the URL pattern, each once, in order of first occurrence. */
  function ExtractUrls(text: string): (urls: seq<string>)
    ensures Distinct(urls)
    ensures forall k :: 0 <= k < |urls| ==> UrlScan.WellFormed(urls[k], UrlChar) && Contains(text, urls[k])
    ensures forall u :: u in urls <==> u in UrlScan.FindAll(text, UrlChar)
    ensures forall i, j :: 0 <= i < j < |urls| ==>
      FirstIndex(UrlScan.FindAll(text, UrlChar), urls[i]) < FirstIndex(UrlScan.FindAll(text, UrlChar), urls[j])
  {
    var matches := UrlScan.FindAll(text, UrlChar);
    UrlScan.FindAllSound(text, UrlChar);
    DedupFirstOccurrence(matches);
    Dedup(matches)
  }

  /**
   * A closing parenthesis right after a URL stays part of it: a text that
   * starts with a URL, then `)`, then a character outside the class yields
   * the URL with its parenthesis first.
   */
  lemma ParenthesisKept(u: string, rest: string)
    requires UrlScan.WellFormed(u, UrlChar)
    requires rest == [] || !UrlChar(rest[0])
    ensures ExtractUrls(u + ")" + rest) != [] && ExtractUrls(u + ")" + rest)[0] == u + ")"
  {
    var s := u + ")" + rest;
    assert s[..|u|] == u && s[..|u| + 1] == u + ")";
    UrlScan.SchemeOfPrefixBack(s, |u|);
    UrlScan.SchemeOfPrefix(s, |u| + 1);
    assert UrlScan.WellFormed(s[..|u| + 1], UrlChar);
    UrlScan.LeadingUrl(s, UrlChar, |u| + 1);
    DedupHead(UrlScan.FindAll(s, UrlChar));
  }

  // ------------------------------------------------------------ extension

  /** The position of the last `.` of `s`, if any. */
  function LastDot(s: string): (i: Option<nat>)
    ensures i.Some? ==> i.value < |s| && s[i.value] == '.' && forall j :: i.value < j < |s| ==> s[j] != '.'
    ensures i.None? ==> forall j :: 0 <= j < |s| ==> s[j] != '.'
  {
    if s == [] then None
    else if s[|s| - 1] == '.' then Some(|s| - 1)
    else LastDot(s[..|s| - 1])
  }

  /**
   * `path.extname` of a base name: from the last `.` to the end, except
   * when that dot opens the name (a dot file) or the name is `..`.
   */
  function Extname(name: string): (e: string)
    ensures e == [] || (e[0] == '.' && |e| < |name| && name == name[..|name| - |e|] + e)
    ensures e != [] ==> forall j :: 1 <= j < |e| ==> e[j] != '.'
  {
    match LastDot(name)
    case None => ""
    case Some(i) =>
      if i == 0 || name == ".." then "" else
      assert name == name[..i] + name[i..];
      name[i..]
  }

  /** A name `base.ext` with a non-empty base has the extension `.ext`. */
  lemma ExtnameOfName(base: string, ext: string)
    requires base != [] && base != "." && forall j :: 0 <= j < |ext| ==> ext[j] != '.'
    ensures Extname(base + "." + ext) == "." + ext
  {
    var name := base + "." + ext;
    assert name[|base|] == '.';
    assert forall j :: |base| < j < |name| ==> name[j] == ext[j - |base| - 1];
    assert name[..|base|] == base;
    assert name[|base|..] == "." + ext;
  }

  datatype FileKind = PlainText | Pdf | Word | OtherKind

  /** The branch of `extractTextFromFile` taken for a file name; the extension is compared in lower case. */
  function KindOf(filename: string): FileKind
  {
    KindOfExtension(ToLower(Extname(filename)))
  }

  /** The branch taken for a lower-cased extension. */
  function KindOfExtension(ext: string): FileKind
  {
    if ext == ".txt" || ext == ".md" then PlainText
    else if ext == ".pdf" then Pdf
    else if ext == ".doc" || ext == ".docx" then Word
    else OtherKind
  }

  // ------------------------------------------------------------- cleaning

  /** `[\x20-\x7E\n\r֐-׿Ѐ-ӿ]`: printable ASCII, line ends, Hebrew, Cyrillic. */
  predicate Allowed(c: char)
  {
    (' ' <= c <= '~') || c == '\n' || c == '\r' || ('\U{0590}' <= c <= '\U{05FF}') || ('\U{0400}' <= c <= '\U{04FF}')
  }

  /** `replace(/[^…]/g, ' ')`: every character outside the class becomes a space. */
  function ReplaceDisallowed(s: string): (r: string)
    ensures |r| == |s|
    ensures forall k :: 0 <= k < |r| ==> Allowed(r[k])
    ensures forall k :: 0 <= k < |r| ==> r[k] == if Allowed(s[k]) then s[k] else ' '
  {
    seq(|s|, k requires 0 <= k < |s| => if Allowed(s[k]) then s[k] else ' ')
  }

  /** The cleaning of PDF and Word files: replacement, collapsing and trimming. */
  function CleanText(s: string): string
  {
    JsTrim(CollapseSpaces(ReplaceDisallowed(s)))
  }

  /**
   * Cleaned text has no whitespace at either end, no two whitespace
   * characters side by side, and no whitespace but the space.
   */
  lemma CleanTextSpacing(s: string)
    ensures var r := CleanText(s);
      && (r == [] || (!IsJsSpace(r[0]) && !IsJsSpace(r[|r| - 1])))
      && NoDoubleRun(r, IsJsSpace)
      && (forall k :: 0 <= k < |r| && IsJsSpace(r[k]) ==> r[k] == ' ')
  {
    TrimKeepsSpacing(CollapseSpaces(ReplaceDisallowed(s)), IsJsSpace);
  }

  /** Cleaned text consists of allowed characters only. */
  lemma CleanTextAllowed(s: string)
    ensures forall k :: 0 <= k < |CleanText(s)| ==> Allowed(CleanText(s)[k])
  {
    CollapseKeepsClass(ReplaceDisallowed(s), IsJsSpace, Allowed);
    TrimKeepsClass(CollapseSpaces(ReplaceDisallowed(s)), IsJsSpace, Allowed);
  }

  predicate NotJsSpace(c: char)
  {
    !IsJsSpace(c)
  }

  /** Cleaning keeps every non-whitespace character of the replaced text, in order. */
  lemma CleanTextKeepsText(s: string)
    ensures Filter(CleanText(s), NotJsSpace) == Filter(ReplaceDisallowed(s), NotJsSpace)
  {
    var c := CollapseSpaces(ReplaceDisallowed(s));
    var a := TrimStart(c, IsJsSpace);
    TrimStartKeepsText(c, IsJsSpace, NotJsSpace);
    TrimEndKeepsText(a, IsJsSpace, NotJsSpace);
    CollapseKeepsText(ReplaceDisallowed(s), IsJsSpace, NotJsSpace);
  }

  /** `extractTextFromFile` on the decoded contents of the file. */
  function ExtractTextFromFile(text: string, filename: string): (r: string)
    ensures KindOf(filename) == PlainText ==> r == text
    ensures KindOf(filename) in {Pdf, Word} ==> r == CleanText(text)
    ensures KindOf(filename) == OtherKind ==> r == ReplaceDisallowed(text)
  {
    match KindOf(filename)
    case PlainText => text
    case Pdf => CleanText(text)
    case Word => CleanText(text)
    case OtherKind => ReplaceDisallowed(text)
  }

  /** The kind of a file depends on its extension only up to case. */
  lemma KindIgnoresCase(base: string, ext: string, ext': string)
    requires base != [] && base != "."
    requires forall j :: 0 <= j < |ext| ==> ext[j] != '.'
    requires forall j :: 0 <= j < |ext'| ==> ext'[j] != '.'
    requires ToLower(ext) == ToLower(ext')
    ensures KindOf(base + "." + ext) == KindOf(base + "." + ext')
  {
    ExtnameOfName(base, ext);
    ExtnameOfName(base, ext');
    LowerDotted(ext);
    LowerDotted(ext');
  }

  /** A `.txt` or `.md` file, in any case, is kept as it is. */
  lemma TextFileKept(text: string, base: string, ext: string)
    requires base != [] && base != "."
    requires forall j :: 0 <= j < |ext| ==> ext[j] != '.'
    requires ToLower(ext) == "txt" || ToLower(ext) == "md"
    ensures ExtractTextFromFile(text, base + "." + ext) == text
  {
    ExtnameOfName(base, ext);
    LowerDotted(ext);
    PlainExtension(ToLower(ext));
    assert KindOf(base + "." + ext) == PlainText;
  }

  /** A lower-cased `txt` or `md` behind the dot is a plain-text extension. */
  lemma PlainExtension(lowered: string)
    requires lowered == "txt" || lowered == "md"
    ensures KindOfExtension("." + lowered) == PlainText
  {
    assert "." + "txt" == ".txt" && "." + "md" == ".md";
  }

  lemma LowerDotted(ext: string)
    ensures ToLower("." + ext) == "." + ToLower(ext)
  {
    assert forall k :: 1 <= k < |ext| + 1 ==> ("." + ext)[k] == ext[k - 1];
  }

  /** Files of other types keep their length and every allowed character in place. */
  lemma OtherFilesKeepLength(text: string, filename: string)
    requires KindOf(filename) == OtherKind
    ensures |ExtractTextFromFile(text, filename)| == |text|
    ensures forall k :: 0 <= k < |text| && Allowed(text[k]) ==> ExtractTextFromFile(text, filename)[k] == text[k]
  {
  }

  // ------------------------------------------------------------ chunking

  /** The metadata passed to `vectorizeDocument`. */
  datatype ChunkMeta = ChunkMeta(documentId: string, title: string, uploadedAt: string)

  datatype DocChunk = DocChunk(content: string, metadata: ChunkMeta, chunkIndex: nat)

  function Contents(chunks: seq<DocChunk>): (r: seq<string>)
    ensures |r| == |chunks| && forall k :: 0 <= k < |r| ==> r[k] == chunks[k].content
  {
    seq(|chunks|, k requires 0 <= k < |chunks| => chunks[k].content)
  }

  /**
   * `vectorizeDocument`: a piece every 500 characters; piece k carries the
   * metadata and the index k.
   */
  method VectorizeDocument(text: string, metadata: ChunkMeta) returns (chunks: seq<DocChunk>)
    ensures Chunking.Sliced(text, Contents(chunks))
    ensures forall k :: 0 <= k < |chunks| ==> chunks[k].chunkIndex == k && chunks[k].metadata == metadata
  {
    chunks := [];
    var i := 0;
    while i < |text|
      invariant i == Chunking.ChunkSize * |chunks|
      invariant chunks != [] ==> Chunking.ChunkSize * (|chunks| - 1) < |text|
      invariant forall k :: 0 <= k < |chunks| ==>
        Chunking.ChunkSize * k < |text| && chunks[k].content == Chunking.PieceAt(text, k)
        && chunks[k].chunkIndex == k && chunks[k].metadata == metadata
      decreases |text| - i
    {
      chunks := chunks + [DocChunk(text[i..Chunking.Min(i + Chunking.ChunkSize, |text|)], metadata, |chunks|)];
      i := i + Chunking.ChunkSize;
    }
  }

  /** The pieces of a document concatenate back to its text, and all but the last are full. */
  lemma VectorizedDocumentCovers(text: string, chunks: seq<DocChunk>)
    requires Chunking.Sliced(text, Contents(chunks))
    ensures Flatten(Contents(chunks)) == text
    ensures forall k :: 0 <= k < |chunks| - 1 ==> |chunks[k].content| == Chunking.ChunkSize
    ensures text == [] <==> chunks == []
  {
    Chunking.SlicedConcat(text, Contents(chunks));
    Chunking.SlicedShape(text, Contents(chunks));
  }
}
