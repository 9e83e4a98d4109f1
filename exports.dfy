/**
 * The four export buttons under the results: a Markdown download, a copy to the
 * clipboard, a JSON bundle download and a printable page. Each does nothing but alert
 * while there is no analysis. Each button's effect (the file, the clipboard text, the
 * page written to the new window) is its result.
 *
 * The current time (`exportedAt`), the locale-formatted analysis date, the results
 * panel's HTML, whether the pop-up opens and whether the clipboard accepts the text
 * are parameters; the browser's object URLs, the print timers and the styles of the
 * printable page are not modelled.
 */
module Exports {
  import opened Wrappers
  import opened Text
  import opened State
  import AnalyzeArtwork

  /** The JSON file's object: the metadata (or `null`), the analysis in both forms and the export time. */
  datatype Bundle = Bundle(metadata: Option<Metadata>, markdown: string, html: string, exportedAt: string)

  /** The named lines of the printable page's metadata block. */
  datatype FieldName = Artwork | Artist | Year | Medium | Dimensions | AnalysisMode | Lens | AnalysisDate

  /** A line of the printable page's metadata block: the artwork image, or a bold caption followed by a value. */
  datatype MetaLine = ImageLine(src: string) | FieldLine(name: FieldName, value: string)

  /** The bold caption in front of each named line's value. */
  function Caption(name: FieldName): string {
    match name
    case Artwork => "Artwork:"
    case Artist => "Artist:"
    case Year => "Year:"
    case Medium => "Medium:"
    case Dimensions => "Dimensions:"
    case AnalysisMode => "Analysis Mode:"
    case Lens => "Lens:"
    case AnalysisDate => "Analysis Date:"
  }

  /** The page written to the pop-up: its `<title>`, its metadata block and the analysis HTML. */
  datatype PrintDocument = PrintDocument(title: string, metaLines: seq<MetaLine>, body: string)

  /** What pressing an export button does. `Crash` is the `TypeError` of reading a title from `null` metadata. */
  datatype Export =
    | Alert(message: string)
    | DownloadText(filename: string, mime: string, text: string)
    | DownloadJson(filename: string, bundle: Bundle)
    | Copy(text: string, message: string)
    | Print(doc: PrintDocument)
    | Crash

  const NoExportMessage := "No analysis to export. Please run an analysis first."
  const NoCopyMessage := "No analysis to copy. Please run an analysis first."
  const CopiedMessage := "Analysis copied to clipboard!"
  const CopyFailedMessage := "Failed to copy to clipboard. Please try again."
  const PopupMessage := "Please allow pop-ups to export PDF"
  const MarkdownFilename := "hidden-grammar-analysis.md"
  const PrintTitlePrefix := "Hidden Grammar Analysis - "

  /** `replace(/\s+/g, '-')`: every maximal run of white space becomes one hyphen. */
  function CollapseWhitespace(s: string): (r: string)
    ensures forall i | 0 <= i < |r| :: !IsSpace(r[i])
    ensures |r| <= |s|
    ensures r == [] <==> s == []
    ensures s != [] && AllSpace(s) ==> r == "-"
    decreases |s|
  {
    if s == [] then []
    else if IsSpace(s[0]) then
      var n := LeadingSpace(s);
      assert n != 0 by { assert IsSpace(s[0]); }
      var rest := CollapseWhitespace(s[n..]);
      assert AllSpace(s) ==> s[n..] == [];
      "-" + rest
    else [s[0]] + CollapseWhitespace(s[1..])
  }

  /** A title without white space is kept as it is. */
  lemma {:induction false} CollapseKeepsWords(s: string)
    requires forall i | 0 <= i < |s| :: !IsSpace(s[i])
    ensures CollapseWhitespace(s) == s
    decreases |s|
  {
    if s != [] {
      assert !IsSpace(s[0]);
      CollapseKeepsWords(s[1..]);
    }
  }

  /** Words around one run of white space are joined by exactly one hyphen. */
  lemma {:induction false} CollapseJoinsWords(a: string, gap: string, b: string)
    requires forall i | 0 <= i < |a| :: !IsSpace(a[i])
    requires forall i | 0 <= i < |b| :: !IsSpace(b[i])
    requires gap != [] && AllSpace(gap)
    ensures CollapseWhitespace(a + gap + b) == a + "-" + b
    decreases |a|
  {
    if a == [] {
      var s := gap + b;
      assert a + gap + b == s;
      assert IsSpace(s[0]);
      var n := LeadingSpace(s);
      assert forall i | 0 <= i < |gap| :: s[i] == gap[i];
      assert b != [] ==> s[|gap|] == b[0];
      assert forall i | 0 <= i < n :: IsSpace(s[i]) by {
        forall i | 0 <= i < n ensures IsSpace(s[i]) {
          assert s[..n][i] == s[i];
        }
      }
      assert n == |gap|;
      assert s[n..] == b;
      CollapseKeepsWords(b);
    } else {
      assert (a + gap + b)[0] == a[0];
      assert (a + gap + b)[1..] == a[1..] + gap + b;
      CollapseJoinsWords(a[1..], gap, b);
      assert [a[0]] + (a[1..] + "-" + b) == a + "-" + b;
    }
  }

  /** Lower-casing never produces white space. */
  lemma LowerKeepsNonSpace(s: string)
    requires forall i | 0 <= i < |s| :: !IsSpace(s[i])
    ensures forall i | 0 <= i < |Lower(s)| :: !IsSpace(Lower(s)[i])
  {
    forall i | 0 <= i < |Lower(s)| ensures !IsSpace(Lower(s)[i]) {
      assert Lower(s)[i] == LowerChar(s[i]);
    }
  }

  /**
   * The JSON file name's slug: white-space runs as hyphens, lower case, and `artwork`
   * for an empty title. It never contains white space; a title of white space alone
   * gives a single hyphen rather than `artwork`.
   */
  function Slug(title: string): (r: string)
    ensures forall i | 0 <= i < |r| :: !IsSpace(r[i])
    ensures title == [] ==> r == "artwork"
    ensures title != [] ==> r == Lower(CollapseWhitespace(title)) && r != []
    ensures title != [] && AllSpace(title) ==> r == "-"
  {
    var lowered := Lower(CollapseWhitespace(title));
    LowerKeepsNonSpace(CollapseWhitespace(title));
    AnalyzeArtwork.Or(lowered, "artwork")
  }

  /** The JSON download's file name. */
  function JsonFilename(title: string): string {
    "hidden-grammar-analysis-" + Slug(title) + ".json"
  }

  /** The date line's value when `date` is the locale rendering of the analysis time. */
  function MetaLines(image: Option<string>, m: Metadata, date: string): seq<MetaLine> {
    (if image.Some? && image.value != "" then [ImageLine(image.value)] else [])
    + [FieldLine(Artwork, m.title), FieldLine(Artist, m.artist)]
    + (if m.year != "" then [FieldLine(Year, m.year)] else [])
    + (if m.medium != "" then [FieldLine(Medium, m.medium)] else [])
    + (if m.dimensions != "" then [FieldLine(Dimensions, m.dimensions)] else [])
    + [FieldLine(AnalysisMode, m.mode)]
    + (if m.lens != "" then [FieldLine(Lens, m.lens)] else [])
    + [FieldLine(AnalysisDate, date)]
  }

  predicate HasField(lines: seq<MetaLine>, name: FieldName) {
    exists l | l in lines :: l.FieldLine? && l.name == name
  }

  lemma HasFieldConcat(a: seq<MetaLine>, b: seq<MetaLine>, name: FieldName)
    ensures HasField(a + b, name) <==> HasField(a, name) || HasField(b, name)
  {
    if HasField(a + b, name) {
      var l :| l in a + b && l.FieldLine? && l.name == name;
      assert l in a || l in b;
    }
    if HasField(a, name) {
      var l :| l in a && l.FieldLine? && l.name == name;
      assert l in a + b;
    }
    if HasField(b, name) {
      var l :| l in b && l.FieldLine? && l.name == name;
      assert l in a + b;
    }
  }

  /** The artwork, artist, mode and date lines appear whatever the metadata holds. */
  lemma MetaLinesAlways(image: Option<string>, m: Metadata, date: string)
    ensures var r := MetaLines(image, m, date);
            && FieldLine(Artwork, m.title) in r && FieldLine(Artist, m.artist) in r
            && FieldLine(AnalysisMode, m.mode) in r && FieldLine(AnalysisDate, date) in r
  {
  }

  /** The line for an optional value: present only when the value is not empty. */
  function OptionalLine(name: FieldName, value: string): seq<MetaLine> {
    if value != "" then [FieldLine(name, value)] else []
  }

  /** The block up to the year line, which holds no line named `Year`, `Medium`, `Dimensions` or `Lens`. */
  function BlockHead(image: Option<string>, m: Metadata): seq<MetaLine> {
    (if image.Some? && image.value != "" then [ImageLine(image.value)] else [])
    + [FieldLine(Artwork, m.title), FieldLine(Artist, m.artist)]
  }

  lemma {:induction false} MetaLinesParts(image: Option<string>, m: Metadata, date: string)
    ensures MetaLines(image, m, date)
            == BlockHead(image, m) + OptionalLine(Year, m.year) + OptionalLine(Medium, m.medium)
               + OptionalLine(Dimensions, m.dimensions) + [FieldLine(AnalysisMode, m.mode)]
               + OptionalLine(Lens, m.lens) + [FieldLine(AnalysisDate, date)]
  {
  }

  lemma {:induction false} OptionalLinePresence(name: FieldName, value: string)
    ensures HasField(OptionalLine(name, value), name) <==> value != ""
    ensures forall other | other != name :: !HasField(OptionalLine(name, value), other)
  {
    if value != "" {
      assert FieldLine(name, value) in OptionalLine(name, value);
    }
  }

  /** The value behind each optional line. */
  function OptionalValue(m: Metadata, name: FieldName): string
    requires name.Year? || name.Medium? || name.Dimensions? || name.Lens?
  {
    match name
    case Year => m.year
    case Medium => m.medium
    case Dimensions => m.dimensions
    case Lens => m.lens
  }

  lemma {:induction false} OptionalField(image: Option<string>, m: Metadata, date: string, name: FieldName)
    requires name.Year? || name.Medium? || name.Dimensions? || name.Lens?
    ensures HasField(MetaLines(image, m, date), name) <==> OptionalValue(m, name) != ""
  {
    var head := BlockHead(image, m);
    var year := OptionalLine(Year, m.year);
    var medium := OptionalLine(Medium, m.medium);
    var dims := OptionalLine(Dimensions, m.dimensions);
    var mode: seq<MetaLine> := [FieldLine(AnalysisMode, m.mode)];
    var lens := OptionalLine(Lens, m.lens);
    var dateLine: seq<MetaLine> := [FieldLine(AnalysisDate, date)];
    MetaLinesParts(image, m, date);
    OptionalLinePresence(Year, m.year);
    OptionalLinePresence(Medium, m.medium);
    OptionalLinePresence(Dimensions, m.dimensions);
    OptionalLinePresence(Lens, m.lens);
    HasFieldConcat(head, year, name);
    HasFieldConcat(head + year, medium, name);
    HasFieldConcat(head + year + medium, dims, name);
    HasFieldConcat(head + year + medium + dims, mode, name);
    HasFieldConcat(head + year + medium + dims + mode, lens, name);
    HasFieldConcat(head + year + medium + dims + mode + lens, dateLine, name);
  }

  /**
   * The year, medium, dimensions and lens lines appear exactly when that value is not
   * empty, and then carry that value.
   */
  lemma MetaLinesOptional(image: Option<string>, m: Metadata, date: string)
    ensures var r := MetaLines(image, m, date);
            && (HasField(r, Year) <==> m.year != "") && (m.year != "" ==> FieldLine(Year, m.year) in r)
            && (HasField(r, Medium) <==> m.medium != "") && (m.medium != "" ==> FieldLine(Medium, m.medium) in r)
            && (HasField(r, Dimensions) <==> m.dimensions != "") && (m.dimensions != "" ==> FieldLine(Dimensions, m.dimensions) in r)
            && (HasField(r, Lens) <==> m.lens != "") && (m.lens != "" ==> FieldLine(Lens, m.lens) in r)
  {
    OptionalField(image, m, date, Year);
    OptionalField(image, m, date, Medium);
    OptionalField(image, m, date, Dimensions);
    OptionalField(image, m, date, Lens);
  }

  /** The image appears exactly when one is uploaded, and only as that image. */
  lemma MetaLinesImage(image: Option<string>, m: Metadata, date: string)
    ensures var r := MetaLines(image, m, date);
            && ((exists l | l in r :: l.ImageLine?) <==> image.Some? && image.value != "")
            && (forall l | l in r && l.ImageLine? :: image == Some(l.src))
  {
    if image.Some? && image.value != "" {
      assert ImageLine(image.value) in MetaLines(image, m, date);
    }
  }

  /** The Markdown button: the raw analysis as a Markdown file, or an alert when there is none. */
  method ExportMarkdown(session: Session) returns (e: Export)
    ensures session.rawMarkdownContent == "" <==> e == Alert(NoExportMessage)
    ensures session.rawMarkdownContent != "" ==>
              e == DownloadText(MarkdownFilename, "text/markdown", session.rawMarkdownContent)
  {
    if session.rawMarkdownContent == "" {
      return Alert(NoExportMessage);
    }
    e := DownloadText(MarkdownFilename, "text/markdown", session.rawMarkdownContent);
  }

  /** The copy button: the raw analysis to the clipboard, then one of two alerts. */
  method CopyToClipboard(session: Session, clipboardAccepts: bool) returns (e: Export)
    ensures session.rawMarkdownContent == "" <==> e == Alert(NoCopyMessage)
    ensures session.rawMarkdownContent != "" ==>
              e == Copy(session.rawMarkdownContent, if clipboardAccepts then CopiedMessage else CopyFailedMessage)
  {
    if session.rawMarkdownContent == "" {
      return Alert(NoCopyMessage);
    }
    e := Copy(session.rawMarkdownContent, if clipboardAccepts then CopiedMessage else CopyFailedMessage);
  }

  /**
   * The JSON button: a bundle of the metadata, the raw and rendered analysis and the
   * export time, named after the title's slug. A session that keeps its invariant never
   * reaches the `null`-metadata crash.
   */
  method ExportJson(session: Session, resultsHtml: string, now: string) returns (e: Export)
    ensures session.rawMarkdownContent == "" <==> e == Alert(NoExportMessage)
    ensures e.Crash? <==> session.rawMarkdownContent != "" && session.analysisMetadata.None?
    ensures session.Valid() ==> !e.Crash?
    ensures e.DownloadJson? ==>
              && e.filename == JsonFilename(session.analysisMetadata.value.title)
              && e.bundle == Bundle(session.analysisMetadata, session.rawMarkdownContent, resultsHtml, now)
    ensures session.rawMarkdownContent != "" && session.analysisMetadata.Some? ==> e.DownloadJson?
  {
    if session.rawMarkdownContent == "" {
      return Alert(NoExportMessage);
    }
    var bundle := Bundle(session.analysisMetadata, session.rawMarkdownContent, resultsHtml, now);
    if session.analysisMetadata.None? {
      return Crash;
    }
    e := DownloadJson(JsonFilename(session.analysisMetadata.value.title), bundle);
  }

  /**
   * The PDF button: without an analysis an alert; when the pop-up is blocked another
   * alert and nothing written; otherwise the printable page with the title, the
   * metadata block and the results HTML.
   */
  method ExportPdf(session: Session, popupOpens: bool, resultsHtml: string, date: string) returns (e: Export)
    ensures session.rawMarkdownContent == "" <==> e == Alert(NoExportMessage)
    ensures session.rawMarkdownContent != "" && !popupOpens <==> e == Alert(PopupMessage)
    ensures e.Crash? <==> session.rawMarkdownContent != "" && popupOpens && session.analysisMetadata.None?
    ensures session.Valid() ==> !e.Crash?
    ensures e.Print? ==>
              var m := session.analysisMetadata.value;
              e.doc == PrintDocument(PrintTitlePrefix + m.title, MetaLines(session.uploadedImageData, m, date), resultsHtml)
  {
    if session.rawMarkdownContent == "" {
      return Alert(NoExportMessage);
    }
    if !popupOpens {
      return Alert(PopupMessage);
    }
    if session.analysisMetadata.None? {
      return Crash;
    }
    var m := session.analysisMetadata.value;
    e := Print(PrintDocument(PrintTitlePrefix + m.title, MetaLines(session.uploadedImageData, m, date), resultsHtml));
  }
}
