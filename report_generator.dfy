/**
 * The upload path of app/services/report_generator.py: `_extract_code_blocks`
 * and the dispatch of `create_report_from_content` on the uploaded file's
 * extension. The document readers, the prompt file and the model service are
 * parameters: each reader's text (None where it fails), the prompt (None
 * where it cannot be read), and the service as a function from the request
 * to its reply.
 */
module ReportGenerator {
  import opened Wrappers
  import opened Text
  import opened Fences
  import opened Base
  import opened Environment
  import AutoReport

  type Code = AutoReport.Code

  /**
   * The upload extractor: each part is the stripped body of its first fence
   * ("```javascript" before "```js"); a missing html fence gives "", a
   * missing CSS or JavaScript fence the extraction-error comment. Unlike the
   * scheduler's copy, an empty text is searched like any other.
   */
  function GeneratorBlocks(text: string): (r: Code)
    ensures text != "" ==> r == AutoReport.ExtractCode(Some(text))
    ensures text == "" ==> r == AutoReport.Code("", NoCss, NoJs)
  {
    if text == "" then
      assert FenceBody(text, "html").None? && FenceBody(text, "css").None?;
      assert FenceBody(text, "javascript").None? && FenceBody(text, "js").None?;
      AutoReport.Code("", NoCss, NoJs)
    else
      AutoReport.Code(StrippedOr(FenceBody(text, "html"), ""), StrippedOr(FenceBody(text, "css"), NoCss),
                      StrippedOr(JsFence(text), NoJs))
  }

  /**
   * The JavaScript part follows the "```javascript" fence wherever it
   * stands, the "```js" fence only without one, and the error comment
   * without either.
   */
  lemma GeneratorJsPreference(text: string)
    ensures HasFence(text, "javascript") ==> GeneratorBlocks(text).js == Strip(FenceBody(text, "javascript").value)
    ensures !HasFence(text, "javascript") && HasFence(text, "js") ==>
      GeneratorBlocks(text).js == Strip(FenceBody(text, "js").value)
    ensures !HasFence(text, "javascript") && !HasFence(text, "js") ==> GeneratorBlocks(text).js == NoJs
  {
    FenceBodyFound(text, "javascript");
    FenceBodyFound(text, "js");
  }

  /** A CSS fence after backtick-free text gives back its stripped body. */
  lemma GeneratorCssRoundTrip(pre: string, body: string, post: string)
    requires NoTicks(pre) && NoTicks(body)
    ensures GeneratorBlocks(pre + Opener("css") + body + Tick + post).css == Strip(body)
  {
    FenceRoundTrip(pre, "css", body, post);
  }

  const RequestRule := "\n\n---\n\n**NỘI DUNG BÁO CÁO CẦN XỬ LÝ:**\n\n"

  /** The uploaded file is read as a Word document. */
  predicate IsDocx(filename: string) {
    EndsWith(filename, ".docx")
  }

  /** The uploaded file is read as an OpenDocument text. */
  predicate IsOdt(filename: string) {
    EndsWith(filename, ".odt")
  }

  /**
   * `create_report_from_content`: by the file's extension the Word reader,
   * the OpenDocument reader, or None for any other file; None when the
   * reader or the prompt fails; otherwise the prompt, the rule and the
   * document are sent, and the reply's text is extracted. A failed call, a
   * reply without text, or a None text end in the handler's None.
   */
  function CreateReportFromContent(filename: string, docxText: Option<string>, odtText: Option<string>,
                                   prompt: Option<string>, ask: string -> Reply): (r: Option<Code>)
  {
    if !IsDocx(filename) && !IsOdt(filename) then None
    else
      var content := if IsDocx(filename) then docxText else odtText;
      if content.None? || prompt.None? then None
      else
        match ask(prompt.value + RequestRule + content.value)
        case Text(Some(text)) => Some(GeneratorBlocks(text))
        case _ => None
  }

  /** Any other extension is refused before any reader, prompt or model is consulted. */
  lemma UnsupportedRefused(filename: string, docxText: Option<string>, odtText: Option<string>,
                           prompt: Option<string>, ask: string -> Reply)
    requires !IsDocx(filename) && !IsOdt(filename)
    ensures CreateReportFromContent(filename, docxText, odtText, prompt, ask) == None
  {
  }

  /**
   * A ".docx" name is read only by the Word reader and an ".odt" name only
   * by the OpenDocument reader: the other reader's result never matters.
   */
  lemma ReaderByExtension(filename: string, docxText: Option<string>, odtText: Option<string>,
                          prompt: Option<string>, ask: string -> Reply, other: Option<string>)
    ensures IsDocx(filename) ==>
      CreateReportFromContent(filename, docxText, odtText, prompt, ask)
      == CreateReportFromContent(filename, docxText, other, prompt, ask)
    ensures !IsDocx(filename) ==>
      CreateReportFromContent(filename, docxText, odtText, prompt, ask)
      == CreateReportFromContent(filename, other, odtText, prompt, ask)
  {
  }

  /** A name cannot end in both extensions. */
  lemma ExtensionsExclusive(filename: string)
    ensures !(IsDocx(filename) && IsOdt(filename))
  {
    if IsDocx(filename) {
      var n := |filename|;
      assert filename[n - 4] == filename[n - 5..n][1] == 'd';
    }
  }

  /**
   * The report exists exactly when the document and the prompt were read and
   * the service answered with a text; it is then the extraction of that
   * text, for the request made of the prompt, the rule and the document.
   */
  lemma CreatedMeaning(filename: string, docxText: Option<string>, odtText: Option<string>,
                       prompt: Option<string>, ask: string -> Reply)
    ensures var r := CreateReportFromContent(filename, docxText, odtText, prompt, ask);
      var content := if IsDocx(filename) then docxText else odtText;
      r.Some? <==>
        (IsDocx(filename) || IsOdt(filename)) && content.Some? && prompt.Some?
        && ask(prompt.value + RequestRule + content.value).Text?
        && ask(prompt.value + RequestRule + content.value).body.Some?
    ensures var r := CreateReportFromContent(filename, docxText, odtText, prompt, ask);
      var content := if IsDocx(filename) then docxText else odtText;
      r.Some? ==> r.value == GeneratorBlocks(ask(prompt.value + RequestRule + content.value).body.value)
  {
  }
}

/**
 * The command-line generator create_report/create_report.py: its
 * `extract_code_blocks` (a missing fence is None rather than a comment) and
 * the write decision of `save_files` (a file only for a non-empty block).
 * The output directory is a map from file name to text, None while it does
 * not exist.
 */
module CreateReport {
  import opened Wrappers
  import opened Text
  import opened Fences
  import opened Base
  import ReportGenerator
  import AutoReport

  /** The dictionary of the command-line extractor: a part is None when its fence is missing. */
  datatype Found = Found(html: Option<string>, css: Option<string>, js: Option<string>)

  function Stripped(o: Option<string>): (r: Option<string>)
    ensures r.Some? <==> o.Some?
    ensures r.Some? ==> r.value == Strip(o.value)
  {
    match o
    case Some(b) => Some(Strip(b))
    case None => None
  }

  function OrElse(o: Option<string>, default: string): string {
    if o.Some? then o.value else default
  }

  /** `extract_code_blocks`: the stripped first fence of each language, "```javascript" before "```js". */
  function ExtractBlocks(text: string): (r: Found) {
    Found(Stripped(FenceBody(text, "html")), Stripped(FenceBody(text, "css")), Stripped(JsFence(text)))
  }

  /**
   * A part is None exactly when the text has no fence for it (for the
   * script: neither a "```javascript" nor a "```js" one), and otherwise its
   * stripped body, the "```javascript" fence winning wherever it stands.
   */
  lemma ExtractBlocksMeaning(text: string)
    ensures ExtractBlocks(text).html.None? <==> !HasFence(text, "html")
    ensures ExtractBlocks(text).css.None? <==> !HasFence(text, "css")
    ensures ExtractBlocks(text).js.None? <==> !HasFence(text, "javascript") && !HasFence(text, "js")
    ensures HasFence(text, "javascript") ==> ExtractBlocks(text).js == Some(Strip(FenceBody(text, "javascript").value))
    ensures !HasFence(text, "javascript") && HasFence(text, "js") ==>
      ExtractBlocks(text).js == Some(Strip(FenceBody(text, "js").value))
  {
    FenceBodyFound(text, "html");
    FenceBodyFound(text, "css");
    FenceBodyFound(text, "javascript");
    FenceBodyFound(text, "js");
  }

  /** The upload extractor is this one with the missing parts filled by "" and the error comments. */
  lemma SameFencesAsUpload(text: string)
    ensures var f := ExtractBlocks(text);
      ReportGenerator.GeneratorBlocks(text) == AutoReport.Code(OrElse(f.html, ""), OrElse(f.css, NoCss), OrElse(f.js, NoJs))
  {
  }

  const HtmlFile := "report.html"
  const CssFile := "report.css"
  const JsFile := "report.js"

  /** One write of `save_files`: the block's text under `name` when the block is non-empty. */
  function WriteIf(files: map<string, string>, name: string, block: Option<string>): map<string, string> {
    if TruthyStr(block) then files[name := block.value] else files
  }

  /** `save_files`: the directory made if missing, then the three conditional writes. */
  function SaveFiles(dir: Option<map<string, string>>, blocks: Found): (r: map<string, string>) {
    var files := if dir.Some? then dir.value else map[];
    WriteIf(WriteIf(WriteIf(files, HtmlFile, blocks.html), CssFile, blocks.css), JsFile, blocks.js)
  }

  /**
   * Each report file is written with its block exactly when the block is
   * non-empty, and otherwise keeps what it held; no other file changes.
   */
  lemma SaveFilesWrites(dir: Option<map<string, string>>, blocks: Found, name: string)
    ensures var before := if dir.Some? then dir.value else map[];
      var r := SaveFiles(dir, blocks);
      var block := if name == HtmlFile then blocks.html else if name == CssFile then blocks.css
                   else if name == JsFile then blocks.js else None;
      (TruthyStr(block) ==> name in r && r[name] == block.value)
      && (!TruthyStr(block) ==> (name in r <==> name in before) && (name in r ==> r[name] == before[name]))
  {
  }

  /** A fence whose body is only whitespace is found, but writes no file. */
  lemma BlankFenceWritesNothing(pre: string, space: string, post: string)
    requires NoTicks(pre) && NoTicks(space) && AllSpace(space)
    ensures var b := ExtractBlocks(pre + Opener("css") + space + Tick + post);
      b.css == Some("") && SaveFiles(Some(map[]), b) == WriteIf(WriteIf(map[], HtmlFile, b.html), JsFile, b.js)
  {
    FenceRoundTrip(pre, "css", space, post);
    StripAllSpace(space);
  }
}
