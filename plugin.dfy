/**
 * The plugin engine: the gate that decides whether a plugin applies to a
 * fingerprinted target, the multipart body it sends, the result it reads back
 * from a response header, and the order of these stages in Execute.
 *
 * Template rendering, the regular-expression match and URL unescaping are Go
 * library calls; the engine receives them as function values.
 */
module Plugin {
  import opened Util
  import opened Text
  import opened Web
  import opened Detection

  // ---------------------------------------------------------------------
  // Configuration and execution context
  // ---------------------------------------------------------------------

  /** One entry of `multipart_form_data`: a field name and a content template. */
  datatype FormField = FormField(name: string, content: string)

  datatype PayloadConfig = PayloadConfig(
    name: string,
    commandPlaceholder: string,
    jsonTemplate: string,
    multipartFormData: seq<FormField>)

  /** How the result is read back: from the header `name`, through `extractRegex`. */
  datatype Matchers = Matchers(name: string, kind: string, extractRegex: string, decodeUrl: bool, decodePipes: bool)

  /** A plugin as loaded from its YAML file. */
  datatype PluginConfig = PluginConfig(
    name: string,
    description: string,
    severity: string,
    framework: string,
    technology: string,
    language: string,
    headers: map<string, string>,
    verb: string,
    timeout: int,
    payloads: seq<PayloadConfig>,
    matchers: Matchers)

  /** The data templates are rendered against. */
  datatype ExecutionContext = ExecutionContext(
    command: string,
    escapedCommand: string,
    boundary: string,
    requestId: string,
    jsonTemplate: string,
    commandResult: string)

  /** The zero value NewPluginEngine starts from. */
  const EmptyContext := ExecutionContext("", "", "", "", "", "")

  /** ExecuteTemplate: renders a template against a context, or fails. */
  type Renderer = (string, ExecutionContext) -> Result<string>

  // ---------------------------------------------------------------------
  // The compatibility gate
  // ---------------------------------------------------------------------

  /** Some element of `slice` equals `search` up to case. */
  predicate InSlice(search: string, slice: seq<string>)
  {
    exists i :: 0 <= i < |slice| && EqualFold(slice[i], search)
  }

  /** The plugin names at least one requirement, and the target meets all three. */
  predicate Compatible(config: PluginConfig, target: DetectionResult)
  {
    !(config.framework == "" && config.technology == "" && config.language == "")
    && InSlice(config.framework, target.frameworks)
    && InSlice(config.technology, target.technologies)
    && InSlice(config.language, target.languages)
  }

  /** A plugin that names no framework, technology or language applies to nothing. */
  lemma NoRequirementsRejects(config: PluginConfig, target: DetectionResult)
    requires config.framework == "" && config.technology == "" && config.language == ""
    ensures !Compatible(config, target)
  {
  }

  /** An empty requirement is not a wildcard: it is met only by an empty entry. */
  lemma EmptyRequirementMatchesOnlyEmpty(slice: seq<string>)
    ensures InSlice("", slice) <==> "" in slice
  {
    if InSlice("", slice) {
      var i :| 0 <= i < |slice| && EqualFold(slice[i], "");
      EqualFoldEmpty(slice[i]);
    }
    if "" in slice {
      var i :| 0 <= i < |slice| && slice[i] == "";
      EqualFoldEmpty(slice[i]);
    }
  }

  /** The gate does not depend on how the plugin spells its requirements. */
  lemma CompatibleIgnoresCase(config: PluginConfig, target: DetectionResult)
    ensures var lowered := config.(framework := Lower(config.framework),
                                   technology := Lower(config.technology),
                                   language := Lower(config.language));
            Compatible(lowered, target) <==> Compatible(config, target)
  {
    forall s: string, slice: seq<string> ensures InSlice(Lower(s), slice) <==> InSlice(s, slice) {
      LowerIdempotent(s);
    }
    assert |Lower(config.framework)| == |config.framework|;
    assert |Lower(config.technology)| == |config.technology|;
    assert |Lower(config.language)| == |config.language|;
  }

  /** More findings never make a compatible target incompatible. */
  lemma CompatibleMonotone(config: PluginConfig, target: DetectionResult, later: DetectionResult)
    requires target.frameworks <= later.frameworks
    requires target.technologies <= later.technologies
    requires target.languages <= later.languages
    requires Compatible(config, target)
    ensures Compatible(config, later)
  {
    var i :| 0 <= i < |target.frameworks| && EqualFold(target.frameworks[i], config.framework);
    assert later.frameworks[i] == target.frameworks[i];
    var j :| 0 <= j < |target.technologies| && EqualFold(target.technologies[j], config.technology);
    assert later.technologies[j] == target.technologies[j];
    var k :| 0 <= k < |target.languages| && EqualFold(target.languages[k], config.language);
    assert later.languages[k] == target.languages[k];
  }

  // ---------------------------------------------------------------------
  // The multipart body (RFC 7578 section 4.2, delimiters as in RFC 2046 section 5.1.1)
  // ---------------------------------------------------------------------

  /** The fixed delimiter line, without its line break. */
  const Delimiter := "------WebKitFormBoundaryx8jO2oVc6SWP3Sad"
  const CRLF := "\r\n"

  /** Everything of a part up to its name. */
  const PartHead := Delimiter + CRLF + "Content-Disposition: form-data; name=\""

  /** The closing delimiter line. */
  const ClosingLine := Delimiter + "--" + CRLF

  /** One part: delimiter line, disposition line, blank line, content, line break. */
  function PartBlock(p: FormField): string
  {
    PartHead + p.name + "\"" + CRLF + CRLF + p.content + CRLF
  }

  /** The parts, in order. */
  function Blocks(parts: seq<FormField>): string
  {
    if parts == [] then "" else PartBlock(parts[0]) + Blocks(parts[1..])
  }

  /** The whole body for parts whose content is already rendered. */
  function MultipartBody(parts: seq<FormField>): string
  {
    Blocks(parts) + ClosingLine
  }

  /** The five writes of one part append exactly its block. */
  lemma PartBlockWrites(before: string, p: FormField)
    ensures before + Delimiter + CRLF + "Content-Disposition: form-data; name=\"" + p.name + "\"" + CRLF + CRLF + p.content + CRLF
            == before + PartBlock(p)
  {
  }

  /** Adding a part at the end adds its block at the end. */
  lemma {:induction false} BlocksAppend(parts: seq<FormField>, p: FormField)
    ensures Blocks(parts + [p]) == Blocks(parts) + PartBlock(p)
  {
    if parts == [] {
      assert [p][1..] == [];
    } else {
      assert (parts + [p])[1..] == parts[1..] + [p];
      BlocksAppend(parts[1..], p);
      ConcatAssoc(PartBlock(parts[0]), Blocks(parts[1..]), PartBlock(p));
    }
  }

  /** The length of the longest prefix of `s` free of `c`. */
  function Span(s: string, c: char): (n: nat)
    ensures n <= |s| && c !in s[..n]
    ensures n < |s| ==> s[n] == c
  {
    if |s| == 0 || s[0] == c then 0
    else
      var n := 1 + Span(s[1..], c);
      assert s[..n] == [s[0]] + s[1..][..n - 1];
      n
  }

  /** The prefix free of `c` ends where `c` first occurs. */
  lemma {:induction false} SpanStopsAt(x: string, c: char, y: string)
    requires c !in x
    ensures Span(x + [c] + y, c) == |x|
  {
    if x != [] {
      assert (x + [c] + y)[1..] == x[1..] + [c] + y;
      SpanStopsAt(x[1..], c, y);
    }
  }

  /** A content up to the next carriage return, then the line break, and what follows. */
  function ParseContent(u: string): (r: Option<(string, string)>)
    ensures r.Some? ==> |r.value.1| < |u|
  {
    var m := Span(u, '\r');
    if !HasPrefix(u[m..], CRLF) then None
    else Some((u[..m], u[m..][2..]))
  }

  /** A name up to the closing quote, the line break and blank line, then the content. */
  function ParseNamed(t: string): (r: Option<(FormField, string)>)
    ensures r.Some? ==> |r.value.1| < |t|
  {
    var n := Span(t, '"');
    if n == |t| || !HasPrefix(t[n + 1..], CRLF + CRLF) then None
    else match ParseContent(t[n + 1..][4..])
      case None => None
      case Some((content, rest)) => Some((FormField(t[..n], content), rest))
  }

  /** One part read from the front of `s`, with what follows it; None when `s` does not start with a part. */
  function ParseBlock(s: string): (r: Option<(FormField, string)>)
    ensures r.Some? ==> |r.value.1| < |s|
  {
    if !HasPrefix(s, PartHead) then None else ParseNamed(s[|PartHead|..])
  }

  /** The parts a body carries, read back: the inverse of MultipartBody. */
  function ParseParts(s: string): Option<seq<FormField>>
    decreases |s|
  {
    if s == ClosingLine then Some([])
    else match ParseBlock(s)
      case None => None
      case Some((p, rest)) =>
        match ParseParts(rest)
        case None => None
        case Some(ps) => Some([p] + ps)
  }

  /** Parts whose boundaries can be recovered: no quote in a name, no carriage return in a content. */
  predicate Readable(parts: seq<FormField>)
  {
    forall i :: 0 <= i < |parts| ==> '"' !in parts[i].name && '\r' !in parts[i].content
  }

  /** Reading a content stops at its line break. */
  lemma ParseContentOf(content: string, rest: string)
    requires '\r' !in content
    ensures ParseContent(content + CRLF + rest) == Some((content, rest))
  {
    var u := content + CRLF + rest;
    assert u == content + ['\r'] + ("\n" + rest);
    SpanStopsAt(content, '\r', "\n" + rest);
    assert u[..|content|] == content;
    assert u[|content|..] == CRLF + rest;
    assert (CRLF + rest)[2..] == rest;
  }

  /** Reading a name stops at its closing quote. */
  lemma ParseNamedOf(p: FormField, rest: string)
    requires '"' !in p.name && '\r' !in p.content
    ensures ParseNamed(p.name + "\"" + CRLF + CRLF + p.content + CRLF + rest) == Some((p, rest))
  {
    var t := p.name + "\"" + CRLF + CRLF + p.content + CRLF + rest;
    var value := p.content + CRLF + rest;
    var afterName := CRLF + CRLF + value;
    assert t == p.name + ['"'] + afterName;
    SpanStopsAt(p.name, '"', afterName);
    assert t[..|p.name|] == p.name;
    assert t[|p.name| + 1..] == afterName;
    assert afterName[4..] == value;
    ParseContentOf(p.content, rest);
  }

  /** A string starts with its own prefix, and what follows the prefix is the rest. */
  lemma PrefixThenRest(h: string, t: string)
    ensures HasPrefix(h + t, h) && (h + t)[|h|..] == t
  {
    assert (h + t)[..|h|] == h;
  }

  /** The head of a left-nested concatenation can be split off. */
  lemma SplitHead(h: string, a: string, b: string, c: string, d: string, e: string, f: string, r: string)
    ensures h + a + b + c + d + e + f + r == h + (a + b + c + d + e + f + r)
  {
    ConcatAssoc(h, a, b);
    ConcatAssoc(h, a + b, c);
    ConcatAssoc(h, a + b + c, d);
    ConcatAssoc(h, a + b + c + d, e);
    ConcatAssoc(h, a + b + c + d + e, f);
    ConcatAssoc(h, a + b + c + d + e + f, r);
  }

  /** A block read from the front gives back its part and the rest of the input. */
  lemma ParseBlockOf(p: FormField, rest: string)
    requires '"' !in p.name && '\r' !in p.content
    ensures ParseBlock(PartBlock(p) + rest) == Some((p, rest))
  {
    var tail := p.name + "\"" + CRLF + CRLF + p.content + CRLF + rest;
    SplitHead(PartHead, p.name, "\"", CRLF, CRLF, p.content, CRLF, rest);
    PrefixThenRest(PartHead, tail);
    ParseNamedOf(p, rest);
  }

  /** A body that starts with a part is not the closing line. */
  lemma BlockIsNotClosing(p: FormField, rest: string)
    ensures PartBlock(p) + rest != ClosingLine
  {
    var s := PartBlock(p) + rest;
    assert s == Delimiter + (CRLF + "Content-Disposition: form-data; name=\"" + p.name + "\"" + CRLF + CRLF + p.content + CRLF + rest);
    assert s[|Delimiter|] == '\r';
    assert ClosingLine[|Delimiter|] == '-';
  }

  /** A body that starts with a readable part reads as that part followed by the parts of the rest. */
  lemma ParsePartsOfBlock(p: FormField, rest: string)
    requires '"' !in p.name && '\r' !in p.content
    ensures ParseParts(PartBlock(p) + rest) ==
            if ParseParts(rest).Some? then Some([p] + ParseParts(rest).value) else None
  {
    BlockIsNotClosing(p, rest);
    ParseBlockOf(p, rest);
  }

  /** Concatenation regroups; stated over plain strings so the part layout is not unfolded. */
  lemma ConcatAssoc(a: string, b: string, c: string)
    ensures (a + b) + c == a + (b + c)
  {
  }

  /** The body of a non-empty list: the first part's block, then the body of the rest. */
  lemma MultipartBodyCons(parts: seq<FormField>)
    requires parts != []
    ensures MultipartBody(parts) == PartBlock(parts[0]) + MultipartBody(parts[1..])
  {
    var block, rest := PartBlock(parts[0]), Blocks(parts[1..]);
    assert Blocks(parts) == block + rest;
    ConcatAssoc(block, rest, ClosingLine);
  }

  /** The body without parts reads back as no parts. */
  lemma NoPartsRoundTrip()
    ensures ParseParts(MultipartBody([])) == Some([])
  {
    assert MultipartBody([]) == ClosingLine;
  }

  /** The parts after the first are readable too. */
  lemma ReadableTail(parts: seq<FormField>)
    requires parts != [] && Readable(parts)
    ensures Readable(parts[1..]) && '"' !in parts[0].name && '\r' !in parts[0].content
  {
    var tail := parts[1..];
    forall i | 0 <= i < |tail| ensures '"' !in tail[i].name && '\r' !in tail[i].content {
      assert tail[i] == parts[i + 1];
    }
  }

  /** If the rest reads back, so does the whole list. */
  lemma RoundTripStep(parts: seq<FormField>)
    requires parts != [] && '"' !in parts[0].name && '\r' !in parts[0].content
    requires ParseParts(MultipartBody(parts[1..])) == Some(parts[1..])
    ensures ParseParts(MultipartBody(parts)) == Some(parts)
  {
    ParsePartsOfBlock(parts[0], MultipartBody(parts[1..]));
    MultipartBodyCons(parts);
    assert [parts[0]] + parts[1..] == parts;
  }

  /** Reading the body back yields the parts, names and contents, in order. */
  lemma {:induction false} MultipartRoundTrip(parts: seq<FormField>)
    requires Readable(parts)
    ensures ParseParts(MultipartBody(parts)) == Some(parts)
  {
    if parts == [] {
      NoPartsRoundTrip();
    } else {
      ReadableTail(parts);
      MultipartRoundTrip(parts[1..]);
      RoundTripStep(parts);
    }
  }

  // ---------------------------------------------------------------------
  // Rendering the payload
  // ---------------------------------------------------------------------

  /** Each part's content rendered in order; the first failure is the result. */
  function RenderParts(render: Renderer, parts: seq<FormField>, ctx: ExecutionContext): (r: Result<seq<FormField>>)
    ensures r.Ok? <==> forall j :: 0 <= j < |parts| ==> render(parts[j].content, ctx).Ok?
    ensures r.Ok? ==> |r.value| == |parts|
    ensures r.Ok? ==> forall j :: 0 <= j < |parts| ==>
                         r.value[j] == FormField(parts[j].name, render(parts[j].content, ctx).value)
    ensures r.Err? ==> exists j :: 0 <= j < |parts| && render(parts[j].content, ctx) == Err(r.error)
                                   && forall k :: 0 <= k < j ==> render(parts[k].content, ctx).Ok?
    decreases |parts|
  {
    if parts == [] then Ok([])
    else
      var init := parts[..|parts| - 1];
      var last := parts[|parts| - 1];
      assert forall j :: 0 <= j < |init| ==> init[j] == parts[j];
      match RenderParts(render, init, ctx)
      case Err(e) => Err(e)
      case Ok(rendered) =>
        match render(last.content, ctx)
        case Err(e) =>
          assert render(parts[|parts| - 1].content, ctx) == Err(e);
          Err(e)
        case Ok(content) => Ok(rendered + [FormField(last.name, content)])
  }

  /** BuildMultiPartPayload's result: the JSON template first, then every part, then the closing line. */
  function BuildBody(render: Renderer, payload: PayloadConfig, ctx: ExecutionContext): Result<string>
  {
    match render(payload.jsonTemplate, ctx)
    case Err(e) => Err(e)
    case Ok(json) =>
      match RenderParts(render, payload.multipartFormData, ctx.(jsonTemplate := json))
      case Err(e) => Err(e)
      case Ok(rendered) => Ok(MultipartBody(rendered))
  }

  /** The engine's context after BuildMultiPartPayload: the rendered JSON is kept even when a part fails. */
  function ContextAfterBuild(render: Renderer, payload: PayloadConfig, ctx: ExecutionContext): ExecutionContext
  {
    match render(payload.jsonTemplate, ctx)
    case Err(_) => ctx
    case Ok(json) => ctx.(jsonTemplate := json)
  }

  /**
   * The body is built iff the JSON template and every part render; it then
   * carries every part, in the declared order, under its declared name with its
   * content rendered against the context that already holds the rendered JSON.
   */
  lemma BuildBodyContents(render: Renderer, payload: PayloadConfig, ctx: ExecutionContext)
    ensures var r := BuildBody(render, payload, ctx);
            var parts := payload.multipartFormData;
            var ctx' := ContextAfterBuild(render, payload, ctx);
            && (r.Ok? <==> render(payload.jsonTemplate, ctx).Ok? && forall j :: 0 <= j < |parts| ==> render(parts[j].content, ctx').Ok?)
            && (r.Ok? ==> exists rendered: seq<FormField> ::
                  && |rendered| == |parts|
                  && (forall j :: 0 <= j < |parts| ==> rendered[j] == FormField(parts[j].name, render(parts[j].content, ctx').value))
                  && r.value == MultipartBody(rendered))
  {
    var r := BuildBody(render, payload, ctx);
    if r.Ok? {
      var rendered := RenderParts(render, payload.multipartFormData, ContextAfterBuild(render, payload, ctx)).value;
      assert r.value == MultipartBody(rendered);
    }
  }

  /** Without parts the body is the closing delimiter line alone. */
  lemma BuildBodyNoParts(render: Renderer, payload: PayloadConfig, ctx: ExecutionContext)
    requires payload.multipartFormData == [] && render(payload.jsonTemplate, ctx).Ok?
    ensures BuildBody(render, payload, ctx) == Ok(ClosingLine)
  {
    assert MultipartBody([]) == ClosingLine;
  }

  /** When the contents render without carriage returns and no name holds a quote, the body gives back its parts. */
  lemma BuildBodyReadable(render: Renderer, payload: PayloadConfig, ctx: ExecutionContext)
    requires BuildBody(render, payload, ctx).Ok?
    requires Readable(RenderParts(render, payload.multipartFormData, ContextAfterBuild(render, payload, ctx)).value)
    ensures ParseParts(BuildBody(render, payload, ctx).value)
            == Some(RenderParts(render, payload.multipartFormData, ContextAfterBuild(render, payload, ctx)).value)
  {
    MultipartRoundTrip(RenderParts(render, payload.multipartFormData, ContextAfterBuild(render, payload, ctx)).value);
  }

  // ---------------------------------------------------------------------
  // Reading the result back
  // ---------------------------------------------------------------------

  /** The optional decodings of the captured text: URL decoding (the raw text is kept when it fails), then pipes. */
  function Decode(m: Matchers, raw: string, unescape: string -> Result<string>): string
  {
    var urlDecoded := if m.decodeUrl && unescape(raw).Ok? then unescape(raw).value else raw;
    if m.decodePipes then ReplaceAll(urlDecoded, " | ", "\n") else urlDecoded
  }

  /**
   * What ExtractResult evidently means: fail without the header or unless the
   * match holds exactly one capture, else decode that capture.
   */
  function ExtractResult(m: Matchers, headerValue: string, matches: seq<string>, unescape: string -> Result<string>): (r: Result<string>)
    ensures r.Err? <==> headerValue == "" || |matches| != 2
    ensures r.Ok? ==> r.value == Decode(m, matches[1], unescape)
  {
    if headerValue == "" then Err("header " + m.name + " not found")
    else if |matches| != 2 then Err("failed to extract result from header")
    else Ok(Decode(m, matches[1], unescape))
  }

  /** The outcomes of ExtractResult as written, where indexing past the match list panics. */
  datatype Extraction = Extracted(value: string) | ExtractionError(error: string) | IndexOutOfRange

  /** ExtractResult as written: it rejects more than one capture group and indexes a possibly short list. */
  function ExtractResultAsWritten(m: Matchers, headerValue: string, matches: seq<string>, unescape: string -> Result<string>): (r: Extraction)
    ensures r.IndexOutOfRange? <==> headerValue != "" && |matches| < 2
    ensures r.ExtractionError? <==> headerValue == "" || |matches| > 2
    ensures r.Extracted? ==> r.value == Decode(m, matches[1], unescape)
  {
    if headerValue == "" then ExtractionError("header " + m.name + " not found")
    else if |matches| > 2 then ExtractionError("failed to extract result from header")
    else if |matches| < 2 then IndexOutOfRange
    else Extracted(Decode(m, matches[1], unescape))
  }

  /** A header whose value the pattern does not match makes the code as written index an empty list. */
  lemma ExtractAsWrittenPanicsWithoutMatch(m: Matchers, unescape: string -> Result<string>)
    ensures ExtractResultAsWritten(m, "id=abc123;", [], unescape) == IndexOutOfRange
    ensures ExtractResult(m, "id=abc123;", [], unescape).Err?
  {
  }

  /** A pattern with two groups is refused, by the code as written and by the corrected version alike. */
  lemma ExtractAsWrittenRejectsTwoGroups(m: Matchers, unescape: string -> Result<string>)
    ensures ExtractResultAsWritten(m, "id=abc;", ["id=abc;", "abc", ";"], unescape)
            == ExtractionError("failed to extract result from header")
    ensures ExtractResult(m, "id=abc;", ["id=abc;", "abc", ";"], unescape)
            == Err("failed to extract result from header")
  {
  }

  /**
   * Wherever the code as written does not panic the two agree, so the
   * corrected version changes only the short match lists.
   */
  lemma ExtractAgreesOnOneGroup(m: Matchers, headerValue: string, matches: seq<string>, unescape: string -> Result<string>)
    requires |matches| >= 2 || headerValue == ""
    ensures ExtractResultAsWritten(m, headerValue, matches, unescape) ==
            match ExtractResult(m, headerValue, matches, unescape)
            case Ok(v) => Extracted(v)
            case Err(e) => ExtractionError(e)
  {
  }

  /** With no decoding configured the result is the capture itself. */
  lemma ExtractWithoutDecoding(m: Matchers, headerValue: string, matches: seq<string>, unescape: string -> Result<string>)
    requires !m.decodeUrl && !m.decodePipes && headerValue != "" && |matches| == 2
    ensures ExtractResult(m, headerValue, matches, unescape) == Ok(matches[1])
  {
  }

  /** A failing URL decode keeps the raw capture. */
  lemma FailedUnescapeKeepsRaw(m: Matchers, raw: string, unescape: string -> Result<string>)
    requires m.decodeUrl && !m.decodePipes && unescape(raw).Err?
    ensures Decode(m, raw, unescape) == raw
  {
  }

  /** Pipe decoding turns every " | " into a line break. */
  lemma PipeDecodingExample(m: Matchers, unescape: string -> Result<string>)
    requires !m.decodeUrl && m.decodePipes
    ensures Decode(m, "a | b | c", unescape) == "a\nb\nc"
  {
    assert ReplaceAll("c", " | ", "\n") == "c";
    assert ReplaceAll(" c", " | ", "\n") == " c";
    assert ReplaceAll("| c", " | ", "\n") == "| c";
    assert ReplaceAll("b | c", " | ", "\n") == "b\nc";
    assert ReplaceAll(" | b | c", " | ", "\n") == "\nb\nc";
  }

  /**
   * A header value holds no line break, so pipe decoding loses nothing:
   * writing every line break back as " | " restores the capture.
   */
  lemma PipeDecodingReversible(raw: string)
    requires '\n' !in raw
    ensures ReplaceAll(ReplaceAll(raw, " | ", "\n"), "\n", " | ") == raw
  {
    ReplaceAllRoundTrip(raw, " | ", '\n');
  }

  // ---------------------------------------------------------------------
  // Execute
  // ---------------------------------------------------------------------

  /** How Execute ends. */
  datatype Outcome =
    | Rejected
    | NoPayload
    | BuildFailed(error: string)
    | TransportFailed(error: string)
    | ExtractFailed(error: string)
    | Completed(result: string)

  /** SendRequest's request: the configured method and headers, the target URL and the body. */
  function RequestFor(config: PluginConfig, targetUrl: string, body: string): Request
  {
    Request(config.verb, targetUrl, body, config.headers)
  }

  /** The plugin engine: its configuration, the library calls it uses, and the context templates see. */
  class PluginEngine {
    const config: PluginConfig
    const render: Renderer
    const findSubmatch: (string, string) -> seq<string>
    const queryUnescape: string -> Result<string>
    var context: ExecutionContext

    /** NewPluginEngine after loading: the parsed configuration and an empty context. */
    constructor (config: PluginConfig, render: Renderer, findSubmatch: (string, string) -> seq<string>,
                 queryUnescape: string -> Result<string>)
      ensures this.config == config && this.render == render
      ensures this.findSubmatch == findSubmatch && this.queryUnescape == queryUnescape
      ensures context == EmptyContext
    {
      this.config := config;
      this.render := render;
      this.findSubmatch := findSubmatch;
      this.queryUnescape := queryUnescape;
      context := EmptyContext;
    }

    /** stringInSlice: a search for an element equal to `search` up to case. */
    method StringInSlice(search: string, slice: seq<string>) returns (found: bool)
      ensures found <==> InSlice(search, slice)
    {
      for i := 0 to |slice|
        invariant forall j :: 0 <= j < i ==> !EqualFold(slice[j], search)
      {
        if EqualFold(slice[i], search) {
          return true;
        }
      }
      return false;
    }

    /** isTargetCompatible: no requirement at all rejects; otherwise each must be met. */
    method IsTargetCompatible(target: DetectionResult) returns (ok: bool)
      ensures ok <==> Compatible(config, target)
    {
      if config.framework == "" && config.technology == "" && config.language == "" {
        return false;
      }
      var found := StringInSlice(config.framework, target.frameworks);
      if !found {
        return false;
      }
      found := StringInSlice(config.technology, target.technologies);
      if !found {
        return false;
      }
      found := StringInSlice(config.language, target.languages);
      if !found {
        return false;
      }
      return true;
    }

    /** The result read back from a response. */
    function ExtractFrom(resp: Response): Result<string>
    {
      var headerValue := HeaderGet(resp.header, config.matchers.name);
      ExtractResult(config.matchers, headerValue, findSubmatch(config.matchers.extractRegex, headerValue), queryUnescape)
    }

    /** BuildMultiPartPayload: render the JSON template into the context, then append each part, then the closing line. */
    method BuildMultiPartPayload(payload: PayloadConfig) returns (r: Result<string>)
      modifies this
      ensures r == BuildBody(render, payload, old(context))
      ensures context == ContextAfterBuild(render, payload, old(context))
    {
      var jsonTemplate := render(payload.jsonTemplate, context);
      if jsonTemplate.Err? {
        return Err(jsonTemplate.error);
      }
      context := context.(jsonTemplate := jsonTemplate.value);

      var parts := payload.multipartFormData;
      var body := "";
      ghost var rendered: seq<FormField> := [];
      for i := 0 to |parts|
        invariant context == old(context).(jsonTemplate := jsonTemplate.value)
        invariant RenderParts(render, parts[..i], context) == Ok(rendered)
        invariant body == Blocks(rendered)
      {
        assert parts[..i + 1] == parts[..i] + [parts[i]];
        var content := render(parts[i].content, context);
        if content.Err? {
          assert RenderParts(render, parts[..i + 1], context) == Err(content.error);
          RenderPartsPrefixError(render, parts, i + 1, context);
          return Err(content.error);
        }
        ghost var before := body;
        var field := FormField(parts[i].name, content.value);
        body := body + Delimiter + CRLF;
        body := body + "Content-Disposition: form-data; name=\"" + parts[i].name + "\"" + CRLF;
        body := body + CRLF;
        body := body + content.value;
        body := body + CRLF;
        PartBlockWrites(before, field);
        BlocksAppend(rendered, field);
        rendered := rendered + [field];
      }
      assert parts[..|parts|] == parts;
      body := body + Delimiter + "--" + CRLF;
      assert body == MultipartBody(rendered);
      return Ok(body);
    }

    /**
     * Execute: the gate, then the first payload, then the request, then the
     * result read back; a stage that fails ends the run. `transport` stands for
     * the HTTP client.
     */
    method Execute(target: DetectionResult, transport: Request -> Result<Response>) returns (outcome: Outcome, sent: Option<Request>)
      modifies this
      ensures outcome == Rejected <==> !Compatible(config, target)
      ensures outcome == Rejected ==> sent == None && context == old(context)
      ensures outcome == NoPayload <==> Compatible(config, target) && config.payloads == []
      ensures outcome == NoPayload ==> sent == None && context == old(context)
      ensures Compatible(config, target) && config.payloads != [] ==>
                context == ContextAfterBuild(render, config.payloads[0], old(context))
      ensures outcome.BuildFailed? <==> Compatible(config, target) && config.payloads != []
                                        && BuildBody(render, config.payloads[0], old(context)).Err?
      ensures sent.Some? <==> Compatible(config, target) && config.payloads != []
                              && BuildBody(render, config.payloads[0], old(context)).Ok?
      ensures sent.Some? ==> sent.value == RequestFor(config, target.url.text, BuildBody(render, config.payloads[0], old(context)).value)
      ensures outcome.TransportFailed? <==> sent.Some? && transport(sent.value).Err?
      ensures outcome.ExtractFailed? <==> sent.Some? && transport(sent.value).Ok? && ExtractFrom(transport(sent.value).value).Err?
      ensures outcome.Completed? <==> sent.Some? && transport(sent.value).Ok? && ExtractFrom(transport(sent.value).value).Ok?
      ensures outcome.Completed? ==> outcome.result == ExtractFrom(transport(sent.value).value).value
    {
      var compatible := IsTargetCompatible(target);
      if !compatible {
        return Rejected, None;
      }
      if config.payloads == [] {
        return NoPayload, None;
      }
      var payload := config.payloads[0];
      var multipartData := BuildMultiPartPayload(payload);
      if multipartData.Err? {
        return BuildFailed(multipartData.error), None;
      }
      var request := RequestFor(config, target.url.text, multipartData.value);
      sent := Some(request);
      var resp := transport(request);
      if resp.Err? {
        return TransportFailed(resp.error), sent;
      }
      var result := ExtractFrom(resp.value);
      if result.Err? {
        return ExtractFailed(result.error), sent;
      }
      return Completed(result.value), sent;
    }
  }

  /** Once a prefix of the parts fails to render, so does every longer prefix, with the same error. */
  lemma {:induction false} RenderPartsPrefixError(render: Renderer, parts: seq<FormField>, i: nat, ctx: ExecutionContext)
    requires 0 < i <= |parts| && RenderParts(render, parts[..i], ctx).Err?
    ensures RenderParts(render, parts, ctx) == RenderParts(render, parts[..i], ctx)
    decreases |parts| - i
  {
    if i < |parts| {
      assert parts[..i + 1][..i] == parts[..i];
      RenderPartsPrefixError(render, parts, i + 1, ctx);
    } else {
      assert parts[..i] == parts;
    }
  }
}
