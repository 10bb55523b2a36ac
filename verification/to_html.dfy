/** The rendering module src/to-html.js: content-type detection, code
    blocks, the Handlebars helpers it registers and the template choice. */
module ToHtml {
  import opened Wrappers
  import opened Js
  import opened Text
  import opened Decimal
  import opened Libraries
  import opened Markup

  const NoHighlight: seq<string> := ["text/plain"]
  const CommonTypes: seq<string> := ["json", "xml", "html"] + NoHighlight

  /** `Array.prototype.find`: the first element satisfying `p`. */
  function Find<T(==)>(xs: seq<T>, p: T -> bool): (r: Option<T>)
    ensures r.None? <==> forall i :: 0 <= i < |xs| ==> !p(xs[i])
    ensures r.Some? ==> exists i :: 0 <= i < |xs| && xs[i] == r.value && p(xs[i])
                                    && forall j :: 0 <= j < i ==> !p(xs[j])
  {
    if xs == [] then None
    else if p(xs[0]) then Some(xs[0])
    else
      var r := Find(xs[1..], p);
      assert forall i :: 1 <= i < |xs| ==> xs[i] == xs[1..][i - 1];
      if r.Some? then
        var i :| 0 <= i < |xs| - 1 && xs[1..][i] == r.value && p(xs[1..][i])
          && forall j :: 0 <= j < i ==> !p(xs[1..][j]);
        assert xs[i + 1] == r.value && p(xs[i + 1]) && forall j :: 0 <= j < i + 1 ==> !p(xs[j]);
        r
      else r
  }

  /** The element `find` returns is the first one satisfying `p`. */
  lemma FindIsFirst<T>(xs: seq<T>, p: T -> bool, k: int)
    requires 0 <= k < |xs| && p(xs[k])
    requires forall j :: 0 <= j < k ==> !p(xs[j])
    ensures Find(xs, p) == Some(xs[k])
  {
    var r := Find(xs, p);
    var i :| 0 <= i < |xs| && xs[i] == r.value && p(xs[i]) && forall j :: 0 <= j < i ==> !p(xs[j]);
    assert i == k;
  }

  /** `deriveContentType`: the first of json, xml, html and text/plain that
      occurs in the MIME type. */
  function DeriveContentType(mimeType: string): (r: Option<string>)
    ensures r == if Includes(mimeType, "json") then Some("json")
                 else if Includes(mimeType, "xml") then Some("xml")
                 else if Includes(mimeType, "html") then Some("html")
                 else if Includes(mimeType, "text/plain") then Some("text/plain")
                 else None
  {
    var p := x => Includes(mimeType, x);
    var r := Find(CommonTypes, p);
    assert r == if p("json") then Some("json") else if p("xml") then Some("xml")
                else if p("html") then Some("html") else if p("text/plain") then Some("text/plain")
                else None by {
      assert CommonTypes == ["json", "xml", "html", "text/plain"];
      if p("json") {
        FindIsFirst(CommonTypes, p, 0);
      } else if p("xml") {
        FindIsFirst(CommonTypes, p, 1);
      } else if p("html") {
        FindIsFirst(CommonTypes, p, 2);
      } else if p("text/plain") {
        FindIsFirst(CommonTypes, p, 3);
      }
    }
    r
  }

  /** `codeBlockMarkup`: the class string goes right after `<code`. */
  function CodeBlockMarkup(classString: string, content: string): string {
    "<pre><code" + classString + ">" + content + CodeClose
  }

  function LanguageClass(language: string): string {
    " class=\"hljs lang-" + language + "\""
  }

  /** What the highlighter returns for a language, or by auto-detection when
      there is none (an empty language is falsy too). */
  function Highlight(code: string, lang: Option<string>, libs: Libs): Highlighted {
    if Present(lang) then libs.highlight(lang.value, code) else libs.highlightAuto(code)
  }

  const PlainOpenAsWritten := "<pre><codehljs>"

  /** `codeBlock` exactly as written: a text/plain block gets the bare word
      `hljs` as its class string and its code as it is; any other language
      is highlighted, by auto-detection when none is given, and classed with
      the language the highlighter reports. */
  function CodeBlockAsWritten(code: string, lang: Option<string>, libs: Libs): (r: string)
    ensures lang == Some("text/plain") ==> Inner(PlainOpenAsWritten, CodeClose, r) == Some(code)
    ensures lang != Some("text/plain") ==>
      var out := if Present(lang) then libs.highlight(lang.value, code) else libs.highlightAuto(code);
      Inner("<pre><code" + LanguageClass(out.language) + ">", CodeClose, r) == Some(out.value)
  {
    if Find(NoHighlight, x => lang == Some(x)).Some? then
      assert lang == Some("text/plain");
      InnerOfWrapped(PlainOpenAsWritten, code, CodeClose);
      CodeBlockMarkup("hljs", code)
    else
      assert lang != Some("text/plain") by {
        assert NoHighlight[0] == "text/plain";
      }
      var out := Highlight(code, lang, libs);
      InnerOfWrapped("<pre><code" + LanguageClass(out.language) + ">", out.value, CodeClose);
      CodeBlockMarkup(LanguageClass(out.language), out.value)
  }

  /** As written, a text/plain block opens with the tag `<codehljs>`, which
      is neither `<code>` nor `<code` followed by attributes. */
  lemma PlainBlockTagMalformed(code: string, libs: Libs)
    ensures var r := CodeBlockAsWritten(code, Some("text/plain"), libs);
      IsPrefix("<pre><codehljs>", r) && !IsPrefix("<pre><code>", r) && !IsPrefix("<pre><code ", r)
  {
    assert Find(NoHighlight, x => Some("text/plain") == Some(x)).Some? by {
      assert NoHighlight[0] == "text/plain";
    }
    var r := CodeBlockAsWritten(code, Some("text/plain"), libs);
    assert r == "<pre><codehljs>" + code + CodeClose;
    assert r[..15] == "<pre><codehljs>";
    assert r[10] == 'h';
  }

  /** As written, a text/plain block carries its code unescaped: the code
      `<script>` appears as markup. */
  lemma PlainBlockUnescaped(libs: Libs)
    ensures OccursAt(CodeBlockAsWritten("<script>", Some("text/plain"), libs), "<script>", 15)
  {
    assert Find(NoHighlight, x => Some("text/plain") == Some(x)).Some? by {
      assert NoHighlight[0] == "text/plain";
    }
    var r := CodeBlockAsWritten("<script>", Some("text/plain"), libs);
    assert r == "<pre><codehljs>" + "<script>" + CodeClose;
    assert r[15..23] == "<script>";
  }

  const PlainCodeOpen := "<pre><code class=\"hljs\">"

  /** `codeBlock` as intended: a text/plain block is classed `hljs` and its
      code escaped; any other language is highlighted, by auto-detection
      when none is given, and classed with the language the highlighter
      reports. */
  function CodeBlock(code: string, lang: Option<string>, libs: Libs): (r: string)
    ensures lang == Some("text/plain") ==> Inner(PlainCodeOpen, CodeClose, r) == Some(libs.escape(code))
    ensures lang != Some("text/plain") ==>
      var out := if Present(lang) then libs.highlight(lang.value, code) else libs.highlightAuto(code);
      Inner("<pre><code" + LanguageClass(out.language) + ">", CodeClose, r) == Some(out.value)
  {
    if Find(NoHighlight, x => lang == Some(x)).Some? then
      assert lang == Some("text/plain");
      InnerOfWrapped(PlainCodeOpen, libs.escape(code), CodeClose);
      PlainCodeOpen + libs.escape(code) + CodeClose
    else
      assert lang != Some("text/plain") by {
        assert NoHighlight[0] == "text/plain";
      }
      var out := Highlight(code, lang, libs);
      InnerOfWrapped("<pre><code" + LanguageClass(out.language) + ">", out.value, CodeClose);
      CodeBlockMarkup(LanguageClass(out.language), out.value)
  }

  /** The correction changes nothing but text/plain blocks: for every other
      language the corrected and the as-written block coincide. */
  lemma CorrectionOnlyTouchesPlainText(code: string, lang: Option<string>, libs: Libs)
    requires lang != Some("text/plain")
    ensures CodeBlock(code, lang, libs) == CodeBlockAsWritten(code, lang, libs)
  {
    assert Find(NoHighlight, x => lang == Some(x)).None? by {
      assert NoHighlight == ["text/plain"];
    }
  }

  /** Corrected, a text/plain block opens with a well-formed `<code class="hljs">`
      tag and carries no markup from its code when the escaping removes `<`. */
  lemma PlainBlockWellFormed(code: string, libs: Libs)
    requires EscapesAngles(libs)
    ensures var r := CodeBlock(code, Some("text/plain"), libs);
      IsPrefix(PlainCodeOpen, r) && Inner(PlainCodeOpen, CodeClose, r).Some?
      && '<' !in Inner(PlainCodeOpen, CodeClose, r).value
  {
    var r := CodeBlock(code, Some("text/plain"), libs);
    assert r[..|PlainCodeOpen|] == PlainCodeOpen;
  }

  /** The `responseCode` helper's text: the code, a space, and the escaped
      reason phrase or the escaped empty string. */
  function ResponseMessage(num: int, codes: map<int, string>, libs: Libs): (m: string)
    ensures IsPrefix(IntToString(num) + " ", m)
    ensures m[|IntToString(num)| + 1..] == libs.escape(if num in codes then codes[num] else "")
  {
    var head := IntToString(num) + " ";
    var phrase := if num in codes && codes[num] != "" then codes[num] else "";
    assert (head + libs.escape(phrase))[..|head|] == head;
    assert (head + libs.escape(phrase))[|head|..] == libs.escape(phrase);
    head + libs.escape(phrase)
  }

  /** The `responseCode` helper. */
  function ResponseCode(num: int, codes: map<int, string>, libs: Libs): (r: string)
    ensures Inner(ResponseCodeOpen(num), SpanClose, r) == Some(ResponseMessage(num, codes, libs))
  {
    InnerOfWrapped(ResponseCodeOpen(num), ResponseMessage(num, codes, libs), SpanClose);
    ResponseCodeOpen(num) + ResponseMessage(num, codes, libs) + SpanClose
  }

  /** The `nameForSecurityScheme` helper: a `null` key reads as
      "security optional", any other key as itself. */
  function NameForSecurityScheme(key: Option<string>): (r: string)
    ensures key.None? ==> r == "security optional"
    ensures key.Some? ==> r == key.value
  {
    match key
    case None => "security optional"
    case Some(k) => k
  }

  /** The `showCode` helper: nothing for falsy data; otherwise the code block,
      as written, in the language derived from the content type, which must
      be defined. */
  function ShowCode(data: Option<string>, typ: Option<string>, libs: Libs): (r: Result<string, Error>)
    ensures !Present(data) ==> r == Success("")
    ensures Present(data) && typ.None? ==> r.Failure?
    ensures Present(data) && typ.Some? ==> r == Success(CodeBlockAsWritten(data.value, DeriveContentType(typ.value), libs))
  {
    if !Present(data) then Success("")
    else if typ.None? then Failure(TypeError("cannot read property 'includes' of undefined"))
    else Success(CodeBlockAsWritten(data.value, DeriveContentType(typ.value), libs))
  }

  /** A content type mentioning none of the common types is highlighted by
      auto-detection. */
  lemma UnknownTypeAutoDetected(data: string, typ: string, libs: Libs)
    requires data != ""
    requires !Includes(typ, "json") && !Includes(typ, "xml") && !Includes(typ, "html") && !Includes(typ, "text/plain")
    ensures var out := libs.highlightAuto(data);
      ShowCode(Some(data), Some(typ), libs).Success?
      && Inner("<pre><code" + LanguageClass(out.language) + ">", CodeClose, ShowCode(Some(data), Some(typ), libs).value)
         == Some(out.value)
  {
  }

  /** JSON wins over the other types: a content type mentioning json is
      highlighted as json whatever else it mentions. */
  lemma JsonTypeHighlightedAsJson(data: string, typ: string, libs: Libs)
    requires data != "" && Includes(typ, "json")
    ensures var out := libs.highlight("json", data);
      ShowCode(Some(data), Some(typ), libs)
        == Success(CodeBlockMarkup(LanguageClass(out.language), out.value))
  {
  }

  const FormType := "application/x-www-form-urlencoded"

  /** The data `showCodeOrForm` reads: a content type, an example and, for
      forms, the parameters. */
  datatype ExampleView = ExampleView(contentType: Option<string>, example: Option<string>, params: Option<Json>)

  /** The context handed to the `parameters` partial. */
  datatype ParametersContext = ParametersContext(kind: string, params: Option<Json>)

  /** The `showCodeOrForm` helper: a form-encoded body is rendered through the
      `parameters` partial as a form, anything else as code. */
  function ShowCodeOrForm(data: ExampleView, parameters: ParametersContext -> string, libs: Libs): (r: Result<string, Error>)
    ensures data.contentType == Some(FormType) ==> r == Success(parameters(ParametersContext("Form", data.params)))
    ensures data.contentType != Some(FormType) ==> r == ShowCode(data.example, data.contentType, libs)
  {
    if data.contentType == Some(FormType) then Success(parameters(ParametersContext("Form", data.params)))
    else ShowCode(data.example, data.contentType, libs)
  }

  const TableOpen := "<table class=\"table\">"

  /** The overriding `table` renderer. */
  function TableMarkup(header: string, body: string): (r: string)
    ensures Inner(TableOpen + "<thead>", "</tbody></table>", r) == Some(header + "</thead><tbody>" + body)
  {
    var r := TableOpen + "<thead>" + header + "</thead>" + "<tbody>" + body + "</tbody>" + "</table>";
    assert r == (TableOpen + "<thead>") + (header + "</thead><tbody>" + body) + "</tbody></table>";
    InnerOfWrapped(TableOpen + "<thead>", header + "</thead><tbody>" + body, "</tbody></table>");
    r
  }

  /** The renderer `markdown` hands to marked: tables wrapped as above, code
      fences rendered as code blocks, as written. */
  function MarkdownRenderer(libs: Libs): (rd: Renderer)
    ensures forall h, b :: rd.table(h, b) == TableMarkup(h, b)
    ensures forall c, l :: rd.code(c, l) == CodeBlockAsWritten(c, l, libs)
  {
    Renderer(TableMarkup, (c, l) => CodeBlockAsWritten(c, l, libs))
  }

  /** The `markdown` helper. */
  function Markdown(md: Option<string>, libs: Libs): (r: string)
    ensures !Present(md) ==> r == ""
    ensures Present(md) ==> r == libs.marked(md.value, Some(MarkdownRenderer(libs)))
  {
    if Present(md) then libs.marked(md.value, Some(MarkdownRenderer(libs))) else ""
  }

  /** The slot map: partial name to template file. */
  const Partials: map<string, string> := map[
    "index" := "index.handlebars",
    "main" := "main.handlebars",
    "resource" := "resource.handlebars",
    "documentation" := "documentation.handlebars",
    "securityScheme" := "security_scheme.handlebars",
    "tableOfContents" := "table_of_contents.handlebars",
    "parameters" := "parameters.handlebars"]

  /** The slot map names exactly seven partials, each its own file. */
  lemma PartialSlots()
    ensures Partials.Keys == {"index", "main", "resource", "documentation", "securityScheme", "tableOfContents", "parameters"}
    ensures |Partials.Keys| == 7
    ensures forall a, b :: a in Partials && b in Partials && a != b ==> Partials[a] != Partials[b]
  {
  }

  /** Registering every slot: each partial is its template file, compiled. */
  function RegisterPartials<T>(compile: string -> T): (m: map<string, T>)
    ensures m.Keys == Partials.Keys
    ensures forall k :: k in m ==> m[k] == compile(Partials[k])
  {
    map k | k in Partials :: compile(Partials[k])
  }

  /** `toHtml`: the `main` partial for bare output, `index` otherwise. */
  function ToHtml<T>(bare: bool, partials: map<string, T>): (r: Option<T>)
    ensures var slot := if bare then "main" else "index";
      (slot in partials ==> r == Some(partials[slot])) && (slot !in partials ==> r.None?)
  {
    var slot := if bare then "main" else "index";
    if slot in partials then Some(partials[slot]) else None
  }

  /** Once the slots are registered, bare output renders `main.handlebars`
      and full output `index.handlebars`, whatever else is registered. */
  lemma ToHtmlSelectsTemplate<T>(bare: bool, compile: string -> T, registry: map<string, T>)
    requires forall k :: k in Partials ==> k in registry && registry[k] == compile(Partials[k])
    ensures bare ==> ToHtml(bare, registry) == Some(compile("main.handlebars"))
    ensures !bare ==> ToHtml(bare, registry) == Some(compile("index.handlebars"))
  {
    assert "main" in Partials && "index" in Partials;
  }
}
