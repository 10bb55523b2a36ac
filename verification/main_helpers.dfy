/** The Handlebars helpers of src/main.js, as pure functions of their
    arguments and of the libraries they call. */
module MainHelpers {
  import opened Wrappers
  import opened Js
  import opened Text
  import opened Decimal
  import opened Libraries
  import opened Markup

  /** What `/^[^\/]*\//` leaves after `replace(..., '')`: everything after the
      first `/`, or the whole string when it has none. */
  function AfterFirstSlash(s: string): (r: string)
    ensures '/' !in s ==> r == s
    ensures '/' in s ==> var k := |s| - |r| - 1;
      0 <= k && s == s[..k] + "/" + r && '/' !in s[..k]
  {
    match IndexOf(s, '/')
    case None => s
    case Some(k) =>
      assert s == s[..k] + "/" + s[k + 1..];
      s[k + 1..]
  }

  /** Stripping a `type/subtype` string whose type has no `/` yields the subtype. */
  lemma StripsTheType(t: string, sub: string)
    requires '/' !in t
    ensures AfterFirstSlash(t + "/" + sub) == sub
  {
    var s := t + "/" + sub;
    assert s[|t|] == '/' && s[..|t|] == t;
  }

  /** `stripContentTypePrefix`: throws on a value that is not a string. */
  function StripContentTypePrefix(t: Json): (r: Result<string, Error>)
    ensures t.Str? <==> r.Success?
    ensures !t.Str? ==> r == Failure(NotAString(t))
    ensures t.Str? ==> r.value == AfterFirstSlash(t.s)
  {
    if t.Str? then Success(AfterFirstSlash(t.s)) else Failure(NotAString(t))
  }

  const JsonOpen := "<pre class=\"hljs lang-json\"><code>"
  const PlainOpen := "<pre><code>"

  function HighlightOpen(language: string): string {
    "<pre class=\"hljs lang-" + language + "\"><code>"
  }

  /** The `json` helper: the value pretty-printed and highlighted as JSON. */
  function JsonHelper(data: Json, libs: Libs): (r: string)
    ensures Inner(JsonOpen, CodeClose, r) == Some(libs.highlight("json", PrettyJson(libs, data)).value)
  {
    var out := libs.highlight("json", PrettyJson(libs, data));
    InnerOfWrapped(JsonOpen, out.value, CodeClose);
    JsonOpen + out.value + CodeClose
  }

  /** The language `show_code` works in: the subtype of a truthy `type`. */
  function ShowCodeLanguage(typ: Option<Json>): (r: Result<Option<string>, Error>)
    ensures (typ.None? || !Truthy(typ.value)) ==> r == Success(None)
    ensures typ.Some? && Truthy(typ.value) && typ.value.Str? ==> r == Success(Some(AfterFirstSlash(typ.value.s)))
    ensures typ.Some? && Truthy(typ.value) && !typ.value.Str? ==> r == Failure(NotAString(typ.value))
  {
    if typ.Some? && Truthy(typ.value) then
      match StripContentTypePrefix(typ.value)
      case Success(lang) => Success(Some(lang))
      case Failure(e) => Failure(e)
    else Success(None)
  }

  /** The `show_code` helper. `marker` is the invalid-JSON fragment loaded
      from the templates. */
  function ShowCode(data: Option<string>, typ: Option<Json>, marker: string, libs: Libs): (r: Result<string, Error>)
    ensures data.None? ==> r == Success("")
    ensures data.Some? && ShowCodeLanguage(typ).Failure? ==> r == Failure(ShowCodeLanguage(typ).error)
    ensures data.Some? && ShowCodeLanguage(typ) == Success(Some("json")) && libs.parse(data.value).Some? ==>
      r == Success(JsonHelper(libs.parse(data.value).value, libs))
    ensures data.Some? && ShowCodeLanguage(typ) == Success(Some("json")) && libs.parse(data.value).None? ==>
      r.Success? && IsPrefix(marker, r.value)
      && Inner(JsonOpen, CodeClose, r.value[|marker|..]) == Some(libs.highlight("json", data.value).value)
    ensures data.Some? && ShowCodeLanguage(typ).Success? && ShowCodeLanguage(typ).value in {Some("html"), Some("xml")} ==>
      var out := libs.highlight(ShowCodeLanguage(typ).value.value, data.value);
      r == Success(HighlightOpen(out.language) + out.value + CodeClose)
    ensures (data.Some? && ShowCodeLanguage(typ).Success?
      && ShowCodeLanguage(typ).value !in {Some("json"), Some("html"), Some("xml")}) ==>
      r.Success? && Inner(PlainOpen, CodeClose, r.value) == Some(libs.escape(data.value))
  {
    if data.None? then Success("")
    else
      match ShowCodeLanguage(typ)
      case Failure(e) => Failure(e)
      case Success(lang) =>
        if lang == Some("json") then
          var parsed := libs.parse(data.value);
          var err := if parsed.Some? then "" else marker;
          var text := if parsed.Some? then PrettyJson(libs, parsed.value) else data.value;
          var out := libs.highlight("json", text);
          InnerOfWrapped(JsonOpen, out.value, CodeClose);
          assert (err + (JsonOpen + out.value + CodeClose))[|err|..] == JsonOpen + out.value + CodeClose;
          Success(err + (JsonOpen + out.value + CodeClose))
        else if lang == Some("html") || lang == Some("xml") then
          var out := libs.highlight(lang.value, data.value);
          Success(HighlightOpen(out.language) + out.value + CodeClose)
        else
          InnerOfWrapped(PlainOpen, libs.escape(data.value), CodeClose);
          Success(PlainOpen + libs.escape(data.value) + CodeClose)
  }

  /** Only JSON, HTML and XML are highlighted: for any other language the
      output does not depend on the highlighter at all. */
  lemma OtherLanguagesIgnoreHighlighter(data: Option<string>, typ: Option<Json>, marker: string, libs: Libs,
                                        highlight: (string, string) -> Highlighted)
    requires ShowCodeLanguage(typ).Success?
    requires ShowCodeLanguage(typ).value !in {Some("json"), Some("html"), Some("xml")}
    ensures ShowCode(data, typ, marker, libs) == ShowCode(data, typ, marker, libs.(highlight := highlight))
  {
  }

  /** `'' + num`, followed by a space and the reason phrase when the status
      table knows the code. */
  function StatusLabel(num: int, codes: map<int, string>): (s: string)
    ensures IsPrefix(IntToString(num), s)
    ensures num in codes <==> |s| > |IntToString(num)|
    ensures num in codes ==> s[|IntToString(num)|..] == " " + codes[num]
  {
    var d := IntToString(num);
    if num in codes then
      assert (d + " " + codes[num])[..|d|] == d;
      assert (d + " " + codes[num])[|d|..] == " " + codes[num];
      d + " " + codes[num]
    else d
  }

  /** The `response_code` helper: a span classed by the hundreds class whose
      escaped text is the status label. */
  function ResponseCode(num: int, codes: map<int, string>, libs: Libs): (r: string)
    ensures Inner(ResponseCodeOpen(num), SpanClose, r) == Some(libs.escape(StatusLabel(num, codes)))
  {
    InnerOfWrapped(ResponseCodeOpen(num), libs.escape(StatusLabel(num, codes)), SpanClose);
    ResponseCodeOpen(num) + libs.escape(StatusLabel(num, codes)) + SpanClose
  }

  /** The `name_for_security_scheme` helper: the fixed label for a `null`
      key, otherwise the `type` of the named scheme, which throws when the
      scheme is missing (or `null`). */
  function NameForSecurityScheme(key: Option<string>, schemes: map<string, Option<Json>>): (r: Result<Option<Json>, Error>)
    ensures key.None? ==> r == Success(Some(Str("Security Optional")))
    ensures key.Some? ==> (r.Failure? <==> key.value !in schemes || schemes[key.value] in {None, Some(Null)})
    ensures key.Some? && key.value in schemes && schemes[key.value].Some? && schemes[key.value].value.Object? ==>
      r == Success(Get(schemes[key.value].value.fields, "type"))
  {
    if key.None? then Success(Some(Str("Security Optional")))
    else if key.value !in schemes then Failure(TypeError("cannot read property 'type' of undefined"))
    else match schemes[key.value]
      case None => Failure(TypeError("cannot read property 'type' of undefined"))
      case Some(Null) => Failure(TypeError("cannot read property 'type' of null"))
      case Some(Object(fields)) => Success(Get(fields, "type"))
      case Some(_) => Success(None)
  }

  /** The `markdown` helper: marked with its default renderer, or the empty
      string for a falsy argument. */
  function Markdown(md: Option<string>, libs: Libs): (r: string)
    ensures !Present(md) ==> r == ""
    ensures Present(md) ==> r == libs.marked(md.value, None)
  {
    if Present(md) then libs.marked(md.value, None) else ""
  }
}
