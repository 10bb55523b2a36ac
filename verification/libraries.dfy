/** The libraries the renderers call into, taken as given functions:
    highlight.js, marked, JSON and Handlebars' escaping. */
module Libraries {
  import opened Wrappers
  import opened Js

  /** What `hljs.highlight` and `hljs.highlightAuto` return. */
  datatype Highlighted = Highlighted(language: string, value: string)

  /** The two hooks of a marked renderer the generator overrides. */
  datatype Renderer = Renderer(
    table: (string, string) -> string,          // (header, body)
    code: (string, Option<string>) -> string)   // (code, fence language)

  datatype Libs = Libs(
    highlight: (string, string) -> Highlighted,   // hljs.highlight(language, code)
    highlightAuto: string -> Highlighted,         // hljs.highlightAuto(code)
    escape: string -> string,                     // handlebars.escapeExpression
    parse: string -> Option<Json>,                // JSON.parse, None where it throws
    stringify: (Json, nat) -> string,             // JSON.stringify(x, null, indent)
    marked: (string, Option<Renderer>) -> string) // marked(md) / marked(md, {renderer})

  /** The indentation prettyJson uses. */
  const JsonIndentSize: nat := 2

  function PrettyJson(libs: Libs, x: Json): string {
    libs.stringify(x, JsonIndentSize)
  }

  /** The property of Handlebars' escaping the findings rely on: no `<`
      survives it. */
  ghost predicate EscapesAngles(libs: Libs) {
    forall s :: '<' !in libs.escape(s)
  }
}
