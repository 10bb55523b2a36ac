# raml-fleece core in Dafny

A model of the two pure pieces of raml-fleece, a generator that turns a RAML
API description into HTML documentation:

- **The hierarchy flattener** (`src/main.js`). `flattenResources` walks the
  nested resource tree in pre-order. Each node becomes a record: a copy of the
  node without `resources`, with flattened `methods`, a `basePath` joined from
  the ancestors' `relativeUri`s, its own `path`, and `fullPath = basePath + path`.
  The records are then sorted by `fullPath` with lodash's stable `_.sortBy`.
  `flattenMethods` / `makeExamplesOf` give each method one request example per
  body content type and one response record per status code.
  `arrayOfObjectsToObject` collapses a list of single-key objects into one map.
  `flattenHierarchy` puts these together.
- **The content renderers.** Two variants are modelled: the Handlebars helpers of
  `src/main.js` (`response_code`, `name_for_security_scheme`, `show_code`,
  `markdown`, `json`) and of `src/to-html.js` (`deriveContentType`, `codeBlock`,
  `responseCode`, `nameForSecurityScheme`, `showCodeOrForm`, `showCode`,
  `markdown` with its table renderer, the `partials` slot map and `toHtml`).

Some libraries are not modelled. highlight.js, marked, `JSON.parse` /
`JSON.stringify`, `handlebars.escapeExpression` and template compilation enter
as function-valued parameters (`Libraries.Libs`, the `compile` and `parameters`
arguments). The status-code table is a `map<int, string>` parameter. So is the
invalid-JSON marker, which is loaded from a file. A JavaScript exception is a
`Failure` of `Result`, and `undefined` is `None`. A field that lodash iterates
(`body`, `responses`) is an ordered entry list, and a missing field counts as
empty.

Facts about the code that the model keeps:

- The document itself is passed to `flattenResources`, so it becomes a record.
  It has no `relativeUri`, so its `fullPath` is the string `"undefined"`
  (`src/main.js:80`). That record sorts after every resource path that starts
  with `/`, so the document is not listed first. An ancestor without a
  `relativeUri` adds nothing to `basePath`, because joining `undefined` gives "".
- Response records carry only `code`, `method`, `description` and the last body
  type's `type` / `example` / `schema`. Headers are not copied.
- An unknown status code renders as `"404"` in `src/main.js` and as `"404 "`,
  with a trailing space, in `src/to-html.js`.
- The sort is non-decreasing and stable. Duplicate `fullPath`s are kept.
- `showCode` and the markdown code hook use `codeBlock` as written, including
  its text/plain branch (see "## Findings"). The corrected block is modelled
  beside it.

## Model

| member | source | states |
|---|---|---|
| Js.Get | src/main.js:158 | a property read finds a value exactly when the object has an entry with that key, and the value is that of the first such entry |
| Text.Includes | src/to-html.js:21 | `includes` is true exactly when the substring occurs at some index |
| Text.IndexOf | src/main.js:107 | the first index of a character: it is there, not before, and absent only if the character is absent |
| Text.InnerOfWrapped | src/to-html.js:30-34 | the content of every `open + content + close` markup can be read back exactly |
| Decimal.NatToString | src/main.js:145 | `'' + num` is a non-empty string of decimal digits |
| Decimal.ValueOfNatToString | src/main.js:145 | the decimal text of a number reads back as that number |
| Decimal.NatToStringInjective | src/main.js:145 | different numbers get different decimal text |
| Decimal.HundredsDropLastTwoDigits | src/main.js:144 | `floor(num / 100)` is the number's decimal text without its last two digits |
| Markup.HundredsClassOfCode | src/main.js:144-150 | the class of a code of three or more digits is the code with its last two digits replaced by `xx` (404 gives `response-code-4xx`) |
| Order.LtIrreflexive | src/main.js:88 | the string order `_.sortBy` uses is irreflexive |
| Order.LtAsymmetric | src/main.js:88 | the string order is asymmetric |
| Order.LtTransitive | src/main.js:88 | the string order is transitive |
| Order.LtConnected | src/main.js:88 | any two different strings are ordered one way or the other |
| Order.ProperPrefixIsLess | src/main.js:88 | a string sorts strictly before every longer string it is a prefix of |
| StableSort.Insert | src/main.js:88 | inserting adds exactly the one element (as a multiset) |
| StableSort.InsertSorted | src/main.js:88 | inserting into a sorted sequence keeps it sorted |
| StableSort.InsertKeepsOrderOfEqualKeys | src/main.js:88 | inserting an element puts it ahead of the later elements with an equal key |
| StableSort.SortBy | src/main.js:88 | the result is sorted by key, is a permutation of the input, and keeps the input order among equal keys |
| StableSort.SortedLessFirst | src/main.js:88 | in the sorted list, an element with a smaller key comes first |
| StableSort.SortedPrefixFirst | src/main.js:88 | in the sorted list, an element whose key is a proper prefix of another's comes first |
| Methods.Entries | src/main.js:94-96 | lodash iterates an object by key name and an array by position, in order |
| Methods.ExamplesOfEntries | src/main.js:94-100 | one example per entry, in order |
| Methods.MakeExamplesOf | src/main.js:93-101 | one request example per body content type, carrying that type's example and schema; the type is kept only for name-keyed bodies |
| Methods.AssignBodiesLastWins | src/main.js:122-126 | after the overwrite loop, the last body type's `type` / `example` / `schema` win; no body leaves them unset |
| Methods.FlattenResponse | src/main.js:117-128 | a response record has the status code, the method name and the description, plus the last body type's fields |
| Methods.FlattenResponses | src/main.js:117-128 | one response record per status code, in order |
| Methods.FlattenMethod | src/main.js:113-130 | the copy keeps the method's own fields, adds its request examples and has one response per status code |
| Methods.FlattenMethods | src/main.js:112-131 | one flattened method per input method, in order |
| Resources.Walk | src/main.js:71-86 | the traversal yields only present nodes; a missing node ends its branch |
| Resources.WalkAll | src/main.js:83-85 | the children's traversals yield only present nodes |
| Resources.BasePathOfConcat | src/main.js:78 | joining the ancestors' `relativeUri`s is additive over concatenation |
| Resources.Clean | src/main.js:75-81 | a record copies the node's fields, flattens its methods, has `path` = the node's `relativeUri`, `basePath` = the ancestors' join, and `fullPath = basePath + path` |
| Resources.Records | src/main.js:81 | one record per visit, in visit order |
| Resources.FlattenResources | src/main.js:69-89 | one record per node (a missing root gives none), sorted by `fullPath`, a permutation of the pre-order records, with equal paths in pre-order, and each `fullPath = basePath + path` |
| Resources.WalkCount | src/main.js:71-86 | the traversal visits as many nodes as the tree has |
| Resources.WalkAllCount | src/main.js:83-85 | the children's traversals visit as many nodes as the children's subtrees have |
| Resources.WalkSound | src/main.js:71-86 | every visit is a node on a root-to-node path, and its ancestors are exactly the nodes above it |
| Resources.WalkAllSound | src/main.js:82-85 | a visit under the children lies below one of those children |
| Resources.WalkAllIncludes | src/main.js:83-85 | every child's visits are among its parent's visits |
| Resources.WalkComplete | src/main.js:71-86 | every node of the tree is visited, with its ancestors as parents |
| Resources.PreOrderRecordOnPath | src/main.js:75-82 | the record at each position of the pre-order list (there are as many as nodes) is built from a node of the tree and its ancestors |
| Resources.PathRecordInPreOrder | src/main.js:75-82 | each node of the tree has its record in the pre-order list |
| Resources.RecordsAreTheNodes | src/main.js:69-89 | the flattened list holds exactly the records of the tree's nodes, each built from the node and its real ancestors |
| Resources.ChildBaseIsParentFull | src/main.js:78-82 | a child's `basePath` is its parent's `fullPath` when the parent has a `relativeUri` |
| Resources.DescendantExtendsAncestor | src/main.js:78-82 | a descendant's `fullPath` has the `fullPath` of an ancestor with a `relativeUri` as a prefix |
| Resources.PathRecordFlattened | src/main.js:69-89 | the record of every node on a root path is in the flattened list |
| Resources.PrefixRecordFirst | src/main.js:88 | in the sorted list, a record whose `fullPath` is a proper prefix of another's comes before it |
| Resources.AncestorFullPathIsProperPrefix | src/main.js:78-80 | along a path, the `fullPath` of a node with a `relativeUri` is a proper prefix of the `fullPath` of a descendant whose own `relativeUri` is non-empty |
| Resources.NodeOnPathFlattened | src/main.js:69-89 | the record of every node on a root path, built from the nodes above it, is in the flattened list |
| Resources.AncestorListedBeforeDescendant | src/main.js:78-88 | a resource with a `relativeUri` and each descendant with a non-empty `relativeUri` are both listed, the ancestor first |
| Resources.SlashPathBeforeUndefined | src/main.js:88 | every path starting with `/` sorts before `"undefined"` |
| Resources.UndefinedRecordAfterSlashPaths | src/main.js:88 | in the sorted list, a record with `fullPath` `"undefined"` comes after every record whose `fullPath` starts with `/` |
| Resources.DocumentListedAfterSlashPaths | src/main.js:69-89 | the document's record has `fullPath` `"undefined"`, is listed, and comes after every record whose `fullPath` starts with `/` |
| Hierarchy.ArrayOfObjectsToObject | src/main.js:60-66 | the map's keys are exactly the elements' first keys (the empty list gives the empty map) |
| Hierarchy.LaterDeclarationWins | src/main.js:60-66 | each key maps to the value of the last element that has it as first key |
| Hierarchy.FlattenHierarchy | src/main.js:43-57 | the title and base URI fields are copied; traits and security schemes become name maps; `resources` is the flattened resource tree of the document, one sorted record per node, the document's own record included |
| MainHelpers.AfterFirstSlash | src/main.js:107 | the regex replacement drops the shortest prefix that ends in a `/` and leaves a string without `/` unchanged |
| MainHelpers.StripsTheType | src/main.js:107 | stripping `type/subtype` gives `subtype` when `type` has no `/` (`application/json` gives `json`) |
| MainHelpers.StripContentTypePrefix | src/main.js:103-108 | throws exactly on a non-string; otherwise drops everything up to the first `/` |
| MainHelpers.JsonHelper | src/main.js:135-142 | the `json` helper's block holds exactly the highlighted pretty-printed value |
| MainHelpers.ShowCodeLanguage | src/main.js:164-166 | the language is the subtype of a truthy type, none for a falsy one, and throws for a truthy non-string |
| MainHelpers.ShowCode | src/main.js:160-197 | `''` for undefined data; valid JSON renders like the `json` helper on the parsed value; invalid JSON prepends the marker and highlights the raw text; html / xml are highlighted; everything else is escaped in a plain `<pre><code>` |
| MainHelpers.OtherLanguagesIgnoreHighlighter | src/main.js:168-196 | only json, html and xml reach the highlighter: for any other language the output does not depend on it |
| MainHelpers.StatusLabel | src/main.js:145-148 | the label starts with the code; it is longer (by a space and the phrase) exactly when the code is in the status table |
| MainHelpers.ResponseCode | src/main.js:143-154 | a span with the hundreds class whose content is the escaped label |
| MainHelpers.NameForSecurityScheme | src/main.js:155-159 | a null key gives `Security Optional`; otherwise the scheme's `type`, which throws exactly when the scheme is missing or null |
| MainHelpers.Markdown | src/main.js:198-200 | `''` for falsy input, otherwise marked with its default renderer |
| ToHtml.Find | src/to-html.js:21 | `find` returns none only if no element satisfies the test, and otherwise an element that does, with none before it |
| ToHtml.FindIsFirst | src/to-html.js:21 | `find` returns the first element that satisfies the test |
| ToHtml.DeriveContentType | src/to-html.js:13-22 | json, xml, html, text/plain, in that priority order, whichever first occurs in the MIME type; none if none occurs |
| ToHtml.PlainBlockTagMalformed | src/to-html.js:30-37 | as written, a text/plain block opens with `<codehljs>`, which is not a `code` tag |
| ToHtml.CodeBlockAsWritten | src/to-html.js:36-41 | text/plain: the code, as it is, between `<pre><codehljs>` and `</code></pre>`; otherwise the highlighter's output (auto-detected when no language is given), classed `hljs lang-<language>` |
| ToHtml.PlainBlockUnescaped | src/to-html.js:37 | as written, a text/plain block carries the code `<script>` verbatim as markup |
| ToHtml.CodeBlock | src/to-html.js:37 | corrected form of the text/plain branch: the escaped code in `<pre><code class="hljs">`; other languages as written |
| ToHtml.PlainBlockWellFormed | src/to-html.js:37 | corrected, a text/plain block opens with a well-formed tag and holds no `<` of its code |
| ToHtml.CorrectionOnlyTouchesPlainText | src/to-html.js:36-41 | for every language other than text/plain the corrected block is the as-written block |
| ToHtml.ResponseMessage | src/to-html.js:45 | the message is the code, a space, and the escaped phrase, or the escaped empty string when the code is unknown |
| ToHtml.ResponseCode | src/to-html.js:43-49 | a span with the hundreds class around the message |
| ToHtml.NameForSecurityScheme | src/to-html.js:50-54 | a null key gives `security optional`; any other key gives itself |
| ToHtml.ShowCode | src/to-html.js:70-74 | `''` for falsy data; throws for an undefined type; otherwise `codeBlock`, as written, in the derived language |
| ToHtml.UnknownTypeAutoDetected | src/to-html.js:38 | a type naming none of the common types is highlighted by auto-detection |
| ToHtml.JsonTypeHighlightedAsJson | src/to-html.js:19-22 | a type mentioning json is highlighted as json, whatever else it mentions |
| ToHtml.ShowCodeOrForm | src/to-html.js:55-69 | a form-encoded body renders the `parameters` partial with `type: 'Form'` and the params; anything else is `showCode(example, type)` |
| ToHtml.TableMarkup | src/to-html.js:77-82 | the table is `<table class="table"><thead>H</thead><tbody>B</tbody></table>` |
| ToHtml.MarkdownRenderer | src/to-html.js:76-83 | marked's table hook is the table markup; its code hook is `codeBlock` as written |
| ToHtml.Markdown | src/to-html.js:75-85 | `''` for falsy input, otherwise marked with the overriding renderer |
| ToHtml.PartialSlots | src/to-html.js:88-96 | the slot map names exactly seven partials, each with its own file |
| ToHtml.RegisterPartials | src/to-html.js:98-103 | registering compiles every slot's file under the slot's name |
| ToHtml.ToHtml | src/to-html.js:112-114 | bare selects the `main` partial, otherwise `index` |
| ToHtml.ToHtmlSelectsTemplate | src/to-html.js:98-114 | once the slots are registered, bare output renders `main.handlebars` and full output `index.handlebars` |

## Findings

| source | as written | input that shows it | evidently intended | confidence | as-written member | corrected member |
|---|---|---|---|---|---|---|
| src/to-html.js:37 | `codeBlockMarkup('hljs', code)` puts the bare word `hljs` right after `<code`, so the tag is `<codehljs>` | any code with language `text/plain` | `<code class="hljs">`, the same attribute form as the other branch (line 39) | high, not executed | ToHtml.PlainBlockTagMalformed | ToHtml.PlainBlockWellFormed |
| src/to-html.js:37 | the text/plain branch inserts the code without escaping; the other branch inserts highlighter output, which is escaped | the code `<script>` with language `text/plain` | escape the code, as `src/main.js:193` does for unhighlighted code | medium, not executed | ToHtml.PlainBlockUnescaped | ToHtml.CodeBlock |

`ToHtml.CodeBlockAsWritten` is `codeBlock` as written, and `ShowCode` and the
markdown renderer use it. `ToHtml.CodeBlock` is the corrected definition.
`ToHtml.CorrectionOnlyTouchesPlainText` shows that the two differ only on
text/plain.

## Left out

- `src/cmdline.js`: it only declares yargs options and holds no logic.
- File and process I/O: `loadTemplate`, `die`, reading `process.argv` and writing to stdout. Template text, the invalid-JSON marker and the status table come in as parameters.
- The asynchronous parts: the RAML load promise chain, `throwLater` and the `less.render` callback that registers `style`. `ToHtmlSelectsTemplate` allows any extra registered partials.
- Handlebars' global helper and partial registry. The helpers are modelled as pure functions, and registration as a map from slot to compiled template.
- The `upper_case` / `upperCase` helpers: they need Unicode case mapping.
- The internals of highlight.js, marked, `JSON.parse` / `JSON.stringify` and escaping: they are parameters. That highlight.js throws on an unregistered language is not modelled.
- Floating-point numbers: JSON numbers are integers. A non-numeric status code, which gives a `NaNxx` class, is not modelled.
- JavaScript compares strings by UTF-16 code unit. Dafny compares `char`s, which are Unicode scalar values. The two orders differ only between characters outside the Basic Multilingual Plane and code points U+E000 to U+FFFF.
- The `traits` argument of `flattenResources`: the source never reads it.
- A `null` response or body declaration, or a `null` `showCodeOrForm` argument, throws a TypeError in the source. The model's types rule these inputs out.
- `show_code` with `null` data, which `JSON.parse` would read as `"null"`, is not modelled. Its data is a string or undefined.
- `showCode` with a content type that is neither a string nor undefined, which would throw, is not modelled. The type is a string or undefined.
- A body given as an array with `makeExamplesOf`'s `_.isString(key)` test: it is modelled, but RAML bodies are objects.
- Resources.AncestorListedBeforeDescendant: requires the ancestor to have a `relativeUri` and the descendant a non-empty one. The document has no `relativeUri`, and its record sorts after every path starting with `/` (`Resources.DocumentListedAfterSlashPaths`). No order is promised between an ancestor and a descendant with equal `fullPath`s.
- Hierarchy.FlattenHierarchy: requires the document to be present. The source reads `root.title` first and would throw on a missing document.
- `name_for_security_scheme` with a `securedBy` entry that is an object (a scheme with parameters): the source looks up the key `"[object Object]"` and throws reading `.type` of undefined. The model takes keys to be strings or null.
