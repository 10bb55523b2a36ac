/** Method flattening: `makeExamplesOf` and `flattenMethods` of src/main.js. */
module Methods {
  import opened Wrappers
  import opened Js

  /** The key lodash passes while iterating a collection: a property name for
      an object, a position for an array. */
  datatype Key = Name(name: string) | Index(index: nat)

  /** A collection lodash iterates. A field that is `undefined` behaves as an
      empty object under `_.map` and `_.forEach`. */
  datatype Collection<T> = Object(entries: seq<(string, T)>) | Array(items: seq<T>)

  function Size<T>(c: Collection<T>): nat {
    match c
    case Object(es) => |es|
    case Array(xs) => |xs|
  }

  /** The (key, value) pairs in iteration order. */
  function Entries<T>(c: Collection<T>): (r: seq<(Key, T)>)
    ensures |r| == Size(c)
    ensures c.Object? ==> forall i :: 0 <= i < |r| ==> r[i] == (Name(c.entries[i].0), c.entries[i].1)
    ensures c.Array? ==> forall i :: 0 <= i < |r| ==> r[i] == (Index(i), c.items[i])
  {
    match c
    case Object(es) => seq(|es|, i requires 0 <= i < |es| => (Name(es[i].0), es[i].1))
    case Array(xs) => seq(|xs|, i requires 0 <= i < |xs| => (Index(i), xs[i]))
  }

  /** One content type of a body declaration: the fields the flattener reads. */
  datatype BodyDecl = BodyDecl(example: Option<string>, schema: Option<string>)

  /** One status code of a method's `responses`. */
  datatype ResponseDecl = ResponseDecl(description: Option<string>, body: Collection<BodyDecl>)

  /** A method as the parser delivers it; `attributes` are its other fields. */
  datatype Method = Method(
    httpMethod: Option<string>,
    body: Collection<BodyDecl>,
    responses: Collection<ResponseDecl>,
    attributes: map<string, Json>)

  /** A request example: the content type (when the body was keyed by name),
      with that type's example and schema. */
  datatype Example = Example(contentType: Option<string>, example: Option<string>, schema: Option<string>)

  datatype FlatResponse = FlatResponse(
    code: Key,
    httpMethod: Option<string>,
    description: Option<string>,
    contentType: Option<Key>,
    example: Option<string>,
    schema: Option<string>)

  /** A flattened method: the method's own fields, its request examples and
      one response record per status code. */
  datatype FlatMethod = FlatMethod(
    httpMethod: Option<string>,
    body: Collection<BodyDecl>,
    attributes: map<string, Json>,
    requestExamples: seq<Example>,
    responses: seq<FlatResponse>)

  function ExampleOf(entry: (Key, BodyDecl)): Example {
    Example(if entry.0.Name? then Some(entry.0.name) else None, entry.1.example, entry.1.schema)
  }

  function ExamplesOfEntries(es: seq<(Key, BodyDecl)>): (r: seq<Example>)
    ensures |r| == |es|
    ensures forall i :: 0 <= i < |es| ==> r[i] == ExampleOf(es[i])
  {
    if es == [] then [] else [ExampleOf(es[0])] + ExamplesOfEntries(es[1..])
  }

  /** One request example per content type of the body, in iteration order;
      the content type is kept only when the body is keyed by name. */
  function MakeExamplesOf(body: Collection<BodyDecl>): (r: seq<Example>)
    ensures |r| == Size(body)
    ensures body.Object? ==> forall i :: 0 <= i < |r| ==>
      r[i] == Example(Some(body.entries[i].0), body.entries[i].1.example, body.entries[i].1.schema)
    ensures body.Array? ==> forall i :: 0 <= i < |r| ==>
      r[i] == Example(None, body.items[i].example, body.items[i].schema)
  {
    ExamplesOfEntries(Entries(body))
  }

  /** The `_.forEach` over a response body: every content type overwrites
      `type`, `example` and `schema` in turn. */
  function AssignBodies(r: FlatResponse, es: seq<(Key, BodyDecl)>): FlatResponse
    decreases |es|
  {
    if es == [] then r
    else AssignBodies(r.(contentType := Some(es[0].0), example := es[0].1.example, schema := es[0].1.schema), es[1..])
  }

  /** Overwriting in turn leaves the last content type's fields, and leaves
      everything untouched when there is no content type. */
  lemma {:induction false} AssignBodiesLastWins(r: FlatResponse, es: seq<(Key, BodyDecl)>)
    ensures var a := AssignBodies(r, es);
      && a.code == r.code && a.httpMethod == r.httpMethod && a.description == r.description
      && (es == [] ==> a == r)
      && (es != [] ==> var last := es[|es| - 1];
            a.contentType == Some(last.0) && a.example == last.1.example && a.schema == last.1.schema)
    decreases |es|
  {
    if es != [] {
      var r' := r.(contentType := Some(es[0].0), example := es[0].1.example, schema := es[0].1.schema);
      AssignBodiesLastWins(r', es[1..]);
    }
  }

  /** The response record for status `code` of method `name`. */
  function FlattenResponse(name: Option<string>, code: Key, decl: ResponseDecl): (r: FlatResponse)
    ensures r.code == code && r.httpMethod == name && r.description == decl.description
    ensures Size(decl.body) == 0 ==> r.contentType.None? && r.example.None? && r.schema.None?
    ensures Size(decl.body) > 0 ==> var last := Entries(decl.body)[Size(decl.body) - 1];
      r.contentType == Some(last.0) && r.example == last.1.example && r.schema == last.1.schema
  {
    AssignBodiesLastWins(FlatResponse(code, name, decl.description, None, None, None), Entries(decl.body));
    AssignBodies(FlatResponse(code, name, decl.description, None, None, None), Entries(decl.body))
  }

  function FlattenResponses(name: Option<string>, es: seq<(Key, ResponseDecl)>): (r: seq<FlatResponse>)
    ensures |r| == |es|
    ensures forall i :: 0 <= i < |es| ==> r[i] == FlattenResponse(name, es[i].0, es[i].1)
  {
    if es == [] then [] else [FlattenResponse(name, es[0].0, es[0].1)] + FlattenResponses(name, es[1..])
  }

  /** A copy of the method with `requestExamples` added and `responses`
      replaced by one record per status code. */
  function FlattenMethod(m: Method): (r: FlatMethod)
    ensures r.httpMethod == m.httpMethod && r.body == m.body && r.attributes == m.attributes
    ensures r.requestExamples == MakeExamplesOf(m.body)
    ensures |r.responses| == Size(m.responses)
    ensures forall i :: 0 <= i < |r.responses| ==>
      var (code, decl) := Entries(m.responses)[i];
      r.responses[i] == FlattenResponse(m.httpMethod, code, decl)
  {
    FlatMethod(m.httpMethod, m.body, m.attributes, MakeExamplesOf(m.body),
      FlattenResponses(m.httpMethod, Entries(m.responses)))
  }

  /** One flattened method per declared method, in order. */
  function FlattenMethods(ms: seq<Method>): (r: seq<FlatMethod>)
    ensures |r| == |ms|
    ensures forall i :: 0 <= i < |ms| ==> r[i] == FlattenMethod(ms[i])
  {
    if ms == [] then [] else [FlattenMethod(ms[0])] + FlattenMethods(ms[1..])
  }
}
