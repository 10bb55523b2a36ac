/** `flattenHierarchy` and `arrayOfObjectsToObject` of src/main.js. */
module Hierarchy {
  import opened Wrappers
  import opened Js
  import opened StableSort
  import opened Resources

  /** One element of a declaration list such as `traits`: an object, given by
      its own entries in key order. */
  type Declaration = seq<(string, Json)>

  /** `Object.keys(obj)[0]`, which JavaScript spells "undefined" when used as
      a property name of an object without keys. */
  function FirstKey(d: Declaration): string {
    if d == [] then "undefined" else d[0].0
  }

  /** `obj[key]` for that first key; `undefined` for an object without keys. */
  function FirstValue(d: Declaration): Option<Json> {
    if d == [] then None else Some(d[0].1)
  }

  /** Element `i` is the last one whose first key is its first key. */
  predicate IsLastWithItsKey(xs: seq<Declaration>, i: int) {
    0 <= i < |xs| && forall j :: i < j < |xs| ==> FirstKey(xs[j]) != FirstKey(xs[i])
  }

  /** `arrayOfObjectsToObject`: the reduce that stores each element's first
      key with its value. Its keys are exactly the elements' first keys. */
  function ArrayOfObjectsToObject(xs: seq<Declaration>): (r: map<string, Option<Json>>)
    ensures forall k :: k in r <==> exists i :: 0 <= i < |xs| && FirstKey(xs[i]) == k
  {
    if xs == [] then map[]
    else
      var init := xs[..|xs| - 1];
      var last := xs[|xs| - 1];
      var acc := ArrayOfObjectsToObject(init);
      var r := acc[FirstKey(last) := FirstValue(last)];
      assert forall k :: k in r <==> exists i :: 0 <= i < |xs| && FirstKey(xs[i]) == k by {
        forall k
          ensures k in r <==> exists i :: 0 <= i < |xs| && FirstKey(xs[i]) == k
        {
          if k in acc {
            var i :| 0 <= i < |init| && FirstKey(init[i]) == k;
            assert xs[i] == init[i];
          }
          if i :| 0 <= i < |xs| && FirstKey(xs[i]) == k {
            if i < |init| {
              assert xs[i] == init[i];
            }
          }
        }
      }
      r
  }

  /** On a repeated key the later element wins: a key maps to the value of
      the last element that has it as first key. */
  lemma {:induction false} LaterDeclarationWins(xs: seq<Declaration>, i: int)
    requires IsLastWithItsKey(xs, i)
    ensures FirstKey(xs[i]) in ArrayOfObjectsToObject(xs)
    ensures ArrayOfObjectsToObject(xs)[FirstKey(xs[i])] == FirstValue(xs[i])
    decreases |xs|
  {
    var init := xs[..|xs| - 1];
    var last := xs[|xs| - 1];
    if i < |init| {
      assert xs[i] == init[i];
      assert FirstKey(last) != FirstKey(xs[i]);
      assert IsLastWithItsKey(init, i) by {
        forall j | i < j < |init|
          ensures FirstKey(init[j]) != FirstKey(init[i])
        {
          assert init[j] == xs[j];
        }
      }
      LaterDeclarationWins(init, i);
    }
  }

  /** The parsed document: the top-level fields the flattener reads, and the
      document itself seen as the root resource. */
  datatype Api = Api(
    title: Option<Json>,
    baseUri: Option<Json>,
    baseUriParameters: Option<Json>,
    traits: seq<Declaration>,
    securitySchemes: seq<Declaration>,
    document: Tree)

  datatype Flattened = Flattened(
    baseUri: Option<Json>,
    baseUriParameters: Option<Json>,
    securitySchemes: map<string, Option<Json>>,
    title: Option<Json>,
    traits: map<string, Option<Json>>,
    resources: seq<Resource>)

  /** `flattenHierarchy`: the document's declarations as name maps, and its
      resource tree (the document included) as a sorted flat list. */
  function FlattenHierarchy(api: Api): (h: Flattened)
    requires api.document.Node?
    ensures h.title == api.title && h.baseUri == api.baseUri && h.baseUriParameters == api.baseUriParameters
    ensures h.traits == ArrayOfObjectsToObject(api.traits)
    ensures h.securitySchemes == ArrayOfObjectsToObject(api.securitySchemes)
    ensures h.resources == FlattenResources(api.document)
    ensures |h.resources| == Count(api.document)
    ensures SortedBy(h.resources, FullPathOf)
    ensures Clean([], api.document) in h.resources
  {
    assert IsPath([api.document], api.document);
    PathRecordFlattened(api.document, [api.document]);
    assert [api.document][..0] == [];
    Flattened(api.baseUri, api.baseUriParameters, ArrayOfObjectsToObject(api.securitySchemes),
      api.title, ArrayOfObjectsToObject(api.traits), FlattenResources(api.document))
  }
}
