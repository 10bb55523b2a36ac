/** The hierarchy flattener of src/main.js: `flattenResources`,
    `arrayOfObjectsToObject` and `flattenHierarchy`. */
module Resources {
  import opened Wrappers
  import opened Js
  import opened Text
  import opened Methods
  import opened StableSort
  import opened Order

  /** A resource of the parsed document, or a missing (`null`/`undefined`)
      one. `attributes` are the node's fields other than those named here;
      a node without `methods` or `resources` has empty sequences. */
  datatype Tree =
    | Null
    | Node(relativeUri: Option<string>, attributes: map<string, Json>, methods: seq<Method>, resources: seq<Tree>)

  /** A flattened resource: the node's fields without `resources`, with its
      methods flattened and its position in the hierarchy spelled out. */
  datatype Resource = Resource(
    attributes: map<string, Json>,
    methods: seq<FlatMethod>,
    basePath: string,
    path: Option<string>,
    fullPath: string)

  /** One step of the traversal: a node together with its ancestors, root first. */
  datatype Visit = Visit(parents: seq<Tree>, node: Tree)

  /** Number of present nodes in a tree. */
  function Count(t: Tree): nat
    decreases t
  {
    match t
    case Null => 0
    case Node(_, _, _, children) => 1 + CountAll(children)
  }

  function CountAll(ts: seq<Tree>): nat
    decreases ts
  {
    if ts == [] then 0 else Count(ts[0]) + CountAll(ts[1..])
  }

  /** `recur` of flattenResources: a node is visited before its children,
      children in declaration order; a missing node ends its branch. */
  function Walk(parents: seq<Tree>, t: Tree): (r: seq<Visit>)
    ensures forall v :: v in r ==> v.node.Node?
    decreases t
  {
    match t
    case Null => []
    case Node(_, _, _, children) => [Visit(parents, t)] + WalkAll(parents + [t], children)
  }

  function WalkAll(parents: seq<Tree>, ts: seq<Tree>): (r: seq<Visit>)
    ensures forall v :: v in r ==> v.node.Node?
    decreases ts
  {
    if ts == [] then [] else Walk(parents, ts[0]) + WalkAll(parents, ts[1..])
  }

  /** What a node contributes to its descendants' `basePath`: its
      `relativeUri`, or nothing when it has none (joining `undefined` gives ""). */
  function UriOf(t: Tree): string {
    if t.Node? && t.relativeUri.Some? then t.relativeUri.value else ""
  }

  /** `_.pluck(parents, 'relativeUri').join('')`. */
  function BasePath(parents: seq<Tree>): string {
    if parents == [] then "" else BasePath(parents[..|parents| - 1]) + UriOf(parents[|parents| - 1])
  }

  /** A node's own `relativeUri` as string concatenation renders it. */
  function PathText(uri: Option<string>): string {
    uri.GetOr("undefined")
  }

  lemma {:induction false} BasePathOfConcat(a: seq<Tree>, b: seq<Tree>)
    ensures BasePath(a + b) == BasePath(a) + BasePath(b)
    decreases |b|
  {
    if b != [] {
      var b' := b[..|b| - 1];
      assert (a + b)[..|a + b| - 1] == a + b';
      BasePathOfConcat(a, b');
    } else {
      assert a + b == a;
    }
  }

  /** The record `recur` pushes for a node with the given ancestors. */
  function Clean(parents: seq<Tree>, node: Tree): (r: Resource)
    requires node.Node?
    ensures r.attributes == node.attributes
    ensures r.methods == FlattenMethods(node.methods) && |r.methods| == |node.methods|
    ensures r.path == node.relativeUri
    ensures r.basePath == BasePath(parents)
    ensures r.fullPath == r.basePath + PathText(r.path)
  {
    var base := BasePath(parents);
    Resource(node.attributes, FlattenMethods(node.methods), base, node.relativeUri, base + PathText(node.relativeUri))
  }

  function Records(vs: seq<Visit>): (r: seq<Resource>)
    requires forall v :: v in vs ==> v.node.Node?
    ensures |r| == |vs|
    ensures forall i :: 0 <= i < |vs| ==> r[i] == Clean(vs[i].parents, vs[i].node)
  {
    if vs == [] then [] else [Clean(vs[0].parents, vs[0].node)] + Records(vs[1..])
  }

  /** The records in the order `recur` pushes them. */
  function PreOrder(root: Tree): seq<Resource> {
    Records(Walk([], root))
  }

  function FullPathOf(r: Resource): string {
    r.fullPath
  }

  /** `flattenResources`: one record per node, sorted by `fullPath`, records
      with equal `fullPath` in traversal order. */
  function FlattenResources(root: Tree): (r: seq<Resource>)
    ensures root.Null? ==> r == []
    ensures |r| == Count(root)
    ensures SortedBy(r, FullPathOf)
    ensures multiset(r) == multiset(PreOrder(root))
    ensures forall k :: Filter(r, FullPathOf, k) == Filter(PreOrder(root), FullPathOf, k)
    ensures forall x :: x in r ==> x.fullPath == x.basePath + PathText(x.path)
  {
    WalkCount([], root);
    var r := SortBy(PreOrder(root), FullPathOf);
    assert forall x :: x in r ==> x in multiset(PreOrder(root));
    r
  }

  // ---------------------------------------------------------------------
  // The traversal visits exactly the nodes of the tree.

  /** `path` runs from `t` down to one of its nodes, each step into a child. */
  ghost predicate IsPath(path: seq<Tree>, t: Tree) {
    && |path| > 0 && path[0] == t
    && (forall k :: 0 <= k < |path| ==> path[k].Node?)
    && (forall k :: 0 <= k < |path| - 1 ==> path[k + 1] in path[k].resources)
  }

  lemma {:induction false} WalkCount(p: seq<Tree>, t: Tree)
    ensures |Walk(p, t)| == Count(t)
    decreases t
  {
    match t
    case Null =>
    case Node(_, _, _, children) => WalkAllCount(p + [t], children);
  }

  lemma {:induction false} WalkAllCount(p: seq<Tree>, ts: seq<Tree>)
    ensures |WalkAll(p, ts)| == CountAll(ts)
    decreases ts
  {
    if ts != [] {
      WalkCount(p, ts[0]);
      WalkAllCount(p, ts[1..]);
    }
  }

  /** Every visit is a node of the tree, reached along a path from the root,
      with exactly that path's upper part as its ancestors. */
  lemma {:induction false} WalkSound(p: seq<Tree>, t: Tree, v: Visit)
    requires v in Walk(p, t)
    ensures |p| <= |v.parents| && v.parents[..|p|] == p
    ensures IsPath(v.parents[|p|..] + [v.node], t)
    decreases t
  {
    if v != Visit(p, t) {
      var c := WalkAllSound(p + [t], t.resources, v);
      var sub := v.parents[|p| + 1..] + [v.node];
      var path := v.parents[|p|..] + [v.node];
      assert path == [t] + sub;
      forall k | 0 <= k < |path| - 1
        ensures path[k + 1] in path[k].resources
      {
        if k > 0 {
          assert path[k + 1] == sub[k] && path[k] == sub[k - 1];
        }
      }
    } else {
      assert v.parents[|p|..] + [v.node] == [t];
    }
  }

  lemma {:induction false} WalkAllSound(p: seq<Tree>, ts: seq<Tree>, v: Visit) returns (c: Tree)
    requires v in WalkAll(p, ts)
    ensures c in ts
    ensures |p| <= |v.parents| && v.parents[..|p|] == p
    ensures IsPath(v.parents[|p|..] + [v.node], c)
    decreases ts
  {
    if v in Walk(p, ts[0]) {
      WalkSound(p, ts[0], v);
      c := ts[0];
    } else {
      c := WalkAllSound(p, ts[1..], v);
    }
  }

  lemma {:induction false} WalkAllIncludes(p: seq<Tree>, ts: seq<Tree>, c: Tree, v: Visit)
    requires c in ts && v in Walk(p, c)
    ensures v in WalkAll(p, ts)
    decreases ts
  {
    if c != ts[0] {
      WalkAllIncludes(p, ts[1..], c, v);
    }
  }

  /** Every node of the tree is visited, with its ancestors as `parents`. */
  lemma {:induction false} WalkComplete(p: seq<Tree>, t: Tree, path: seq<Tree>)
    requires IsPath(path, t)
    ensures Visit(p + path[..|path| - 1], path[|path| - 1]) in Walk(p, t)
    decreases |path|
  {
    if |path| > 1 {
      var rest := path[1..];
      assert path[1] in t.resources;
      assert IsPath(rest, path[1]) by {
        forall k | 0 <= k < |rest| - 1
          ensures rest[k + 1] in rest[k].resources
        {
          assert rest[k + 1] == path[k + 2] && rest[k] == path[k + 1];
        }
      }
      WalkComplete(p + [t], path[1], rest);
      assert (p + [t]) + rest[..|rest| - 1] == p + path[..|path| - 1];
      assert rest[|rest| - 1] == path[|path| - 1];
      WalkAllIncludes(p + [t], t.resources, path[1], Visit(p + path[..|path| - 1], path[|path| - 1]));
    } else {
      assert p + path[..0] == p;
    }
  }

  /** The record at each position of the traversal, with the path it lies on. */
  lemma PreOrderRecordOnPath(root: Tree, i: nat) returns (path: seq<Tree>)
    requires i < Count(root)
    ensures i < |PreOrder(root)|
    ensures IsPath(path, root) && PreOrder(root)[i] == Clean(path[..|path| - 1], path[|path| - 1])
  {
    var walk := Walk([], root);
    WalkCount([], root);
    var v := walk[i];
    WalkSound([], root, v);
    path := v.parents + [v.node];
    assert v.parents[0..] == v.parents;
    assert path[..|path| - 1] == v.parents;
  }

  lemma PathRecordInPreOrder(root: Tree, path: seq<Tree>)
    requires IsPath(path, root)
    ensures path[|path| - 1].Node?
    ensures Clean(path[..|path| - 1], path[|path| - 1]) in PreOrder(root)
  {
    var walk := Walk([], root);
    WalkComplete([], root, path);
    assert [] + path[..|path| - 1] == path[..|path| - 1];
    var v := Visit(path[..|path| - 1], path[|path| - 1]);
    var i :| 0 <= i < |walk| && walk[i] == v;
    assert Records(walk)[i] == Clean(v.parents, v.node);
  }

  /** The flattened list holds a record for every node of the tree, built
      from that node and its ancestors, and nothing else. */
  lemma RecordsAreTheNodes(root: Tree)
    ensures forall r :: r in FlattenResources(root) ==>
      exists path :: IsPath(path, root) && r == Clean(path[..|path| - 1], path[|path| - 1])
    ensures forall path :: IsPath(path, root) ==>
      Clean(path[..|path| - 1], path[|path| - 1]) in FlattenResources(root)
  {
    var pre := PreOrder(root);
    var out := FlattenResources(root);
    assert forall x :: x in out <==> x in pre by {
      assert multiset(out) == multiset(pre);
      forall x
        ensures x in out <==> x in pre
      {
        assert x in out <==> x in multiset(out);
        assert x in pre <==> x in multiset(pre);
      }
    }
    forall r | r in out
      ensures exists path :: IsPath(path, root) && r == Clean(path[..|path| - 1], path[|path| - 1])
    {
      var i :| 0 <= i < |pre| && pre[i] == r;
      WalkCount([], root);
      var path := PreOrderRecordOnPath(root, i);
    }
    forall path | IsPath(path, root)
      ensures Clean(path[..|path| - 1], path[|path| - 1]) in out
    {
      PathRecordInPreOrder(root, path);
    }
  }

  // ---------------------------------------------------------------------
  // Paths extend along the hierarchy, so parents sort before their children.

  /** A child's `basePath` is its parent's `fullPath` when the parent has a
      `relativeUri`. */
  lemma ChildBaseIsParentFull(parents: seq<Tree>, parent: Tree, child: Tree)
    requires parent.Node? && parent.relativeUri.Some? && child.Node?
    ensures Clean(parents + [parent], child).basePath == Clean(parents, parent).fullPath
  {
    assert (parents + [parent])[..|parents|] == parents;
  }

  /** Any descendant's `fullPath` extends the `fullPath` of an ancestor that
      has a `relativeUri`. */
  lemma DescendantExtendsAncestor(parents: seq<Tree>, a: Tree, between: seq<Tree>, d: Tree)
    requires a.Node? && a.relativeUri.Some? && d.Node?
    ensures Clean(parents + [a] + between, d).fullPath
      == Clean(parents, a).fullPath + BasePath(between) + PathText(d.relativeUri)
    ensures IsPrefix(Clean(parents, a).fullPath, Clean(parents + [a] + between, d).fullPath)
  {
    BasePathOfConcat(parents + [a], between);
    ChildBaseIsParentFull(parents, a, d);
    var pf := Clean(parents, a).fullPath;
    var full := Clean(parents + [a] + between, d).fullPath;
    assert full == pf + BasePath(between) + PathText(d.relativeUri);
    assert full[..|pf|] == pf;
  }

  /** A non-empty prefix of a path from the root is a path from the root. */
  lemma PathPrefix(root: Tree, path: seq<Tree>, m: nat)
    requires IsPath(path, root) && 0 < m <= |path|
    ensures IsPath(path[..m], root)
  {
    var q := path[..m];
    forall k | 0 <= k < m - 1
      ensures q[k + 1] in q[k].resources
    {
      assert q[k + 1] == path[k + 1] && q[k] == path[k];
    }
  }

  /** The record of a node on a path from the root is in the flattened list. */
  lemma PathRecordFlattened(root: Tree, path: seq<Tree>)
    requires IsPath(path, root)
    ensures path[|path| - 1].Node?
    ensures Clean(path[..|path| - 1], path[|path| - 1]) in FlattenResources(root)
  {
    PathRecordInPreOrder(root, path);
    var x := Clean(path[..|path| - 1], path[|path| - 1]);
    assert x in multiset(PreOrder(root));
    assert multiset(FlattenResources(root)) == multiset(PreOrder(root));
  }

  /** Along a path, the `fullPath` of a node with a `relativeUri` is a proper
      prefix of the `fullPath` of the last node when that node's own
      `relativeUri` is non-empty. */
  lemma AncestorFullPathIsProperPrefix(path: seq<Tree>, a: nat)
    requires a < |path| - 1
    requires path[a].Node? && path[a].relativeUri.Some?
    requires path[|path| - 1].Node? && path[|path| - 1].relativeUri.Some? && path[|path| - 1].relativeUri.value != ""
    ensures IsProperPrefix(Clean(path[..a], path[a]).fullPath, Clean(path[..|path| - 1], path[|path| - 1]).fullPath)
  {
    var n := |path|;
    var parents, ancestor, between, d := path[..a], path[a], path[a + 1..n - 1], path[n - 1];
    assert path[..n - 1] == parents + [ancestor] + between;
    DescendantExtendsAncestor(parents, ancestor, between, d);
    assert |PathText(d.relativeUri)| > 0;
  }

  /** In the flattened list a resource with a `relativeUri` comes before
      each of its descendants that has a non-empty `relativeUri`: both
      records are there, and every position of the ancestor's record
      precedes every position of the descendant's. */
  lemma AncestorListedBeforeDescendant(root: Tree, path: seq<Tree>, a: nat)
    requires IsPath(path, root) && a < |path| - 1
    requires path[a].relativeUri.Some?
    requires path[|path| - 1].relativeUri.Some? && path[|path| - 1].relativeUri.value != ""
    ensures Clean(path[..a], path[a]) in FlattenResources(root)
    ensures Clean(path[..|path| - 1], path[|path| - 1]) in FlattenResources(root)
    ensures forall i, j ::
      (&& 0 <= i < |FlattenResources(root)| && 0 <= j < |FlattenResources(root)|
       && FlattenResources(root)[i] == Clean(path[..a], path[a])
       && FlattenResources(root)[j] == Clean(path[..|path| - 1], path[|path| - 1]))
      ==> i < j
  {
    NodeOnPathFlattened(root, path, a);
    PathRecordFlattened(root, path);
    AncestorFullPathIsProperPrefix(path, a);
    PrefixRecordFirst(FlattenResources(root), Clean(path[..a], path[a]), Clean(path[..|path| - 1], path[|path| - 1]));
  }

  /** The record of any node on a path from the root is in the flattened list. */
  lemma NodeOnPathFlattened(root: Tree, path: seq<Tree>, a: nat)
    requires IsPath(path, root) && a < |path|
    ensures path[a].Node? && Clean(path[..a], path[a]) in FlattenResources(root)
  {
    var prefix := path[..a + 1];
    PathPrefix(root, path, a + 1);
    assert prefix[..|prefix| - 1] == path[..a];
    PathRecordFlattened(root, prefix);
  }

  /** Every path starting with `/` sorts before `"undefined"`. */
  lemma SlashPathBeforeUndefined(s: string)
    requires IsPrefix("/", s)
    ensures Lt(s, "undefined")
  {
    assert s[0] == '/';
  }

  /** In a list sorted by `fullPath`, a record whose `fullPath` is
      `"undefined"` comes after every record whose `fullPath` starts with `/`. */
  lemma UndefinedRecordAfterSlashPaths(out: seq<Resource>, document: Resource)
    requires SortedBy(out, FullPathOf)
    requires document.fullPath == "undefined"
    ensures forall i, j :: 0 <= i < |out| && 0 <= j < |out| && out[i] == document && IsPrefix("/", out[j].fullPath) ==> j < i
  {
    forall i, j | 0 <= i < |out| && 0 <= j < |out| && out[i] == document && IsPrefix("/", out[j].fullPath)
      ensures j < i
    {
      SlashPathBeforeUndefined(out[j].fullPath);
      SortedLessFirst(out, FullPathOf, j, i);
    }
  }

  /** The document has no `relativeUri`, so its record's `fullPath` is
      `"undefined"`, and it sorts after every record whose `fullPath` starts
      with `/`: it does not come first. */
  lemma DocumentListedAfterSlashPaths(root: Tree)
    requires root.Node? && root.relativeUri.None?
    ensures var out := FlattenResources(root);
      var document := Clean([], root);
      document.fullPath == "undefined" && document in out &&
      forall i, j :: 0 <= i < |out| && 0 <= j < |out| && out[i] == document && IsPrefix("/", out[j].fullPath) ==> j < i
  {
    assert IsPath([root], root);
    PathRecordFlattened(root, [root]);
    assert [root][..0] == [];
    UndefinedRecordAfterSlashPaths(FlattenResources(root), Clean([], root));
  }

  /** In a list sorted by `fullPath`, a record whose `fullPath` is a proper
      prefix of another's comes before it. */
  lemma PrefixRecordFirst(out: seq<Resource>, first: Resource, second: Resource)
    requires SortedBy(out, FullPathOf)
    requires IsProperPrefix(first.fullPath, second.fullPath)
    ensures forall i, j :: 0 <= i < |out| && 0 <= j < |out| && out[i] == first && out[j] == second ==> i < j
  {
    forall i, j | 0 <= i < |out| && 0 <= j < |out| && out[i] == first && out[j] == second
      ensures i < j
    {
      SortedPrefixFirst(out, FullPathOf, i, j);
    }
  }
}
