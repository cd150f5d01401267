/**
 * The path trie (lib/pathtricia.c): nodes linked to their parent and, by path
 * element, to their children.
 */
module PathTrie {
  import opened Common

  type Path = seq<string>

  const PATH_MAX: nat := 4096

  // ----- path strings and their elements -----

  /** Splits at every slash; empty elements are kept. */
  function Split(s: string): (p: Path)
    ensures p != []
  {
    var i := FirstSlash(s);
    if i == |s| then [s] else [s[..i]] + Split(s[i + 1..])
  }

  function FirstSlash(s: string): (i: nat)
    ensures i <= |s| && (i < |s| ==> s[i] == '/')
    ensures forall j :: 0 <= j < i ==> s[j] != '/'
  {
    if s == "" || s[0] == '/' then 0 else 1 + FirstSlash(s[1..])
  }

  /** Every element with a slash before it. */
  function Join(p: Path): string {
    if p == [] then "" else "/" + p[0] + Join(p[1..])
  }

  /** What the iterator keeps of a path: no leading slash, and no more than fits its buffer. */
  function Trimmed(path: string): string {
    var s := if path != "" && path[0] == '/' then path[1..] else path;
    if |s| >= PATH_MAX then s[..PATH_MAX - 1] else s
  }

  function ElementsOf(path: string): Path {
    Split(Trimmed(path))
  }

  /** Of a path without its leading slash, as much is kept as fits the buffer with a byte to end it. */
  lemma TrimmedFits(path: string)
    ensures var s := if path != "" && path[0] == '/' then path[1..] else path;
      Trimmed(path) <= s && |Trimmed(path)| < PATH_MAX && (|s| < PATH_MAX ==> Trimmed(path) == s)
      && (|s| >= PATH_MAX ==> |Trimmed(path)| == PATH_MAX - 1)
  {}

  lemma {:induction false} JoinSplit(s: string)
    ensures Join(Split(s)) == "/" + s
    decreases |s|
  {
    var i := FirstSlash(s);
    if i == |s| {
      JoinFirst(s, []);
      assert [s] + [] == [s];
    } else {
      JoinSplit(s[i + 1..]);
      JoinFirst(s[..i], Split(s[i + 1..]));
      SplitAt(s, i);
    }
  }

  lemma SplitAt(s: string, i: nat)
    requires i < |s| && s[i] == '/'
    ensures "/" + s == "/" + s[..i] + ("/" + s[i + 1..])
  {
    assert s == s[..i] + ("/" + s[i + 1..]);
    ConcatAssociative("/", s[..i], "/" + s[i + 1..]);
  }

  /** An absolute path that fits is the join of its elements. */
  lemma RoundTrip(path: string)
    requires path != "" && path[0] == '/' && |path| <= PATH_MAX
    ensures Join(ElementsOf(path)) == path
  {
    JoinSplit(path[1..]);
  }

  predicate NoSlashes(p: Path) {
    forall i :: 0 <= i < |p| ==> '/' !in p[i]
  }

  lemma {:induction false} SplitHasNoSlashes(s: string)
    ensures NoSlashes(Split(s))
    decreases |s|
  {
    var i := FirstSlash(s);
    if i < |s| { SplitHasNoSlashes(s[i + 1..]); }
  }

  lemma SplitFirst(e: string, rest: string)
    requires '/' !in e
    ensures Split(e) == [e] && Split(e + "/" + rest) == [e] + Split(rest)
  {
    var s := e + "/" + rest;
    assert s[|e|] == '/' && s[..|e|] == e && s[|e| + 1..] == rest;
    assert forall j :: 0 <= j < |e| ==> s[j] == e[j];
    assert FirstSlash(s) == |e|;
  }

  lemma JoinFirst(e: string, p: Path)
    ensures Join([e] + p) == "/" + e + Join(p)
  {
    assert ([e] + p)[1..] == p;
  }

  lemma {:induction false} JoinConcat(p: Path, q: Path)
    ensures Join(p + q) == Join(p) + Join(q)
  {
    if p == [] {
      assert p + q == q;
    } else {
      JoinConcat(p[1..], q);
      assert (p + q)[1..] == p[1..] + q;
      ConcatAssociative("/" + p[0], Join(p[1..]), Join(q));
    }
  }

  predicate NoneEmpty(p: Path) {
    forall i :: 0 <= i < |p| ==> p[i] != ""
  }

  /** How many elements `rm_trie_build_path_unlocked` has room for. */
  const SLOTS: nat := PATH_MAX / 2 + 1

  /** There is room for all elements: they are few enough, which they are in a path without empty ones. */
  predicate HasRoom(p: Path) {
    |p| <= SLOTS || (NoneEmpty(p) && |Join(p)| <= PATH_MAX)
  }

  /** A path without empty elements has fewer of them than there are slots. */
  lemma {:induction false} ElementsFit(p: Path)
    requires NoneEmpty(p)
    ensures 2 * |p| <= |Join(p)|
    ensures |Join(p)| <= PATH_MAX ==> |p| < SLOTS
  {
    if p != [] {
      assert p[0] != "";
      ElementsFit(p[1..]);
    }
  }

  lemma FirstSlashed(e: string, s: string)
    requires s != "" && s[0] == '/'
    ensures "/" + e + s != "" && ("/" + e + s)[0] == '/' && ("/" + e + s)[1..] == e + "/" + s[1..]
  {}

  /** Conversely, different element lists are different paths. */
  lemma {:induction false} SplitJoin(p: Path)
    requires p != [] && NoSlashes(p)
    ensures Join(p) != "" && Join(p)[0] == '/' && Split(Join(p)[1..]) == p
    decreases |p|
  {
    var e, q := p[0], p[1..];
    assert p == [e] + q;
    JoinFirst(e, q);
    if q == [] {
      SplitFirst(e, "");
      assert Join(p)[1..] == e;
    } else {
      SplitJoin(q);
      var rest := Join(q)[1..];
      FirstSlashed(e, Join(q));
      SplitFirst(e, rest);
    }
  }

  /** The path iterator; `rest` is the unread part of its buffer, cut element by element. */
  class RmPathIter {
    var rest: Option<string>

    ghost function Left(): Path
      reads this
    {
      match rest case None => [] case Some(s) => Split(s)
    }

    /** `rm_path_iter_init` */
    constructor (path: string)
      ensures Left() == ElementsOf(path)
    {
      var p := path;
      if p != "" && p[0] == '/' {
        p := p[1..];
      }
      if |p| >= PATH_MAX {
        p := p[..PATH_MAX - 1];
      }
      rest := Some(p);
    }

    /** `rm_path_iter_next` */
    method Next() returns (elem: Option<string>)
      modifies this
      ensures old(Left()) == [] ==> elem == None && Left() == []
      ensures old(Left()) != [] ==> elem == Some(old(Left())[0]) && Left() == old(Left())[1..]
    {
      match rest {
        case None =>
          elem := None;
        case Some(s) =>
          var i := FirstSlash(s);
          if i < |s| {
            elem, rest := Some(s[..i]), Some(s[i + 1..]);
          } else {
            elem, rest := Some(s), None;
          }
      }
    }
  }

  // ----- the trie -----

  class RmNode {
    const basename: Option<string>
    const parent: RmNode?
    var children: map<string, RmNode>
    var hasValue: bool
    var data: int

    constructor (basename: Option<string>, parent: RmNode?)
      ensures this.basename == basename && this.parent == parent
      ensures children == map[] && !hasValue && data == 0
    {
      this.basename, this.parent := basename, parent;
      children, hasValue, data := map[], false, 0;
    }
  }

  function Init(p: Path): Path
    requires p != []
  {
    p[..|p| - 1]
  }

  class RmTrie {
    const root: RmNode
    var size: nat
    /** The node at the end of every element list that the trie has. */
    ghost var nodes: map<Path, RmNode>

    /** Node `p` hangs under its parent's node, and its children are where they belong. */
    ghost predicate NodeOk(p: Path)
      requires p in nodes
      reads this`nodes, nodes.Values
    {
      && (p != [] ==>
            && Init(p) in nodes && nodes[p].parent == nodes[Init(p)]
            && nodes[p].basename == Some(p[|p| - 1])
            && p[|p| - 1] in nodes[Init(p)].children)
      && (forall e :: e in nodes[p].children ==>
            p + [e] in nodes && nodes[p].children[e] == nodes[p + [e]])
    }

    ghost predicate Distinct(p: Path, q: Path)
      requires p in nodes && q in nodes
      reads this`nodes
    {
      nodes[p] == nodes[q] ==> p == q
    }

    ghost predicate Valid()
      reads this`nodes, nodes.Values
    {
      && [] in nodes && nodes[[]] == root
      && root.parent == null && root.basename == None
      && (forall p {:trigger NodeOk(p)} :: p in nodes ==> NodeOk(p))
      && (forall p, q {:trigger Distinct(p, q)} :: p in nodes && q in nodes ==> Distinct(p, q))
    }

    /** The value a search for `p` yields; 0 stands for NULL. */
    ghost function Value(p: Path): int
      reads this`nodes, nodes.Values
    {
      if p in nodes then nodes[p].data else 0
    }

    /** A value was stored for `p`; walks that are not for all nodes visit exactly these. */
    ghost predicate Marked(p: Path)
      reads this`nodes, nodes.Values
    {
      p in nodes && nodes[p].hasValue
    }

    /** `rm_trie_init` */
    constructor ()
      ensures Valid() && nodes.Keys == {[]} && (forall p :: Value(p) == 0) && fresh(nodes.Values)
      ensures size == 0 && forall p :: !Marked(p)
    {
      root := new RmNode(None, null);
      size := 0;
      new;
      nodes := map[[] := root];
    }

    /** `rm_node_insert`: the child of the node at `p` for an element, created if need be. */
    method NodeInsert(node: RmNode, elem: string, ghost p: Path) returns (child: RmNode)
      requires Valid() && p in nodes && nodes[p] == node
      modifies node`children, this`nodes
      ensures Valid() && p + [elem] in nodes && nodes[p + [elem]] == child
      ensures nodes.Keys == old(nodes).Keys + {p + [elem]}
      ensures forall q :: q in old(nodes) ==> nodes[q] == old(nodes)[q]
      ensures forall q :: Value(q) == old(Value(q))
      ensures forall q :: Marked(q) == old(Marked(q))
      ensures forall q :: q in nodes && q !in old(nodes) ==> fresh(nodes[q])
    {
      assert NodeOk(p);
      if elem in node.children {
        child := node.children[elem];
      } else {
        if p + [elem] in nodes { ChildListed(p, elem); }
        child := NewChild(node, elem, p);
      }
    }

    /** The branch of `rm_node_insert` that makes a node. */
    method NewChild(node: RmNode, elem: string, ghost p: Path) returns (child: RmNode)
      requires Valid() && p in nodes && nodes[p] == node && p + [elem] !in nodes
      modifies node`children, this`nodes
      ensures Valid() && nodes == old(nodes)[p + [elem] := child] && fresh(child)
      ensures !child.hasValue && child.data == 0
      ensures forall q :: q in old(nodes) ==> nodes[q].data == old(nodes[q].data)
      ensures forall q :: q in old(nodes) ==> nodes[q].hasValue == old(nodes[q].hasValue)
    {
      ghost var pc := p + [elem];
      assert Init(pc) == p && pc[|p|] == elem;
      forall q | q in nodes && q != p ensures nodes[q] != node { assert Distinct(q, p); }
      child := new RmNode(Some(elem), node);
      node.children := node.children[elem := child];
      nodes := nodes[pc := child];
      forall q | q in nodes ensures NodeOk(q) {
        if q == pc {
          assert child.children == map[];
        } else {
          assert old(NodeOk(q));
          assert q != [] ==> nodes[Init(q)] == old(nodes)[Init(q)];
          assert q != p ==> nodes[q].children == old(nodes[q].children);
        }
      }
      forall q, r | q in nodes && r in nodes ensures Distinct(q, r) {
        if q != pc && r != pc { assert old(Distinct(q, r)); }
      }
    }

    /** A node is listed among its parent's children. */
    lemma ChildListed(p: Path, elem: string)
      requires Valid() && p in nodes && p + [elem] in nodes
      ensures elem in nodes[p].children
    {
      var pc := p + [elem];
      assert Init(pc) == p && pc[|p|] == elem;
      assert NodeOk(pc);
    }

    /** `rm_trie_insert` */
    method Insert(path: string, value: int) returns (node: RmNode)
      requires Valid()
      modifies this, nodes.Values
      ensures Valid() && forall q :: q in nodes && q !in old(nodes) ==> fresh(nodes[q])
      ensures var p := ElementsOf(path);
        && p in nodes && nodes[p] == node && node.hasValue
        && nodes.Keys == old(nodes).Keys + Prefixes(p)
        && (forall q :: Value(q) == if q == p then value else old(Value(q)))
        && (forall q :: Marked(q) <==> q == p || old(Marked(q)))
      ensures forall q :: q in old(nodes) ==> nodes[q] == old(nodes)[q]
      ensures size == old(size) + 1
    {
      ghost var p := ElementsOf(path);
      node := Descend(path);
      StoreData(node, p, value);
      MarkValue(node, p);
      assert Marked(p);
      size := size + 1;
    }

    /** The loop of `rm_trie_insert`: makes the nodes that are missing on the way. */
    method Descend(path: string) returns (curr: RmNode)
      requires Valid()
      modifies this`nodes, nodes.Values
      ensures Valid() && forall q :: q in nodes && q !in old(nodes) ==> fresh(nodes[q])
      ensures ElementsOf(path) in nodes && nodes[ElementsOf(path)] == curr
      ensures nodes.Keys == old(nodes).Keys + Prefixes(ElementsOf(path))
      ensures forall q :: q in old(nodes) ==> nodes[q] == old(nodes)[q]
      ensures forall q :: Value(q) == old(Value(q))
      ensures forall q :: Marked(q) == old(Marked(q))
    {
      var iter := new RmPathIter(path);
      ghost var p := ElementsOf(path);
      ghost var done: Path, todo: Path := [], p;
      curr := root;
      var elem := iter.Next();
      while elem != None
        invariant fresh(iter) && Valid()
        invariant forall q :: q in nodes && q !in old(nodes) ==> fresh(nodes[q])
        invariant p == done + todo && (elem == None <==> todo == [])
        invariant elem != None ==> elem.value == todo[0] && iter.Left() == todo[1..]
        invariant done in nodes && nodes[done] == curr
        invariant nodes.Keys == old(nodes).Keys + Prefixes(done)
        invariant forall q :: q in old(nodes) ==> nodes[q] == old(nodes)[q]
        invariant forall q :: Value(q) == old(Value(q))
        invariant forall q :: Marked(q) == old(Marked(q))
        decreases |todo|
      {
        PrefixesAppend(done, elem.value);
        MoveFirst(done, todo);
        ghost var next := done + [elem.value];
        curr, elem := DescendInto(iter, curr, elem.value, done, todo);
        done, todo := next, todo[1..];
      }
      assert done == p;
    }

    /** One turn of that loop. */
    method DescendInto(iter: RmPathIter, curr: RmNode, elem: string, ghost done: Path, ghost todo: Path)
      returns (child: RmNode, next: Option<string>)
      requires Valid() && done in nodes && nodes[done] == curr
      requires todo != [] && elem == todo[0] && iter.Left() == todo[1..]
      modifies iter, curr`children, this`nodes
      ensures Valid() && done + [elem] in nodes && nodes[done + [elem]] == child
      ensures nodes.Keys == old(nodes).Keys + {done + [elem]}
      ensures forall q :: q in old(nodes) ==> nodes[q] == old(nodes)[q]
      ensures forall q :: Value(q) == old(Value(q))
      ensures forall q :: Marked(q) == old(Marked(q))
      ensures forall q :: q in nodes && q !in old(nodes) ==> fresh(nodes[q])
      ensures next == None <==> todo[1..] == []
      ensures next != None ==> next.value == todo[1] && iter.Left() == todo[2..]
    {
      child := NodeInsert(curr, elem, done);
      next := iter.Next();
    }

    /** The assignment to a node's flag. */
    method MarkValue(node: RmNode, ghost p: Path)
      requires Valid() && p in nodes && nodes[p] == node
      modifies node`hasValue
      ensures Valid() && forall q :: Value(q) == old(Value(q))
      ensures forall q :: Marked(q) <==> q == p || old(Marked(q))
    {
      node.hasValue := true;
      forall q | q in nodes && q != p ensures nodes[q] != node { assert old(Distinct(q, p)); }
      forall q | q in nodes ensures NodeOk(q) { assert old(NodeOk(q)); }
      forall q, r | q in nodes && r in nodes ensures Distinct(q, r) { assert old(Distinct(q, r)); }
    }

    /** The assignment to a node's data. */
    method StoreData(node: RmNode, ghost p: Path, value: int)
      requires Valid() && p in nodes && nodes[p] == node
      modifies node`data
      ensures Valid()
      ensures forall q :: Value(q) == if q == p then value else old(Value(q))
      ensures forall q :: Marked(q) == old(Marked(q))
    {
      node.data := value;
      forall q | q in nodes ensures NodeOk(q) { assert old(NodeOk(q)); }
      forall q | q in nodes && q != p ensures nodes[q] != node { assert old(Distinct(q, p)); }
      forall q, r | q in nodes && r in nodes ensures Distinct(q, r) { assert old(Distinct(q, r)); }
    }

    /** `rm_trie_search_node` */
    method SearchNode(path: string) returns (node: RmNode?)
      requires Valid()
      ensures var p := ElementsOf(path);
        if p in nodes then node == nodes[p] else node == null
    {
      var iter := new RmPathIter(path);
      ghost var p := ElementsOf(path);
      ghost var done: Path, todo: Path := [], p;
      var curr := root;
      var elem := iter.Next();
      while elem != None
        invariant fresh(iter) && Valid() && p == done + todo && (elem == None <==> todo == [])
        invariant elem != None ==> elem.value == todo[0] && iter.Left() == todo[1..]
        invariant done in nodes && nodes[done] == curr
        decreases |todo|
      {
        MoveFirst(done, todo);
        if elem.value !in curr.children {
          NoNodeBelow(done, elem.value, p);
          return null;
        }
        assert NodeOk(done);
        curr := curr.children[elem.value];
        done, todo := done + [elem.value], todo[1..];
        elem := iter.Next();
      }
      assert done == p;
      return curr;
    }

    /** Where a child is missing, nothing below it exists. */
    lemma {:induction false} NoNodeBelow(q: Path, elem: string, p: Path)
      requires Valid() && q in nodes && elem !in nodes[q].children
      requires |q| < |p| && p[..|q| + 1] == q + [elem]
      ensures p !in nodes
      decreases |p|
    {
      if |p| == |q| + 1 {
        assert p == q + [elem];
        if p in nodes { ChildListed(q, elem); }
      } else {
        assert Init(p)[..|q| + 1] == p[..|q| + 1];
        if p in nodes { assert NodeOk(p); }
        NoNodeBelow(q, elem, Init(p));
      }
    }

    /** `rm_trie_search` */
    method Search(path: string) returns (data: int)
      requires Valid()
      ensures data == Value(ElementsOf(path))
    {
      var find := SearchNode(path);
      data := if find != null then find.data else 0;
    }

    /** `rm_trie_set_value` */
    method SetValue(path: string, value: int) returns (found: bool)
      requires Valid()
      modifies nodes.Values
      ensures Valid() && nodes == old(nodes)
      ensures found <==> ElementsOf(path) in nodes
      ensures forall q :: Value(q) == if found && q == ElementsOf(path) then value else old(Value(q))
      ensures forall q :: Marked(q) == old(Marked(q))
    {
      var find := SearchNode(path);
      if find == null {
        return false;
      }
      StoreData(find, ElementsOf(path), value);
      return true;
    }

    /**
     * `rm_trie_build_path_unlocked`: for the node of `p`, the path written into a buffer of
     * `bufLen` bytes; None for a null node and for the root.
     */
    method BuildPath(node: RmNode?, bufLen: nat, ghost p: Path) returns (path: Option<string>)
      requires Valid()
      requires node != null ==> p in nodes && nodes[p] == node
      requires node != null ==> HasRoom(p) && |Join(p)| < bufLen
      ensures path == if node == null || p == [] then None else Some(Join(p))
    {
      if node == null || node.basename == None {
        assert node != null ==> NodeOk(p);
        return None;
      }
      assert p != [];
      assert NodeOk(p);
      if |p| > SLOTS { ElementsFit(p); }
      var elements := new string[SLOTS];
      elements[0] := node.basename.value;
      var n := 1;
      var folder := node.parent;
      ghost var q := Init(p);
      while folder != null && folder.parent != null
        invariant Valid() && 1 <= n <= |p| && q == p[..|p| - n]
        invariant q in nodes && nodes[q] == folder
        invariant forall i :: 0 <= i < n ==> elements[i] == p[|p| - 1 - i]
        decreases |q|
      {
        assert NodeOk(q);
        elements[n] := folder.basename.value;
        n := n + 1;
        folder := folder.parent;
        q := Init(q);
      }
      assert NodeOk(q);
      assert n == |p|;
      var buf := "";
      while n > 0 && |buf| < bufLen
        invariant 0 <= n <= |p| && buf == Join(p[..|p| - n]) && |buf| < bufLen
        invariant forall i :: 0 <= i < n ==> elements[i] == p[|p| - 1 - i]
      {
        n := n - 1;
        assert p[..|p| - n] == p[..|p| - n - 1] + [elements[n]];
        JoinConcat(p[..|p| - n - 1], [elements[n]]);
        JoinFirst(elements[n], []);
        buf := buf + "/" + elements[n];
        assert p[..|p| - n] + p[|p| - n..] == p;
        JoinConcat(p[..|p| - n], p[|p| - n..]);
      }
      assert p[..|p|] == p;
      return Some(buf);
    }

    /** The nodes at and below `p`. */
    ghost function Subtree(p: Path): set<Path>
      reads this`nodes
    {
      set q | q in nodes && p <= q
    }

    /** The nodes a walk calls back for. */
    ghost function Wanted(allNodes: bool): set<Path>
      reads this`nodes, nodes.Values
    {
      set q | q in nodes && (allNodes || nodes[q].hasValue)
    }

    /** A callback above `q`, from `p` on, returned something else than 0, so that the walk did not go on below it. */
    ghost predicate Pruned(stops: RmNode -> bool, allNodes: bool, p: Path, q: Path)
      reads this`nodes, nodes.Values
    {
      exists r :: r in Wanted(allNodes) && p <= r && r < q && stops(nodes[r])
    }

    /** Below a node whose callback did not stop the walk, it is a matter of its children. */
    lemma PrunedBelow(stops: RmNode -> bool, allNodes: bool, p: Path, e: string, q: Path)
      requires p in nodes && p + [e] <= q && (p in Wanted(allNodes) ==> !stops(nodes[p]))
      ensures Pruned(stops, allNodes, p, q) <==> Pruned(stops, allNodes, p + [e], q)
    {
      forall r | r in Wanted(allNodes) && p <= r && r < q && stops(nodes[r]) ensures p + [e] <= r {
        assert r != p && r[|p|] == q[|p|] == e;
      }
      forall r | r in Wanted(allNodes) && p + [e] <= r ensures p <= r {}
    }

    lemma StoppedHere(stops: RmNode -> bool, allNodes: bool, p: Path)
      requires p in Wanted(allNodes) && stops(nodes[p])
      ensures forall q :: q in [p] <==> q in Wanted(allNodes) && p <= q && !Pruned(stops, allNodes, p, q)
    {
      forall q | q in Wanted(allNodes) && p <= q && q != p ensures Pruned(stops, allNodes, p, q) {
        assert p <= p && p < q;
      }
    }

    /** What was visited when the children in `todo` are still to come. */
    ghost predicate Walked(paths: seq<Path>, preOrder: bool, allNodes: bool, stops: RmNode -> bool, p: Path,
                           todo: set<string>)
      reads this`nodes, nodes.Values
    {
      forall q :: q in paths <==>
        q in Wanted(allNodes) && ((q == p && preOrder) ||
                                  (p < q && q[|p|] !in todo && !(preOrder && Pruned(stops, allNodes, p, q))))
    }

    lemma NothingWalked(paths: seq<Path>, preOrder: bool, allNodes: bool, stops: RmNode -> bool, p: Path)
      requires Valid() && p in nodes && paths == if preOrder && p in Wanted(allNodes) then [p] else []
      ensures Walked(paths, preOrder, allNodes, stops, p, nodes[p].children.Keys)
    {
      forall q | q in nodes && p < q ensures q[|p|] in nodes[p].children {
        if q[|p|] !in nodes[p].children { NoNodeBelow(p, q[|p|], q); }
      }
    }

    lemma AllWalked(paths: seq<Path>, preOrder: bool, allNodes: bool, stops: RmNode -> bool, p: Path)
      requires Walked(paths, preOrder, allNodes, stops, p, {})
      ensures forall q :: q in paths <==>
        q in Wanted(allNodes) && p <= q && (q == p ==> preOrder) && !(preOrder && Pruned(stops, allNodes, p, q))
    {
      forall q | q in Wanted(allNodes) ensures p <= q <==> q == p || p < q {}
      assert forall r :: r in Wanted(allNodes) ==> !(p <= r && r < p);
    }

    lemma ChildWalked(paths: seq<Path>, more: seq<Path>, preOrder: bool, allNodes: bool, stops: RmNode -> bool, p: Path,
                      todo: set<string>, e: string)
      requires p in nodes && e in todo && Walked(paths, preOrder, allNodes, stops, p, todo)
      requires preOrder && p in Wanted(allNodes) ==> !stops(nodes[p])
      requires forall q :: q in more <==>
        q in Wanted(allNodes) && p + [e] <= q && !(preOrder && Pruned(stops, allNodes, p + [e], q))
      ensures Walked(paths + more, preOrder, allNodes, stops, p, todo - {e})
      ensures forall q :: q in paths ==> (q == p && preOrder) || (p < q && q[|p|] != e)
    {
      forall q | preOrder && p + [e] <= q
        ensures Pruned(stops, allNodes, p, q) <==> Pruned(stops, allNodes, p + [e], q)
      {
        PrunedBelow(stops, allNodes, p, e, q);
      }
      forall q ensures p + [e] <= q <==> p < q && q[|p|] == e {}
    }

    /**
     * `_rm_trie_iter`: the nodes in the order they are visited.  `stops` says for which nodes
     * the callback returns something else than 0: before the children, that leaves out all
     * that is below the node; after them it does nothing.  The children come in any order.
     */
    method Iter(node: RmNode, preOrder: bool, allNodes: bool, stops: RmNode -> bool, ghost p: Path)
      returns (visited: seq<RmNode>, ghost paths: seq<Path>)
      requires Valid() && p in nodes && nodes[p] == node
      ensures |visited| == |paths| && NoDup(paths)
      ensures forall i :: 0 <= i < |paths| ==> paths[i] in nodes && visited[i] == nodes[paths[i]]
      ensures forall q :: q in paths <==>
        q in Wanted(allNodes) && p <= q && !(preOrder && Pruned(stops, allNodes, p, q))
      ensures TreeOrder(paths, preOrder)
      decreases Subtree(p)
    {
      visited, paths := [], [];
      if preOrder && (allNodes || node.hasValue) {
        visited, paths := [node], [p];
        if stops(node) {
          StoppedHere(stops, allNodes, p);
          return;
        }
      }
      NothingWalked(paths, preOrder, allNodes, stops, p);
      var todo := node.children.Keys;
      while todo != {}
        invariant todo <= node.children.Keys
        invariant |visited| == |paths| && NoDup(paths) && TreeOrder(paths, preOrder)
        invariant forall i :: 0 <= i < |paths| ==> paths[i] in nodes && visited[i] == nodes[paths[i]]
        invariant Walked(paths, preOrder, allNodes, stops, p, todo)
      {
        var e :| e in todo;
        assert NodeOk(p);
        assert p in Subtree(p) && p !in Subtree(p + [e]);
        var v, vp := Iter(node.children[e], preOrder, allNodes, stops, p + [e]);
        ChildWalked(paths, vp, preOrder, allNodes, stops, p, todo, e);
        Interleave(paths, vp, p, e, preOrder);
        visited, paths, todo := visited + v, paths + vp, todo - {e};
      }
      AllWalked(paths, preOrder, allNodes, stops, p);
      if !preOrder && (allNodes || node.hasValue) {
        ParentLast(paths, p);
        visited, paths := visited + [node], paths + [p];
      }
    }
  }

  /** Parents come first (pre-order) or last (post-order). */
  ghost predicate TreeOrder(paths: seq<Path>, preOrder: bool) {
    forall i, j :: 0 <= i < j < |paths| ==>
      if preOrder then !(paths[j] < paths[i]) else !(paths[i] < paths[j])
  }

  /** A child's subtree can follow what was visited before it. */
  lemma Interleave(paths: seq<Path>, more: seq<Path>, p: Path, e: string, preOrder: bool)
    requires NoDup(paths) && NoDup(more) && TreeOrder(paths, preOrder) && TreeOrder(more, preOrder)
    requires forall q :: q in paths ==> (q == p && preOrder) || (p < q && q[|p|] != e)
    requires forall q :: q in more ==> p + [e] <= q
    ensures NoDup(paths + more) && TreeOrder(paths + more, preOrder)
  {
    var all := paths + more;
    forall i, j | 0 <= i < j < |all| && i < |paths| <= j
      ensures all[i] != all[j] && !(all[j] < all[i]) && (!preOrder ==> !(all[i] < all[j]))
    {
      assert all[i] in paths && all[j] in more && all[j][|p|] == e;
    }
  }

  lemma ParentLast(paths: seq<Path>, p: Path)
    requires NoDup(paths) && TreeOrder(paths, false) && forall q :: q in paths ==> p < q
    ensures NoDup(paths + [p]) && TreeOrder(paths + [p], false)
  {
    assert forall i :: 0 <= i < |paths| ==> paths[i] in paths;
  }

  // ----- whole histories -----

  datatype TrieOp = InsertOp(path: string, value: int) | SetOp(path: string, value: int)

  /** The element lists that have a node after some calls. */
  ghost predicate Known(ops: seq<TrieOp>, p: Path) {
    p == [] || exists op :: op in ops && op.InsertOp? && p in Prefixes(ElementsOf(op.path))
  }

  /** The last value stored for an element list; setting a value needs a node. */
  ghost function LastStored(ops: seq<TrieOp>, p: Path): int {
    if ops == [] then 0 else
    var before, op := ops[..|ops| - 1], ops[|ops| - 1];
    if ElementsOf(op.path) == p && (op.InsertOp? || Known(before, p)) then op.value
    else LastStored(before, p)
  }

  /** Some call stored a value for an element list. */
  ghost predicate Stored(ops: seq<TrieOp>, p: Path) {
    exists op :: op in ops && op.InsertOp? && ElementsOf(op.path) == p
  }

  function Insertions(ops: seq<TrieOp>): nat {
    if ops == [] then 0
    else Insertions(ops[..|ops| - 1]) + if ops[|ops| - 1].InsertOp? then 1 else 0
  }

  lemma StoredAppend(ops: seq<TrieOp>, op: TrieOp)
    ensures forall p :: Stored(ops + [op], p) <==> Stored(ops, p) || (op.InsertOp? && p == ElementsOf(op.path))
  {
    forall o: TrieOp ensures o in ops + [op] <==> o in ops || o == op {}
  }

  /** Carries out one more call. */
  method CarryOut(t: RmTrie, op: TrieOp, ghost before: seq<TrieOp>)
    requires t.Valid()
    requires forall p :: p in t.nodes <==> Known(before, p)
    requires forall p :: t.Value(p) == LastStored(before, p)
    requires (forall p :: t.Marked(p) <==> Stored(before, p)) && t.size == Insertions(before)
    modifies t, t.nodes.Values
    ensures t.Valid() && forall q :: q in t.nodes && q !in old(t.nodes) ==> fresh(t.nodes[q])
    ensures forall q :: q in old(t.nodes) ==> q in t.nodes && t.nodes[q] == old(t.nodes)[q]
    ensures forall p :: p in t.nodes <==> Known(before + [op], p)
    ensures forall p :: t.Value(p) == LastStored(before + [op], p)
    ensures (forall p :: t.Marked(p) <==> Stored(before + [op], p)) && t.size == Insertions(before + [op])
  {
    ghost var keys := t.nodes.Keys;
    match op {
      case InsertOp(path, value) =>
        var _ := t.Insert(path, value);
        assert t.nodes.Keys == keys + Prefixes(ElementsOf(path));
      case SetOp(path, value) =>
        var _ := t.SetValue(path, value);
    }
    KnownAppend(before, op);
    StoredAppend(before, op);
    LastAppend(before, op);
  }

  lemma LastAppend(ops: seq<TrieOp>, op: TrieOp)
    ensures forall p :: LastStored(ops + [op], p)
                        == if ElementsOf(op.path) == p && (op.InsertOp? || Known(ops, p)) then op.value
                           else LastStored(ops, p)
    ensures Insertions(ops + [op]) == Insertions(ops) + if op.InsertOp? then 1 else 0
  {
    assert (ops + [op])[..|ops|] == ops;
  }

  /** Carries out any sequence of insertions and value changes on a new trie. */
  method Replay(ops: seq<TrieOp>) returns (t: RmTrie)
    ensures t.Valid()
    ensures forall p :: p in t.nodes <==> Known(ops, p)
    ensures forall p :: t.Value(p) == LastStored(ops, p)
    ensures forall p :: t.Marked(p) <==> Stored(ops, p)
    ensures t.size == Insertions(ops)
  {
    t := new RmTrie();
    var i := 0;
    while i < |ops|
      invariant 0 <= i <= |ops| && fresh(t) && fresh(t.nodes.Values) && t.Valid()
      invariant forall p :: p in t.nodes <==> Known(ops[..i], p)
      invariant forall p :: t.Value(p) == LastStored(ops[..i], p)
      invariant forall p :: t.Marked(p) <==> Stored(ops[..i], p)
      invariant t.size == Insertions(ops[..i])
    {
      CarryOut(t, ops[i], ops[..i]);
      assert ops[..i + 1] == ops[..i] + [ops[i]];
      i := i + 1;
    }
    assert ops[..|ops|] == ops;
  }

  /** A walk over the nodes with values, as the file tree is counted: it visits exactly what was inserted, once. */
  method WalkStored(ops: seq<TrieOp>, preOrder: bool) returns (visited: seq<RmNode>, ghost paths: seq<Path>)
    ensures |visited| == |paths| && NoDup(paths) && TreeOrder(paths, preOrder)
    ensures forall q :: q in paths <==> Stored(ops, q)
    ensures forall i :: 0 <= i < |paths| ==> visited[i].hasValue && visited[i].data == LastStored(ops, paths[i])
  {
    var t := Replay(ops);
    visited, paths := t.Iter(t.root, preOrder, false, _ => false, []);
    forall i | 0 <= i < |paths| ensures visited[i].hasValue && visited[i].data == LastStored(ops, paths[i]) {
      assert paths[i] in paths && t.Marked(paths[i]) && t.Value(paths[i]) == LastStored(ops, paths[i]);
    }
  }

  /** The node that an absolute path got on insertion gives that path back. */
  method InsertAndBuild(t: RmTrie, path: string, value: int, bufLen: nat) returns (built: Option<string>)
    requires t.Valid()
    requires path != "" && path[0] == '/' && |path| <= PATH_MAX && |path| < bufLen
    requires NoneEmpty(ElementsOf(path)) || |ElementsOf(path)| <= SLOTS
    modifies t, t.nodes.Values
    ensures t.Valid() && built == Some(path)
  {
    var node := t.Insert(path, value);
    RoundTrip(path);
    built := t.BuildPath(node, bufLen, ElementsOf(path));
  }

  lemma KnownAppend(ops: seq<TrieOp>, op: TrieOp)
    ensures forall p :: Known(ops + [op], p)
                        <==> Known(ops, p) || (op.InsertOp? && p in Prefixes(ElementsOf(op.path)))
  {
    forall o: TrieOp ensures o in ops + [op] <==> o in ops || o == op {}
  }

  function Prefixes(p: Path): set<Path> {
    set i | 0 <= i <= |p| :: p[..i]
  }

  lemma MoveFirst(done: Path, todo: Path)
    requires todo != []
    ensures done + todo == (done + [todo[0]]) + todo[1..]
  {}

  lemma PrefixesAppend(p: Path, e: string)
    ensures Prefixes(p + [e]) == Prefixes(p) + {p + [e]}
  {
    forall q ensures q in Prefixes(p + [e]) <==> q in Prefixes(p) + {p + [e]} {
      if q in Prefixes(p + [e]) {
        var i :| 0 <= i <= |p| + 1 && q == (p + [e])[..i];
        if i <= |p| { assert q == p[..i]; }
      }
      if q in Prefixes(p) {
        var i :| 0 <= i <= |p| && q == p[..i];
        assert q == (p + [e])[..i];
      }
      assert (p + [e])[..|p| + 1] == p + [e];
    }
  }
}
