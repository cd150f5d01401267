/**
 * The count tree of the directory merger (lib/treemerge.c:136-284).
 *
 * A path is the list of its components; the empty list is the root directory.
 */
module CountTree {
  import opened Common

  type Path = seq<string>

  /** `p` lies strictly below directory `d`. */
  predicate Below(d: Path, p: Path) {
    |d| < |p| && p[..|d|] == d
  }

  function Parent(p: Path): Path
    requires p != []
  {
    p[..|p| - 1]
  }

  /** A tree lookup; a missing entry reads as 0. */
  function Lookup(counts: map<Path, int>, d: Path): int {
    if d in counts then counts[d] else 0
  }

  ghost function FilesBelow(files: set<Path>, d: Path): set<Path> {
    set p | p in files && Below(d, p)
  }

  ghost predicate ErrorBelow(errors: set<Path>, d: Path) {
    exists p :: p in errors && Below(d, p)
  }

  /** What the tree is meant to say about a directory. */
  ghost function Expected(files: set<Path>, errors: set<Path>, d: Path): int {
    if ErrorBelow(errors, d) then -1 else |FilesBelow(files, d)|
  }

  ghost predicate Describes(counts: map<Path, int>, files: set<Path>, errors: set<Path>) {
    forall d :: Lookup(counts, d) == Expected(files, errors, d)
  }

  /** The count of `d` after one path was climbed. */
  function Climbed(count: int, d: Path, path: Path, errorFlag: bool): int {
    if !Below(d, path) then count
    else if errorFlag || count == -1 then -1
    else count + 1
  }

  class CountTree {
    var counts: map<Path, int>

    constructor ()
      ensures counts == map[]
    {
      counts := map[];
    }

    /** `rm_tm_count_art_callback`: climbs the path and updates every directory above. */
    method CountCallback(path: Path, errorFlag: bool)
      modifies this
      ensures forall d :: Lookup(counts, d) == Climbed(Lookup(old(counts), d), d, path, errorFlag)
    {
      var i := |path|;
      while i > 0
        invariant 0 <= i <= |path|
        invariant forall d :: |d| < i ==> Lookup(counts, d) == Lookup(old(counts), d)
        invariant forall d :: |d| >= i ==> Lookup(counts, d) == Climbed(Lookup(old(counts), d), d, path, errorFlag)
      {
        i := i - 1;
        var dir := path[..i];
        var newCount := -1;
        if !errorFlag {
          var oldCount := Lookup(counts, dir);
          newCount := if oldCount == -1 then -1 else oldCount + 1;
        }
        counts := counts[dir := newCount];
        assert forall d :: Below(d, path) && |d| == i ==> d == dir;
      }
    }

    /** The iteration of `rm_tm_count_files` over the paths found, in any order. */
    method CountPaths(fileTree: map<Path, bool>, order: seq<Path>)
      requires NoDup(order) && Elements(order) == fileTree.Keys
      requires counts == map[]
      modifies this
      ensures Describes(counts, Countable(fileTree), Errors(fileTree))
    {
      EmptyTree(counts);
      ghost var files, errors := {}, {};
      for i := 0 to |order|
        invariant Describes(counts, files, errors)
        invariant files == set p | p in order[..i] && !fileTree[p]
        invariant errors == set p | p in order[..i] && fileTree[p]
      {
        var p := order[i];
        assert p in Elements(order) && order[..i + 1] == order[..i] + [p];
        ghost var before := counts;
        CountCallback(p, fileTree[p]);
        CountStep(before, counts, files, errors, p, fileTree[p]);
        if fileTree[p] { errors := errors + {p}; } else { files := files + {p}; }
      }
      assert order[..|order|] == order;
      assert forall p :: p in order <==> p in Elements(order);
      assert files == Countable(fileTree) && errors == Errors(fileTree);
    }

    /**
     * `rm_tm_count_files` after the walk.  `fileTree` maps every path found to
     * its error flag, `order` is the order in which the trie is iterated, and
     * `given` are the paths of the command line.
     */
    method CountFiles(fileTree: map<Path, bool>, order: seq<Path>, given: seq<Path>)
      requires NoDup(order) && Elements(order) == fileTree.Keys
      requires counts == map[]
      modifies this
      ensures Describes(counts, Countable(fileTree), Errors(fileTree) + Found(fileTree, given))
      ensures forall d :: Lookup(counts, d) == -1 <==> Marked(fileTree, given, d)
      ensures forall d :: !Marked(fileTree, given, d) ==>
        Lookup(counts, d) == |set p | p in fileTree && !fileTree[p] && |d| < |p| && p[..|d|] == d|
    {
      CountPaths(fileTree, order);
      ghost var errors := Errors(fileTree);
      for i := 0 to |given|
        invariant Describes(counts, Countable(fileTree), errors)
        invariant errors == Errors(fileTree) + Found(fileTree, given[..i])
      {
        var p := given[i];
        assert given[..i + 1] == given[..i] + [p];
        if exists k :: k in fileTree.Keys && p <= k {
          ghost var before := counts;
          CountCallback(p, true);
          CountStep(before, counts, Countable(fileTree), errors, p, true);
          errors := errors + {p};
        }
      }
      assert given[..|given|] == given;
      ReadOff(counts, fileTree, given);
    }
  }

  ghost function Countable(fileTree: map<Path, bool>): set<Path> {
    set p | p in fileTree && !fileTree[p]
  }

  ghost function Errors(fileTree: map<Path, bool>): set<Path> {
    set p | p in fileTree && fileTree[p]
  }

  /** The command line paths that the search finds as a node: a found path or a prefix of one. */
  ghost function Found(fileTree: map<Path, bool>, given: seq<Path>): set<Path> {
    set p | p in given && exists k :: k in fileTree.Keys && p <= k
  }

  /**
   * An error path lies below `d`, or a path of the command line does that was found: as a path of its own, or as a
   * directory on the way to one.
   */
  ghost predicate Marked(fileTree: map<Path, bool>, given: seq<Path>, d: Path) {
    || (exists p :: p in fileTree && fileTree[p] && |d| < |p| && p[..|d|] == d)
    || (exists p, k :: p in given && k in fileTree && |p| <= |k| && k[..|p|] == p && |d| < |p| && p[..|d|] == d)
  }

  lemma ReadOff(counts: map<Path, int>, fileTree: map<Path, bool>, given: seq<Path>)
    requires Describes(counts, Countable(fileTree), Errors(fileTree) + Found(fileTree, given))
    ensures forall d :: Lookup(counts, d) == -1 <==> Marked(fileTree, given, d)
    ensures forall d :: !Marked(fileTree, given, d) ==>
      Lookup(counts, d) == |set p | p in fileTree && !fileTree[p] && |d| < |p| && p[..|d|] == d|
  {
    forall d
      ensures Lookup(counts, d) == -1 <==> Marked(fileTree, given, d)
      ensures !Marked(fileTree, given, d) ==>
        Lookup(counts, d) == |set p | p in fileTree && !fileTree[p] && |d| < |p| && p[..|d|] == d|
    {
      MarkedBelow(fileTree, given, d);
      assert Lookup(counts, d) == Expected(Countable(fileTree), Errors(fileTree) + Found(fileTree, given), d);
      assert FilesBelow(Countable(fileTree), d) == set p | p in fileTree && !fileTree[p] && |d| < |p| && p[..|d|] == d;
    }
  }

  lemma MarkedBelow(fileTree: map<Path, bool>, given: seq<Path>, d: Path)
    ensures ErrorBelow(Errors(fileTree) + Found(fileTree, given), d) <==> Marked(fileTree, given, d)
  {
    if p :| p in fileTree && fileTree[p] && |d| < |p| && p[..|d|] == d { assert p in Errors(fileTree) && Below(d, p); }
    if p, k :| p in given && k in fileTree && |p| <= |k| && k[..|p|] == p && |d| < |p| && p[..|d|] == d {
      assert k in fileTree.Keys && p <= k;
      assert p in Found(fileTree, given) && Below(d, p);
    }
    if p :| p in Found(fileTree, given) && Below(d, p) {
      var k :| k in fileTree.Keys && p <= k;
      assert k in fileTree && k[..|p|] == p;
    }
  }

  lemma EmptyTree(counts: map<Path, int>)
    requires counts == map[]
    ensures Describes(counts, {}, {})
  {
    forall d ensures Expected({}, {}, d) == 0 {
      assert FilesBelow({}, d) == {};
    }
  }

  /** One more path, climbed once, keeps the tree right. */
  lemma CountStep(before: map<Path, int>, after: map<Path, int>, files: set<Path>, errors: set<Path>, p: Path,
                  error: bool)
    requires Describes(before, files, errors) && (!error ==> p !in files)
    requires forall d :: Lookup(after, d) == Climbed(Lookup(before, d), d, p, error)
    ensures Describes(after, if error then files else files + {p}, if error then errors + {p} else errors)
  {
    var files' := if error then files else files + {p};
    var errors' := if error then errors + {p} else errors;
    forall d ensures Lookup(after, d) == Expected(files', errors', d) {
      assert Lookup(before, d) == Expected(files, errors, d);
      if error && Below(d, p) {
        assert p in errors';
      } else if ErrorBelow(errors, d) {
        var q :| q in errors && Below(d, q);
        assert q in errors';
      } else {
        assert !ErrorBelow(errors', d);
        assert FilesBelow(files', d) == FilesBelow(files, d) + if !error && Below(d, p) then {p} else {};
      }
    }
  }
}
