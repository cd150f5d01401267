/**
 * Merging duplicate directories (lib/treemerge.c:426-619, 987-1050): feeding
 * the duplicate files, and clustering full directories up into their parents.
 */
module TreeMerge {
  import opened Common
  import opened CountTree
  import Cumulative

  /** `file_count` when a parent is created below an error: -1 read as an unsigned int. */
  const UNSIGNED_ERROR: int := 0xffff_ffff

  datatype File = File(path: Path, digest: seq<Byte>)

  datatype Directory = Directory(
    dupeCount: nat,
    fileCount: int,
    digest: seq<Byte>,
    hashSet: set<seq<Byte>>,
    knownFiles: seq<File>,
    children: seq<Path>,
    wasMerged: bool,
    wasInserted: bool)

  /** What the result table hashes and compares. */
  datatype Key = Key(dupeCount: nat, digest: seq<Byte>, hashSet: set<seq<Byte>>)

  function KeyOf(dir: Directory): Key {
    Key(dir.dupeCount, dir.digest, dir.hashSet)
  }

  predicate IsFull(dir: Directory) {
    dir.dupeCount == dir.fileCount && dir.fileCount > 0
  }

  function NewDirectory(fileCount: int): Directory {
    Directory(0, fileCount, [], {}, [], [], false, false)
  }

  /** With --honour-dir-layout the digest also takes up the sum of a base name. */
  datatype Layout = Ignored | Honoured(nameSum: string -> seq<Byte>)

  /** `g_path_get_basename` */
  function BaseName(path: Path): string {
    if path == [] then "/" else path[|path| - 1]
  }

  /** `g_path_get_dirname`; above the root is the root again. */
  function DirName(d: Path): Path {
    if d == [] then [] else Parent(d)
  }

  /** The number of slashes in a directory's name; the root has one, as the directories in it. */
  function Depth(d: Path): nat {
    Max(|d|, 1)
  }

  function AbsorbName(layout: Layout, digest: seq<Byte>, path: Path): seq<Byte> {
    match layout
    case Ignored => digest
    case Honoured(nameSum) => Cumulative.Absorb(digest, nameSum(BaseName(path)))
  }

  /** `rm_directory_add`, and the queue of known files. */
  function AddFile(layout: Layout, dir: Directory, file: File): Directory {
    dir.(dupeCount := dir.dupeCount + 1,
         digest := AbsorbName(layout, Cumulative.Absorb(dir.digest, file.digest), file.path),
         hashSet := dir.hashSet + {file.digest},
         knownFiles := [file] + dir.knownFiles)
  }

  /** The parent's side of `rm_directory_add_subdir`. */
  function AddSubdir(layout: Layout, parent: Directory, subdir: Directory, subdirPath: Path): Directory {
    parent.(dupeCount := parent.dupeCount + subdir.dupeCount,
            digest := AbsorbName(layout, Cumulative.Absorb(parent.digest, subdir.digest), subdirPath),
            hashSet := parent.hashSet + (set f | f in subdir.knownFiles :: f.digest),
            children := [subdirPath] + parent.children)
  }

  // ----- which fed files a directory counts -----

  type Tree = map<Path, Directory>

  predicate Merged(dirs: Tree, d: Path) {
    d in dirs && dirs[d].wasMerged
  }

  predicate Inserted(dirs: Tree, d: Path) {
    d in dirs && dirs[d].wasInserted
  }

  /** A directory that was not merged into itself; only the root can be. */
  predicate Regular(dirs: Tree, d: Path) {
    d != [] || !Merged(dirs, [])
  }

  /** All directories between `d` and the file were merged up. */
  ghost predicate Counts(dirs: Tree, d: Path, p: Path) {
    Below(d, p) && forall i :: |d| < i < |p| ==> Merged(dirs, p[..i])
  }

  ghost function Cover(fed: set<Path>, dirs: Tree, d: Path): set<Path> {
    set p | p in fed && Counts(dirs, d, p)
  }

  /** The environment: the count tree is right, and only counted files are fed. */
  ghost predicate Context(counts: map<Path, int>, files: set<Path>, errors: set<Path>, fed: set<Path>) {
    && Describes(counts, files, errors)
    && |files| < UNSIGNED_ERROR
    && fed <= files
    && [] !in fed
  }

  ghost predicate NumbersOk(counts: map<Path, int>, fed: set<Path>, dirs: Tree, d: Path)
    requires d in dirs
  {
    var dir := dirs[d];
    && dir.dupeCount == |Cover(fed, dirs, d)| > 0
    && (Lookup(counts, d) > 0 ==> dir.fileCount == Lookup(counts, d))
    && (Lookup(counts, d) <= 0 ==> dir.fileCount <= 0 || dir.fileCount == UNSIGNED_ERROR)
    && (dir.wasInserted <==> IsFull(dir))
  }

  /** A merged directory is listed once, by its parent. */
  ghost predicate LinksOk(dirs: Tree, d: Path)
    requires d in dirs
  {
    && (dirs[d].wasMerged ==> d != [] && Parent(d) in dirs && d in dirs[Parent(d)].children)
    && NoDup(dirs[d].children)
    && (forall c :: c in dirs[d].children ==> c != [] && Parent(c) == d && Merged(dirs, c))
  }

  ghost predicate DirectoryOk(counts: map<Path, int>, fed: set<Path>, dirs: Tree, d: Path)
    requires d in dirs
  {
    NumbersOk(counts, fed, dirs, d) && LinksOk(dirs, d)
  }

  ghost predicate TreeOk(counts: map<Path, int>, fed: set<Path>, dirs: Tree) {
    && (forall d {:trigger DirectoryOk(counts, fed, dirs, d)} ::
          d in dirs && Regular(dirs, d) ==> DirectoryOk(counts, fed, dirs, d))
    && (Merged(dirs, []) ==> RootTwisted(fed, dirs))
    && (forall p :: p in fed ==> p != [] && Parent(p) in dirs)
  }

  /** The root after it was merged into itself: it counts some files twice. */
  ghost predicate RootTwisted(fed: set<Path>, dirs: Tree)
    requires [] in dirs
  {
    && dirs[[]].dupeCount > |Cover(fed, dirs, [])| > 0
    && (IsFull(dirs[[]]) ==> dirs[[]].wasInserted)
  }

  // ----- the directories that should be reported -----

  /** There are counted files below `d`, no error mark, and every counted file was fed. */
  ghost predicate FullBelow(files: set<Path>, errors: set<Path>, fed: set<Path>, d: Path) {
    && FilesBelow(files, d) != {}
    && !ErrorBelow(errors, d)
    && FilesBelow(files, d) <= fed
  }

  lemma SubsetSize<T>(a: set<T>, b: set<T>)
    requires a <= b
    ensures |a| <= |b|
    ensures |a| == |b| ==> a == b
  {
    var rest := b - a;
    assert b == a + rest;
    assert |b| == |a| + |rest|;
  }

  /** A directory that looks full has all counted files below it fed and counted. */
  lemma FullIsComplete(counts: map<Path, int>, files: set<Path>, errors: set<Path>, fed: set<Path>, dirs: Tree, d: Path)
    requires Context(counts, files, errors, fed) && TreeOk(counts, fed, dirs)
    requires d in dirs && IsFull(dirs[d]) && Regular(dirs, d)
    ensures Cover(fed, dirs, d) == FilesBelow(files, d) == FilesBelow(fed, d)
    ensures FullBelow(files, errors, fed, d)
  {
    assert DirectoryOk(counts, fed, dirs, d);
    var cover := Cover(fed, dirs, d);
    assert Lookup(counts, d) == Expected(files, errors, d);
    SubsetSize(cover, FilesBelow(files, d));
    SubsetSize(FilesBelow(files, d), files);
    assert FilesBelow(fed, d) <= FilesBelow(files, d);
    assert cover <= FilesBelow(fed, d);
  }

  /** After clustering, every directory that should be reported is. */
  lemma {:induction false} FullIsInserted(counts: map<Path, int>, files: set<Path>, errors: set<Path>, fed: set<Path>,
                                          dirs: Tree, d: Path, bound: nat)
    requires Context(counts, files, errors, fed) && TreeOk(counts, fed, dirs)
    requires forall e :: Inserted(dirs, e) && |e| > |d| ==> Merged(dirs, e)
    requires forall p :: p in fed ==> |p| <= bound
    requires FullBelow(files, errors, fed, d) && Regular(dirs, d)
    ensures Inserted(dirs, d)
    decreases bound - |d|
  {
    forall p | p in FilesBelow(files, d) ensures Counts(dirs, d, p) && d in dirs {
      forall i | |d| < i < |p| ensures Merged(dirs, p[..i]) {
        var e := p[..i];
        BelowTrans(files, errors, fed, d, e, p);
        FullIsInserted(counts, files, errors, fed, dirs, e, bound);
      }
      if |p| == |d| + 1 {
        assert Parent(p) == d;
      } else {
        var e := p[..|d| + 1];
        assert Merged(dirs, e) && Parent(e) == d;
        assert DirectoryOk(counts, fed, dirs, e);
      }
    }
    var p :| p in FilesBelow(files, d);
    assert d in dirs && DirectoryOk(counts, fed, dirs, d);
    assert Cover(fed, dirs, d) == FilesBelow(files, d);
    assert Lookup(counts, d) == Expected(files, errors, d);
  }

  /** Between a full directory and a file below it every directory should be reported too. */
  lemma BelowTrans(files: set<Path>, errors: set<Path>, fed: set<Path>, d: Path, e: Path, p: Path)
    requires FullBelow(files, errors, fed, d) && p in files && Below(d, p) && |d| < |e| < |p| && e == p[..|e|]
    ensures FullBelow(files, errors, fed, e) && p in fed
  {
    assert p in FilesBelow(files, d) && p in FilesBelow(files, e);
    assert e[..|d|] == d;
    forall q | Below(e, q) ensures Below(d, q) {
      assert q[..|d|] == q[..|e|][..|d|];
    }
    assert FilesBelow(files, e) <= FilesBelow(files, d);
  }

  // ----- what a directory is compared by -----

  /** The digests of the fed files. */
  type Sums = map<Path, seq<Byte>>

  /** All digests make a fresh digest choose the same length, as those of one type do. */
  ghost predicate OneLength(sums: Sums, n: nat) {
    n > 0 && forall p :: p in sums ==> Cumulative.InitialLength(|sums[p]|) == n
  }

  /** What a name adds to position `j` of a digest. */
  ghost function NameByte(layout: Layout, n: nat, j: nat): Path -> Byte
    requires n > 0
  {
    p => match layout
      case Ignored => 0
      case Honoured(nameSum) => Cumulative.SumByte(nameSum(BaseName(p)), n, j)
  }

  /** What a file adds to it. */
  ghost function FileByte(layout: Layout, sums: Sums, n: nat, j: nat): Path -> Byte
    requires n > 0
  {
    p => Cumulative.XOR(NameByte(layout, n, j)(p), Cumulative.SumByte(if p in sums then sums[p] else [], n, j))
  }

  /** The exclusive or over files and names. */
  ghost function TotalByte(layout: Layout, sums: Sums, files: set<Path>, names: set<Path>, n: nat, j: nat): Byte
    requires n > 0
  {
    Cumulative.XOR(Cumulative.XorAll(files, FileByte(layout, sums, n, j)),
                   Cumulative.XorAll(names, NameByte(layout, n, j)))
  }

  /** The directories below `d` that were merged into it, with all between. */
  ghost function MergedInto(dirs: Tree, d: Path): set<Path> {
    set e | e in dirs && Merged(dirs, e) && Counts(dirs, d, e)
  }

  /** The file lies in `d`, or in a directory in `d` that was merged. */
  ghost predicate Close(dirs: Tree, d: Path, p: Path) {
    p != [] && (Parent(p) == d || (Parent(p) != [] && Merged(dirs, Parent(p)) && Parent(Parent(p)) == d))
  }

  ghost function CloseSums(sums: Sums, dirs: Tree, d: Path): set<seq<Byte>> {
    set p | p in sums && Close(dirs, d, p) :: sums[p]
  }

  /** The digest is the exclusive or of the digests of exactly the counted files, and of the names if these matter. */
  ghost predicate DigestOk(layout: Layout, sums: Sums, dirs: Tree, d: Path, n: nat)
    requires d in dirs && n > 0
  {
    && |dirs[d].digest| == n
    && forall j {:trigger TotalByte(layout, sums, Cover(sums.Keys, dirs, d), MergedInto(dirs, d), n, j)} ::
         0 <= j < n ==>
         dirs[d].digest[j] == TotalByte(layout, sums, Cover(sums.Keys, dirs, d), MergedInto(dirs, d), n, j)
  }

  ghost predicate ContentOk(layout: Layout, sums: Sums, dirs: Tree, d: Path)
    requires d in dirs
  {
    && (forall f :: f in dirs[d].knownFiles <==>
          f.path in sums && f.path != [] && Parent(f.path) == d && f.digest == sums[f.path])
    && dirs[d].hashSet == CloseSums(sums, dirs, d)
    && (forall n {:trigger OneLength(sums, n)} :: OneLength(sums, n) ==> DigestOk(layout, sums, dirs, d, n))
  }

  ghost predicate ContentsOk(layout: Layout, sums: Sums, dirs: Tree) {
    forall d {:trigger ContentOk(layout, sums, dirs, d)} ::
      d in dirs && Regular(dirs, d) ==> ContentOk(layout, sums, dirs, d)
  }

  lemma AbsorbNameByte(layout: Layout, data: seq<Byte>, p: Path, n: nat, j: nat)
    requires |data| == n > 0 && j < n
    ensures |AbsorbName(layout, data, p)| == n
    ensures AbsorbName(layout, data, p)[j] == Cumulative.XOR(NameByte(layout, n, j)(p), data[j])
  {
    match layout {
      case Ignored => Cumulative.ZeroXor(data[j]);
      case Honoured(nameSum) => Cumulative.AbsorbByte(data, nameSum(BaseName(p)), n, j);
    }
  }

  /** The byte of a digest that takes up another one and a name. */
  lemma AbsorbBoth(layout: Layout, data: seq<Byte>, x: seq<Byte>, p: Path, n: nat, j: nat)
    requires n == (if data == [] then Cumulative.InitialLength(|x|) else |data|) && j < n
    ensures var r := AbsorbName(layout, Cumulative.Absorb(data, x), p);
      && |r| == n
      && r[j] == Cumulative.XOR(NameByte(layout, n, j)(p),
                                Cumulative.XOR(Cumulative.SumByte(x, n, j), Cumulative.ByteAt(data, j)))
  {
    Cumulative.AbsorbByte(data, x, n, j);
    AbsorbNameByte(layout, Cumulative.Absorb(data, x), p, n, j);
  }

  lemma MixFile(m: Byte, s: Byte, f: Byte)
    ensures Cumulative.XOR(m, Cumulative.XOR(s, Cumulative.XOR(f, 0)))
         == Cumulative.XOR(Cumulative.XOR(f, Cumulative.XOR(m, s)), 0)
  {}

  lemma MixDirectory(m: Byte, f: Byte, g: Byte, x: Byte, y: Byte)
    ensures Cumulative.XOR(m, Cumulative.XOR(Cumulative.XOR(f, x), Cumulative.XOR(g, y)))
         == Cumulative.XOR(Cumulative.XOR(f, g), Cumulative.XOR(Cumulative.XOR(x, y), m))
  {}

  lemma NothingMergedInto(dirs: Tree, d: Path)
    requires forall e :: !Merged(dirs, e)
    ensures MergedInto(dirs, d) == {}
  {
    forall e | e in dirs ensures e !in MergedInto(dirs, d) { assert !Merged(dirs, e); }
  }

  /** More digests change nothing for files that had theirs before. */
  lemma TotalStays(layout: Layout, sums: Sums, sums': Sums, files: set<Path>, names: set<Path>, n: nat, j: nat)
    requires n > 0 && forall p :: p in files ==> p in sums && p in sums' && sums[p] == sums'[p]
    ensures TotalByte(layout, sums', files, names, n, j) == TotalByte(layout, sums, files, names, n, j)
  {
    assert files == set p | p in files :: ((q: Path) => q)(p);
    Cumulative.XorAllSame(files, files, FileByte(layout, sums, n, j), FileByte(layout, sums', n, j), (q: Path) => q);
  }

  // ----- which directories should be reported together -----

  /** The directories between `d` and the files below it. */
  ghost function DirsBelow(files: set<Path>, d: Path): set<Path> {
    set p, k | p in FilesBelow(files, d) && |d| < k < |p| :: p[..k]
  }

  /** The digests of the files in `d`, and in the directories in it. */
  ghost function TopSums(sums: Sums, files: set<Path>, d: Path): set<seq<Byte>> {
    set p | p in files && p in sums && Below(d, p) && |p| <= |d| + 2 :: sums[p]
  }

  /**
   * Two directories have as many files, the exclusive or of all digests below them (and names, if they matter)
   * is the same, and so are the sets of the digests of their files on the two topmost levels.
   */
  ghost predicate Alike(layout: Layout, sums: Sums, files: set<Path>, d: Path, e: Path, n: nat)
    requires n > 0
  {
    && |FilesBelow(files, d)| == |FilesBelow(files, e)|
    && TopSums(sums, files, d) == TopSums(sums, files, e)
    && forall j {:trigger OneByte(layout, sums, files, d, n, j)} ::
         0 <= j < n ==> OneByte(layout, sums, files, d, n, j) == OneByte(layout, sums, files, e, n, j)
  }

  ghost function OneByte(layout: Layout, sums: Sums, files: set<Path>, d: Path, n: nat, j: nat): Byte
    requires n > 0
  {
    TotalByte(layout, sums, FilesBelow(files, d), DirsBelow(files, d), n, j)
  }

  predicate InOneEntry(table: map<Key, seq<Path>>, d: Path, e: Path) {
    exists k :: k in table && d in table[k] && e in table[k]
  }

  /** What a full directory is compared by, once nothing waits to be merged up. */
  lemma FullContent(counts: map<Path, int>, layout: Layout, files: set<Path>, errors: set<Path>, sums: Sums, dirs: Tree,
                    d: Path)
    requires Context(counts, files, errors, sums.Keys) && TreeOk(counts, sums.Keys, dirs) && Waiting(dirs) == {}
    requires ContentsOk(layout, sums, dirs) && Regular(dirs, d) && FullBelow(files, errors, sums.Keys, d)
    ensures Inserted(dirs, d) && ContentOk(layout, sums, dirs, d)
    ensures dirs[d].dupeCount == |FilesBelow(files, d)|
    ensures Cover(sums.Keys, dirs, d) == FilesBelow(files, d) && MergedInto(dirs, d) == DirsBelow(files, d)
    ensures CloseSums(sums, dirs, d) == TopSums(sums, files, d)
  {
    var bound := LongestPath(sums.Keys);
    forall e | Inserted(dirs, e) && |e| > |d| ensures Merged(dirs, e) { assert e !in Waiting(dirs); }
    FullIsInserted(counts, files, errors, sums.Keys, dirs, d, bound);
    assert DirectoryOk(counts, sums.Keys, dirs, d) && ContentOk(layout, sums, dirs, d);
    FullIsComplete(counts, files, errors, sums.Keys, dirs, d);
    forall p, k | p in FilesBelow(files, d) && |d| < k < |p| ensures Merged(dirs, p[..k]) {
      assert p in Cover(sums.Keys, dirs, d);
    }
    FullMerges(counts, files, errors, sums, dirs, d);
    forall p | p in sums ensures Close(dirs, d, p) <==> Below(d, p) && |p| <= |d| + 2 {
      if Below(d, p) && |p| == |d| + 2 {
        assert p in FilesBelow(files, d) && Merged(dirs, p[..|p| - 1]);
      }
    }
  }

  lemma FullMerges(counts: map<Path, int>, files: set<Path>, errors: set<Path>, sums: Sums, dirs: Tree, d: Path)
    requires Context(counts, files, errors, sums.Keys) && TreeOk(counts, sums.Keys, dirs)
    requires forall p, k :: p in FilesBelow(files, d) && |d| < k < |p| ==> Merged(dirs, p[..k])
    ensures MergedInto(dirs, d) == DirsBelow(files, d)
  {
    forall e | e in MergedInto(dirs, d) ensures e in DirsBelow(files, d) {
      assert DirectoryOk(counts, sums.Keys, dirs, e);
      var p :| p in Cover(sums.Keys, dirs, e);
      assert p[..|d|] == p[..|e|][..|d|];
      assert p in FilesBelow(files, d) && p[..|e|] == e;
    }
    forall e | e in DirsBelow(files, d) ensures e in MergedInto(dirs, d) {
      var p, k :| p in FilesBelow(files, d) && |d| < k < |p| && p[..k] == e;
      assert e[..|d|] == d;
      forall i | |d| < i < |e| ensures Merged(dirs, e[..i]) { assert e[..i] == p[..i]; }
    }
  }

  /** Full directories have one key if and only if they are alike. */
  lemma KeysIffAlike(counts: map<Path, int>, layout: Layout, files: set<Path>, errors: set<Path>, sums: Sums,
                     dirs: Tree, d: Path, e: Path, n: nat)
    requires Context(counts, files, errors, sums.Keys) && TreeOk(counts, sums.Keys, dirs) && Waiting(dirs) == {}
    requires ContentsOk(layout, sums, dirs) && OneLength(sums, n)
    requires Regular(dirs, d) && FullBelow(files, errors, sums.Keys, d)
    requires Regular(dirs, e) && FullBelow(files, errors, sums.Keys, e)
    ensures d in dirs && e in dirs
    ensures KeyOf(dirs[d]) == KeyOf(dirs[e]) <==> Alike(layout, sums, files, d, e, n)
  {
    FullContent(counts, layout, files, errors, sums, dirs, d);
    FullContent(counts, layout, files, errors, sums, dirs, e);
    assert DigestOk(layout, sums, dirs, d, n) && DigestOk(layout, sums, dirs, e, n);
    forall j | 0 <= j < n
      ensures dirs[d].digest[j] == OneByte(layout, sums, files, d, n, j)
      ensures dirs[e].digest[j] == OneByte(layout, sums, files, e, n, j)
    {}
  }

  /** Two directories hold the same files, by their digests, under the same names. */
  ghost predicate Copies(sums: Sums, files: set<Path>, d: Path, e: Path) {
    forall r {:trigger d + r} :: r != [] ==>
      && (d + r in files <==> e + r in files)
      && (d + r in sums <==> e + r in sums)
      && (d + r in sums ==> sums[d + r] == sums[e + r])
  }

  /** The path of `p`, moved from `d` to `e`. */
  ghost function Moved(d: Path, e: Path): Path -> Path {
    p => if Below(d, p) then e + p[|d|..] else p
  }

  lemma MovedBelow(d: Path, e: Path, p: Path)
    requires Below(d, p)
    ensures Below(e, Moved(d, e)(p)) && Moved(e, d)(Moved(d, e)(p)) == p && p == d + p[|d|..]
    ensures BaseName(Moved(d, e)(p)) == BaseName(p) && |Moved(d, e)(p)| - |e| == |p| - |d|
    ensures forall k :: |d| < k <= |p| ==> Below(d, p[..k]) && Moved(d, e)(p[..k]) == Moved(d, e)(p)[..k - |d| + |e|]
  {
    var q := e + p[|d|..];
    assert q[|e|..] == p[|d|..] && q[..|e|] == e;
    forall k | |d| < k <= |p| ensures Below(d, p[..k]) && Moved(d, e)(p[..k]) == q[..k - |d| + |e|] {
      assert p[..k][..|d|] == p[..|d|];
      assert p[..k][|d|..] == p[|d|..][..k - |d|];
    }
  }

  lemma MovedFile(sums: Sums, files: set<Path>, d: Path, e: Path, p: Path)
    requires Copies(sums, files, d, e) && p in FilesBelow(files, d)
    ensures Moved(d, e)(p) in FilesBelow(files, e) && Moved(e, d)(Moved(d, e)(p)) == p
    ensures p in sums ==> Moved(d, e)(p) in sums && sums[Moved(d, e)(p)] == sums[p]
  {
    MovedBelow(d, e, p);
    var rest := p[|d|..];
    assert p == d + rest && Moved(d, e)(p) == e + rest;
  }

  lemma MovedDirectory(sums: Sums, files: set<Path>, d: Path, e: Path, x: Path)
    requires Copies(sums, files, d, e) && x in DirsBelow(files, d)
    ensures Moved(d, e)(x) in DirsBelow(files, e) && Moved(e, d)(Moved(d, e)(x)) == x
  {
    var p, k :| p in FilesBelow(files, d) && |d| < k < |p| && p[..k] == x;
    MovedBelow(d, e, p);
    MovedBelow(d, e, x);
    MovedFile(sums, files, d, e, p);
    assert Moved(d, e)(x) == Moved(d, e)(p)[..k - |d| + |e|];
  }

  lemma CopiesBack(sums: Sums, files: set<Path>, d: Path, e: Path)
    requires Copies(sums, files, d, e)
    ensures Copies(sums, files, e, d)
  {
    forall r: Path | r != []
      ensures (e + r in files <==> d + r in files) && (e + r in sums <==> d + r in sums)
      ensures e + r in sums ==> sums[e + r] == sums[d + r]
    {
      assert d + r in files <==> e + r in files;
    }
  }

  /** Moving takes the files below one directory to those below the other. */
  lemma MovedFiles(sums: Sums, files: set<Path>, d: Path, e: Path)
    requires Copies(sums, files, d, e)
    ensures FilesBelow(files, e) == set p | p in FilesBelow(files, d) :: Moved(d, e)(p)
    ensures DirsBelow(files, e) == set p | p in DirsBelow(files, d) :: Moved(d, e)(p)
  {
    CopiesBack(sums, files, d, e);
    forall p | p in FilesBelow(files, d) ensures Moved(d, e)(p) in FilesBelow(files, e) {
      MovedFile(sums, files, d, e, p);
    }
    forall q | q in FilesBelow(files, e) ensures exists p :: p in FilesBelow(files, d) && Moved(d, e)(p) == q {
      MovedFile(sums, files, e, d, q);
    }
    forall y | y in DirsBelow(files, d) ensures Moved(d, e)(y) in DirsBelow(files, e) {
      MovedDirectory(sums, files, d, e, y);
    }
    forall x | x in DirsBelow(files, e) ensures exists y :: y in DirsBelow(files, d) && Moved(d, e)(y) == x {
      MovedDirectory(sums, files, e, d, x);
    }
  }

  lemma MovedTopSums(sums: Sums, files: set<Path>, d: Path, e: Path)
    requires Copies(sums, files, d, e)
    ensures TopSums(sums, files, d) <= TopSums(sums, files, e)
  {
    forall x | x in TopSums(sums, files, d) ensures x in TopSums(sums, files, e) {
      var p :| p in files && p in sums && Below(d, p) && |p| <= |d| + 2 && sums[p] == x;
      assert p in FilesBelow(files, d);
      MovedBelow(d, e, p);
      MovedFile(sums, files, d, e, p);
    }
  }

  ghost predicate AllBelow(d: Path, paths: set<Path>) {
    forall p :: p in paths ==> Below(d, p)
  }

  lemma MovedApart(d: Path, e: Path, paths: set<Path>)
    requires AllBelow(d, paths)
    ensures forall p, q :: p in paths && q in paths && Moved(d, e)(p) == Moved(d, e)(q) ==> p == q
  {
    forall p | p in paths ensures Moved(e, d)(Moved(d, e)(p)) == p { MovedBelow(d, e, p); }
  }

  lemma MovedNames(layout: Layout, d: Path, e: Path, names: set<Path>, n: nat, j: nat)
    requires AllBelow(d, names) && n > 0
    ensures Cumulative.XorAll(names, NameByte(layout, n, j))
         == Cumulative.XorAll(set p | p in names :: Moved(d, e)(p), NameByte(layout, n, j))
  {
    forall p | p in names ensures BaseName(Moved(d, e)(p)) == BaseName(p) { MovedBelow(d, e, p); }
    MovedApart(d, e, names);
    var name := NameByte(layout, n, j);
    Cumulative.XorAllSame(names, set p | p in names :: Moved(d, e)(p), name, name, Moved(d, e));
  }

  lemma MovedSums(layout: Layout, sums: Sums, all: set<Path>, d: Path, e: Path, files: set<Path>, n: nat, j: nat)
    requires AllBelow(d, files) && n > 0 && Copies(sums, all, d, e)
    ensures Cumulative.XorAll(files, FileByte(layout, sums, n, j))
         == Cumulative.XorAll(set p | p in files :: Moved(d, e)(p), FileByte(layout, sums, n, j))
  {
    var file := FileByte(layout, sums, n, j);
    forall p | p in files ensures file(p) == file(Moved(d, e)(p)) {
      MovedBelow(d, e, p);
      var rest := p[|d|..];
      assert p == d + rest && Moved(d, e)(p) == e + rest;
      assert NameByte(layout, n, j)(p) == NameByte(layout, n, j)(Moved(d, e)(p));
    }
    MovedApart(d, e, files);
    Cumulative.XorAllSame(files, set p | p in files :: Moved(d, e)(p), file, file, Moved(d, e));
  }

  /** Copies of a directory are alike: full ones are reported together, whatever the layout option. */
  lemma CopiesAlike(layout: Layout, sums: Sums, files: set<Path>, d: Path, e: Path, n: nat)
    requires Copies(sums, files, d, e) && n > 0
    ensures Alike(layout, sums, files, d, e, n)
  {
    CopiesBack(sums, files, d, e);
    MovedFiles(sums, files, d, e);
    MovedTopSums(sums, files, d, e);
    MovedTopSums(sums, files, e, d);
    BelowBoth(files, d);
    MovedApart(d, e, FilesBelow(files, d));
    SameSize(FilesBelow(files, d), FilesBelow(files, e), Moved(d, e));
    forall j | 0 <= j < n ensures OneByte(layout, sums, files, d, n, j) == OneByte(layout, sums, files, e, n, j) {
      MovedSums(layout, sums, files, d, e, FilesBelow(files, d), n, j);
      MovedNames(layout, d, e, DirsBelow(files, d), n, j);
    }
  }

  /** Directories with one file each, of different digests, are not. */
  lemma OneFileApart(layout: Layout, sums: Sums, files: set<Path>, d: Path, e: Path, p: Path, q: Path, n: nat)
    requires FilesBelow(files, d) == {p} && FilesBelow(files, e) == {q} && n > 0 && p != [] && q != []
    requires Parent(p) == d && Parent(q) == e && p in sums && q in sums && sums[p] != sums[q]
    ensures !Alike(layout, sums, files, d, e, n)
  {
    assert p in FilesBelow(files, d) && q in FilesBelow(files, e);
    assert sums[p] in TopSums(sums, files, d);
    forall x | x in files && x in sums && Below(e, x) ensures x == q { assert x in FilesBelow(files, e); }
    assert sums[p] !in TopSums(sums, files, e);
  }

  /** The two add the same to a digest of length `n`. */
  ghost predicate SameSum(x: seq<Byte>, y: seq<Byte>, n: nat)
    requires n > 0
  {
    forall j {:trigger Cumulative.SumByte(x, n, j)} ::
      0 <= j < n ==> Cumulative.SumByte(x, n, j) == Cumulative.SumByte(y, n, j)
  }

  /** With --honour-dir-layout names count: directories with one file each, of one digest, but different names. */
  lemma NamesMatter(nameSum: string -> seq<Byte>, sums: Sums, files: set<Path>, d: Path, e: Path, p: Path, q: Path,
                    n: nat)
    requires FilesBelow(files, d) == {p} && FilesBelow(files, e) == {q} && n > 0 && p != [] && q != []
    requires Parent(p) == d && Parent(q) == e && p in sums && q in sums && sums[p] == sums[q]
    ensures Alike(Honoured(nameSum), sums, files, d, e, n) <==> SameSum(nameSum(p[|p| - 1]), nameSum(q[|q| - 1]), n)
    ensures Alike(Ignored, sums, files, d, e, n)
  {
    OnlyFile(sums, files, d, p);
    OnlyFile(sums, files, e, q);
    var x, y := nameSum(p[|p| - 1]), nameSum(q[|q| - 1]);
    forall j | 0 <= j < n
      ensures OneByte(Ignored, sums, files, d, n, j) == OneByte(Ignored, sums, files, e, n, j)
      ensures OneByte(Honoured(nameSum), sums, files, d, n, j) == OneByte(Honoured(nameSum), sums, files, e, n, j)
              <==> Cumulative.SumByte(x, n, j) == Cumulative.SumByte(y, n, j)
    {
      OneFileByte(Ignored, sums, files, d, p, n, j);
      OneFileByte(Ignored, sums, files, e, q, n, j);
      NamedFileByte(nameSum, sums, files, d, p, n, j);
      NamedFileByte(nameSum, sums, files, e, q, n, j);
      XorApart(Cumulative.SumByte(x, n, j), Cumulative.SumByte(y, n, j), Cumulative.SumByte(sums[p], n, j));
    }
    if Alike(Honoured(nameSum), sums, files, d, e, n) {
      forall j | 0 <= j < n ensures Cumulative.SumByte(x, n, j) == Cumulative.SumByte(y, n, j) {
        assert OneByte(Honoured(nameSum), sums, files, d, n, j) == OneByte(Honoured(nameSum), sums, files, e, n, j);
      }
    }
  }

  lemma NamedFileByte(nameSum: string -> seq<Byte>, sums: Sums, files: set<Path>, d: Path, p: Path, n: nat, j: nat)
    requires FilesBelow(files, d) == {p} && DirsBelow(files, d) == {} && n > 0 && p != [] && p in sums
    ensures OneByte(Honoured(nameSum), sums, files, d, n, j)
         == Cumulative.XOR(Cumulative.SumByte(nameSum(p[|p| - 1]), n, j), Cumulative.SumByte(sums[p], n, j))
  {
    var layout := Honoured(nameSum);
    OneFileByte(layout, sums, files, d, p, n, j);
    assert NameByte(layout, n, j)(p) == Cumulative.SumByte(nameSum(BaseName(p)), n, j);
    assert FileByte(layout, sums, n, j)(p)
        == Cumulative.XOR(NameByte(layout, n, j)(p), Cumulative.SumByte(sums[p], n, j));
  }

  lemma XorApart(a: Byte, b: Byte, c: Byte)
    ensures Cumulative.XOR(a, c) == Cumulative.XOR(b, c) <==> a == b
  {}

  lemma OnlyFile(sums: Sums, files: set<Path>, d: Path, p: Path)
    requires FilesBelow(files, d) == {p} && p != [] && Parent(p) == d && p in sums
    ensures DirsBelow(files, d) == {} && TopSums(sums, files, d) == {sums[p]}
  {
    assert p in FilesBelow(files, d);
    forall x | x in files && x in sums && Below(d, x) ensures x == p { assert x in FilesBelow(files, d); }
  }

  lemma OneFileByte(layout: Layout, sums: Sums, files: set<Path>, d: Path, p: Path, n: nat, j: nat)
    requires FilesBelow(files, d) == {p} && DirsBelow(files, d) == {} && n > 0
    ensures OneByte(layout, sums, files, d, n, j) == FileByte(layout, sums, n, j)(p)
  {
    var file := FileByte(layout, sums, n, j);
    assert {p} == {} + {p};
    Cumulative.XorAllAdd({}, file, p);
    Cumulative.ZeroXor(file(p));
  }

  lemma BelowBoth(files: set<Path>, d: Path)
    ensures AllBelow(d, FilesBelow(files, d)) && AllBelow(d, DirsBelow(files, d))
  {
    forall p, k | p in FilesBelow(files, d) && |d| < k < |p| ensures Below(d, p[..k]) {
      assert p[..k][..|d|] == p[..|d|];
    }
  }

  lemma {:induction false} SameSize(a: set<Path>, b: set<Path>, f: Path -> Path)
    requires b == set p | p in a :: f(p)
    requires forall p, q :: p in a && q in a && f(p) == f(q) ==> p == q
    ensures |a| == |b|
    decreases |a|
  {
    if a != {} {
      var p :| p in a;
      var image := set q | q in a - {p} :: f(q);
      assert f(p) in b && b == image + {f(p)};
      SameSize(a - {p}, image, f);
    }
  }

  // ----- merging one directory into its parent -----

  /** Only the flags of merged directories matter for what another directory counts. */
  lemma MergeCover(fed: set<Path>, dirs: Tree, dirs': Tree, c: Path)
    requires c in dirs && c != [] && !dirs[c].wasMerged && (Parent(c) != [] ==> !Merged(dirs, Parent(c)))
    requires forall e :: Merged(dirs', e) <==> Merged(dirs, e) || e == c
    ensures forall e {:trigger Cover(fed, dirs', e)} :: e != Parent(c) ==> Cover(fed, dirs', e) == Cover(fed, dirs, e)
    ensures Cover(fed, dirs', Parent(c)) == Cover(fed, dirs, Parent(c)) + Cover(fed, dirs, c)
    ensures Cover(fed, dirs, Parent(c)) !! Cover(fed, dirs, c)
  {
    var d := Parent(c);
    forall e, p | e != d ensures Counts(dirs', e, p) <==> Counts(dirs, e, p) {
      if Counts(dirs', e, p) {
        forall i | |e| < i < |p| ensures Merged(dirs, p[..i]) {
          assert Merged(dirs', p[..i]);
          assert p[..i] != c by {
            assert p[..i][..i - 1] == p[..i - 1];
            assert i - 1 > |e| ==> Merged(dirs', p[..i - 1]);
          }
        }
      }
    }
    forall p ensures Counts(dirs', d, p) <==> Counts(dirs, d, p) || Counts(dirs, c, p) {
      if Counts(dirs', d, p) && !Counts(dirs, d, p) {
        var i :| |d| < i < |p| && !Merged(dirs, p[..i]);
        assert Merged(dirs', p[..i]) && p[..i] == c;
        forall k | |c| < k < |p| ensures Merged(dirs, p[..k]) { assert Merged(dirs', p[..k]); }
      }
      if Counts(dirs, c, p) {
        assert p[..|d|] == d by { assert p[..|c|][..|d|] == p[..|d|]; }
        forall k | |d| < k < |p| ensures Merged(dirs', p[..k]) {
          if k > |c| { assert Merged(dirs, p[..k]); } else { assert p[..k] == c; }
        }
      }
    }
    forall p | Counts(dirs, c, p) ensures !Counts(dirs, d, p) {
      assert p[..|c|] == c;
    }
  }

  // ----- the merger -----

  ghost predicate TableOk(dirs: Tree, table: map<Key, seq<Path>>) {
    && (forall k :: k in table ==> NoDup(table[k]))
    && (forall k, d :: k in table && d in table[k] ==>
          Inserted(dirs, d) && (Regular(dirs, d) ==> KeyOf(dirs[d]) == k))
    && (forall d {:trigger InTable(table, d)} {:trigger Inserted(dirs, d)} :: Inserted(dirs, d) ==> InTable(table, d))
  }

  predicate InTable(table: map<Key, seq<Path>>, d: Path) {
    exists k :: k in table && d in table[k]
  }

  /** Directories in the result table do not change what they are hashed and compared by. */
  ghost predicate KeysKept(before: Tree, after: Tree) {
    forall d :: Inserted(before, d) ==>
      Inserted(after, d) && (Regular(after, d) ==> KeyOf(after[d]) == KeyOf(before[d]))
  }

  /** Merged directories stay merged. */
  ghost predicate MergesKept(before: Tree, after: Tree) {
    forall d :: Merged(before, d) ==> Merged(after, d)
  }

  /** While directories at depth `k` are clustered, only full ones above were merged. */
  ghost predicate OnlyFullMergedAbove(dirs: Tree, k: nat) {
    forall e :: e != [] && Merged(dirs, e) && |e| < k ==> Inserted(dirs, e)
  }

  /** Inserted directories that still have to be merged up. */
  ghost function Waiting(dirs: Tree): set<Path> {
    set e | e in dirs && e != [] && dirs[e].wasInserted && !dirs[e].wasMerged
  }

  /** The order in which the fed directories are clustered. */
  ghost predicate DeepestFirst(sorted: seq<Path>) {
    forall i, j {:trigger AsDeep(sorted[i], sorted[j])} :: 0 <= i < j < |sorted| ==> AsDeep(sorted[i], sorted[j])
  }

  predicate AsDeep(a: Path, b: Path) { Depth(a) >= Depth(b) }

  /** The file count of a directory that is created when a file is fed into it. */
  function FedCount(counts: map<Path, int>, d: Path): int {
    if Lookup(counts, d) == 0 then -1 else Lookup(counts, d)
  }

  class RmTreeMerger {
    const counts: map<Path, int>
    const layout: Layout
    ghost const files: set<Path>
    ghost const errors: set<Path>
    ghost var fed: set<Path>
    /** The digests of the files that were fed. */
    ghost var sums: Sums
    var dirTree: Tree
    var resultTable: map<Key, seq<Path>>
    var validDirs: seq<Path>

    ghost predicate Valid()
      reads this
    {
      && Context(counts, files, errors, fed)
      && TreeOk(counts, fed, dirTree)
      && TableOk(dirTree, resultTable)
      && sums.Keys == fed && ContentsOk(layout, sums, dirTree)
    }

    /** While files are fed, nothing is merged. */
    ghost predicate Feeding()
      reads this
    {
      && Valid()
      && NoDup(validDirs) && Elements(validDirs) == dirTree.Keys
      && (forall d :: d in dirTree ==> !dirTree[d].wasMerged && dirTree[d].fileCount == FedCount(counts, d))
    }

    constructor (counts: map<Path, int>, layout: Layout, ghost files: set<Path>, ghost errors: set<Path>)
      requires Describes(counts, files, errors) && |files| < UNSIGNED_ERROR
      ensures Feeding() && fed == {} && this.files == files && this.errors == errors
    {
      this.counts, this.layout := counts, layout;
      this.files, this.errors, this.fed, sums := files, errors, {}, map[];
      dirTree, resultTable, validDirs := map[], map[], [];
    }

    /** `rm_tm_insert_dir` */
    method InsertDir(d: Path)
      requires d in dirTree && TableOk(dirTree, resultTable)
      modifies this`dirTree, this`resultTable
      ensures dirTree == old(dirTree)[d := old(dirTree[d]).(wasInserted := true)]
      ensures TableOk(dirTree, resultTable)
      ensures var key := KeyOf(old(dirTree)[d]);
        var queue := if key in old(resultTable) then old(resultTable)[key] else [];
        resultTable == if old(dirTree)[d].wasInserted then old(resultTable) else old(resultTable)[key := [d] + queue]
    {
      if dirTree[d].wasInserted {
        assert dirTree[d].(wasInserted := true) == dirTree[d];
        return;
      }
      var key := KeyOf(dirTree[d]);
      var queue := if key in resultTable then resultTable[key] else [];
      ghost var before := resultTable;
      resultTable := resultTable[key := [d] + queue];
      forall e | InTable(before, e) ensures InTable(resultTable, e) {
        var k :| k in before && e in before[k];
        assert e in resultTable[k];
      }
      assert d in resultTable[key];
      dirTree := dirTree[d := dirTree[d].(wasInserted := true)];
    }

    /** Stores a changed directory, and inserts it if it became full. */
    method StoreDir(d: Path, directory: Directory)
      requires TableOk(dirTree, resultTable) && (Inserted(dirTree, d) <==> directory.wasInserted)
      requires Inserted(dirTree, d) ==> d == [] && directory.wasMerged
      requires Merged(dirTree, d) ==> directory.wasMerged
      modifies this`dirTree, this`resultTable
      ensures dirTree == old(dirTree)[d := directory.(wasInserted := directory.wasInserted || IsFull(directory))]
      ensures TableOk(dirTree, resultTable) && KeysKept(old(dirTree), dirTree)
    {
      ghost var before := dirTree;
      dirTree := dirTree[d := directory];
      TableFrame(before, dirTree, resultTable);
      if directory.dupeCount == directory.fileCount && directory.fileCount > 0 {
        InsertDir(d);
      }
    }

    /** The lookup in `rm_tm_feed`: a directory that is not known yet is created. */
    method FindDirectory(d: Path) returns (directory: Directory)
      requires NoDup(validDirs) && Elements(validDirs) == dirTree.Keys
      modifies this`validDirs
      ensures directory == if d in dirTree then dirTree[d]
                           else NewDirectory(if Lookup(counts, d) == 0 then -1 else Lookup(counts, d))
      ensures NoDup(validDirs) && Elements(validDirs) == dirTree.Keys + {d}
    {
      if d in dirTree {
        directory := dirTree[d];
      } else {
        var fileCount := Lookup(counts, d);
        if fileCount == 0 {
          fileCount := -1;
        }
        directory := NewDirectory(fileCount);
        assert forall e :: e in validDirs ==> e in Elements(validDirs);
        validDirs := [d] + validDirs;
      }
    }

    /** `rm_tm_feed` */
    method Feed(file: File)
      requires Feeding() && file.path != [] && file.path in files && file.path !in fed
      modifies this
      ensures Feeding() && fed == old(fed) + {file.path} && sums == old(sums)[file.path := file.digest]
      ensures KeysKept(old(dirTree), dirTree)
      ensures dirTree == Fed(counts, layout, old(dirTree), file)
      ensures var d := Parent(file.path); d in dirTree && (d !in old(dirTree) ==>
        dirTree[d].fileCount == if Lookup(counts, d) == 0 then -1 else Lookup(counts, d))
      ensures var d := Parent(file.path);
        dirTree[d].knownFiles == [file] + if d in old(dirTree) then old(dirTree)[d].knownFiles else []
    {
      var d := Parent(file.path);
      NotYetInserted(counts, files, errors, fed, dirTree, file.path);
      FedTree(counts, fed, dirTree, file, layout);
      FedContents(counts, sums, dirTree, file, layout);
      var directory := FindDirectory(d);
      directory := AddFile(layout, directory, file);
      fed, sums := fed + {file.path}, sums[file.path := file.digest];
      StoreDir(d, directory);
    }

    /** `rm_directory_add_subdir` with the lookup of the parent before and the test after it. */
    method MergeUp(c: Path)
      requires Valid() && c in dirTree && c != [] && !Merged(dirTree, c)
      requires Regular(dirTree, Parent(c)) ==> !Merged(dirTree, Parent(c)) && !Inserted(dirTree, Parent(c))
      modifies this`dirTree, this`resultTable
      ensures Valid() && KeysKept(old(dirTree), dirTree)
      ensures dirTree == MergedUp(counts, layout, old(dirTree), c)
      ensures var d := Parent(c); d in dirTree && (d !in old(dirTree) ==>
        dirTree[d].fileCount == if Lookup(counts, d) == -1 then 0xffff_ffff else Lookup(counts, d))
      ensures dirTree[Parent(c)].children
           == [c] + if Parent(c) in old(dirTree) then old(dirTree)[Parent(c)].children else []
    {
      var d := Parent(c);
      MergeTree(counts, fed, dirTree, layout, c);
      MergeContents(counts, layout, sums, dirTree, c);
      var parent;
      if d in dirTree {
        parent := dirTree[d];
      } else {
        var fileCount := Lookup(counts, d);
        parent := NewDirectory(if fileCount == -1 then UNSIGNED_ERROR else fileCount);
      }
      parent := AddSubdir(layout, parent, dirTree[c], c);
      StoreDir(d, parent);
      MarkMerged(c);
      assert dirTree == MergedUp(counts, layout, old(dirTree), c);
    }

    method MarkMerged(c: Path)
      requires TableOk(dirTree, resultTable) && c in dirTree && c != []
      modifies this`dirTree
      ensures dirTree == old(dirTree)[c := old(dirTree[c]).(wasMerged := true)]
      ensures TableOk(dirTree, resultTable)
      ensures forall before :: KeysKept(before, old(dirTree)) ==> KeysKept(before, dirTree)
    {
      ghost var before := dirTree;
      dirTree := dirTree[c := dirTree[c].(wasMerged := true)];
      TableFrame(before, dirTree, resultTable);
    }

    /** The root's parent is the root: it is merged into itself, unless that happened before. */
    method ClusterRoot()
      requires Valid() && [] in dirTree
      modifies this`dirTree, this`resultTable
      ensures Valid() && KeysKept(old(dirTree), dirTree)
      ensures dirTree == if old(dirTree[[]]).wasMerged then old(dirTree) else RootMerged(layout, old(dirTree))
    {
      if !dirTree[[]].wasMerged {
        RootMergeTree(counts, fed, dirTree, layout);
        RootMergeContents(layout, sums, dirTree);
        var root := AddSubdir(layout, dirTree[[]], dirTree[[]], []);
        StoreDir([], root.(wasMerged := true));
      }
    }

    /** `rm_tm_cluster_up` below the root; `k` is the depth at which clustering started. */
    method ClusterUp(d: Path, ghost k: nat)
      requires Valid() && d in dirTree && d != [] && |d| <= k
      requires |d| == k || Inserted(dirTree, d)
      requires OnlyFullMergedAbove(dirTree, k)
      modifies this`dirTree, this`resultTable
      ensures Valid() && Leveled(files, errors, fed, old(dirTree), dirTree, d) && OnlyFullMergedAbove(dirTree, k)
      ensures Waiting(dirTree) <= Waiting(old(dirTree)) - {d}
      ensures |d| == 1 ==> dirTree == Gained(counts, layout, old(dirTree), d)
      decreases |d|
    {
      var parent := Parent(d);
      MergeOnce(d, k);
      if dirTree[parent].dupeCount == dirTree[parent].fileCount && dirTree[parent].fileCount > 0 {
        if parent != [] {
          ParentGrew(counts, files, errors, fed, dirTree, d);
          ghost var merged := dirTree;
          ClusterUp(parent, k);
          LeveledOn(files, errors, fed, old(dirTree), merged, dirTree, d);
        }
      }
    }

    /** The first part: the directory is merged into its parent, unless that happened before. */
    method MergeOnce(d: Path, ghost k: nat)
      requires Valid() && d in dirTree && d != [] && |d| <= k
      requires |d| == k || Inserted(dirTree, d)
      requires OnlyFullMergedAbove(dirTree, k)
      modifies this`dirTree, this`resultTable
      ensures Valid() && Leveled(files, errors, fed, old(dirTree), dirTree, d) && OnlyFullMergedAbove(dirTree, k)
      ensures Parent(d) in dirTree
      ensures Waiting(dirTree)
           <= Waiting(old(dirTree)) - {d} + if IsFull(dirTree[Parent(d)]) then {Parent(d)} - {[]} else {}
      ensures Parent(d) != [] && IsFull(dirTree[Parent(d)]) ==> Inserted(dirTree, Parent(d))
      ensures dirTree == Gained(counts, layout, old(dirTree), d)
    {
      ghost var before := dirTree;
      if !dirTree[d].wasMerged {
        ParentOpen(counts, files, errors, fed, dirTree, d, k);
        MergeUp(d);
        MergeEffects(counts, layout, before, d, k);
        MergeLevels(counts, layout, files, errors, fed, before, d);
        assert dirTree == MergedUp(counts, layout, before, d);
      } else {
        assert DirectoryOk(counts, fed, dirTree, d);
      }
      assert Parent(d) != [] ==> DirectoryOk(counts, fed, dirTree, Parent(d));
    }

    /**
     * The loop of `rm_tm_finish` over the fed directories, deepest first.
     *
     * Afterwards a directory is in the result table if and only if there are
     * counted files below it, no error mark, and all these files were fed.  This does
     * not hold for the root if a file directly in it was fed: exactly then its count is wrong.
     */
    method ClusterAll(sorted: seq<Path>)
      requires Feeding() && NoDup(sorted) && Elements(sorted) == Elements(validDirs)
      requires DeepestFirst(sorted)
      modifies this`dirTree, this`resultTable
      ensures Valid() && KeysKept(old(dirTree), dirTree) && (Merged(dirTree, []) <==> RootFed(fed))
      ensures forall d :: d != [] || !RootFed(fed) ==> (Inserted(dirTree, d) <==> FullBelow(files, errors, fed, d))
      ensures forall d :: InTable(resultTable, d) <==> Inserted(dirTree, d)
      ensures forall d :: d in dirTree ==>
        (dirTree[d].dupeCount == |Cover(fed, dirTree, d)| <==> d != [] || !RootFed(fed))
      ensures forall r :: 0 <= r < |sorted| && sorted[r] == [] ==>
        (Inserted(dirTree, []) <==> InsertedBy(Job(files, errors, fed, sorted), r, |sorted|))
      ensures forall n, d, e {:trigger OneLength(sums, n), InOneEntry(resultTable, d, e)} ::
        OneLength(sums, n) && ToReport(d) && ToReport(e) ==>
        (InOneEntry(resultTable, d, e) <==> Alike(layout, sums, files, d, e, n))
    {
      FedIntoRoot(counts, fed, dirTree);
      ClusterLoop(sorted);
      Clustered(counts, files, errors, fed, dirTree, resultTable);
      CountsRight(counts, fed, dirTree);
      forall n: nat, d, e | OneLength(sums, n) && ToReport(d) && ToReport(e)
        ensures InOneEntry(resultTable, d, e) <==> Alike(layout, sums, files, d, e, n)
      {
        EntryIffAlike(d, e, n);
      }
    }

    /** A full directory, other than a root that files were fed into directly. */
    ghost predicate ToReport(d: Path)
      reads this
    {
      (d != [] || !RootFed(fed)) && FullBelow(files, errors, fed, d)
    }

    lemma EntryIffAlike(d: Path, e: Path, n: nat)
      requires Valid() && Waiting(dirTree) == {} && (Merged(dirTree, []) ==> RootFed(fed))
      requires OneLength(sums, n) && ToReport(d) && ToReport(e)
      ensures InOneEntry(resultTable, d, e) <==> Alike(layout, sums, files, d, e, n)
    {
      FullContent(counts, layout, files, errors, sums, dirTree, d);
      FullContent(counts, layout, files, errors, sums, dirTree, e);
      KeysIffAlike(counts, layout, files, errors, sums, dirTree, d, e, n);
      assert InTable(resultTable, d) && InTable(resultTable, e);
    }

    /** One directory that files were fed into. */
    method ClusterFed(d: Path)
      requires Valid() && d in dirTree && OnlyFullMergedAbove(dirTree, Depth(d))
      modifies this`dirTree, this`resultTable
      ensures Valid() && KeysKept(old(dirTree), dirTree)
      ensures old(dirTree).Keys <= dirTree.Keys && OnlyFullMergedAbove(dirTree, Depth(d))
      ensures Merged(dirTree, []) <==> Merged(old(dirTree), []) || d == []
      ensures Waiting(dirTree) <= Waiting(old(dirTree)) - {d} && MergesKept(old(dirTree), dirTree) && Merged(dirTree, d)
      ensures OnlyGrown(files, errors, fed, old(dirTree), dirTree, d) && CountsStay(old(dirTree), dirTree)
      ensures Depth(d) == 1 ==> dirTree == Turned(counts, layout, old(dirTree), d)
    {
      if d == [] {
        ClusterRoot();
      } else {
        ClusterUp(d, Depth(d));
      }
    }

    /** The state after `i` turns, that was `before` at first. */
    ghost predicate Midway(job: Job, before: Tree, i: nat)
      reads this
    {
      && i <= |job.sorted|
      && Valid() && KeysKept(before, dirTree) && before.Keys <= dirTree.Keys
      && (i < |job.sorted| ==> OnlyFullMergedAbove(dirTree, Depth(job.sorted[i])))
      && (Merged(dirTree, []) <==> [] in job.sorted[..i])
      && Waiting(dirTree) <= Elements(job.sorted[i..])
      && Ledger(job, counts, before, dirTree, i)
    }

    method ClusterLoop(sorted: seq<Path>)
      requires Feeding() && Elements(sorted) == Elements(validDirs) && NoDup(sorted)
      requires DeepestFirst(sorted)
      modifies this`dirTree, this`resultTable
      ensures Valid() && KeysKept(old(dirTree), dirTree) && Waiting(dirTree) == {}
      ensures Merged(dirTree, []) <==> [] in sorted
      ensures forall r :: 0 <= r < |sorted| && sorted[r] == [] ==>
        (Inserted(dirTree, []) <==> InsertedBy(Job(files, errors, fed, sorted), r, |sorted|))
    {
      ghost var job, before := Job(files, errors, fed, sorted), dirTree;
      LedgerStart(job, counts, dirTree);
      forall d | d in Waiting(dirTree) ensures d in sorted { assert d in Elements(validDirs); }
      assert sorted[0..] == sorted;
      assert forall d :: d in sorted ==> d in Elements(sorted);
      for i := 0 to |sorted|
        invariant Midway(job, before, i)
      {
        Turn(sorted[i], job, before, i);
      }
      assert sorted[..|sorted|] == sorted;
      forall r | 0 <= r < |sorted| && sorted[r] == []
        ensures Inserted(dirTree, []) <==> InsertedBy(job, r, |sorted|)
      {
        assert RootLedger(job, counts, dirTree, r, |sorted|);
      }
    }

    /** One turn of the loop. */
    method Turn(d: Path, ghost job: Job, ghost before: Tree, ghost i: nat)
      requires Midway(job, before, i) && job.files == files && job.errors == errors && job.fed == fed
      requires i < |job.sorted| && job.sorted[i] == d && NoDup(job.sorted) && DeepestFirst(job.sorted)
      requires TreeOk(counts, fed, before) && (forall e :: !Merged(before, e))
      requires forall e :: e in job.sorted ==> e in before
      modifies this`dirTree, this`resultTable
      ensures Midway(job, before, i + 1)
    {
      ghost var dirs := dirTree;
      ClusterFed(d);
      KeysKeptOn(before, dirs, dirTree);
      SeenNext(job.sorted, i);
      WaitingShrinks(job.sorted, i, Waiting(dirs), Waiting(dirTree));
      if i + 1 < |job.sorted| {
        assert AsDeep(job.sorted[i], job.sorted[i + 1]);
        assert OnlyFullMergedAbove(dirTree, Depth(job.sorted[i + 1]));
      }
      LedgerGoesOn(job, counts, layout, before, dirs, dirTree, i);
    }
  }

  lemma SeenNext(sorted: seq<Path>, i: nat)
    requires i < |sorted|
    ensures sorted[..i + 1] == sorted[..i] + [sorted[i]]
  {}

  lemma KeysKeptOn(a: Tree, b: Tree, c: Tree)
    requires KeysKept(a, b) && KeysKept(b, c) && (Merged(b, []) ==> Merged(c, []))
    ensures KeysKept(a, c)
  {}

  /** What merging `c` up does to the flags, and which directories then wait to be merged. */
  lemma MergeEffects(counts: map<Path, int>, layout: Layout, dirs: Tree, c: Path, k: nat)
    requires c in dirs && c != [] && !Merged(dirs, c) && |c| <= k && (|c| == k || Inserted(dirs, c))
    requires (Parent(c) != [] ==> !Inserted(dirs, Parent(c))) && OnlyFullMergedAbove(dirs, k)
    ensures var dirs' := MergedUp(counts, layout, dirs, c);
      && MergesKept(dirs, dirs') && Merged(dirs', c) && dirs.Keys <= dirs'.Keys
      && OnlyFullMergedAbove(dirs', k)
      && Waiting(dirs') <= Waiting(dirs) - {c} + (if IsFull(dirs'[Parent(c)]) then {Parent(c)} else {})
  {
    var dirs' := MergedUp(counts, layout, dirs, c);
    forall e | e != [] && Merged(dirs', e) && |e| < k ensures Inserted(dirs', e) {
      if e != c { assert Merged(dirs, e); }
    }
  }

  lemma WaitingShrinks(sorted: seq<Path>, i: nat, before: set<Path>, after: set<Path>)
    requires i < |sorted| && before <= Elements(sorted[i..]) && after <= before - {sorted[i]}
    ensures after <= Elements(sorted[i + 1..])
  {
    assert sorted[i..] == [sorted[i]] + sorted[i + 1..];
  }

  lemma LongestPath(fed: set<Path>) returns (bound: nat)
    ensures forall p :: p in fed ==> |p| <= bound
  {
    if fed == {} {
      bound := 0;
    } else {
      var p :| p in fed;
      bound := LongestPath(fed - {p});
      bound := Max(bound, |p|);
    }
  }

  /** With nothing waiting, the table holds exactly the directories it should. */
  lemma Clustered(counts: map<Path, int>, files: set<Path>, errors: set<Path>, fed: set<Path>, dirs: Tree,
                  table: map<Key, seq<Path>>)
    requires Context(counts, files, errors, fed) && TreeOk(counts, fed, dirs) && TableOk(dirs, table)
    requires Waiting(dirs) == {}
    ensures forall d :: Regular(dirs, d) ==> (Inserted(dirs, d) <==> FullBelow(files, errors, fed, d))
    ensures forall d :: Regular(dirs, d) ==>
      ((exists k :: k in table && d in table[k]) <==> FullBelow(files, errors, fed, d))
  {
    var bound := LongestPath(fed);
    forall e | Inserted(dirs, e) && e != [] ensures Merged(dirs, e) {
      assert e !in Waiting(dirs);
    }
    forall d | Regular(dirs, d) ensures Inserted(dirs, d) <==> FullBelow(files, errors, fed, d) {
      if FullBelow(files, errors, fed, d) {
        FullIsInserted(counts, files, errors, fed, dirs, d, bound);
      }
      if Inserted(dirs, d) {
        assert DirectoryOk(counts, fed, dirs, d);
        FullIsComplete(counts, files, errors, fed, dirs, d);
      }
    }
    forall d | Regular(dirs, d) ensures (exists k :: k in table && d in table[k]) <==> Inserted(dirs, d) {
      if Inserted(dirs, d) { assert d in table[KeyOf(dirs[d])]; }
    }
  }

  /** The tree after `c` was merged into its parent, which is created if need be and inserted when full. */
  function MergedUp(counts: map<Path, int>, layout: Layout, dirs: Tree, c: Path): Tree
    requires c in dirs && c != []
  {
    var d := Parent(c);
    var base :=
      if d in dirs then dirs[d]
      else NewDirectory(if Lookup(counts, d) == -1 then UNSIGNED_ERROR else Lookup(counts, d));
    var dir := AddSubdir(layout, base, dirs[c], c);
    dirs[d := dir.(wasInserted := IsFull(dir) || base.wasInserted)][c := dirs[c].(wasMerged := true)]
  }

  /** Above a directory that is not merged yet nothing is full, and so nothing there was merged either. */
  lemma ParentOpen(counts: map<Path, int>, files: set<Path>, errors: set<Path>, fed: set<Path>, dirs: Tree, c: Path,
                   k: nat)
    requires Context(counts, files, errors, fed) && TreeOk(counts, fed, dirs)
    requires c in dirs && c != [] && !dirs[c].wasMerged && |c| <= k && OnlyFullMergedAbove(dirs, k)
    ensures Regular(dirs, Parent(c)) ==> !Inserted(dirs, Parent(c)) && !Merged(dirs, Parent(c))
  {
    var d := Parent(c);
    assert DirectoryOk(counts, fed, dirs, c);
    var p :| p in Cover(fed, dirs, c);
    assert p[..|d|] == p[..|c|][..|d|];
    assert p in FilesBelow(fed, d);
    assert p !in Cover(fed, dirs, d) by {
      assert p[..|c|] == c;
    }
    if Inserted(dirs, d) && Regular(dirs, d) {
      assert DirectoryOk(counts, fed, dirs, d);
      FullIsComplete(counts, files, errors, fed, dirs, d);
    }
  }

  /** A directory that the tree does not know counts nothing. */
  lemma UnknownCountsNothing(counts: map<Path, int>, fed: set<Path>, dirs: Tree, d: Path)
    requires TreeOk(counts, fed, dirs) && d !in dirs
    ensures Cover(fed, dirs, d) == {}
  {
    forall p | p in fed ensures !Counts(dirs, d, p) {
      assert Parent(p) in dirs;
      if Below(d, p) && |p| > |d| + 1 {
        var e := p[..|d| + 1];
        assert Parent(e) == d;
        NotMerged(counts, fed, dirs, e);
      }
    }
  }

  lemma NotMerged(counts: map<Path, int>, fed: set<Path>, dirs: Tree, e: Path)
    requires TreeOk(counts, fed, dirs) && e != [] && Parent(e) !in dirs
    ensures !Merged(dirs, e)
  {
    if e in dirs { assert DirectoryOk(counts, fed, dirs, e); }
  }

  lemma MergeNumbers(counts: map<Path, int>, fed: set<Path>, dirs: Tree, dirs': Tree, layout: Layout, c: Path)
    requires TreeOk(counts, fed, dirs) && c in dirs && c != [] && !Merged(dirs, c) && !Merged(dirs, Parent(c))
    requires !Inserted(dirs, Parent(c)) && forall d :: Lookup(counts, d) >= -1
    requires dirs' == MergedUp(counts, layout, dirs, c)
    requires Cover(fed, dirs', Parent(c)) == Cover(fed, dirs, Parent(c)) + Cover(fed, dirs, c)
    requires Cover(fed, dirs, Parent(c)) !! Cover(fed, dirs, c)
    ensures NumbersOk(counts, fed, dirs', Parent(c))
  {
    var d := Parent(c);
    assert DirectoryOk(counts, fed, dirs, c);
    assert |Cover(fed, dirs', d)| == |Cover(fed, dirs, d)| + |Cover(fed, dirs, c)|;
    if d in dirs {
      assert DirectoryOk(counts, fed, dirs, d);
    } else {
      UnknownCountsNothing(counts, fed, dirs, d);
    }
    MergedNumbers(counts, dirs, layout, c, |Cover(fed, dirs, d)|);
  }

  /** The numbers of the directory that `c` is merged into. */
  lemma MergedNumbers(counts: map<Path, int>, dirs: Tree, layout: Layout, c: Path, before: nat)
    requires c in dirs && c != [] && !Inserted(dirs, Parent(c)) && Lookup(counts, Parent(c)) >= -1
    requires Parent(c) in dirs ==> dirs[Parent(c)].dupeCount == before
    requires Parent(c) !in dirs ==> before == 0
    ensures var dir := MergedUp(counts, layout, dirs, c)[Parent(c)];
      && dir.dupeCount == before + dirs[c].dupeCount && (dir.wasInserted <==> IsFull(dir))
      && dir.fileCount == (if Parent(c) in dirs then dirs[Parent(c)].fileCount
                           else if Lookup(counts, Parent(c)) == -1 then UNSIGNED_ERROR else Lookup(counts, Parent(c)))
  {}

  lemma MergeLinks(counts: map<Path, int>, dirs: Tree, dirs': Tree, layout: Layout, c: Path)
    requires c in dirs && c != [] && !Merged(dirs, c) && !Merged(dirs, Parent(c))
    requires Parent(c) in dirs ==> LinksOk(dirs, Parent(c))
    requires dirs' == MergedUp(counts, layout, dirs, c)
    ensures LinksOk(dirs', Parent(c))
  {}

  lemma MergeOther(counts: map<Path, int>, fed: set<Path>, dirs: Tree, dirs': Tree, layout: Layout, c: Path, e: Path)
    requires c in dirs && c != [] && !Merged(dirs, c) && e in dirs' && e != Parent(c)
    requires dirs' == MergedUp(counts, layout, dirs, c)
    requires e in dirs && DirectoryOk(counts, fed, dirs, e) && Cover(fed, dirs', e) == Cover(fed, dirs, e)
    ensures DirectoryOk(counts, fed, dirs', e)
  {}

  lemma MergeTwisted(counts: map<Path, int>, fed: set<Path>, dirs: Tree, dirs': Tree, layout: Layout, c: Path)
    requires c in dirs && c != [] && !Merged(dirs, c) && dirs' == MergedUp(counts, layout, dirs, c)
    requires Merged(dirs, []) && RootTwisted(fed, dirs) && DirectoryOk(counts, fed, dirs, c)
    requires if Parent(c) == []
             then && Cover(fed, dirs', []) == Cover(fed, dirs, []) + Cover(fed, dirs, c)
                  && Cover(fed, dirs, []) !! Cover(fed, dirs, c)
             else Cover(fed, dirs', []) == Cover(fed, dirs, [])
    ensures RootTwisted(fed, dirs')
  {}

  lemma MergeTree(counts: map<Path, int>, fed: set<Path>, dirs: Tree, layout: Layout, c: Path)
    requires TreeOk(counts, fed, dirs) && c in dirs && c != [] && !Merged(dirs, c)
    requires Regular(dirs, Parent(c)) ==> !Merged(dirs, Parent(c)) && !Inserted(dirs, Parent(c))
    requires forall d :: Lookup(counts, d) >= -1
    ensures TreeOk(counts, fed, MergedUp(counts, layout, dirs, c))
  {
    var d := Parent(c);
    var dirs' := MergedUp(counts, layout, dirs, c);
    MergeCover(fed, dirs, dirs', c);
    if Merged(dirs', []) { MergeTwisted(counts, fed, dirs, dirs', layout, c); }
    forall e | e in dirs' && Regular(dirs', e) ensures DirectoryOk(counts, fed, dirs', e) {
      assert e in dirs ==> DirectoryOk(counts, fed, dirs, e);
      if e == d {
        assert Regular(dirs, d);
        MergeNumbers(counts, fed, dirs, dirs', layout, c);
        MergeLinks(counts, dirs, dirs', layout, c);
      } else {
        assert Cover(fed, dirs', e) == Cover(fed, dirs, e);
        MergeOther(counts, fed, dirs, dirs', layout, c, e);
      }
    }
  }

  // ----- the root -----

  /** The tree after the root was merged into itself. */
  function RootMerged(layout: Layout, dirs: Tree): Tree
    requires [] in dirs
  {
    var root := AddSubdir(layout, dirs[[]], dirs[[]], []).(wasMerged := true);
    dirs[[] := root.(wasInserted := root.wasInserted || IsFull(root))]
  }

  lemma RootMergeTree(counts: map<Path, int>, fed: set<Path>, dirs: Tree, layout: Layout)
    requires TreeOk(counts, fed, dirs) && [] in dirs && !Merged(dirs, [])
    ensures TreeOk(counts, fed, RootMerged(layout, dirs))
  {
    var dirs' := RootMerged(layout, dirs);
    assert DirectoryOk(counts, fed, dirs, []);
    forall d, p ensures Counts(dirs', d, p) <==> Counts(dirs, d, p) {
      assert forall i :: |d| < i < |p| ==> (Merged(dirs', p[..i]) <==> Merged(dirs, p[..i]));
    }
    forall d ensures Cover(fed, dirs', d) == Cover(fed, dirs, d) {}
    forall d | d in dirs' && d != [] ensures DirectoryOk(counts, fed, dirs', d) {
      assert DirectoryOk(counts, fed, dirs, d);
    }
  }

  /** A file directly in the root directory was fed. */
  ghost predicate RootFed(fed: set<Path>) {
    exists p :: p in fed && |p| == 1
  }

  /** Before anything is merged, the tree has a root exactly if a file directly in it was fed. */
  lemma FedIntoRoot(counts: map<Path, int>, fed: set<Path>, dirs: Tree)
    requires TreeOk(counts, fed, dirs) && forall d :: !Merged(dirs, d)
    ensures [] in dirs <==> RootFed(fed)
  {
    if [] in dirs {
      assert DirectoryOk(counts, fed, dirs, []);
      DirectFilesOnly(fed, dirs);
      var p :| p in Cover(fed, dirs, []);
      assert |p| == 1;
    }
  }

  lemma CountsRight(counts: map<Path, int>, fed: set<Path>, dirs: Tree)
    requires TreeOk(counts, fed, dirs)
    ensures forall d :: d in dirs ==> (dirs[d].dupeCount == |Cover(fed, dirs, d)| <==> Regular(dirs, d))
  {
    forall d | d in dirs && Regular(dirs, d) ensures dirs[d].dupeCount == |Cover(fed, dirs, d)| {
      assert DirectoryOk(counts, fed, dirs, d);
    }
  }

  // ----- when the root is inserted -----

  /** The files, the error marks, the files that were fed, and the order of the directories they were fed into. */
  datatype Job = Job(files: set<Path>, errors: set<Path>, fed: set<Path>, sorted: seq<Path>)

  /** A full directory with files further down becomes full by a merge, if not before. */
  ghost predicate GrowsFull(files: set<Path>, errors: set<Path>, fed: set<Path>, e: Path) {
    FullBelow(files, errors, fed, e) && exists p :: p in FilesBelow(files, e) && |p| > |e| + 1
  }

  /** The directory is merged up once the first `i` directories had their turn, the deeper ones among them. */
  ghost predicate MergedBy(job: Job, i: nat, e: Path)
    requires i <= |job.sorted|
  {
    e in job.sorted[..i] || GrowsFull(job.files, job.errors, job.fed, e)
  }

  /** The fed files that the root counts then: every directory between is merged up. */
  ghost function CountedBy(job: Job, i: nat): set<Path>
    requires i <= |job.sorted|
  {
    set p | p in job.fed && forall k :: 0 < k < |p| ==> MergedBy(job, i, p[..k])
  }

  /**
   * By the time of turn `i` the root, merged into itself at turn `r`, looked full: when
   * its turn came, or later, when it counts the files it had then twice.
   */
  ghost predicate InsertedBy(job: Job, r: nat, i: nat)
    requires r <= i <= |job.sorted|
  {
    var all := |FilesBelow(job.files, [])|;
    && !ErrorBelow(job.errors, [])
    && (|CountedBy(job, r)| == all || exists j :: r < j <= i && Twice(job, r, j) == all)
  }

  ghost function Twice(job: Job, r: nat, j: nat): nat
    requires r <= |job.sorted| && j <= |job.sorted|
  {
    |CountedBy(job, r)| + |CountedBy(job, j)|
  }

  /** No directory but `d` was merged that did not grow full. */
  ghost predicate OnlyGrown(files: set<Path>, errors: set<Path>, fed: set<Path>, dirs: Tree, dirs': Tree, d: Path) {
    forall e :: e != [] && Merged(dirs', e) ==> Merged(dirs, e) || e == d || GrowsFull(files, errors, fed, e)
  }

  /** What merging a directory up, and with it those above that grew full, leaves alone. */
  ghost predicate Leveled(files: set<Path>, errors: set<Path>, fed: set<Path>, dirs: Tree, dirs': Tree, d: Path) {
    && KeysKept(dirs, dirs') && MergesKept(dirs, dirs') && CountsStay(dirs, dirs')
    && Merged(dirs', d) && (Merged(dirs', []) <==> Merged(dirs, []))
    && OnlyGrown(files, errors, fed, dirs, dirs', d)
  }

  lemma LeveledOn(files: set<Path>, errors: set<Path>, fed: set<Path>, a: Tree, b: Tree, c: Tree, d: Path)
    requires Leveled(files, errors, fed, a, b, d) && d != [] && GrowsFull(files, errors, fed, Parent(d))
    requires Leveled(files, errors, fed, b, c, Parent(d))
    ensures Leveled(files, errors, fed, a, c, d)
  {
    KeysKeptOn(a, b, c);
  }

  lemma MergeLevels(counts: map<Path, int>, layout: Layout, files: set<Path>, errors: set<Path>, fed: set<Path>,
                    dirs: Tree, c: Path)
    requires c in dirs && c != [] && !Merged(dirs, c)
    ensures var dirs' := MergedUp(counts, layout, dirs, c);
      && MergesKept(dirs, dirs') && CountsStay(dirs, dirs') && Merged(dirs', c)
      && (Merged(dirs', []) <==> Merged(dirs, [])) && OnlyGrown(files, errors, fed, dirs, dirs', c)
  {}

  /** The file counts of directories stay. */
  ghost predicate CountsStay(dirs: Tree, dirs': Tree) {
    forall d :: d in dirs ==> d in dirs' && dirs'[d].fileCount == dirs[d].fileCount
  }

  /** The tree after a directory was merged up, unless it was before. */
  function Gained(counts: map<Path, int>, layout: Layout, dirs: Tree, d: Path): Tree
    requires d in dirs && d != []
  {
    if Merged(dirs, d) then dirs else MergedUp(counts, layout, dirs, d)
  }

  /** The tree after the turn of the root or of a directory in it. */
  function Turned(counts: map<Path, int>, layout: Layout, dirs: Tree, d: Path): Tree
    requires d in dirs
  {
    if d != [] then Gained(counts, layout, dirs, d)
    else if Merged(dirs, []) then dirs else RootMerged(layout, dirs)
  }

  /** A directory that is full after a merge has files further down. */
  lemma ParentGrew(counts: map<Path, int>, files: set<Path>, errors: set<Path>, fed: set<Path>, dirs: Tree, d: Path)
    requires Context(counts, files, errors, fed) && TreeOk(counts, fed, dirs)
    requires d in dirs && d != [] && Parent(d) != [] && Parent(d) in dirs && IsFull(dirs[Parent(d)])
    ensures GrowsFull(files, errors, fed, Parent(d))
  {
    FullIsComplete(counts, files, errors, fed, dirs, Parent(d));
    assert DirectoryOk(counts, fed, dirs, d);
    var p :| p in Cover(fed, dirs, d);
    assert p[..|Parent(d)|] == p[..|d|][..|Parent(d)|];
    assert p in FilesBelow(files, Parent(d));
  }

  /** What is known of the merged directories after `i` turns. */
  ghost predicate MergeLedger(job: Job, before: Tree, dirs: Tree, i: nat) {
    && i <= |job.sorted|
    && (forall e :: e != [] && e in job.sorted[..i] ==> Merged(dirs, e))
    && (forall e {:trigger MergedBy(job, i, e)} :: e != [] && Merged(dirs, e) ==> MergedBy(job, i, e))
    && Waiting(dirs) <= Waiting(before)
  }

  /** What is known of the root, whose turn was `r`. */
  ghost predicate RootLedger(job: Job, counts: map<Path, int>, dirs: Tree, r: nat, i: nat) {
    && r < i <= |job.sorted| && [] in dirs
    && dirs[[]].fileCount == FedCount(counts, [])
    && dirs[[]].dupeCount == |Cover(job.fed, dirs, [])| + |CountedBy(job, r)|
    && (Inserted(dirs, []) <==> InsertedBy(job, r, i))
  }

  ghost predicate Ledger(job: Job, counts: map<Path, int>, before: Tree, dirs: Tree, i: nat) {
    && MergeLedger(job, before, dirs, i)
    && (forall d :: d in before ==> d in dirs && dirs[d].fileCount == FedCount(counts, d))
    && (forall r {:trigger RootLedger(job, counts, dirs, r, i)} :: 0 <= r < i && job.sorted[r] == [] ==>
          RootLedger(job, counts, dirs, r, i))
  }

  lemma LedgerStart(job: Job, counts: map<Path, int>, dirs: Tree)
    requires forall d :: d in dirs ==> !dirs[d].wasMerged && dirs[d].fileCount == FedCount(counts, d)
    ensures Ledger(job, counts, dirs, dirs, 0)
  {}

  /** Directories that were full when the last file was fed have no files further down. */
  lemma FlatWaiting(job: Job, counts: map<Path, int>, before: Tree, e: Path)
    requires Context(counts, job.files, job.errors, job.fed) && TreeOk(counts, job.fed, before)
    requires (forall d :: !Merged(before, d)) && e in Waiting(before)
    ensures !GrowsFull(job.files, job.errors, job.fed, e)
  {
    assert DirectoryOk(counts, job.fed, before, e);
    FullIsComplete(counts, job.files, job.errors, job.fed, before, e);
    DirectFilesOnly(job.fed, before);
    forall p | p in FilesBelow(job.files, e) ensures |p| == |e| + 1 {
      assert p in Cover(job.fed, before, e);
    }
  }

  /** Once only the root and directories in it are left, it is known what is merged. */
  lemma MergedExactly(job: Job, counts: map<Path, int>, before: Tree, dirs: Tree, i: nat, e: Path)
    requires Context(counts, job.files, job.errors, job.fed)
    requires TreeOk(counts, job.fed, before) && TreeOk(counts, job.fed, dirs) && forall d :: !Merged(before, d)
    requires MergeLedger(job, before, dirs, i) && Waiting(dirs) <= Elements(job.sorted[i..])
    requires forall j :: i <= j < |job.sorted| ==> |job.sorted[j]| <= 1
    requires e != []
    ensures Merged(dirs, e) <==> MergedBy(job, i, e)
  {
    if GrowsFull(job.files, job.errors, job.fed, e) {
      forall x | x in Waiting(dirs) ensures |x| <= 1 {
        assert x in Elements(job.sorted[i..]);
        var j :| 0 <= j < |job.sorted[i..]| && job.sorted[i..][j] == x;
        assert job.sorted[i + j] == x;
      }
      forall x | Inserted(dirs, x) && |x| > |e| ensures Merged(dirs, x) { assert x !in Waiting(dirs); }
      var bound := LongestPath(job.fed);
      FullIsInserted(counts, job.files, job.errors, job.fed, dirs, e, bound);
      if !Merged(dirs, e) {
        assert e in Waiting(dirs);
        FlatWaiting(job, counts, before, e);
      }
    }
  }

  lemma CoverIsCounted(job: Job, counts: map<Path, int>, before: Tree, dirs: Tree, i: nat)
    requires Context(counts, job.files, job.errors, job.fed)
    requires TreeOk(counts, job.fed, before) && TreeOk(counts, job.fed, dirs) && forall d :: !Merged(before, d)
    requires MergeLedger(job, before, dirs, i) && Waiting(dirs) <= Elements(job.sorted[i..])
    requires forall j :: i <= j < |job.sorted| ==> |job.sorted[j]| <= 1
    ensures Cover(job.fed, dirs, []) == CountedBy(job, i)
  {
    forall p | p in job.fed ensures p in Cover(job.fed, dirs, []) <==> p in CountedBy(job, i) {
      forall k | 0 < k < |p| ensures Merged(dirs, p[..k]) <==> MergedBy(job, i, p[..k]) {
        MergedExactly(job, counts, before, dirs, i, p[..k]);
      }
      assert p[..0] == [];
    }
  }

  lemma MergeLedgerOn(job: Job, before: Tree, dirs: Tree, dirs': Tree, i: nat)
    requires i < |job.sorted| && MergeLedger(job, before, dirs, i)
    requires OnlyGrown(job.files, job.errors, job.fed, dirs, dirs', job.sorted[i])
    requires MergesKept(dirs, dirs') && Merged(dirs', job.sorted[i]) && Waiting(dirs') <= Waiting(dirs)
    ensures MergeLedger(job, before, dirs', i + 1)
  {
    SeenNext(job.sorted, i);
    forall e | e != [] && Merged(dirs', e) ensures MergedBy(job, i + 1, e) {
      if Merged(dirs, e) { assert MergedBy(job, i, e); }
    }
  }

  /** The turn of the root. */
  lemma RootTurn(job: Job, counts: map<Path, int>, layout: Layout, dirs: Tree, r: nat)
    requires Context(counts, job.files, job.errors, job.fed) && TreeOk(counts, job.fed, dirs)
    requires [] in dirs && !Merged(dirs, []) && dirs[[]].fileCount == FedCount(counts, [])
    requires r < |job.sorted| && job.sorted[r] == [] && Cover(job.fed, dirs, []) == CountedBy(job, r)
    requires var dirs' := RootMerged(layout, dirs);
      Cover(job.fed, dirs', []) == CountedBy(job, r + 1) == CountedBy(job, r)
    ensures RootLedger(job, counts, RootMerged(layout, dirs), r, r + 1)
  {
    assert DirectoryOk(counts, job.fed, dirs, []);
    assert Lookup(counts, []) == Expected(job.files, job.errors, []);
    assert Twice(job, r, r + 1) == 2 * |CountedBy(job, r)|;
  }

  /** The turn of a directory in the root, after the root had its turn. */
  lemma RootGains(job: Job, counts: map<Path, int>, layout: Layout, dirs: Tree, d: Path, r: nat, i: nat)
    requires Context(counts, job.files, job.errors, job.fed) && TreeOk(counts, job.fed, dirs)
    requires d in dirs && |d| == 1 && Merged(dirs, []) && i < |job.sorted|
    requires RootLedger(job, counts, dirs, r, i)
    requires Cover(job.fed, dirs, []) == CountedBy(job, i)
    requires Cover(job.fed, Gained(counts, layout, dirs, d), []) == CountedBy(job, i + 1)
    ensures RootLedger(job, counts, Gained(counts, layout, dirs, d), r, i + 1)
  {
    var dirs' := Gained(counts, layout, dirs, d);
    if !Merged(dirs, d) {
      assert DirectoryOk(counts, job.fed, dirs, d);
      RootCovers(job.fed, counts, layout, dirs, d);
      RootGainsFiles(counts, layout, dirs, d, |Cover(job.fed, dirs, d)|);
    }
    RootLedgerOn(job, counts, dirs, dirs', r, i);
  }

  lemma RootCovers(fed: set<Path>, counts: map<Path, int>, layout: Layout, dirs: Tree, d: Path)
    requires d in dirs && |d| == 1 && !Merged(dirs, d)
    ensures |Cover(fed, MergedUp(counts, layout, dirs, d), [])| == |Cover(fed, dirs, [])| + |Cover(fed, dirs, d)|
  {
    var dirs' := MergedUp(counts, layout, dirs, d);
    assert Parent(d) == [];
    MergeCover(fed, dirs, dirs', d);
    assert Cover(fed, dirs', []) == Cover(fed, dirs, []) + Cover(fed, dirs, d);
  }

  lemma RootLedgerOn(job: Job, counts: map<Path, int>, dirs: Tree, dirs': Tree, r: nat, i: nat)
    requires Describes(counts, job.files, job.errors) && i < |job.sorted|
    requires RootLedger(job, counts, dirs, r, i) && [] in dirs'
    requires dirs'[[]].fileCount == dirs[[]].fileCount
    requires dirs'[[]].dupeCount == |Cover(job.fed, dirs', [])| + |CountedBy(job, r)|
    requires Cover(job.fed, dirs', []) == CountedBy(job, i + 1)
    requires Inserted(dirs', []) <==> Inserted(dirs, []) || IsFull(dirs'[[]])
    ensures RootLedger(job, counts, dirs', r, i + 1)
  {
    assert Lookup(counts, []) == Expected(job.files, job.errors, []);
    InsertedNext(job, r, i);
  }

  lemma RootGainsFiles(counts: map<Path, int>, layout: Layout, dirs: Tree, d: Path, gain: nat)
    requires d in dirs && |d| == 1 && [] in dirs && dirs[d].dupeCount == gain
    ensures var root := MergedUp(counts, layout, dirs, d)[[]];
      && root.dupeCount == dirs[[]].dupeCount + gain && root.fileCount == dirs[[]].fileCount
      && (root.wasInserted <==> dirs[[]].wasInserted || IsFull(root))
  {
    assert Parent(d) == [];
  }

  lemma InsertedNext(job: Job, r: nat, i: nat)
    requires r < i < |job.sorted|
    ensures InsertedBy(job, r, i + 1) <==>
      InsertedBy(job, r, i) || (!ErrorBelow(job.errors, []) && Twice(job, r, i + 1) == |FilesBelow(job.files, [])|)
    ensures !ErrorBelow(job.errors, []) && Twice(job, r, i) == |FilesBelow(job.files, [])| ==> InsertedBy(job, r, i)
  {
    var all := |FilesBelow(job.files, [])|;
    if j :| r < j <= i + 1 && Twice(job, r, j) == all {
      if j <= i { assert r < j <= i; }
    }
  }

  lemma LedgerGoesOn(job: Job, counts: map<Path, int>, layout: Layout, before: Tree, dirs: Tree, dirs': Tree, i: nat)
    requires Context(counts, job.files, job.errors, job.fed) && i < |job.sorted| && NoDup(job.sorted)
    requires TreeOk(counts, job.fed, before) && TreeOk(counts, job.fed, dirs) && TreeOk(counts, job.fed, dirs')
    requires (forall d :: !Merged(before, d)) && DeepestFirst(job.sorted) && job.sorted[i] in before
    requires Ledger(job, counts, before, dirs, i) && Waiting(dirs) <= Elements(job.sorted[i..])
    requires Waiting(dirs') <= Elements(job.sorted[i + 1..]) && Waiting(dirs') <= Waiting(dirs)
    requires OnlyGrown(job.files, job.errors, job.fed, dirs, dirs', job.sorted[i])
    requires MergesKept(dirs, dirs') && Merged(dirs', job.sorted[i])
    requires CountsStay(dirs, dirs')
    requires Depth(job.sorted[i]) == 1 ==> dirs' == Turned(counts, layout, dirs, job.sorted[i])
    requires Merged(dirs, []) <==> [] in job.sorted[..i]
    ensures Ledger(job, counts, before, dirs', i + 1)
  {
    MergeLedgerOn(job, before, dirs, dirs', i);
    forall r | 0 <= r < i + 1 && job.sorted[r] == [] ensures RootLedger(job, counts, dirs', r, i + 1) {
      forall j | r <= j < |job.sorted| ensures |job.sorted[j]| <= 1 {
        if r < j { assert AsDeep(job.sorted[r], job.sorted[j]); }
      }
      CoverIsCounted(job, counts, before, dirs, i);
      CoverIsCounted(job, counts, before, dirs', i + 1);
      if r == i {
        RootNotMergedYet(job, i);
        RootStaysOut(job, i);
        RootTurn(job, counts, layout, dirs, i);
      } else {
        assert job.sorted[i] != [];
        assert RootLedger(job, counts, dirs, r, i);
        RootGains(job, counts, layout, dirs, job.sorted[i], r, i);
      }
    }
  }

  lemma RootNotMergedYet(job: Job, r: nat)
    requires r < |job.sorted| && job.sorted[r] == [] && NoDup(job.sorted)
    ensures [] !in job.sorted[..r]
  {}

  /** The turn of the root changes nothing about what the root counts. */
  lemma RootStaysOut(job: Job, r: nat)
    requires r < |job.sorted| && job.sorted[r] == []
    ensures CountedBy(job, r + 1) == CountedBy(job, r)
  {
    SeenNext(job.sorted, r);
    forall e | e != [] ensures MergedBy(job, r + 1, e) <==> MergedBy(job, r, e) {}
    forall p | p in job.fed ensures p in CountedBy(job, r + 1) <==> p in CountedBy(job, r) {
      forall k | 0 < k < |p| ensures MergedBy(job, r + 1, p[..k]) <==> MergedBy(job, r, p[..k]) {}
    }
  }

  /**
   * If the root comes last, it is inserted if and only if it should be, or the fed
   * files it counts are just half of its files.
   */
  lemma RootComesLast(job: Job, r: nat)
    requires r == |job.sorted| - 1 && job.sorted[r] == [] && job.fed <= job.files && [] !in job.files
    requires forall p :: p in job.fed ==> Parent(p) in job.sorted
    requires job.fed != {}
    ensures InsertedBy(job, r, |job.sorted|) <==>
      || FullBelow(job.files, job.errors, job.fed, [])
      || (!ErrorBelow(job.errors, []) && 2 * |CountedBy(job, r)| == |FilesBelow(job.files, [])|)
  {
    var all := FilesBelow(job.files, []);
    assert all == job.files by { forall p | p in job.files ensures Below([], p) { assert p[..0] == []; } }
    RootStaysOut(job, r);
    assert Twice(job, r, |job.sorted|) == 2 * |CountedBy(job, r)|;
    SubsetSize(CountedBy(job, r), all);
    if FullBelow(job.files, job.errors, job.fed, []) {
      forall p, k | p in job.fed && 0 < k < |p| ensures MergedBy(job, r, p[..k]) {
        BetweenIsMerged(job, r, p, k);
      }
      assert CountedBy(job, r) == all;
    }
  }

  lemma BetweenIsMerged(job: Job, r: nat, p: Path, k: nat)
    requires r == |job.sorted| - 1 && job.sorted[r] == [] && job.fed <= job.files && p in job.fed && 0 < k < |p|
    requires Parent(p) in job.sorted && FullBelow(job.files, job.errors, job.fed, [])
    ensures MergedBy(job, r, p[..k])
  {
    var e := p[..k];
    if k == |p| - 1 {
      var j :| 0 <= j < |job.sorted| && job.sorted[j] == e;
      assert e != [] && job.sorted[..r][j] == e;
    } else {
      assert p[..0] == [];
      assert e == p[..|e|];
      BelowTrans(job.files, job.errors, job.fed, [], e, p);
      assert p in FilesBelow(job.files, e);
    }
  }

  lemma FourInRoot()
    ensures var files: set<Path> := {["a"], ["b"], ["c"], ["d"]};
      Describes(map[[] := 4], files, {}) && !FullBelow(files, {}, {["a"], ["b"]}, [])
  {
    var files: set<Path> := {["a"], ["b"], ["c"], ["d"]};
    assert FilesBelow(files, []) == files;
    assert ["a"][0] != ["b"][0] && ["c"][0] != ["d"][0] && ["a"][0] != ["c"][0];
    assert |files| == 4;
    assert ["c"] in files && ["c"] != ["a"] && ["c"] != ["b"];
    forall d | d != [] ensures FilesBelow(files, d) == {} {}
  }

  /** Two of the four files in the root directory are duplicates, and the root is taken for a full directory. */
  lemma RootReportedTooEarly(layout: Layout, digest: seq<Byte>)
    ensures var files, fed, counts := {["a"], ["b"], ["c"], ["d"]}, {["a"], ["b"]}, map[[] := 4];
      var one := Fed(counts, layout, map[], File(["a"], digest));
      var dirs := RootMerged(layout, Fed(counts, layout, one, File(["b"], digest)));
      && Describes(counts, files, {})
      && Inserted(dirs, []) && !FullBelow(files, {}, fed, [])
  {
    FourInRoot();
  }

  lemma ThreeBelowRoot()
    ensures var files: set<Path> := {["a"], ["x", "b"], ["x", "c"]};
      Describes(map[[] := 3, ["x"] := 2], files, {}) && FullBelow(files, {}, files, [])
  {
    var files: set<Path> := {["a"], ["x", "b"], ["x", "c"]};
    assert FilesBelow(files, []) == files;
    assert ["x", "b"][1] != ["x", "c"][1] && |["a"]| != |["x", "b"]|;
    assert |files| == 3;
    var below: set<Path> := {["x", "b"], ["x", "c"]};
    assert ["x", "b"][..1] == ["x"] && ["x", "c"][..1] == ["x"];
    assert FilesBelow(files, ["x"]) == below && |below| == 2;
    forall d | d != [] && d != ["x"] ensures FilesBelow(files, d) == {} {
      assert ["x", "b"][..1] == ["x"] && ["x", "c"][..1] == ["x"];
    }
  }

  /** All files are duplicates, but a directory in the root has its turn after the root, which is missed. */
  lemma RootMissed(layout: Layout, digest: seq<Byte>)
    ensures var files, counts := {["a"], ["x", "b"], ["x", "c"]}, map[[] := 3, ["x"] := 2];
      var one := Fed(counts, layout, map[], File(["x", "b"], digest));
      var two := Fed(counts, layout, one, File(["x", "c"], digest));
      var three := RootMerged(layout, Fed(counts, layout, two, File(["a"], digest)));
      && Describes(counts, files, {}) && ["x"] in three
      && FullBelow(files, {}, files, []) && !Inserted(MergedUp(counts, layout, three, ["x"]), [])
  {
    ThreeBelowRoot();
    assert Parent(["x", "b"]) == ["x"] && Parent(["x", "c"]) == ["x"] && Parent(["a"]) == [] && Parent(["x"]) == [];
  }

  // ----- feeding -----

  /**
   * The tree after one file was fed: the file's directory is created if need be, gains it, and is
   * inserted when full.
   */
  function Fed(counts: map<Path, int>, layout: Layout, dirs: Tree, file: File): Tree
    requires file.path != []
  {
    var d := Parent(file.path);
    var base := if d in dirs then dirs[d] else NewDirectory(FedCount(counts, d));
    var dir := AddFile(layout, base, file);
    dirs[d := dir.(wasInserted := IsFull(dir) || base.wasInserted)]
  }

  /** A directory that still gains a file cannot be in the result table. */
  lemma NotYetInserted(counts: map<Path, int>, files: set<Path>, errors: set<Path>, fed: set<Path>, dirs: Tree, p: Path)
    requires Context(counts, files, errors, fed) && TreeOk(counts, fed, dirs)
    requires p in files && p !in fed && p != []
    ensures Regular(dirs, Parent(p)) ==> !Inserted(dirs, Parent(p))
  {
    var d := Parent(p);
    if Inserted(dirs, d) && Regular(dirs, d) {
      assert DirectoryOk(counts, fed, dirs, d);
      assert p in FilesBelow(files, d);
      FullIsComplete(counts, files, errors, fed, dirs, d);
    }
  }

  lemma TableFrame(dirs: Tree, dirs': Tree, table: map<Key, seq<Path>>)
    requires TableOk(dirs, table) && (Merged(dirs, []) ==> Merged(dirs', []))
    requires forall d :: Inserted(dirs', d) <==> Inserted(dirs, d)
    requires forall d :: Inserted(dirs, d) && Regular(dirs', d) ==> d in dirs' && KeyOf(dirs'[d]) == KeyOf(dirs[d])
    ensures TableOk(dirs', table)
  {}

  /** Before anything is merged a directory counts just its direct files. */
  lemma DirectFilesOnly(fed: set<Path>, dirs: Tree)
    requires (forall d :: !Merged(dirs, d)) && forall p :: p in fed ==> p != []
    ensures forall d {:trigger Cover(fed, dirs, d)} :: Cover(fed, dirs, d) == set p | p in fed && Parent(p) == d
  {
    forall d, p | p in fed ensures Counts(dirs, d, p) <==> Parent(p) == d {
      if Below(d, p) && |d| + 1 < |p| {
        var between := p[..|d| + 1];
        assert !Merged(dirs, between);
        assert !Counts(dirs, d, p);
      }
    }
  }

  lemma FedTree(counts: map<Path, int>, fed: set<Path>, dirs: Tree, file: File, layout: Layout)
    requires TreeOk(counts, fed, dirs) && file.path != [] && file.path !in fed
    requires forall d :: !Merged(dirs, d)
    requires !Inserted(dirs, Parent(file.path))
    ensures TreeOk(counts, fed + {file.path}, Fed(counts, layout, dirs, file))
  {
    var p, d := file.path, Parent(file.path);
    var dirs', fed' := Fed(counts, layout, dirs, file), fed + {file.path};
    assert !Merged(dirs, d);
    assert forall e :: Merged(dirs', e) ==> Merged(dirs, e);
    DirectFilesOnly(fed, dirs);
    DirectFilesOnly(fed', dirs');
    FedDirectory(counts, fed, dirs, dirs', file, layout);
    forall e | e in dirs' && e != d ensures DirectoryOk(counts, fed', dirs', e) {
      assert DirectoryOk(counts, fed, dirs, e);
      assert Cover(fed', dirs', e) == Cover(fed, dirs, e);
      assert forall c :: c in dirs[e].children ==> Merged(dirs, c);
    }
  }

  lemma FedDirectory(counts: map<Path, int>, fed: set<Path>, dirs: Tree, dirs': Tree, file: File, layout: Layout)
    requires TreeOk(counts, fed, dirs) && file.path != [] && file.path !in fed
    requires forall d :: !Merged(dirs, d)
    requires !Inserted(dirs, Parent(file.path)) && dirs' == Fed(counts, layout, dirs, file)
    requires Cover(fed, dirs, Parent(file.path)) == set p | p in fed && Parent(p) == Parent(file.path)
    requires Cover(fed + {file.path}, dirs', Parent(file.path)) == set p | p in fed + {file.path}
      && Parent(p) == Parent(file.path)
    ensures DirectoryOk(counts, fed + {file.path}, dirs', Parent(file.path))
  {
    var p, d := file.path, Parent(file.path);
    assert Cover(fed + {p}, dirs', d) == Cover(fed, dirs, d) + {p};
    assert !Merged(dirs, d);
    if d in dirs { assert DirectoryOk(counts, fed, dirs, d); }
    FedNumbers(counts, fed, dirs, dirs', file, layout);
    FedLinks(counts, dirs, file, layout);
  }

  lemma FedNumbers(counts: map<Path, int>, fed: set<Path>, dirs: Tree, dirs': Tree, file: File, layout: Layout)
    requires file.path != [] && !Inserted(dirs, Parent(file.path)) && dirs' == Fed(counts, layout, dirs, file)
    requires var d, fed' := Parent(file.path), fed + {file.path};
      && (if d in dirs then NumbersOk(counts, fed, dirs, d) else Cover(fed, dirs, d) == {})
      && |Cover(fed', dirs', d)| == |Cover(fed, dirs, d)| + 1
    ensures NumbersOk(counts, fed + {file.path}, dirs', Parent(file.path))
  {}

  lemma FedLinks(counts: map<Path, int>, dirs: Tree, file: File, layout: Layout)
    requires file.path != [] && forall d :: !Merged(dirs, d)
    requires Parent(file.path) in dirs ==> LinksOk(dirs, Parent(file.path))
    ensures LinksOk(Fed(counts, layout, dirs, file), Parent(file.path))
  {
    var d := Parent(file.path);
    assert !Merged(dirs, d);
    if d in dirs { assert forall c :: c in dirs[d].children ==> Merged(dirs, c); }
  }

  lemma CloseUnmerged(dirs: Tree, d: Path)
    requires forall e :: !Merged(dirs, e)
    ensures forall q {:trigger Close(dirs, d, q)} :: Close(dirs, d, q) <==> q != [] && Parent(q) == d
  {
    forall q | Close(dirs, d, q) ensures q != [] && Parent(q) == d { assert !Merged(dirs, Parent(q)); }
  }

  lemma SameSums(sums: Sums, sums': Sums, dirs: Tree, dirs': Tree, e: Path)
    requires forall q :: q in sums && Close(dirs, e, q) ==> q in sums' && sums'[q] == sums[q] && Close(dirs', e, q)
    requires forall q :: q in sums' && Close(dirs', e, q) ==> q in sums && sums'[q] == sums[q] && Close(dirs, e, q)
    ensures CloseSums(sums', dirs', e) == CloseSums(sums, dirs, e)
  {}

  /** Feeding a file leaves what other directories are compared by. */
  lemma FedElsewhere(counts: map<Path, int>, sums: Sums, dirs: Tree, file: File, layout: Layout, e: Path)
    requires TreeOk(counts, sums.Keys, dirs) && file.path != [] && file.path !in sums
    requires (forall d :: !Merged(dirs, d)) && e in dirs && e != Parent(file.path)
    requires ContentOk(layout, sums, dirs, e)
    ensures ContentOk(layout, sums[file.path := file.digest], Fed(counts, layout, dirs, file), e)
  {
    var dirs', sums' := Fed(counts, layout, dirs, file), sums[file.path := file.digest];
    assert !Merged(dirs, Parent(file.path));
    assert forall d :: Merged(dirs', d) ==> Merged(dirs, d);
    DirectFilesOnly(sums.Keys, dirs);
    DirectFilesOnly(sums'.Keys, dirs');
    NothingMergedInto(dirs, e);
    NothingMergedInto(dirs', e);
    assert Cover(sums'.Keys, dirs', e) == Cover(sums.Keys, dirs, e);
    CloseUnmerged(dirs, e);
    CloseUnmerged(dirs', e);
    SameSums(sums, sums', dirs, dirs', e);
    forall n: nat | OneLength(sums', n) ensures DigestOk(layout, sums', dirs', e, n) {
      assert forall p :: p in sums ==> p in sums' && sums'[p] == sums[p];
      assert OneLength(sums, n);
      forall j | 0 <= j < n
        ensures dirs'[e].digest[j] == TotalByte(layout, sums', Cover(sums'.Keys, dirs', e), MergedInto(dirs', e), n, j)
      {
        TotalStays(layout, sums, sums', Cover(sums.Keys, dirs, e), {}, n, j);
      }
    }
  }

  /** The digest of the directory that a file is fed into. */
  lemma FedDigest(counts: map<Path, int>, sums: Sums, dirs: Tree, file: File, layout: Layout, n: nat)
    requires TreeOk(counts, sums.Keys, dirs) && file.path != [] && file.path !in sums
    requires forall d :: !Merged(dirs, d)
    requires Parent(file.path) in dirs ==> ContentOk(layout, sums, dirs, Parent(file.path))
    requires OneLength(sums[file.path := file.digest], n)
    ensures DigestOk(layout, sums[file.path := file.digest], Fed(counts, layout, dirs, file), Parent(file.path), n)
  {
    var p, d := file.path, Parent(file.path);
    var dirs', sums' := Fed(counts, layout, dirs, file), sums[p := file.digest];
    assert !Merged(dirs, d);
    assert forall e :: Merged(dirs', e) ==> Merged(dirs, e);
    DirectFilesOnly(sums.Keys, dirs);
    DirectFilesOnly(sums'.Keys, dirs');
    NothingMergedInto(dirs, d);
    NothingMergedInto(dirs', d);
    assert sums'[p] == file.digest;
    assert forall q :: q in sums ==> q in sums' && sums'[q] == sums[q];
    assert OneLength(sums, n);
    var before, cover := if d in dirs then dirs[d].digest else [], Cover(sums.Keys, dirs, d);
    assert Cover(sums'.Keys, dirs', d) == cover + {p};
    assert d !in dirs ==> cover == {};
    forall j | 0 <= j < n
      ensures |dirs'[d].digest| == n
      ensures dirs'[d].digest[j] == TotalByte(layout, sums', cover + {p}, {}, n, j)
    {
      assert Cumulative.ByteAt(before, j) == TotalByte(layout, sums, cover, {}, n, j);
      TotalStays(layout, sums, sums', cover, {}, n, j);
      FileAdds(layout, sums', cover, p, before, n, j);
    }
  }

  lemma FileAdds(layout: Layout, sums: Sums, cover: set<Path>, p: Path, data: seq<Byte>, n: nat, j: nat)
    requires p in sums && p !in cover && j < n
    requires n == if data == [] then Cumulative.InitialLength(|sums[p]|) else |data|
    requires Cumulative.ByteAt(data, j) == TotalByte(layout, sums, cover, {}, n, j)
    ensures var r := AbsorbName(layout, Cumulative.Absorb(data, sums[p]), p);
      |r| == n && r[j] == TotalByte(layout, sums, cover + {p}, {}, n, j)
  {
    AbsorbBoth(layout, data, sums[p], p, n, j);
    Cumulative.XorAllAdd(cover, FileByte(layout, sums, n, j), p);
    MixFile(NameByte(layout, n, j)(p), Cumulative.SumByte(sums[p], n, j),
            Cumulative.XorAll(cover, FileByte(layout, sums, n, j)));
  }

  lemma FedContent(counts: map<Path, int>, sums: Sums, dirs: Tree, file: File, layout: Layout)
    requires TreeOk(counts, sums.Keys, dirs) && file.path != [] && file.path !in sums
    requires forall d :: !Merged(dirs, d)
    requires Parent(file.path) in dirs ==> ContentOk(layout, sums, dirs, Parent(file.path))
    ensures ContentOk(layout, sums[file.path := file.digest], Fed(counts, layout, dirs, file), Parent(file.path))
  {
    var p, d := file.path, Parent(file.path);
    var dirs', sums' := Fed(counts, layout, dirs, file), sums[p := file.digest];
    assert !Merged(dirs, d);
    assert forall e :: Merged(dirs', e) ==> Merged(dirs, e);
    CloseUnmerged(dirs, d);
    CloseUnmerged(dirs', d);
    if d !in dirs { assert CloseSums(sums, dirs, d) == {}; }
    var had := if d in dirs then dirs[d].hashSet else {};
    assert CloseSums(sums', dirs', d) == had + {file.digest} by {
      assert p in sums' && Close(dirs', d, p) && sums'[p] == file.digest;
      forall x | x in had ensures x in CloseSums(sums', dirs', d) {
        var q :| q in sums && Close(dirs, d, q) && sums[q] == x;
        assert q in sums' && sums'[q] == x && Close(dirs', d, q);
      }
      forall x | x in CloseSums(sums', dirs', d) ensures x in had + {file.digest} {
        var q :| q in sums' && Close(dirs', d, q) && sums'[q] == x;
        if q != p { assert q in sums && Close(dirs, d, q); }
      }
    }
    forall n: nat | OneLength(sums', n) ensures DigestOk(layout, sums', dirs', d, n) {
      FedDigest(counts, sums, dirs, file, layout, n);
    }
  }

  lemma FedContents(counts: map<Path, int>, sums: Sums, dirs: Tree, file: File, layout: Layout)
    requires TreeOk(counts, sums.Keys, dirs) && file.path != [] && file.path !in sums
    requires (forall d :: !Merged(dirs, d)) && ContentsOk(layout, sums, dirs)
    ensures ContentsOk(layout, sums[file.path := file.digest], Fed(counts, layout, dirs, file))
  {
    var d, dirs', sums' := Parent(file.path), Fed(counts, layout, dirs, file), sums[file.path := file.digest];
    forall e | e in dirs' && Regular(dirs', e) ensures ContentOk(layout, sums', dirs', e) {
      assert e in dirs ==> Regular(dirs, e) && ContentOk(layout, sums, dirs, e);
      assert Regular(dirs, d);
      if e == d {
        FedContent(counts, sums, dirs, file, layout);
      } else {
        FedElsewhere(counts, sums, dirs, file, layout, e);
      }
    }
  }

  // ----- what merging does to it -----

  /** As `MergeCover`, for the merged directories. */
  lemma MergeMergedInto(dirs: Tree, dirs': Tree, c: Path)
    requires c in dirs && c != [] && !dirs[c].wasMerged && (Parent(c) != [] ==> !Merged(dirs, Parent(c)))
    requires forall e :: Merged(dirs', e) <==> Merged(dirs, e) || e == c
    ensures forall e {:trigger MergedInto(dirs', e)} :: e != Parent(c) ==> MergedInto(dirs', e) == MergedInto(dirs, e)
    ensures MergedInto(dirs', Parent(c)) == MergedInto(dirs, Parent(c)) + MergedInto(dirs, c) + {c}
    ensures MergedInto(dirs, Parent(c)) !! MergedInto(dirs, c)
    ensures c !in MergedInto(dirs, Parent(c)) && c !in MergedInto(dirs, c)
  {
    var d := Parent(c);
    var merged := set e | e in dirs && Merged(dirs, e);
    MergeCover(merged, dirs, dirs', c);
    MergeCover({c}, dirs, dirs', c);
    forall e ensures MergedInto(dirs, e) == Cover(merged, dirs, e) {}
    forall e ensures MergedInto(dirs', e) == Cover(merged, dirs', e) + Cover({c}, dirs', e) {}
    assert Counts(dirs', d, c);
    forall e | e != d ensures Cover({c}, dirs', e) == {} {
      assert !Counts(dirs', e, c);
    }
    assert Cover({c}, dirs', d) == {c};
  }

  /** Directories that are not the parent stay as they are. */
  lemma MergeElsewhere(counts: map<Path, int>, layout: Layout, sums: Sums, dirs: Tree, c: Path, e: Path)
    requires c in dirs && c != [] && !Merged(dirs, c) && (Parent(c) != [] ==> !Merged(dirs, Parent(c)))
    requires e in dirs && e != Parent(c) && ContentOk(layout, sums, dirs, e)
    ensures ContentOk(layout, sums, MergedUp(counts, layout, dirs, c), e)
  {
    var dirs' := MergedUp(counts, layout, dirs, c);
    MergeCover(sums.Keys, dirs, dirs', c);
    MergeMergedInto(dirs, dirs', c);
    assert Cover(sums.Keys, dirs', e) == Cover(sums.Keys, dirs, e) && MergedInto(dirs', e) == MergedInto(dirs, e);
    SameSums(sums, sums, dirs, dirs', e);
    forall n: nat | OneLength(sums, n) ensures DigestOk(layout, sums, dirs', e, n) {
      assert DigestOk(layout, sums, dirs, e, n);
    }
  }

  /** A directory that the tree does not know has nothing in it. */
  lemma UnknownHasNothing(counts: map<Path, int>, sums: Sums, dirs: Tree, d: Path)
    requires TreeOk(counts, sums.Keys, dirs) && d !in dirs
    ensures Cover(sums.Keys, dirs, d) == {} && MergedInto(dirs, d) == {} && CloseSums(sums, dirs, d) == {}
  {
    UnknownCountsNothing(counts, sums.Keys, dirs, d);
    forall e | e in dirs && Merged(dirs, e) ensures !Counts(dirs, d, e) {
      if Counts(dirs, d, e) {
        var first := e[..|d| + 1];
        assert Parent(first) == d;
        if |e| == |d| + 1 { assert first == e; } else { assert Merged(dirs, first); }
        NotMerged(counts, sums.Keys, dirs, first);
      }
    }
    forall p | p in sums ensures !Close(dirs, d, p) {
      assert Parent(p) in dirs;
      if Close(dirs, d, p) { NotMerged(counts, sums.Keys, dirs, Parent(p)); }
    }
  }

  lemma DirectoryAdds(layout: Layout, sums: Sums, cover: set<Path>, names: set<Path>, more: set<Path>, below: set<Path>,
                      c: Path, data: seq<Byte>, x: seq<Byte>, n: nat, j: nat)
    requires cover !! more && names !! below && c !in names + below && j < n
    requires |x| == n == Cumulative.InitialLength(n) && (data != [] ==> |data| == n)
    requires Cumulative.ByteAt(data, j) == TotalByte(layout, sums, cover, names, n, j)
    requires x[j] == TotalByte(layout, sums, more, below, n, j)
    ensures var r := AbsorbName(layout, Cumulative.Absorb(data, x), c);
      |r| == n && r[j] == TotalByte(layout, sums, cover + more, names + below + {c}, n, j)
  {
    AbsorbBoth(layout, data, x, c, n, j);
    Cumulative.ShortColumn(x, n, j);
    var file, name := FileByte(layout, sums, n, j), NameByte(layout, n, j);
    Cumulative.XorAllUnion(cover, more, file);
    Cumulative.XorAllUnion(names, below, name);
    Cumulative.XorAllAdd(names + below, name, c);
    MixDirectory(name(c), Cumulative.XorAll(more, file), Cumulative.XorAll(cover, file),
                 Cumulative.XorAll(below, name), Cumulative.XorAll(names, name));
  }

  lemma LengthChosen(sums: Sums, n: nat)
    requires OneLength(sums, n) && sums != map[]
    ensures Cumulative.InitialLength(n) == n
  {
    var p :| p in sums;
    Cumulative.LengthChosenAgain(|sums[p]|);
  }

  /** The digest of the directory that another one is merged into. */
  lemma MergeDigest(counts: map<Path, int>, layout: Layout, sums: Sums, dirs: Tree, c: Path, n: nat)
    requires TreeOk(counts, sums.Keys, dirs) && c in dirs && c != [] && !Merged(dirs, c)
    requires Regular(dirs, Parent(c)) && !Merged(dirs, Parent(c))
    requires ContentOk(layout, sums, dirs, c) && (Parent(c) in dirs ==> ContentOk(layout, sums, dirs, Parent(c)))
    requires OneLength(sums, n)
    ensures DigestOk(layout, sums, MergedUp(counts, layout, dirs, c), Parent(c), n)
  {
    var d, dirs' := Parent(c), MergedUp(counts, layout, dirs, c);
    MergeCover(sums.Keys, dirs, dirs', c);
    MergeMergedInto(dirs, dirs', c);
    assert DirectoryOk(counts, sums.Keys, dirs, c);
    var p :| p in Cover(sums.Keys, dirs, c);
    assert p in sums;
    LengthChosen(sums, n);
    forall j | 0 <= j < n
      ensures |dirs'[d].digest| == n
      ensures dirs'[d].digest[j] == TotalByte(layout, sums, Cover(sums.Keys, dirs', d), MergedInto(dirs', d), n, j)
    {
      MergeByte(counts, layout, sums, dirs, c, n, j);
    }
  }

  lemma MergeByte(counts: map<Path, int>, layout: Layout, sums: Sums, dirs: Tree, c: Path, n: nat, j: nat)
    requires TreeOk(counts, sums.Keys, dirs) && c in dirs && c != [] && j < n
    requires ContentOk(layout, sums, dirs, c) && (Parent(c) in dirs ==> ContentOk(layout, sums, dirs, Parent(c)))
    requires OneLength(sums, n) && Cumulative.InitialLength(n) == n
    requires Cover(sums.Keys, dirs, Parent(c)) !! Cover(sums.Keys, dirs, c)
    requires MergedInto(dirs, Parent(c)) !! MergedInto(dirs, c)
    requires c !in MergedInto(dirs, Parent(c)) + MergedInto(dirs, c)
    ensures var data := MergedUp(counts, layout, dirs, c)[Parent(c)].digest;
      && |data| == n
      && data[j] == TotalByte(layout, sums, Cover(sums.Keys, dirs, Parent(c)) + Cover(sums.Keys, dirs, c),
                              MergedInto(dirs, Parent(c)) + MergedInto(dirs, c) + {c}, n, j)
  {
    var d := Parent(c);
    if d !in dirs { UnknownHasNothing(counts, sums, dirs, d); }
    var data := if d in dirs then dirs[d].digest else [];
    var cover, names := Cover(sums.Keys, dirs, d), MergedInto(dirs, d);
    assert DigestOk(layout, sums, dirs, c, n) && (d in dirs ==> DigestOk(layout, sums, dirs, d, n));
    assert Cumulative.ByteAt(data, j) == TotalByte(layout, sums, cover, names, n, j);
    DirectoryAdds(layout, sums, cover, names, Cover(sums.Keys, dirs, c), MergedInto(dirs, c), c, data,
                  dirs[c].digest, n, j);
  }

  /** Its set of digests: the files of the merged directory come close. */
  lemma MergeSums(counts: map<Path, int>, layout: Layout, sums: Sums, dirs: Tree, c: Path)
    requires TreeOk(counts, sums.Keys, dirs) && c in dirs && c != [] && !Merged(dirs, c)
    requires ContentOk(layout, sums, dirs, c) && (Parent(c) in dirs ==> ContentOk(layout, sums, dirs, Parent(c)))
    ensures var dirs' := MergedUp(counts, layout, dirs, c);
      dirs'[Parent(c)].hashSet == CloseSums(sums, dirs', Parent(c))
  {
    var d, dirs' := Parent(c), MergedUp(counts, layout, dirs, c);
    if d !in dirs { UnknownHasNothing(counts, sums, dirs, d); }
    var had := if d in dirs then dirs[d].hashSet else {};
    var taken := set f | f in dirs[c].knownFiles :: f.digest;
    assert had == CloseSums(sums, dirs, d);
    forall q ensures Close(dirs', d, q) <==> Close(dirs, d, q) || (q != [] && Parent(q) == c) {}
    forall x ensures x in taken <==> exists q :: q in sums && q != [] && Parent(q) == c && sums[q] == x {
      if q :| q in sums && q != [] && Parent(q) == c && sums[q] == x { assert File(q, x) in dirs[c].knownFiles; }
    }
    forall x ensures x in CloseSums(sums, dirs', d) <==> x in had + taken {
      if q :| q in sums && Close(dirs, d, q) && sums[q] == x { assert Close(dirs', d, q); }
      if q :| q in sums && q != [] && Parent(q) == c && sums[q] == x { assert Close(dirs', d, q); }
    }
  }

  /** Its own files stay. */
  lemma MergeFiles(counts: map<Path, int>, layout: Layout, sums: Sums, dirs: Tree, c: Path, f: File)
    requires TreeOk(counts, sums.Keys, dirs) && c in dirs && c != [] && !Merged(dirs, c)
    requires Parent(c) in dirs ==> ContentOk(layout, sums, dirs, Parent(c))
    ensures f in MergedUp(counts, layout, dirs, c)[Parent(c)].knownFiles <==>
      f.path in sums && f.path != [] && Parent(f.path) == Parent(c) && f.digest == sums[f.path]
  {}

  lemma MergeContents(counts: map<Path, int>, layout: Layout, sums: Sums, dirs: Tree, c: Path)
    requires TreeOk(counts, sums.Keys, dirs) && c in dirs && c != [] && !Merged(dirs, c)
    requires Regular(dirs, Parent(c)) ==> !Merged(dirs, Parent(c))
    requires ContentsOk(layout, sums, dirs)
    ensures ContentsOk(layout, sums, MergedUp(counts, layout, dirs, c))
  {
    var d, dirs' := Parent(c), MergedUp(counts, layout, dirs, c);
    assert ContentOk(layout, sums, dirs, c);
    forall e | e in dirs' && Regular(dirs', e) ensures ContentOk(layout, sums, dirs', e) {
      assert e in dirs ==> ContentOk(layout, sums, dirs, e);
      if e != d {
        MergeElsewhere(counts, layout, sums, dirs, c, e);
      } else {
        MergeSums(counts, layout, sums, dirs, c);
        forall f ensures f in dirs'[d].knownFiles <==>
          f.path in sums && f.path != [] && Parent(f.path) == d && f.digest == sums[f.path]
        {
          MergeFiles(counts, layout, sums, dirs, c, f);
        }
        forall n: nat | OneLength(sums, n) ensures DigestOk(layout, sums, dirs', d, n) {
          MergeDigest(counts, layout, sums, dirs, c, n);
        }
      }
    }
  }

  /** Merging the root into itself leaves all other directories. */
  lemma RootMergeContents(layout: Layout, sums: Sums, dirs: Tree)
    requires [] in dirs && ContentsOk(layout, sums, dirs)
    ensures ContentsOk(layout, sums, RootMerged(layout, dirs))
  {
    var dirs' := RootMerged(layout, dirs);
    forall e | e in dirs' && e != [] ensures ContentOk(layout, sums, dirs', e) {
      assert ContentOk(layout, sums, dirs, e);
      forall p ensures Counts(dirs', e, p) <==> Counts(dirs, e, p) {
        assert forall i :: |e| < i < |p| ==> (Merged(dirs', p[..i]) <==> Merged(dirs, p[..i]));
      }
      assert Cover(sums.Keys, dirs', e) == Cover(sums.Keys, dirs, e);
      assert MergedInto(dirs', e) == MergedInto(dirs, e);
      SameSums(sums, sums, dirs, dirs', e);
      forall n: nat | OneLength(sums, n) ensures DigestOk(layout, sums, dirs', e, n) {
        assert DigestOk(layout, sums, dirs, e, n);
      }
    }
  }
}
