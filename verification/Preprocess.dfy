/**
 * Preparing the duplicate candidates (lib/preprocess.c): sorting, splitting into
 * groups, and reducing every inode to one file.
 */
module Preprocess {
  import opened Common

  datatype Lint = OtherLint(kind: nat) | DupeCandidate

  datatype Node = Node(inode: nat, dev: nat)

  /** `parentInode` is what stat says about the parent directory; 0 where it fails. */
  datatype RmFile = RmFile(id: nat, size: nat, isSymlink: bool, basename: string, mtime: real, node: Node,
                           parentInode: nat, lint: Lint, isPrefd: bool, rank: int)

  /** A negative `mtimeWindow` stands for none. */
  datatype RmCfg = RmCfg(matchBasename: bool, matchWithExtension: bool, matchWithoutExtension: bool,
                         mtimeWindow: real, findHardlinkedDupes: bool, runEqualMode: bool,
                         minMtime: Option<real>, keepAllTagged: bool, keepAllUntagged: bool)

  /** Seconds by which two times that count as equal may differ. */
  const MTIME_TOL: real := 0.000001

  // ----- comparing files -----

  function SignDiff(x: int, y: int): int {
    if x > y then 1 else if x < y then -1 else 0
  }

  function Lower(c: char): char {
    if 'A' <= c <= 'Z' then c + (32 as char) else c
  }

  /** `g_ascii_strcasecmp` */
  function StrCaseCmp(a: string, b: string): int {
    if a == "" || b == "" then SignDiff(|a|, |b|)
    else if Lower(a[0]) != Lower(b[0]) then SignDiff(Lower(a[0]) as int, Lower(b[0]) as int)
    else StrCaseCmp(a[1..], b[1..])
  }

  /** `rm_util_path_extension`: what follows the last dot. */
  function Extension(basename: string): (r: Option<string>)
    ensures r.Some? ==>
      && |r.value| < |basename| && basename[|basename| - |r.value| - 1] == '.'
      && basename[|basename| - |r.value|..] == r.value && '.' !in r.value
    ensures r.None? <==> '.' !in basename
  {
    if basename == "" then None
    else
      var rest := Extension(basename[1..]);
      assert basename == [basename[0]] + basename[1..];
      if rest.Some? then rest
      else if basename[0] == '.' then Some(basename[1..])
      else None
  }

  /** `rm_file_cmp_with_extension` */
  function ExtensionCmp(a: string, b: string): int {
    match (Extension(a), Extension(b))
    case (Some(x), Some(y)) => StrCaseCmp(x, y)
    case (x, y) => SignDiff(if x.Some? then 1 else 0, if y.Some? then 1 else 0)
  }

  /** Up to where the extension starts, or the whole length. */
  function StemLength(a: string): (n: nat)
    ensures n <= |a|
  {
    match Extension(a) case Some(e) => |a| - |e| case None => |a|
  }

  /** `rm_file_cmp_without_extension`; without an extension the second name's length is taken from the first name. */
  function StemCmp(a: string, b: string): int {
    var lenA, lenB := StemLength(a), if Extension(b).Some? then StemLength(b) else |a|;
    if lenA != lenB then SignDiff(lenA, lenB) else StrCaseCmp(a[..lenA], b[..Min(lenA, |b|)])
  }

  /** `rm_file_cmp` */
  function FileCmp(cfg: RmCfg, a: RmFile, b: RmFile): int {
    var bySize := SignDiff(a.size, b.size);
    var byKind := SignDiff(if a.isSymlink then 1 else 0, if b.isSymlink then 1 else 0);
    var byName := if cfg.matchBasename then StrCaseCmp(a.basename, b.basename) else 0;
    var byExtension := if cfg.matchWithExtension then ExtensionCmp(a.basename, b.basename) else 0;
    if bySize != 0 then bySize
    else if byKind != 0 then byKind
    else if byName != 0 then byName
    else if byExtension != 0 then byExtension
    else if cfg.matchWithoutExtension then StemCmp(a.basename, b.basename) else 0
  }

  function FloatSignDiff(x: real, y: real, tolerance: real): int {
    if x - y > tolerance then 1 else if y - x > tolerance then -1 else 0
  }

  function TimeCmp(cfg: RmCfg, a: RmFile, b: RmFile): int {
    if cfg.mtimeWindow >= 0.0 then FloatSignDiff(a.mtime, b.mtime, MTIME_TOL) else 0
  }

  /** `rm_file_cmp_full`; the criteria for picking originals only break ties, here by a rank. */
  function FileCmpFull(cfg: RmCfg, a: RmFile, b: RmFile): int {
    if FileCmp(cfg, a, b) != 0 then FileCmp(cfg, a, b)
    else if TimeCmp(cfg, a, b) != 0 then TimeCmp(cfg, a, b)
    else SignDiff(a.rank, b.rank)
  }

  /** `rm_file_cmp_split`: whether neighbours belong to different groups. */
  predicate Splits(cfg: RmCfg, a: RmFile, b: RmFile) {
    FileCmp(cfg, a, b) != 0 || (cfg.mtimeWindow >= 0.0 && FloatSignDiff(a.mtime, b.mtime, cfg.mtimeWindow) != 0)
  }

  /** A name without its case. */
  function Folded(s: string): (r: string)
    ensures |r| == |s| && forall i :: 0 <= i < |s| ==> r[i] == Lower(s[i])
  {
    if s == "" then "" else [Lower(s[0])] + Folded(s[1..])
  }

  datatype Key = Key(size: nat, isSymlink: bool, name: Option<string>, extension: Option<string>,
                     stem: Option<string>)

  function FoldedStem(s: string): string {
    Folded(s[..StemLength(s)])
  }

  /** What files that compare equal have in common. */
  function KeyOf(cfg: RmCfg, f: RmFile): Key {
    Key(f.size, f.isSymlink,
        if cfg.matchBasename then Some(Folded(f.basename)) else None,
        if cfg.matchWithExtension then FoldedOption(Extension(f.basename)) else None,
        if cfg.matchWithoutExtension then Some(FoldedStem(f.basename)) else None)
  }

  function FoldedOption(s: Option<string>): Option<string> {
    match s case None => None case Some(t) => Some(Folded(t))
  }

  lemma {:induction false} StrCaseCmpZero(a: string, b: string)
    ensures StrCaseCmp(a, b) == 0 <==> Folded(a) == Folded(b)
  {
    if a != "" && b != "" {
      StrCaseCmpZero(a[1..], b[1..]);
      assert Folded(a)[1..] == Folded(a[1..]) && Folded(b)[1..] == Folded(b[1..]);
      assert Folded(a)[0] == Lower(a[0]) && Folded(b)[0] == Lower(b[0]);
      assert Folded(a) == [Lower(a[0])] + Folded(a[1..]);
    } else {
      assert |Folded(a)| == |a| && |Folded(b)| == |b|;
    }
  }

  lemma {:induction false} StrCaseCmpReverse(a: string, b: string)
    ensures StrCaseCmp(b, a) == -StrCaseCmp(a, b)
  {
    if a != "" && b != "" { StrCaseCmpReverse(a[1..], b[1..]); }
  }

  /** `ab`, `bc` and `ac` are comparisons of a preorder, strict where either step is. */
  predicate Chains(ab: int, bc: int, ac: int) {
    ab <= 0 && bc <= 0 ==> if ab < 0 || bc < 0 then ac < 0 else ac == 0
  }

  lemma {:induction false} StrCaseCmpTransitive(a: string, b: string, c: string)
    ensures Chains(StrCaseCmp(a, b), StrCaseCmp(b, c), StrCaseCmp(a, c))
  {
    if a != "" && b != "" && c != "" && Lower(a[0]) == Lower(b[0]) == Lower(c[0]) {
      StrCaseCmpTransitive(a[1..], b[1..], c[1..]);
    }
  }

  lemma ExtensionCmpTransitive(a: string, b: string, c: string)
    ensures Chains(ExtensionCmp(a, b), ExtensionCmp(b, c), ExtensionCmp(a, c))
  {
    match (Extension(a), Extension(b), Extension(c)) {
      case (Some(x), Some(y), Some(z)) => StrCaseCmpTransitive(x, y, z);
      case _ =>
    }
  }

  /**
   * The case in which names are taken for equal up to the extension that are not:
   * neither has an extension, and the first is where the second starts.
   */
  predicate Overlooked(cfg: RmCfg, a: RmFile, b: RmFile) {
    && cfg.matchWithoutExtension && !cfg.matchBasename
    && a.size == b.size && a.isSymlink == b.isSymlink
    && Starts(a.basename, b.basename)
  }

  /** Neither name has an extension, and the second one is longer and starts with the first. */
  predicate Starts(a: string, b: string) {
    Extension(a).None? && Extension(b).None? && |a| < |b| && Folded(a) == Folded(b[..|a|])
  }

  lemma FoldedPrefix(s: string, n: nat)
    requires n <= |s|
    ensures Folded(s[..n]) == Folded(s)[..n]
  {}

  lemma FoldedDot(s: string)
    ensures '.' in Folded(s) <==> '.' in s
  {
    forall i | 0 <= i < |s| ensures Folded(s)[i] == '.' <==> s[i] == '.' {
      assert Folded(s)[i] == Lower(s[i]);
    }
  }

  /** A stem with an extension ends with a dot, and a name without one has none. */
  lemma StemDot(a: string)
    ensures '.' in a[..StemLength(a)] <==> Extension(a).Some?
  {
    var n := StemLength(a);
    if Extension(a).Some? { assert a[..n][n - 1] == '.'; }
  }

  /** When the stems compare equal. */
  lemma StemCmpZero(a: string, b: string)
    ensures StemCmp(a, b) == 0 <==>
      if Extension(a).None? && Extension(b).None? then |a| <= |b| && Folded(a) == Folded(b[..|a|])
      else FoldedStem(a) == FoldedStem(b)
  {
    var n, m := StemLength(a), StemLength(b);
    var c := b[..Min(n, |b|)];
    StrCaseCmpZero(a[..n], c);
    FoldedDot(a[..n]);
    FoldedDot(b[..m]);
    FoldedDot(c);
    StemDot(a);
    StemDot(b);
    assert a[..|a|] == a && b[..|b|] == b;
    if Extension(b).None? { assert '.' !in c; }
  }

  /** Two files compare equal iff they have the same key; but for names that are overlooked. */
  lemma SameGroup(cfg: RmCfg, a: RmFile, b: RmFile)
    ensures (FileCmp(cfg, a, b) == 0 <==> KeyOf(cfg, a) == KeyOf(cfg, b)) <==> !Overlooked(cfg, a, b)
  {
    StrCaseCmpZero(a.basename, b.basename);
    SameStem(a.basename, b.basename);
    SameExtension(a.basename, b.basename);
  }

  predicate SameLetters(a: string, b: string) {
    |a| == |b| && forall i :: 0 <= i < |a| ==> Lower(a[i]) == Lower(b[i])
  }

  lemma {:induction false} FoldedLetters(a: string, b: string)
    ensures Folded(a) == Folded(b) <==> SameLetters(a, b)
  {
    forall i | 0 <= i < |a| ensures Folded(a)[i] == Lower(a[i]) {}
    forall i | 0 <= i < |b| ensures Folded(b)[i] == Lower(b[i]) {}
    if Folded(a) == Folded(b) {
      forall i | 0 <= i < |a| ensures Lower(a[i]) == Lower(b[i]) { assert Folded(a)[i] == Folded(b)[i]; }
    }
  }

  /** Both have an extension, with the same letters, or both have none. */
  predicate SameEnding(a: string, b: string) {
    match (Extension(a), Extension(b))
    case (Some(x), Some(y)) => SameLetters(x, y)
    case (None, None) => true
    case _ => false
  }

  /** Up to the extension the names have the same letters; without extensions the second one may go on. */
  predicate SameBeginning(a: string, b: string) {
    match (Extension(a), Extension(b))
    case (Some(x), Some(y)) => SameLetters(a[..|a| - |x|], b[..|b| - |y|])
    case (None, None) => |a| <= |b| && SameLetters(a, b[..|a|])
    case _ => false
  }

  /**
   * The same, spelled out: sizes and kinds are equal, and as far as the options ask for it names, extensions, or
   * names up to their extension.
   */
  lemma ComparesEqual(cfg: RmCfg, a: RmFile, b: RmFile)
    ensures FileCmp(cfg, a, b) == 0 <==>
      && a.size == b.size && a.isSymlink == b.isSymlink
      && (cfg.matchBasename ==> SameLetters(a.basename, b.basename))
      && (cfg.matchWithExtension ==> SameEnding(a.basename, b.basename))
      && (cfg.matchWithoutExtension ==> SameBeginning(a.basename, b.basename))
  {
    StrCaseCmpZero(a.basename, b.basename);
    FoldedLetters(a.basename, b.basename);
    EqualEndings(a.basename, b.basename);
    EqualBeginnings(a.basename, b.basename);
  }

  lemma EqualEndings(a: string, b: string)
    ensures ExtensionCmp(a, b) == 0 <==> SameEnding(a, b)
  {
    match (Extension(a), Extension(b)) {
      case (Some(x), Some(y)) => StrCaseCmpZero(x, y); FoldedLetters(x, y);
      case _ =>
    }
  }

  lemma EqualBeginnings(a: string, b: string)
    ensures StemCmp(a, b) == 0 <==> SameBeginning(a, b)
  {
    match (Extension(a), Extension(b)) {
      case (Some(x), Some(y)) =>
        StrCaseCmpZero(a[..|a| - |x|], b[..|b| - |y|]);
        FoldedLetters(a[..|a| - |x|], b[..|b| - |y|]);
      case (None, None) =>
        WholeStem(a);
        if |a| <= |b| {
          StrCaseCmpZero(a, b[..|a|]);
          FoldedLetters(a, b[..|a|]);
        } else {
          StrCaseCmpZero(a, b);
          assert b[..|b|] == b && |Folded(a)| == |a| && |Folded(b)| == |b|;
        }
      case _ =>
        SameStem(a, b);
        StemsDiffer(a, b);
    }
  }

  /** Up to the extension a name has a dot; without extension it has none. */
  lemma StemsDiffer(a: string, b: string)
    requires Extension(a).Some? != Extension(b).Some?
    ensures FoldedStem(a) != FoldedStem(b)
  {
    var with, without := if Extension(a).Some? then a else b, if Extension(a).Some? then b else a;
    WholeStem(without);
    var stem := with[..StemLength(with)];
    assert stem[|stem| - 1] == '.';
    FoldedDot(stem);
    FoldedDot(without);
  }

  lemma SameStem(a: string, b: string)
    ensures StemCmp(a, b) == 0 <==> FoldedStem(a) == FoldedStem(b) || Starts(a, b)
    ensures Starts(a, b) ==> FoldedStem(a) != FoldedStem(b) && Folded(a) != Folded(b)
  {
    StemCmpZero(a, b);
    assert a[..|a|] == a && b[..|b|] == b;
    assert |Folded(a)| == |a| && |Folded(b)| == |b|;
  }

  lemma SameExtension(a: string, b: string)
    ensures ExtensionCmp(a, b) == 0 <==> FoldedOption(Extension(a)) == FoldedOption(Extension(b))
  {
    match (Extension(a), Extension(b)) {
      case (Some(x), Some(y)) => StrCaseCmpZero(x, y);
      case _ =>
    }
  }

  // ----- when the comparison is an order -----

  /**
   * `a` has no extension and `b` has one.  The first of two names without an extension
   * gives its length to the second, so that the name with the extension has to come first.
   */
  predicate After(a: string, b: string)
    requires Extension(b).Some?
  {
    var n := StemLength(b);
    if Extension(b).value != "" then |a| > n || (|a| == n && StrCaseCmp(a, b[..n]) > 0)
    else |a| == n || StrCaseCmp(a, b) == SignDiff(|a|, n)
  }

  /** Whether exchanging two names exchanges the result. */
  predicate Reversible(a: string, b: string) {
    match (Extension(a), Extension(b))
    case (Some(_), Some(_)) => true
    case (None, None) => !Starts(a, b) && !Starts(b, a)
    case (None, Some(_)) => After(a, b)
    case (Some(_), None) => After(b, a)
  }

  lemma WholeStem(a: string)
    ensures a[..|a|] == a
    ensures Extension(a).None? || Extension(a) == Some("") ==> StemLength(a) == |a|
  {}

  lemma {:induction false} StrCaseCmpSigns(a: string, b: string)
    ensures -1 <= StrCaseCmp(a, b) <= 1
  {
    if a != "" && b != "" { StrCaseCmpSigns(a[1..], b[1..]); }
  }

  /** Cutting the longer name down to the shorter one only matters if they are equal then. */
  lemma {:induction false} StrCaseCmpCut(a: string, b: string)
    requires |a| <= |b|
    ensures StrCaseCmp(a, b) == if StrCaseCmp(a, b[..|a|]) != 0 then StrCaseCmp(a, b[..|a|]) else SignDiff(|a|, |b|)
    ensures StrCaseCmp(b, a) == if StrCaseCmp(b[..|a|], a) != 0 then StrCaseCmp(b[..|a|], a) else SignDiff(|b|, |a|)
  {
    if a != "" {
      StrCaseCmpCut(a[1..], b[1..]);
      assert b[1..][..|a| - 1] == b[..|a|][1..];
    }
  }

  lemma NoneNoneReverse(a: string, b: string)
    requires Extension(a).None? && Extension(b).None? && |a| <= |b|
    ensures StemCmp(b, a) == -StemCmp(a, b) <==> !Starts(a, b)
    ensures !Starts(a, b) ==> StemCmp(a, b) == StrCaseCmp(a, b)
  {
    WholeStem(a);
    WholeStem(b);
    StrCaseCmpCut(a, b);
    StrCaseCmpZero(a, b[..|a|]);
    StrCaseCmpReverse(a, b);
    StrCaseCmpReverse(a, b[..|a|]);
  }

  lemma NoneSomeReverse(a: string, b: string)
    requires Extension(a).None? && Extension(b).Some?
    ensures StemCmp(b, a) == -StemCmp(a, b) <==> After(a, b)
  {
    var n := StemLength(b);
    WholeStem(a);
    WholeStem(b);
    StrCaseCmpSigns(a, b[..n]);
    StrCaseCmpSigns(a, b);
    StrCaseCmpReverse(a, b);
    if Extension(b).value == "" && |a| != n {
      DotDecides(a, b);
    }
  }

  /** A name with a dot and one without differ. */
  lemma DotDiffers(b: string, c: string)
    requires '.' in b && '.' !in c
    ensures StrCaseCmp(b, c) != 0
  {
    StrCaseCmpZero(b, c);
    FoldedDot(b);
    FoldedDot(c);
  }

  lemma DotDecides(a: string, b: string)
    requires '.' !in a && '.' in b && |a| != |b|
    ensures StrCaseCmp(b, a[..Min(|a|, |b|)]) == StrCaseCmp(b, a)
  {
    if |a| > |b| {
      StrCaseCmpCut(b, a);
      DotDiffers(b, a[..|b|]);
    } else {
      assert a[..|a|] == a;
    }
  }

  /** Exactly then. */
  lemma StemCmpReverse(a: string, b: string)
    ensures StemCmp(b, a) == -StemCmp(a, b) <==> Reversible(a, b)
  {
    match (Extension(a), Extension(b)) {
      case (Some(_), Some(_)) => StrCaseCmpReverse(a[..StemLength(a)], b[..StemLength(b)]);
      case (None, None) => if |a| <= |b| { NoneNoneReverse(a, b); } else { NoneNoneReverse(b, a); }
      case (None, Some(_)) => NoneSomeReverse(a, b);
      case (Some(_), None) => NoneSomeReverse(b, a);
    }
  }

  /** Before the names without their extensions are compared, the files are equal. */
  predicate EqualSoFar(cfg: RmCfg, a: RmFile, b: RmFile) {
    && a.size == b.size && a.isSymlink == b.isSymlink
    && (cfg.matchBasename ==> Folded(a.basename) == Folded(b.basename))
    && (cfg.matchWithExtension ==> FoldedOption(Extension(a.basename)) == FoldedOption(Extension(b.basename)))
  }

  predicate Consistent(cfg: RmCfg, a: RmFile, b: RmFile) {
    cfg.matchWithoutExtension && EqualSoFar(cfg, a, b) ==> Reversible(a.basename, b.basename)
  }

  /** Exchanging two files exchanges the result if and only if they are consistent. */
  lemma FileCmpReverse(cfg: RmCfg, a: RmFile, b: RmFile)
    ensures FileCmp(cfg, b, a) == -FileCmp(cfg, a, b) <==> Consistent(cfg, a, b)
  {
    FileCmpZeroSoFar(cfg, a, b);
    FileCmpZeroSoFar(cfg, b, a);
    SoFarReverse(cfg, a, b);
    StemCmpReverse(a.basename, b.basename);
  }

  lemma SoFarReverse(cfg: RmCfg, a: RmFile, b: RmFile)
    ensures CmpSoFar(cfg, b, a) == -CmpSoFar(cfg, a, b)
  {
    StrCaseCmpReverse(a.basename, b.basename);
    ExtensionCmpReverse(a.basename, b.basename);
  }

  lemma ExtensionCmpReverse(a: string, b: string)
    ensures ExtensionCmp(b, a) == -ExtensionCmp(a, b)
  {
    match (Extension(a), Extension(b)) {
      case (Some(x), Some(y)) => StrCaseCmpReverse(x, y);
      case _ =>
    }
  }

  /** Without extensions there may be no order: one name compares equal, the other way round it is greater. */
  lemma NotReversed()
    ensures StemCmp("a", "ab") == 0 && StemCmp("ab", "a") == 1
  {
    assert "ab"[..1] == "a" && "a"[..1] == "a" && "ab"[..2] == "ab";
    assert StrCaseCmp("b", "") == 1 && "ab"[1..] == "b" && "a"[1..] == "";
    StrCaseCmpZero("a", "a");
  }

  /** By length, then by letters. */
  function StemOrder(a: string, b: string): int {
    var n, m := StemLength(a), StemLength(b);
    if n != m then SignDiff(n, m) else StrCaseCmp(a[..n], b[..m])
  }

  lemma StemOrderTransitive(a: string, b: string, c: string)
    ensures Chains(StemOrder(a, b), StemOrder(b, c), StemOrder(a, c))
  {
    StrCaseCmpTransitive(a[..StemLength(a)], b[..StemLength(b)], c[..StemLength(c)]);
  }

  /** If one of two reversible names has an extension, the comparison is that order. */
  lemma WithExtensionOrder(a: string, b: string)
    requires Reversible(a, b) && (Extension(a).Some? || Extension(b).Some?)
    ensures StemCmp(a, b) == StemOrder(a, b)
  {
    StemCmpReverse(a, b);
    WholeStem(a);
    WholeStem(b);
    StrCaseCmpReverse(a[..StemLength(a)], b[..StemLength(b)]);
    if Extension(a).Some? && Extension(b).None? { StrCaseCmpSigns(b, a[..StemLength(a)]); }
  }

  /** The last letter of the name, or of its stem, is where the extension would begin. */
  predicate Bare(a: string) {
    Extension(a).None? || Extension(a) == Some("")
  }

  /** Names without letters in their extension are ordered by their letters, if one of them has no extension. */
  lemma BareOrder(a: string, b: string)
    requires Reversible(a, b) && Bare(a) && Bare(b) && (Extension(a).None? || Extension(b).None?)
    ensures StemCmp(a, b) == StrCaseCmp(a, b)
  {
    WholeStem(a);
    WholeStem(b);
    if Extension(a).None? && Extension(b).None? {
      if |a| <= |b| {
        NoneNoneReverse(a, b);
      } else {
        NoneNoneReverse(b, a);
        StrCaseCmpReverse(a, b);
      }
    } else {
      WithExtensionOrder(a, b);
      StrCaseCmpReverse(a, b);
    }
  }

  /** A name with letters in its extension comes before those without an extension. */
  lemma LettersFirst(a: string, b: string)
    requires Reversible(a, b) && Extension(a).None? && !Bare(b)
    ensures StemCmp(a, b) == 1 && StemCmp(b, a) == -1
  {
    StemCmpReverse(a, b);
    StrCaseCmpSigns(a, b[..StemLength(b)]);
  }

  lemma StemCmpTransitive(a: string, b: string, c: string)
    requires Reversible(a, b) && Reversible(b, c) && Reversible(a, c)
    ensures Chains(StemCmp(a, b), StemCmp(b, c), StemCmp(a, c))
  {
    if (Extension(a).Some? || Extension(b).Some?) && (Extension(b).Some? || Extension(c).Some?)
      && (Extension(a).Some? || Extension(c).Some?) {
      WithExtensionOrder(a, b);
      WithExtensionOrder(b, c);
      WithExtensionOrder(a, c);
      StemOrderTransitive(a, b, c);
    } else if Bare(a) && Bare(b) && Bare(c) {
      BareOrder(a, b);
      BareOrder(b, c);
      BareOrder(a, c);
      StrCaseCmpTransitive(a, b, c);
    } else if !Bare(a) {
      LettersFirst(b, a);
      LettersFirst(c, a);
    } else if !Bare(b) {
      LettersFirst(a, b);
    } else {
      LettersFirst(b, c);
    }
  }

  lemma FileCmpTransitive(cfg: RmCfg, a: RmFile, b: RmFile, c: RmFile)
    requires Consistent(cfg, a, b) && Consistent(cfg, b, c) && Consistent(cfg, a, c)
    ensures Chains(FileCmp(cfg, a, b), FileCmp(cfg, b, c), FileCmp(cfg, a, c))
  {
    StrCaseCmpTransitive(a.basename, b.basename, c.basename);
    ExtensionCmpTransitive(a.basename, b.basename, c.basename);
    FileCmpZeroSoFar(cfg, a, b);
    FileCmpZeroSoFar(cfg, b, c);
    FileCmpZeroSoFar(cfg, a, c);
    if cfg.matchWithoutExtension && EqualSoFar(cfg, a, b) && EqualSoFar(cfg, b, c) {
      StemCmpTransitive(a.basename, b.basename, c.basename);
    }
  }

  /** The comparison of files, up to the names without their extensions. */
  function CmpSoFar(cfg: RmCfg, a: RmFile, b: RmFile): int {
    FileCmp(cfg.(matchWithoutExtension := false), a, b)
  }

  lemma FileCmpZeroSoFar(cfg: RmCfg, a: RmFile, b: RmFile)
    ensures CmpSoFar(cfg, a, b) == 0 <==> EqualSoFar(cfg, a, b)
    ensures FileCmp(cfg, a, b) == if CmpSoFar(cfg, a, b) != 0 then CmpSoFar(cfg, a, b)
                                  else if cfg.matchWithoutExtension then StemCmp(a.basename, b.basename) else 0
  {
    StrCaseCmpZero(a.basename, b.basename);
    SameExtension(a.basename, b.basename);
  }

  /** The results for a set of files are those of an order in which some may be equal. */
  ghost predicate IsOrder(files: set<RmFile>, cmp: (RmFile, RmFile) -> int) {
    && (forall a, b :: a in files && b in files ==> cmp(b, a) == -cmp(a, b))
    && (forall a, b, c :: a in files && b in files && c in files ==> Chains(cmp(a, b), cmp(b, c), cmp(a, c)))
  }

  ghost predicate AllConsistent(cfg: RmCfg, files: set<RmFile>) {
    forall a, b {:trigger Consistent(cfg, a, b)} :: a in files && b in files ==> Consistent(cfg, a, b)
  }

  /** The comparison orders a set of files if and only if any two of them are consistent. */
  lemma OrderedIffConsistent(cfg: RmCfg, files: set<RmFile>)
    ensures IsOrder(files, (a, b) => FileCmp(cfg, a, b)) <==> AllConsistent(cfg, files)
  {
    forall a, b | a in files && b in files
      ensures FileCmp(cfg, b, a) == -FileCmp(cfg, a, b) <==> Consistent(cfg, a, b)
    {
      FileCmpReverse(cfg, a, b);
    }
    if AllConsistent(cfg, files) {
      forall a, b, c | a in files && b in files && c in files
        ensures Chains(FileCmp(cfg, a, b), FileCmp(cfg, b, c), FileCmp(cfg, a, c))
      {
        assert Consistent(cfg, a, b) && Consistent(cfg, b, c) && Consistent(cfg, a, c);
        FileCmpTransitive(cfg, a, b, c);
      }
    }
    if IsOrder(files, (a, b) => FileCmp(cfg, a, b)) {
      var cmp := (a, b) => FileCmp(cfg, a, b);
      forall a, b | a in files && b in files ensures Consistent(cfg, a, b) {
        assert cmp(b, a) == -cmp(a, b);
      }
    }
  }

  predicate NearInTime(a: RmFile, b: RmFile) {
    FloatSignDiff(a.mtime, b.mtime, MTIME_TOL) == 0
  }

  /** A file that is near in time to two that are not near to each other does not turn them round by its rank. */
  predicate Bridged(cfg: RmCfg, a: RmFile, b: RmFile, c: RmFile) {
    cfg.mtimeWindow >= 0.0 && FileCmp(cfg, a, b) == 0 && FileCmp(cfg, b, c) == 0
    && NearInTime(a, b) && NearInTime(b, c) && c.mtime - a.mtime > MTIME_TOL
    ==> !(c.rank <= b.rank <= a.rank)
  }

  lemma FullChains(cfg: RmCfg, a: RmFile, b: RmFile, c: RmFile)
    requires AllConsistent(cfg, {a, b, c})
    requires Bridged(cfg, a, b, c) && Bridged(cfg, a, c, b) && Bridged(cfg, b, a, c) && Bridged(cfg, b, c, a)
    requires Bridged(cfg, c, a, b) && Bridged(cfg, c, b, a)
    ensures Chains(FileCmpFull(cfg, a, b), FileCmpFull(cfg, b, c), FileCmpFull(cfg, a, c))
  {
    assert Consistent(cfg, a, b) && Consistent(cfg, b, c) && Consistent(cfg, a, c);
    FileCmpTransitive(cfg, a, b, c);
    FileCmpReverse(cfg, a, b);
    FileCmpReverse(cfg, b, c);
    FileCmpReverse(cfg, a, c);
  }

  lemma FullBridges(cfg: RmCfg, a: RmFile, b: RmFile, c: RmFile)
    requires AllConsistent(cfg, {a, b, c})
    requires Chains(FileCmpFull(cfg, c, b), FileCmpFull(cfg, b, a), FileCmpFull(cfg, c, a))
    ensures Bridged(cfg, a, b, c)
  {
    assert Consistent(cfg, a, b) && Consistent(cfg, b, c) && Consistent(cfg, a, c);
    FileCmpTransitive(cfg, a, b, c);
    FileCmpReverse(cfg, a, b);
    FileCmpReverse(cfg, b, c);
    FileCmpReverse(cfg, a, c);
  }

  lemma SubsetConsistent(cfg: RmCfg, files: set<RmFile>, a: RmFile, b: RmFile, c: RmFile)
    requires AllConsistent(cfg, files) && a in files && b in files && c in files
    ensures AllConsistent(cfg, {a, b, c})
  {
    forall x, y | x in {a, b, c} && y in {a, b, c} ensures Consistent(cfg, x, y) {
      assert x in files && y in files;
    }
  }

  ghost predicate AllBridged(cfg: RmCfg, files: set<RmFile>) {
    forall a, b, c {:trigger Bridged(cfg, a, b, c)} :: a in files && b in files && c in files ==> Bridged(cfg, a, b, c)
  }

  /** Of consistent files, the comparison for sorting makes an order if and only if they are bridged. */
  lemma FullyOrderedIffBridged(cfg: RmCfg, files: set<RmFile>)
    requires AllConsistent(cfg, files)
    ensures IsOrder(files, (a, b) => FileCmpFull(cfg, a, b)) <==> AllBridged(cfg, files)
  {
    var cmp := (a, b) => FileCmpFull(cfg, a, b);
    if AllBridged(cfg, files) {
      forall a, b | a in files && b in files ensures cmp(b, a) == -cmp(a, b) {
        assert Consistent(cfg, a, b);
        FileCmpFullReverse(cfg, a, b);
      }
      forall a, b, c | a in files && b in files && c in files ensures Chains(cmp(a, b), cmp(b, c), cmp(a, c)) {
        FileCmpFullTransitive(cfg, files, a, b, c);
      }
    }
    if IsOrder(files, cmp) {
      forall a, b, c | a in files && b in files && c in files ensures Bridged(cfg, a, b, c) {
        assert Chains(cmp(c, b), cmp(b, a), cmp(c, a));
        SubsetConsistent(cfg, files, a, b, c);
        FullBridges(cfg, a, b, c);
      }
    }
  }

  lemma FileCmpFullTransitive(cfg: RmCfg, files: set<RmFile>, a: RmFile, b: RmFile, c: RmFile)
    requires AllConsistent(cfg, files) && AllBridged(cfg, files) && a in files && b in files && c in files
    ensures Chains(FileCmpFull(cfg, a, b), FileCmpFull(cfg, b, c), FileCmpFull(cfg, a, c))
  {
    SubsetConsistent(cfg, files, a, b, c);
    FullChains(cfg, a, b, c);
  }

  /** Times within the tolerance of each other need not be in any order. */
  lemma ToleranceHasNoOrder(cfg: RmCfg, f: RmFile)
    requires cfg.mtimeWindow >= 0.0 && Consistent(cfg, f, f)
    ensures var g, h := f.(mtime := f.mtime + 0.0000008), f.(mtime := f.mtime + 0.0000016);
      FileCmpFull(cfg, f, g) == 0 && FileCmpFull(cfg, g, h) == 0 && FileCmpFull(cfg, f, h) != 0
  {
    var g, h := f.(mtime := f.mtime + 0.0000008), f.(mtime := f.mtime + 0.0000016);
    SameGroup(cfg, f, g);
    SameGroup(cfg, g, h);
    SameGroup(cfg, f, h);
  }

  lemma FileCmpFullReverse(cfg: RmCfg, a: RmFile, b: RmFile)
    requires Consistent(cfg, a, b)
    ensures FileCmpFull(cfg, b, a) == -FileCmpFull(cfg, a, b)
  {
    FileCmpReverse(cfg, a, b);
  }

  /** Consistent files compare equal if and only if they have the same key. */
  lemma ConsistentSame(cfg: RmCfg, a: RmFile, b: RmFile)
    requires Consistent(cfg, a, b)
    ensures FileCmp(cfg, a, b) == 0 <==> KeyOf(cfg, a) == KeyOf(cfg, b)
  {
    SameGroup(cfg, a, b);
    if Overlooked(cfg, a, b) && cfg.matchBasename { assert false; }
  }

  // ----- sorting -----

  predicate InOrder(cfg: RmCfg, a: RmFile, b: RmFile) {
    FileCmpFull(cfg, a, b) <= 0
  }

  ghost predicate Sorted(cfg: RmCfg, s: seq<RmFile>) {
    forall i, j {:trigger InOrder(cfg, s[i], s[j])} :: 0 <= i < j < |s| ==> InOrder(cfg, s[i], s[j])
  }

  /** A stable sort, standing for `g_queue_sort`. */
  function Sort(cfg: RmCfg, s: seq<RmFile>): seq<RmFile> {
    if s == [] then [] else Insert(cfg, s[0], Sort(cfg, s[1..]))
  }

  function Insert(cfg: RmCfg, f: RmFile, s: seq<RmFile>): (r: seq<RmFile>)
    ensures multiset(r) == multiset(s) + multiset{f} && |r| == |s| + 1
  {
    if s == [] || FileCmpFull(cfg, f, s[0]) <= 0 then
      assert [f] + s == [f] + s;
      [f] + s
    else
      assert s == [s[0]] + s[1..];
      [s[0]] + Insert(cfg, f, s[1..])
  }

  lemma {:induction false} InsertSorted(cfg: RmCfg, files: set<RmFile>, f: RmFile, s: seq<RmFile>)
    requires AllConsistent(cfg, files) && AllBridged(cfg, files)
    requires Sorted(cfg, s) && f in files && forall x :: x in s ==> x in files
    ensures Sorted(cfg, Insert(cfg, f, s))
  {
    if s == [] || FileCmpFull(cfg, f, s[0]) <= 0 {
      forall j | 0 <= j < |s| ensures InOrder(cfg, f, s[j]) {
        assert j > 0 ==> InOrder(cfg, s[0], s[j]);
        FileCmpFullTransitive(cfg, files, f, s[0], s[j]);
      }
    } else {
      forall i, j | 0 <= i < j < |s| - 1 ensures InOrder(cfg, s[1..][i], s[1..][j]) {
        assert InOrder(cfg, s[i + 1], s[j + 1]);
      }
      InsertSorted(cfg, files, f, s[1..]);
      assert Consistent(cfg, f, s[0]);
      FileCmpFullReverse(cfg, f, s[0]);
      var t := Insert(cfg, f, s[1..]);
      forall j | 0 <= j < |t| ensures InOrder(cfg, s[0], t[j]) {
        assert t[j] in multiset(t);
        assert t[j] == f || t[j] in s[1..];
        if k :| 0 < k < |s| && s[k] == t[j] { assert InOrder(cfg, s[0], s[k]); }
      }
    }
  }

  lemma {:induction false} SortPermutes(cfg: RmCfg, s: seq<RmFile>)
    ensures multiset(Sort(cfg, s)) == multiset(s) && |Sort(cfg, s)| == |s|
  {
    if s != [] {
      SortPermutes(cfg, s[1..]);
      assert multiset(s) == multiset(s[1..]) + multiset{s[0]} by { assert s == [s[0]] + s[1..]; }
    }
  }

  /** Without an order to sort by nothing would be known about the result but that it is a permutation. */
  lemma {:induction false} SortSorts(cfg: RmCfg, files: set<RmFile>, s: seq<RmFile>)
    requires AllConsistent(cfg, files) && AllBridged(cfg, files) && forall x :: x in s ==> x in files
    ensures Sorted(cfg, Sort(cfg, s))
  {
    if s != [] {
      SortSorts(cfg, files, s[1..]);
      SortPermutes(cfg, s[1..]);
      forall x | x in Sort(cfg, s[1..]) ensures x in files { assert x in multiset(Sort(cfg, s[1..])); }
      InsertSorted(cfg, files, s[0], Sort(cfg, s[1..]));
    }
  }

  // ----- classes -----

  /** The options, and the files that are compared. */
  datatype Rules = Rules(cfg: RmCfg, files: set<RmFile>)

  /** No older file of its key is within the time window. */
  ghost predicate IsStart(r: Rules, x: RmFile) {
    forall y :: y in r.files && KeyOf(r.cfg, y) == KeyOf(r.cfg, x) && y.mtime < x.mtime ==>
      x.mtime - y.mtime > r.cfg.mtimeWindow
  }

  ghost function StartsUpTo(r: Rules, f: RmFile): set<RmFile> {
    set x | x in r.files && KeyOf(r.cfg, x) == KeyOf(r.cfg, f) && x.mtime <= f.mtime && IsStart(r, x)
  }

  datatype Class = Class(key: Key, epoch: nat)

  /** What the files of one group have in common: their key, and the number of gaps in time before them. */
  ghost function ClassOf(r: Rules, f: RmFile): Class {
    Class(KeyOf(r.cfg, f), if r.cfg.mtimeWindow >= 0.0 then |StartsUpTo(r, f)| else 0)
  }

  lemma SmallerSet<T>(a: set<T>, b: set<T>, x: T)
    requires a <= b && x in b && x !in a
    ensures |a| < |b|
  {
    var rest := b - a - {x};
    assert b == a + {x} + rest;
    assert |b| == |a + {x}| + |rest|;
  }

  /** A start between two files keeps them apart. */
  lemma StartSeparates(r: Rules, x: RmFile, start: RmFile, y: RmFile)
    requires start in r.files && IsStart(r, start) && r.cfg.mtimeWindow >= 0.0
    requires KeyOf(r.cfg, x) == KeyOf(r.cfg, start) == KeyOf(r.cfg, y) && x.mtime < start.mtime <= y.mtime
    ensures ClassOf(r, x) != ClassOf(r, y)
  {
    SmallerSet(StartsUpTo(r, x), StartsUpTo(r, y), start);
  }

  /** Two files that are not split are in one class. */
  lemma NearTogether(r: Rules, x: RmFile, y: RmFile)
    requires x in r.files && y in r.files && AllConsistent(r.cfg, r.files) && !Splits(r.cfg, x, y)
    ensures ClassOf(r, x) == ClassOf(r, y)
  {
    assert Consistent(r.cfg, x, y);
    ConsistentSame(r.cfg, x, y);
    if r.cfg.mtimeWindow >= 0.0 {
      var a, b := StartsUpTo(r, x), StartsUpTo(r, y);
      forall z ensures z in a <==> z in b {}
      assert a == b;
    }
  }

  ghost predicate Near(r: Rules, x: RmFile, y: RmFile) {
    x in r.files && y in r.files && !Splits(r.cfg, x, y)
  }

  /** A chain of files of which neighbours compare equal and are within the time window. */
  ghost predicate Linked(r: Rules, chain: seq<RmFile>, f: RmFile, h: RmFile) {
    && chain != [] && chain[0] == f && chain[|chain| - 1] == h
    && forall i, j :: 0 <= i && j == i + 1 < |chain| ==> Near(r, chain[i], chain[j])
  }

  lemma {:induction false} LinkedTogether(r: Rules, chain: seq<RmFile>, f: RmFile, h: RmFile)
    requires Linked(r, chain, f, h) && AllConsistent(r.cfg, r.files)
    ensures ClassOf(r, f) == ClassOf(r, h)
    decreases |chain|
  {
    var n := |chain| - 1;
    if n > 0 {
      assert Near(r, chain[n - 1], chain[n]);
      NearTogether(r, chain[n - 1], chain[n]);
      LinkedTogether(r, chain[..n], f, chain[n - 1]);
    }
  }

  /** Files before a time. */
  ghost function Before(r: Rules, h: RmFile): set<RmFile> {
    set x | x in r.files && x.mtime < h.mtime
  }

  /** Files of one class are joined by a chain, here going back in time. */
  lemma {:induction false} TogetherLinked(r: Rules, f: RmFile, h: RmFile) returns (chain: seq<RmFile>)
    requires f in r.files && h in r.files && ClassOf(r, f) == ClassOf(r, h) && f.mtime <= h.mtime
    requires AllConsistent(r.cfg, r.files)
    ensures Linked(r, chain, f, h)
    decreases |Before(r, h)|
  {
    assert Consistent(r.cfg, f, h);
    ConsistentSame(r.cfg, f, h);
    if !Splits(r.cfg, f, h) {
      chain := [f, h];
    } else {
      if IsStart(r, h) { StartSeparates(r, f, h, h); }
      var y :| y in r.files && KeyOf(r.cfg, y) == KeyOf(r.cfg, h) && y.mtime < h.mtime
               && h.mtime - y.mtime <= r.cfg.mtimeWindow;
      assert Consistent(r.cfg, y, h);
      ConsistentSame(r.cfg, y, h);
      NearTogether(r, y, h);
      SmallerSet(Before(r, y), Before(r, h), y);
      var rest := TogetherLinked(r, f, y);
      chain := rest + [h];
      assert Near(r, y, h) && rest[|rest| - 1] == y;
    }
  }

  ghost predicate AreLinked(r: Rules, f: RmFile, h: RmFile) {
    exists chain :: Linked(r, chain, f, h)
  }

  lemma Turned(r: Rules, chain: seq<RmFile>, f: RmFile, h: RmFile)
    requires Linked(r, chain, f, h) && AllConsistent(r.cfg, r.files)
    ensures AreLinked(r, h, f)
  {
    var n := |chain|;
    var back := seq(n, i requires 0 <= i < n => chain[n - 1 - i]);
    forall i | 0 <= i < n - 1 ensures Near(r, back[i], back[i + 1]) {
      assert Near(r, chain[n - 2 - i], chain[n - 1 - i]);
      assert Consistent(r.cfg, chain[n - 2 - i], chain[n - 1 - i]);
      FileCmpReverse(r.cfg, chain[n - 2 - i], chain[n - 1 - i]);
    }
    assert Linked(r, back, h, f);
  }

  lemma ClassIffLinked(r: Rules, f: RmFile, h: RmFile)
    requires f in r.files && h in r.files && AllConsistent(r.cfg, r.files)
    ensures ClassOf(r, f) == ClassOf(r, h) <==> AreLinked(r, f, h)
  {
    if AreLinked(r, f, h) {
      var chain :| Linked(r, chain, f, h);
      LinkedTogether(r, chain, f, h);
    }
    if ClassOf(r, f) == ClassOf(r, h) {
      if f.mtime <= h.mtime {
        var chain := TogetherLinked(r, f, h);
      } else {
        var chain := TogetherLinked(r, h, f);
        Turned(r, chain, h, f);
      }
    }
  }

  // ----- one inode -----

  datatype PathKey = PathKey(node: Node, basename: string, parentInode: nat)

  /** What makes two entries the same path (`rm_path_double_equal`). */
  function PathOf(f: RmFile): PathKey {
    PathKey(f.node, f.basename, f.parentInode)
  }

  /** The entries have one name in one directory, and are one inode. */
  predicate SamePath(a: RmFile, b: RmFile) {
    && a.node.inode == b.node.inode && a.node.dev == b.node.dev
    && a.parentInode == b.parentInode && a.basename == b.basename
  }

  /** File `i` repeats the path of an earlier file, and such files are dropped. */
  ghost predicate PathDouble(cfg: RmCfg, cluster: seq<RmFile>, i: nat)
    requires i < |cluster|
  {
    !cfg.runEqualMode && exists j :: 0 <= j < i && SamePath(cluster[j], cluster[i])
  }

  /** Of the first `n` files, those that are not path doubles. */
  ghost function Uniques(cfg: RmCfg, cluster: seq<RmFile>, n: nat): seq<RmFile>
    requires n <= |cluster|
  {
    if n == 0 then []
    else Uniques(cfg, cluster, n - 1) + if PathDouble(cfg, cluster, n - 1) then [] else [cluster[n - 1]]
  }

  /** Of the first `n` files, the duplicate candidates. */
  function Candidates(files: seq<RmFile>, n: nat): seq<RmFile>
    requires n <= |files|
  {
    if n == 0 then []
    else Candidates(files, n - 1) + if files[n - 1].lint.DupeCandidate? then [files[n - 1]] else []
  }

  /** Other lint that is set aside for the results, and not too old or protected. */
  predicate SetAside(cfg: RmCfg, f: RmFile) {
    && !f.lint.DupeCandidate?
    && !(cfg.minMtime.Some? && f.mtime < cfg.minMtime.value)
    && !(cfg.keepAllTagged && f.isPrefd) && !(cfg.keepAllUntagged && !f.isPrefd)
  }

  /** Of the first `n` files, those that are set aside, the last one first. */
  function Aside(cfg: RmCfg, files: seq<RmFile>, n: nat): seq<RmFile>
    requires n <= |files|
  {
    if n == 0 then []
    else (if SetAside(cfg, files[n - 1]) then [files[n - 1]] else []) + Aside(cfg, files, n - 1)
  }

  lemma {:induction false} AsideMembers(cfg: RmCfg, files: seq<RmFile>, n: nat)
    requires n <= |files|
    ensures forall x :: x in Aside(cfg, files, n) <==> x in files[..n] && SetAside(cfg, x)
  {
    if n > 0 {
      AsideMembers(cfg, files, n - 1);
      assert files[..n] == files[..n - 1] + [files[n - 1]];
    }
  }

  lemma {:induction false} UniqueMembers(cfg: RmCfg, cluster: seq<RmFile>, n: nat)
    requires n <= |cluster|
    ensures forall x :: x in Uniques(cfg, cluster, n) <==>
      exists i :: 0 <= i < n && cluster[i] == x && !PathDouble(cfg, cluster, i)
  {
    if n > 0 {
      UniqueMembers(cfg, cluster, n - 1);
      var u := Uniques(cfg, cluster, n - 1);
      forall x
        ensures x in Uniques(cfg, cluster, n) <==> x in u || (x == cluster[n - 1] && !PathDouble(cfg, cluster, n - 1))
      {}
    }
  }

  /** Of the first `n` files, the candidates that are not path doubles. */
  ghost function Survivors(cfg: RmCfg, cluster: seq<RmFile>, n: nat): seq<RmFile>
    requires n <= |cluster|
  {
    if n == 0 then []
    else Survivors(cfg, cluster, n - 1) + if Eligible(cfg, cluster, n - 1) then [cluster[n - 1]] else []
  }

  ghost predicate Eligible(cfg: RmCfg, cluster: seq<RmFile>, i: nat)
    requires i < |cluster|
  {
    cluster[i].lint.DupeCandidate? && !PathDouble(cfg, cluster, i)
  }

  /** The file that stands for an inode, if any: its first candidate that is not a path double. */
  ghost function Representative(cfg: RmCfg, cluster: seq<RmFile>): (r: seq<RmFile>)
    ensures |r| <= 1
  {
    var left := Survivors(cfg, cluster, |cluster|);
    if left == [] then [] else [left[0]]
  }

  ghost predicate FirstEligible(cfg: RmCfg, cluster: seq<RmFile>, i: nat)
    requires i < |cluster|
  {
    Eligible(cfg, cluster, i) && forall j :: 0 <= j < i ==> !Eligible(cfg, cluster, j)
  }

  lemma {:induction false} FirstSurvivor(cfg: RmCfg, cluster: seq<RmFile>, n: nat)
    requires n <= |cluster|
    ensures Survivors(cfg, cluster, n) == [] ==> forall i :: 0 <= i < n ==> !Eligible(cfg, cluster, i)
    ensures Survivors(cfg, cluster, n) != [] ==>
      exists i :: 0 <= i < n && FirstEligible(cfg, cluster, i) && cluster[i] == Survivors(cfg, cluster, n)[0]
  {
    if n > 0 {
      FirstSurvivor(cfg, cluster, n - 1);
      if Survivors(cfg, cluster, n - 1) == [] && Eligible(cfg, cluster, n - 1) {
        assert FirstEligible(cfg, cluster, n - 1);
      }
    }
  }

  /** An inode keeps a file iff one is eligible, and it is the first such file. */
  lemma RepresentativeIsFirst(cfg: RmCfg, cluster: seq<RmFile>)
    ensures Representative(cfg, cluster) == [] <==> forall i :: 0 <= i < |cluster| ==> !Eligible(cfg, cluster, i)
    ensures forall f :: f in Representative(cfg, cluster) ==>
      exists i :: 0 <= i < |cluster| && FirstEligible(cfg, cluster, i) && f == cluster[i]
  {
    FirstSurvivor(cfg, cluster, |cluster|);
  }

  lemma {:induction false} CandidatesPrefix(files: seq<RmFile>, more: seq<RmFile>, n: nat)
    requires n <= |files|
    ensures Candidates(files + more, n) == Candidates(files, n)
  {
    if n > 0 { CandidatesPrefix(files, more, n - 1); }
  }

  lemma {:induction false} CandidatesOfUniques(cfg: RmCfg, cluster: seq<RmFile>, n: nat)
    requires n <= |cluster|
    ensures var u := Uniques(cfg, cluster, n); Candidates(u, |u|) == Survivors(cfg, cluster, n)
  {
    if n > 0 {
      CandidatesOfUniques(cfg, cluster, n - 1);
      var u, last := Uniques(cfg, cluster, n - 1), [cluster[n - 1]];
      CandidatesPrefix(u, last, |u|);
      if PathDouble(cfg, cluster, n - 1) {
        assert u + [] == u;
      } else {
        assert |u + last| == |u| + 1 && (u + last)[|u|] == cluster[n - 1];
      }
    }
  }

  lemma {:induction false} NoDoubles(cfg: RmCfg, cluster: seq<RmFile>, n: nat)
    requires n <= |cluster| && (|cluster| <= 1 || cfg.runEqualMode)
    ensures Uniques(cfg, cluster, n) == cluster[..n]
  {
    if n > 0 {
      NoDoubles(cfg, cluster, n - 1);
      assert cluster[..n] == cluster[..n - 1] + [cluster[n - 1]];
    }
  }

  /** The files of one group and one inode, in order. */
  ghost function Twins(r: Rules, files: seq<RmFile>, kind: Class, node: Node): seq<RmFile> {
    if files == [] then []
    else
      var last := files[|files| - 1];
      Twins(r, files[..|files| - 1], kind, node)
      + if ClassOf(r, last) == kind && last.node == node then [last] else []
  }

  lemma {:induction false} TwinsMembers(r: Rules, files: seq<RmFile>, kind: Class, node: Node)
    ensures forall f :: f in Twins(r, files, kind, node) <==> f in files && ClassOf(r, f) == kind && f.node == node
  {
    if files != [] {
      var init, last := files[..|files| - 1], files[|files| - 1];
      TwinsMembers(r, init, kind, node);
      assert forall f :: f in files <==> f in init || f == last;
    }
  }

  function SumLengths(groups: seq<seq<RmFile>>): nat {
    if groups == [] then 0 else |groups[0]| + SumLengths(groups[1..])
  }

  // ----- what the groups should be -----

  /** `f` stands for its inode among the files of its group. */
  ghost predicate Represents(r: Rules, files: seq<RmFile>, f: RmFile) {
    Representative(r.cfg, Twins(r, files, ClassOf(r, f), f.node)) == [f]
  }

  ghost predicate DistinctNodes(group: seq<RmFile>) {
    forall i, j :: 0 <= i < j < |group| ==> group[i].node != group[j].node
  }

  ghost predicate SameClass(r: Rules, group: seq<RmFile>, kind: Class) {
    forall f :: f in group ==> ClassOf(r, f) == kind
  }

  /** A group holds exactly the representatives of a run, one an inode. */
  ghost predicate GroupOk(r: Rules, run: seq<RmFile>, group: seq<RmFile>) {
    (forall f :: f in group <==> Represents(r, run, f)) && DistinctNodes(group)
  }

  ghost predicate InSome(groups: seq<seq<RmFile>>, f: RmFile) {
    exists i :: 0 <= i < |groups| && f in groups[i]
  }

  /** Different groups are of different classes. */
  ghost predicate Apart(r: Rules, a: seq<RmFile>, b: seq<RmFile>) {
    forall f, h {:trigger Differ(r, f, h)} :: f in a && h in b ==> Differ(r, f, h)
  }

  ghost predicate Differ(r: Rules, f: RmFile, h: RmFile) {
    ClassOf(r, f) != ClassOf(r, h)
  }

  /**
   * The groups are the classes, cut down to the representatives: no group is empty, an inode
   * is in a group at most once, and files are together iff they are of one class.
   */
  ghost predicate SplitOk(r: Rules, files: seq<RmFile>, groups: seq<seq<RmFile>>) {
    && (forall f :: InSome(groups, f) <==> Represents(r, files, f))
    && (forall i :: 0 <= i < |groups| ==>
          groups[i] != [] && DistinctNodes(groups[i]) && SameClass(r, groups[i], ClassOf(r, groups[i][0])))
    && (forall i, j :: 0 <= i < j < |groups| ==> Apart(r, groups[i], groups[j]))
  }

  ghost function TwinsOf(r: Rules, files: seq<RmFile>, f: RmFile): seq<RmFile> {
    Twins(r, files, ClassOf(r, f), f.node)
  }

  /** The candidates of the file's inode that are not path doubles. */
  ghost function LinksOf(r: Rules, files: seq<RmFile>, f: RmFile): seq<RmFile> {
    Survivors(r.cfg, TwinsOf(r, files, f), |TwinsOf(r, files, f)|)
  }

  /** The file stands for its inode, and bundles its hardlinks. */
  ghost predicate IsHead(r: Rules, files: seq<RmFile>, f: RmFile) {
    Represents(r, files, f) && r.cfg.findHardlinkedDupes && |LinksOf(r, files, f)| > 1
  }

  /** Other lint that no other file of the same path came before. */
  ghost predicate IsAside(r: Rules, files: seq<RmFile>, x: RmFile) {
    var twins := TwinsOf(r, files, x);
    && !x.lint.DupeCandidate? && (r.cfg.minMtime.None? || x.mtime >= r.cfg.minMtime.value)
    && (x.isPrefd ==> !r.cfg.keepAllTagged) && (!x.isPrefd ==> !r.cfg.keepAllUntagged)
    && exists i :: 0 <= i < |twins| && twins[i] == x && !PathDouble(r.cfg, twins, i)
  }

  /** The files that bundle hardlinks, with these. */
  ghost function HeadsOf(r: Rules, files: seq<RmFile>): map<RmFile, seq<RmFile>> {
    map f | f in files && IsHead(r, files, f) :: LinksOf(r, files, f)
  }

  ghost function AsideOf(r: Rules, files: seq<RmFile>): set<RmFile> {
    set x | x in files && IsAside(r, files, x)
  }

  /** Exactly the files that bundle hardlinks have their hardlinks, and exactly the other lint is set aside. */
  ghost predicate Filed(r: Rules, files: seq<RmFile>, links: map<RmFile, seq<RmFile>>, lint: seq<RmFile>) {
    links == HeadsOf(r, files) && Elements(lint) == AsideOf(r, files)
  }

  lemma {:induction false} TwinsConcat(r: Rules, a: seq<RmFile>, b: seq<RmFile>, kind: Class, node: Node)
    ensures Twins(r, a + b, kind, node) == Twins(r, a, kind, node) + Twins(r, b, kind, node)
  {
    if b == [] {
      assert a + b == a;
    } else {
      var init, last := b[..|b| - 1], b[|b| - 1];
      TwinsConcat(r, a, init, kind, node);
      assert (a + b)[..|a + b| - 1] == a + init;
      ConcatAssociative(Twins(r, a, kind, node), Twins(r, init, kind, node),
                        if ClassOf(r, last) == kind && last.node == node then [last] else []);
    }
  }

  lemma RepresentsIsIn(r: Rules, files: seq<RmFile>, f: RmFile)
    requires Represents(r, files, f)
    ensures f in files && f.lint.DupeCandidate?
  {
    var twins := Twins(r, files, ClassOf(r, f), f.node);
    TwinsMembers(r, files, ClassOf(r, f), f.node);
    RepresentativeIsFirst(r.cfg, twins);
    assert f in Representative(r.cfg, twins);
    var i :| 0 <= i < |twins| && FirstEligible(r.cfg, twins, i) && f == twins[i];
    assert f in twins;
  }

  ghost predicate ClassIn(r: Rules, files: seq<RmFile>, kind: Class) {
    exists f :: f in files && ClassOf(r, f) == kind
  }

  lemma {:induction false} NoTwins(r: Rules, files: seq<RmFile>, kind: Class, node: Node)
    requires !ClassIn(r, files, kind)
    ensures Twins(r, files, kind, node) == []
  {
    if files != [] {
      var init, last := files[..|files| - 1], files[|files| - 1];
      assert last in files && forall f :: f in init ==> f in files;
      NoTwins(r, init, kind, node);
    }
  }

  /** Files of other classes do not matter. */
  lemma RepresentsConcat(r: Rules, a: seq<RmFile>, b: seq<RmFile>, f: RmFile)
    requires Apart(r, a, b)
    ensures Represents(r, a + b, f) <==> Represents(r, a, f) || Represents(r, b, f)
  {
    var kind := ClassOf(r, f);
    TwinsConcat(r, a, b, kind, f.node);
    var ta, tb := Twins(r, a, kind, f.node), Twins(r, b, kind, f.node);
    if x :| x in a && ClassOf(r, x) == kind {
      forall y | y in b ensures ClassOf(r, y) != kind { assert Differ(r, x, y); }
    }
    if ClassIn(r, a, kind) { NoTwins(r, b, kind, f.node); } else { NoTwins(r, a, kind, f.node); }
    assert ta + tb == if ta == [] then tb else ta;
    assert Survivors(r.cfg, [], 0) == [];
  }

  lemma InSomeOf(groups: seq<seq<RmFile>>, group: seq<RmFile>, f: RmFile)
    ensures InSome([group] + groups, f) <==> f in group || InSome(groups, f)
  {
    var all := [group] + groups;
    if InSome(groups, f) {
      var i :| 0 <= i < |groups| && f in groups[i];
      assert f in all[i + 1];
    }
    if f in group { assert all[0] == group; }
  }

  /** One more run of equal files becomes one more group, or none. */
  lemma AddGroup(r: Rules, before: seq<RmFile>, run: seq<RmFile>, groups: seq<seq<RmFile>>,
                 group: seq<RmFile>, kind: Class)
    requires SplitOk(r, before, groups) && GroupOk(r, run, group)
    requires SameClass(r, run, kind) && Apart(r, before, run)
    ensures SplitOk(r, before + run, if group == [] then groups else [group] + groups)
  {
    var all := [group] + groups;
    forall f ensures InSome(all, f) <==> Represents(r, before + run, f) {
      RepresentsConcat(r, before, run, f);
      InSomeOf(groups, group, f);
    }
    if group == [] {
      forall f ensures InSome(all, f) <==> InSome(groups, f) { InSomeOf(groups, group, f); }
    } else {
      forall f | f in group ensures f in run { RepresentsIsIn(r, run, f); }
      assert group[0] in group;
      forall j | 0 <= j < |groups| ensures Apart(r, group, groups[j]) {
        ApartFromOld(r, before, run, groups, group, j);
      }
    }
  }

  lemma ApartFromOld(r: Rules, before: seq<RmFile>, run: seq<RmFile>, groups: seq<seq<RmFile>>,
                     group: seq<RmFile>, j: nat)
    requires SplitOk(r, before, groups) && Apart(r, before, run) && j < |groups|
    requires forall f :: f in group ==> f in run
    ensures Apart(r, group, groups[j])
  {
    forall h | h in groups[j] ensures h in before {
      assert InSome(groups, h);
      RepresentsIsIn(r, before, h);
    }
    forall f, h | f in group && h in groups[j] ensures Differ(r, f, h) { assert Differ(r, h, f); }
  }

  /** An inode whose files include an eligible one is in its group. */
  lemma NoInodeLost(r: Rules, files: seq<RmFile>, groups: seq<seq<RmFile>>, kind: Class, node: Node, i: nat)
    requires SplitOk(r, files, groups)
    requires i < |Twins(r, files, kind, node)| && Eligible(r.cfg, Twins(r, files, kind, node), i)
    ensures exists f :: InSome(groups, f) && ClassOf(r, f) == kind && f.node == node
  {
    var twins := Twins(r, files, kind, node);
    TwinsMembers(r, files, kind, node);
    RepresentativeIsFirst(r.cfg, twins);
    var f := Representative(r.cfg, twins)[0];
    assert f in Representative(r.cfg, twins);
    assert f in twins;
    assert Represents(r, files, f);
  }

  lemma TogetherIffSameClass(r: Rules, files: seq<RmFile>, groups: seq<seq<RmFile>>, f: RmFile, h: RmFile)
    requires SplitOk(r, files, groups) && InSome(groups, f) && InSome(groups, h)
    ensures Together(groups, f, h) <==> ClassOf(r, f) == ClassOf(r, h)
  {
    var i :| 0 <= i < |groups| && f in groups[i];
    var j :| 0 <= j < |groups| && h in groups[j];
    if i != j {
      assert Apart(r, groups[Min(i, j)], groups[Max(i, j)]);
      assert if i < j then Differ(r, f, h) else Differ(r, h, f);
    }
    if ClassOf(r, f) != ClassOf(r, h) {
      forall k | 0 <= k < |groups| ensures !(f in groups[k] && h in groups[k]) {
        assert SameClass(r, groups[k], ClassOf(r, groups[k][0]));
      }
    }
  }

  predicate Together(groups: seq<seq<RmFile>>, f: RmFile, h: RmFile) {
    exists i :: 0 <= i < |groups| && f in groups[i] && h in groups[i]
  }

  /**
   * Two kept files share a group iff they are joined by a chain of files of which neighbours compare equal
   * and are within the time window; without a window, iff they compare equal.
   */
  lemma TogetherIffLinked(r: Rules, files: seq<RmFile>, groups: seq<seq<RmFile>>, f: RmFile, h: RmFile)
    requires SplitOk(r, files, groups) && InSome(groups, f) && InSome(groups, h)
    requires AllConsistent(r.cfg, r.files) && Elements(files) == r.files
    ensures Together(groups, f, h) <==> AreLinked(r, f, h)
    ensures r.cfg.mtimeWindow < 0.0 ==> (Together(groups, f, h) <==> FileCmp(r.cfg, f, h) == 0)
  {
    RepresentsIsIn(r, files, f);
    RepresentsIsIn(r, files, h);
    assert f in Elements(files) && h in Elements(files);
    assert Consistent(r.cfg, f, h);
    TogetherIffSameClass(r, files, groups, f, h);
    ClassIffLinked(r, f, h);
    ConsistentSame(r.cfg, f, h);
  }

  /**
   * Of the files, `a` and `b` can become neighbours in the sorted list and are split, although `l`, which can
   * come to stand before them or at `a`, and `r`, after them or at `b`, belong together.
   */
  predicate Torn(cfg: RmCfg, files: set<RmFile>, a: RmFile, b: RmFile, l: RmFile, r: RmFile) {
    && Splits(cfg, b, a) && !Splits(cfg, l, r) && l != r && l != b && r != a
    && InOrder(cfg, l, a) && InOrder(cfg, a, b) && InOrder(cfg, b, r)
    && forall c :: c in files ==> !(FileCmpFull(cfg, a, c) < 0 && FileCmpFull(cfg, c, b) < 0)
  }

  ghost predicate NoneTorn(cfg: RmCfg, files: set<RmFile>) {
    forall a, b, l, r {:trigger Torn(cfg, files, a, b, l, r)} ::
      a in files && b in files && l in files && r in files ==> !Torn(cfg, files, a, b, l, r)
  }

  /** The comparison puts these files in order, and no group is torn, in whatever order the files came. */
  ghost predicate Sortable(cfg: RmCfg, files: set<RmFile>) {
    AllConsistent(cfg, files) && AllBridged(cfg, files) && NoneTorn(cfg, files)
  }

  /** The files in an order that a sort can leave them in. */
  ghost predicate Listing(r: Rules, s: seq<RmFile>) {
    Sorted(r.cfg, s) && NoDup(s) && Elements(s) == r.files
  }

  /** The list is sorted, and holds the files that are compared. */
  ghost predicate SortedFiles(r: Rules, s: seq<RmFile>) {
    Listing(r, s) && Sortable(r.cfg, r.files)
  }

  /** A chain that begins before a position and ends after it crosses it somewhere. */
  lemma {:induction false} Crossing(r: Rules, s: seq<RmFile>, p: nat, chain: seq<RmFile>, i: nat, j: nat)
    returns (x: nat, y: nat)
    requires i < p <= j < |s| && NoDup(s) && Elements(s) == r.files && Linked(r, chain, s[i], s[j])
    ensures x < p <= y < |s| && Near(r, s[x], s[y])
    decreases |chain|
  {
    var n := |chain| - 1;
    if n == 0 {
      assert false;
    } else {
      assert Near(r, chain[n - 1], chain[n]);
      assert chain[n - 1] in Elements(s);
      var k :| 0 <= k < |s| && s[k] == chain[n - 1];
      if k < p { x, y := k, j; } else { x, y := Crossing(r, s, p, chain[..n], i, k); }
    }
  }

  lemma InListOrder(r: Rules, s: seq<RmFile>, i: nat, j: nat)
    requires Listing(r, s) && AllConsistent(r.cfg, r.files) && i <= j < |s|
    ensures InOrder(r.cfg, s[i], s[j]) && FileCmpFull(r.cfg, s[j], s[i]) >= 0
  {
    assert s[i] in Elements(s) && s[j] in Elements(s);
    assert Consistent(r.cfg, s[i], s[j]);
    FileCmpFullReverse(r.cfg, s[i], s[j]);
    if i < j { assert InOrder(r.cfg, s[i], s[j]); }
  }

  /** A link across a split tears a group. */
  lemma AcrossTorn(r: Rules, s: seq<RmFile>, p: nat, x: nat, y: nat)
    requires Listing(r, s) && AllConsistent(r.cfg, r.files)
    requires x < p <= y < |s| && Splits(r.cfg, s[p], s[p - 1]) && Near(r, s[x], s[y])
    ensures Torn(r.cfg, r.files, s[p - 1], s[p], s[x], s[y])
  {
    InListOrder(r, s, x, p - 1);
    InListOrder(r, s, p - 1, p);
    InListOrder(r, s, p, y);
    forall c | c in r.files ensures !(FileCmpFull(r.cfg, s[p - 1], c) < 0 && FileCmpFull(r.cfg, c, s[p]) < 0) {
      NoneBetween(r, s, p, c);
    }
  }

  lemma NoneBetween(r: Rules, s: seq<RmFile>, p: nat, c: RmFile)
    requires Listing(r, s) && AllConsistent(r.cfg, r.files) && 0 < p < |s| && c in r.files
    ensures FileCmpFull(r.cfg, s[p - 1], c) >= 0 || FileCmpFull(r.cfg, c, s[p]) >= 0
  {
    assert c in Elements(s);
    var q :| 0 <= q < |s| && s[q] == c;
    if q < p { InListOrder(r, s, q, p - 1); } else { InListOrder(r, s, p, q); }
  }

  lemma Across(r: Rules, s: seq<RmFile>, p: nat, i: nat, j: nat)
    requires SortedFiles(r, s) && i < p <= j < |s| && Splits(r.cfg, s[p], s[p - 1])
    ensures ClassOf(r, s[i]) != ClassOf(r, s[j])
  {
    assert s[i] in Elements(s) && s[j] in Elements(s) && s[p - 1] in Elements(s) && s[p] in Elements(s);
    if ClassOf(r, s[i]) == ClassOf(r, s[j]) {
      ClassIffLinked(r, s[i], s[j]);
      var chain :| Linked(r, chain, s[i], s[j]);
      var x, y := Crossing(r, s, p, chain, i, j);
      AcrossTorn(r, s, p, x, y);
    }
  }

  /** In a sorted list, a split between neighbours separates everything before from everything after. */
  lemma Boundary(r: Rules, s: seq<RmFile>, p: nat)
    requires SortedFiles(r, s) && 0 < p < |s| && Splits(r.cfg, s[p], s[p - 1])
    ensures Apart(r, s[..p], s[p..])
  {
    forall f, h | f in s[..p] && h in s[p..] ensures Differ(r, f, h) {
      var i :| 0 <= i < p && s[i] == f;
      var j :| p <= j < |s| && s[j] == h;
      Across(r, s, p, i, j);
    }
  }

  /** A run that the list's end or a difference closes is apart from what came before and what follows. */
  lemma RunEnds(r: Rules, s: seq<RmFile>, b: nat, p: nat)
    requires SortedFiles(r, s) && b < p <= |s| && Apart(r, s[..b], s[b..])
    requires p < |s| ==> Splits(r.cfg, s[p], s[p - 1])
    ensures Apart(r, s[..b], s[b..p]) && Apart(r, s[..p], s[p..])
  {
    forall f | f in s[b..p] ensures f in s[b..] {
      var i :| b <= i < p && s[i] == f;
      assert s[b..][i - b] == f;
    }
    if p < |s| { Boundary(r, s, p); }
  }

  lemma RunDone(r: Rules, s: seq<RmFile>, b: nat, p: nat, groups: seq<seq<RmFile>>, group: seq<RmFile>, kind: Class)
    requires SortedFiles(r, s) && b < p <= |s| && Apart(r, s[..b], s[b..])
    requires p < |s| ==> Splits(r.cfg, s[p], s[p - 1])
    requires SplitOk(r, s[..b], groups) && GroupOk(r, s[b..p], group) && SameClass(r, s[b..p], kind)
    ensures Apart(r, s[..p], s[p..])
    ensures SplitOk(r, s[..p], if group == [] then groups else [group] + groups)
  {
    RunEnds(r, s, b, p);
    AddGroup(r, s[..b], s[b..p], groups, group, kind);
    assert s[..b] + s[b..p] == s[..p];
  }

  lemma NothingYet(r: Rules, s: seq<RmFile>)
    ensures Apart(r, s[..0], s[0..]) && SplitOk(r, s[..0], [])
  {
    forall f ensures !Represents(r, s[..0], f) {
      if Represents(r, s[..0], f) { RepresentsIsIn(r, s[..0], f); }
    }
  }

  lemma RunGoesOn(r: Rules, s: seq<RmFile>, p: nat)
    requires SortedFiles(r, s) && p + 1 < |s| && !Splits(r.cfg, s[p + 1], s[p])
    ensures ClassOf(r, s[p + 1]) == ClassOf(r, s[p])
  {
    assert s[p] in Elements(s) && s[p + 1] in Elements(s);
    NearTogether(r, s[p + 1], s[p]);
  }

  lemma RunGrows(s: seq<RmFile>, b: nat, p: nat)
    requires b <= p < |s|
    ensures s[b..p] + [s[p]] == s[b..p + 1]
  {}

  lemma SameElements(a: seq<RmFile>, b: seq<RmFile>)
    requires multiset(a) == multiset(b) && |a| == |b|
    ensures Elements(a) == Elements(b) && (NoDup(a) ==> NoDup(b))
  {
    forall x ensures x in a <==> x in b { assert x in multiset(a) <==> x in multiset(b); }
    if NoDup(a) {
      NoDupCardinality(a);
      CardinalityNoDup(b);
    }
  }

  lemma Member<T>(s: seq<T>)
    requires s != []
    ensures s[0] in s
  {}

  // ----- when the groups are right -----

  ghost predicate Cut(cfg: RmCfg, s: seq<RmFile>, p: nat)
    requires 0 < p < |s|
  {
    Splits(cfg, s[p], s[p - 1])
  }

  /** Nothing splits the list between two positions. */
  ghost predicate OneRun(cfg: RmCfg, s: seq<RmFile>, i: nat, j: nat)
    requires i <= j < |s|
  {
    forall p {:trigger Cut(cfg, s, p)} :: i < p <= j ==> !Cut(cfg, s, p)
  }

  /** Files are in one run of the list iff they are joined by a chain. */
  ghost predicate RunsAreClasses(r: Rules, s: seq<RmFile>) {
    forall i, j {:trigger OneRun(r.cfg, s, i, j)} ::
      0 <= i <= j < |s| ==> (OneRun(r.cfg, s, i, j) <==> AreLinked(r, s[i], s[j]))
  }

  lemma {:induction false} RunLinked(r: Rules, s: seq<RmFile>, i: nat, j: nat)
    requires Elements(s) == r.files && AllConsistent(r.cfg, r.files) && i <= j < |s| && OneRun(r.cfg, s, i, j)
    ensures ClassOf(r, s[i]) == ClassOf(r, s[j])
  {
    if i < j {
      assert s[j - 1] in Elements(s) && s[j] in Elements(s);
      RunLinked(r, s, i, j - 1);
      assert !Cut(r.cfg, s, j);
      NearTogether(r, s[j], s[j - 1]);
    }
  }

  lemma RightIfNoneTorn(r: Rules, s: seq<RmFile>)
    requires SortedFiles(r, s)
    ensures RunsAreClasses(r, s)
  {
    forall i, j | 0 <= i <= j < |s| ensures OneRun(r.cfg, s, i, j) <==> AreLinked(r, s[i], s[j]) {
      RunIffLinked(r, s, i, j);
    }
  }

  lemma RunIffLinked(r: Rules, s: seq<RmFile>, i: nat, j: nat)
    requires SortedFiles(r, s) && i <= j < |s|
    ensures OneRun(r.cfg, s, i, j) <==> AreLinked(r, s[i], s[j])
  {
    assert s[i] in Elements(s) && s[j] in Elements(s);
    ClassIffLinked(r, s[i], s[j]);
    if OneRun(r.cfg, s, i, j) {
      RunLinked(r, s, i, j);
    } else {
      var p: nat :| i < p <= j && Cut(r.cfg, s, p);
      Across(r, s, p, i, j);
    }
  }

  /** Any of the files can be listed in order. */
  lemma {:induction false} ListOf(cfg: RmCfg, files: set<RmFile>, some: set<RmFile>) returns (s: seq<RmFile>)
    requires AllConsistent(cfg, files) && AllBridged(cfg, files) && some <= files
    ensures Listing(Rules(cfg, some), s)
    decreases |some|
  {
    s := [];
    if some != {} {
      var f :| f in some;
      var rest := ListOf(cfg, files, some - {f});
      InsertSorted(cfg, files, f, rest);
      s := Insert(cfg, f, rest);
      SameElements([f] + rest, s);
      assert Elements([f] + rest) == {f} + Elements(rest);
    }
  }

  lemma JoinListings(r: Rules, u: seq<RmFile>, v: seq<RmFile>)
    requires Sorted(r.cfg, u) && Sorted(r.cfg, v) && NoDup(u) && NoDup(v)
    requires Elements(u) + Elements(v) == r.files && Elements(u) !! Elements(v)
    requires forall x, y :: x in Elements(u) && y in Elements(v) ==> InOrder(r.cfg, x, y)
    ensures Listing(r, u + v)
  {
    var s := u + v;
    forall i, j | 0 <= i < j < |s| ensures InOrder(r.cfg, s[i], s[j]) && s[i] != s[j] {
      if j < |u| {
        assert InOrder(r.cfg, u[i], u[j]);
      } else if i >= |u| {
        assert InOrder(r.cfg, v[i - |u|], v[j - |u|]);
      } else {
        assert u[i] in Elements(u) && v[j - |u|] in Elements(v);
      }
    }
    assert Elements(s) == Elements(u) + Elements(v);
  }

  /** A torn group makes a list in which a split falls into it. */
  lemma TornListing(r: Rules, a: RmFile, b: RmFile, l: RmFile, h: RmFile) returns (s: seq<RmFile>)
    requires AllConsistent(r.cfg, r.files) && AllBridged(r.cfg, r.files)
    requires {a, b, l, h} <= r.files && Torn(r.cfg, r.files, a, b, l, h)
    ensures Listing(r, s) && !RunsAreClasses(r, s)
  {
    var u, v := TornHalves(r, a, b, l, h);
    s := u + v;
    JoinListings(r, u, v);
    var p := |u|;
    assert l in Elements(u) && h in Elements(v);
    var i :| 0 <= i < p && u[i] == l;
    var j :| 0 <= j < |v| && v[j] == h;
    assert s[i] == l && s[p + j] == h && s[p] == b && s[p - 1] == a;
    assert Cut(r.cfg, s, p) && !OneRun(r.cfg, s, i, p + j);
    assert Near(r, l, h);
    assert Linked(r, [l, h], l, h);
  }

  lemma TornHalves(r: Rules, a: RmFile, b: RmFile, l: RmFile, h: RmFile) returns (u: seq<RmFile>, v: seq<RmFile>)
    requires AllConsistent(r.cfg, r.files) && AllBridged(r.cfg, r.files)
    requires {a, b, l, h} <= r.files && Torn(r.cfg, r.files, a, b, l, h)
    ensures u != [] && u[|u| - 1] == a && v != [] && v[0] == b && l in u && h in v
    ensures Sorted(r.cfg, u) && Sorted(r.cfg, v) && NoDup(u) && NoDup(v)
    ensures Elements(u) + Elements(v) == r.files && Elements(u) !! Elements(v)
    ensures forall x, y :: x in Elements(u) && y in Elements(v) ==> InOrder(r.cfg, x, y)
  {
    var before := (set c | c in r.files && FileCmpFull(r.cfg, c, b) < 0) + {a, l};
    TornOrder(r, a, b, l, h);
    u := ListOf(r.cfg, r.files, before - {a});
    v := ListOf(r.cfg, r.files, r.files - before - {b});
    JoinListings(Rules(r.cfg, before), u, [a]);
    JoinListings(Rules(r.cfg, r.files - before), [b], v);
    u, v := u + [a], [b] + v;
    assert l in Elements(u) && h in Elements(v);
  }

  /** The files before `b`, with `a` and `l`, come before all others; `a` can be the last of them. */
  lemma TornOrder(r: Rules, a: RmFile, b: RmFile, l: RmFile, h: RmFile)
    requires AllConsistent(r.cfg, r.files) && AllBridged(r.cfg, r.files)
    requires {a, b, l, h} <= r.files && Torn(r.cfg, r.files, a, b, l, h)
    ensures var before := (set c | c in r.files && FileCmpFull(r.cfg, c, b) < 0) + {a, l};
      && b !in before && h !in before
      && (forall x :: x in before ==> InOrder(r.cfg, x, a))
      && (forall y :: y in r.files - before ==> InOrder(r.cfg, b, y))
      && (forall x, y :: x in before && y in r.files - before ==> InOrder(r.cfg, x, y))
  {
    var before := (set c | c in r.files && FileCmpFull(r.cfg, c, b) < 0) + {a, l};
    forall x, y | x in r.files && y in r.files
      ensures FileCmpFull(r.cfg, y, x) == -FileCmpFull(r.cfg, x, y)
    {
      assert Consistent(r.cfg, x, y);
      FileCmpFullReverse(r.cfg, x, y);
    }
    FileCmpFullTransitive(r.cfg, r.files, l, a, b);
    forall x | x in before ensures InOrder(r.cfg, x, a) && InOrder(r.cfg, x, b) {
      FileCmpFullTransitive(r.cfg, r.files, x, b, a);
    }
    forall x, y | x in before && y in r.files - before ensures InOrder(r.cfg, x, y) {
      FileCmpFullTransitive(r.cfg, r.files, x, b, y);
    }
  }

  /**
   * However the sort breaks ties, the runs of the sorted list are the chains, if and only if no files are torn.
   */
  lemma ChainsIffNoneTorn(r: Rules)
    requires AllConsistent(r.cfg, r.files) && AllBridged(r.cfg, r.files)
    ensures (forall s :: Listing(r, s) ==> RunsAreClasses(r, s)) <==> NoneTorn(r.cfg, r.files)
  {
    if NoneTorn(r.cfg, r.files) {
      forall s | Listing(r, s) ensures RunsAreClasses(r, s) { RightIfNoneTorn(r, s); }
    } else {
      var a, b, l, h :| {a, b, l, h} <= r.files && Torn(r.cfg, r.files, a, b, l, h);
      var s := TornListing(r, a, b, l, h);
    }
  }

  /** With a time window, times of comparable files are equal or further apart than the tolerance. */
  predicate Spaced(cfg: RmCfg, a: RmFile, b: RmFile) {
    cfg.mtimeWindow >= 0.0 && KeyOf(cfg, a) == KeyOf(cfg, b) ==>
      a.mtime == b.mtime || a.mtime - b.mtime > MTIME_TOL || b.mtime - a.mtime > MTIME_TOL
  }

  ghost predicate AllSpaced(cfg: RmCfg, files: set<RmFile>) {
    forall a, b {:trigger Spaced(cfg, a, b)} :: a in files && b in files ==> Spaced(cfg, a, b)
  }

  /** Without a time window, or with times that are not that near, consistent files are grouped right. */
  lemma SpacedSortable(cfg: RmCfg, files: set<RmFile>)
    requires AllConsistent(cfg, files) && AllSpaced(cfg, files)
    ensures Sortable(cfg, files)
  {
    forall a, b, c | a in files && b in files && c in files ensures Bridged(cfg, a, b, c) {
      assert Consistent(cfg, a, b) && Consistent(cfg, b, c) && Consistent(cfg, a, c);
      ConsistentSame(cfg, a, b);
      ConsistentSame(cfg, b, c);
      assert Spaced(cfg, a, b) && Spaced(cfg, b, c) && Spaced(cfg, a, c);
    }
    forall a, b, l, h | a in files && b in files && l in files && h in files
      ensures !Torn(cfg, files, a, b, l, h)
    {
      if Torn(cfg, files, a, b, l, h) { SpacedNotTorn(cfg, files, a, b, l, h); }
    }
  }

  lemma SpacedNotTorn(cfg: RmCfg, files: set<RmFile>, a: RmFile, b: RmFile, l: RmFile, h: RmFile)
    requires AllConsistent(cfg, files) && AllSpaced(cfg, files) && {a, b, l, h} <= files
    ensures !Torn(cfg, files, a, b, l, h)
  {
    forall x, y | x in files && y in files
      ensures FileCmp(cfg, y, x) == -FileCmp(cfg, x, y) && (FileCmp(cfg, x, y) == 0 <==> KeyOf(cfg, x) == KeyOf(cfg, y))
      ensures Spaced(cfg, x, y)
    {
      assert Consistent(cfg, x, y) && Spaced(cfg, x, y);
      FileCmpReverse(cfg, x, y);
      ConsistentSame(cfg, x, y);
    }
    assert Consistent(cfg, l, a) && Consistent(cfg, a, b) && Consistent(cfg, b, h);
    assert Consistent(cfg, l, b) && Consistent(cfg, l, h) && Consistent(cfg, a, h);
    FileCmpTransitive(cfg, l, a, b);
    FileCmpTransitive(cfg, l, b, h);
    FileCmpTransitive(cfg, l, a, h);
  }

  /**
   * Every sort puts `g`, which is later by less than the tolerance, before `f`; the gap between `f` and `h`
   * is more than the window and splits the list, although `h` is near to `g`.
   */
  lemma ToleranceTears(cfg: RmCfg, f: RmFile)
    requires cfg.mtimeWindow == 1.0 && Consistent(cfg, f, f)
    ensures var g, h := f.(mtime := f.mtime + 0.0000005, rank := f.rank - 1), f.(mtime := f.mtime + 1.0000005);
      && AllConsistent(cfg, {f, g, h}) && AllBridged(cfg, {f, g, h})
      && Listing(Rules(cfg, {f, g, h}), [g, f, h]) && !RunsAreClasses(Rules(cfg, {f, g, h}), [g, f, h])
  {
    var g, h := f.(mtime := f.mtime + 0.0000005, rank := f.rank - 1), f.(mtime := f.mtime + 1.0000005);
    var r, s := Rules(cfg, {f, g, h}), [g, f, h];
    LateFirst(cfg, f, g, h);
    assert Cut(cfg, s, 2) && !OneRun(cfg, s, 0, 2);
    assert Near(r, g, h);
    assert Linked(r, [g, h], s[0], s[2]);
  }

  lemma LateFirst(cfg: RmCfg, f: RmFile, g: RmFile, h: RmFile)
    requires cfg.mtimeWindow >= 0.0 && Consistent(cfg, f, f)
    requires g == f.(mtime := f.mtime + 0.0000005, rank := f.rank - 1) && h == f.(mtime := f.mtime + 1.0000005)
    ensures AllConsistent(cfg, {f, g, h}) && AllBridged(cfg, {f, g, h})
    ensures FileCmp(cfg, g, h) == 0 && Listing(Rules(cfg, {f, g, h}), [g, f, h])
  {
    ThreeCopies(cfg, f, g, h);
    assert InOrder(cfg, g, f) && InOrder(cfg, g, h) && InOrder(cfg, f, h);
    forall a, b, c | a in {f, g, h} && b in {f, g, h} && c in {f, g, h} ensures Bridged(cfg, a, b, c) {
      if a == b || b == c { assert Bridged(cfg, a, b, c); }
    }
  }

  /** Three copies of a file whose times and ranks differ. */
  lemma ThreeCopies(cfg: RmCfg, f: RmFile, g: RmFile, h: RmFile)
    requires Consistent(cfg, f, f)
    requires g == f.(mtime := g.mtime, rank := g.rank) && h == f.(mtime := h.mtime, rank := h.rank)
    ensures forall x, y :: x in {f, g, h} && y in {f, g, h} ==> Consistent(cfg, x, y) && FileCmp(cfg, x, y) == 0
  {
    ConsistentSame(cfg, f, f);
  }

  // ----- which file stands for an inode -----

  /**
   * `a` is not worse than `b`: with a time window it is older by more than the tolerance, and with none,
   * or if the times are that near, its rank by the criteria for originals is not higher.
   */
  predicate NotWorse(cfg: RmCfg, a: RmFile, b: RmFile) {
    || (cfg.mtimeWindow >= 0.0 && b.mtime - a.mtime > MTIME_TOL)
    || ((cfg.mtimeWindow < 0.0 || -MTIME_TOL <= b.mtime - a.mtime <= MTIME_TOL) && a.rank <= b.rank)
  }

  lemma InOrderNotWorse(cfg: RmCfg, a: RmFile, b: RmFile)
    requires InOrder(cfg, a, b) && Consistent(cfg, a, b) && KeyOf(cfg, a) == KeyOf(cfg, b)
    ensures NotWorse(cfg, a, b)
  {
    ConsistentSame(cfg, a, b);
  }

  lemma {:induction false} TwinsSorted(r: Rules, s: seq<RmFile>, kind: Class, node: Node)
    requires Sorted(r.cfg, s)
    ensures Sorted(r.cfg, Twins(r, s, kind, node))
  {
    if s != [] {
      var n := |s| - 1;
      var init, twins := Twins(r, s[..n], kind, node), Twins(r, s, kind, node);
      forall i, j | 0 <= i < j < n ensures InOrder(r.cfg, s[..n][i], s[..n][j]) { assert InOrder(r.cfg, s[i], s[j]); }
      TwinsSorted(r, s[..n], kind, node);
      TwinsMembers(r, s[..n], kind, node);
      forall i, j | 0 <= i < j < |twins| ensures InOrder(r.cfg, twins[i], twins[j]) {
        if j < |init| {
          assert InOrder(r.cfg, init[i], init[j]);
        } else {
          assert init[i] in init;
          var k :| 0 <= k < n && s[..n][k] == init[i];
          assert InOrder(r.cfg, s[k], s[n]);
        }
      }
    }
  }

  /** The first file of a path. */
  lemma {:induction false} FirstOfPath(cluster: seq<RmFile>, i: nat) returns (j: nat)
    requires i < |cluster|
    ensures j <= i && SamePath(cluster[j], cluster[i])
    ensures forall k :: 0 <= k < j ==> !SamePath(cluster[k], cluster[i])
  {
    j := i;
    if k :| 0 <= k < i && SamePath(cluster[k], cluster[i]) { j := FirstOfPath(cluster, k); }
  }

  /** A path double of a file that is other lint and not worse goes with it. */
  ghost predicate Shadowed(cfg: RmCfg, twins: seq<RmFile>, h: RmFile) {
    && !cfg.runEqualMode
    && exists x :: x in twins && x != h && SamePath(x, h) && !x.lint.DupeCandidate? && NotWorse(cfg, x, h)
  }

  /**
   * The file that is kept for an inode is not worse than any other candidate of the inode and of its class,
   * whatever the order the files came in; only doubles of other lint do not count.
   */
  lemma BestIsKept(r: Rules, s: seq<RmFile>, groups: seq<seq<RmFile>>, f: RmFile, h: RmFile)
    requires Sorted(r.cfg, s) && NoDup(s) && Elements(s) == r.files && AllConsistent(r.cfg, r.files)
    requires SplitOk(r, s, groups) && InSome(groups, f)
    requires h in r.files && h.lint.DupeCandidate? && h.node == f.node && ClassOf(r, h) == ClassOf(r, f)
    ensures NotWorse(r.cfg, f, h) || Shadowed(r.cfg, Twins(r, s, ClassOf(r, f), f.node), h)
  {
    var twins := Twins(r, s, ClassOf(r, f), f.node);
    TwinsMembers(r, s, ClassOf(r, f), f.node);
    TwinsSorted(r, s, ClassOf(r, f), f.node);
    RepresentativeIsFirst(r.cfg, twins);
    assert f in Representative(r.cfg, twins) by { assert Represents(r, s, f); }
    var i :| 0 <= i < |twins| && FirstEligible(r.cfg, twins, i) && f == twins[i];
    assert h in s && h in twins;
    var m :| 0 <= m < |twins| && twins[m] == h;
    var j: nat := m;
    if !r.cfg.runEqualMode { j := FirstOfPath(twins, m); }
    TwinNotWorse(r, s, twins, j, m);
    if twins[j].lint.DupeCandidate? {
      assert Eligible(r.cfg, twins, j);
      assert i <= j;
      TwinNotWorse(r, s, twins, i, m);
    } else {
      assert twins[j] in twins && twins[j] != h;
    }
  }

  /** Every kept file is. */
  ghost predicate BestKept(r: Rules, s: seq<RmFile>, groups: seq<seq<RmFile>>) {
    forall f, h {:trigger InSome(groups, f), NotWorse(r.cfg, f, h)} ::
      InSome(groups, f) && h in r.files && h.lint.DupeCandidate? && h.node == f.node
      && ClassOf(r, h) == ClassOf(r, f) ==>
      NotWorse(r.cfg, f, h) || Shadowed(r.cfg, Twins(r, s, ClassOf(r, f), f.node), h)
  }

  lemma KeptIsBest(r: Rules, s: seq<RmFile>, groups: seq<seq<RmFile>>)
    requires SortedFiles(r, s) && SplitOk(r, s, groups)
    ensures BestKept(r, s, groups)
  {
    forall f, h | InSome(groups, f) && h in r.files && h.lint.DupeCandidate? && h.node == f.node
                  && ClassOf(r, h) == ClassOf(r, f)
      ensures NotWorse(r.cfg, f, h) || Shadowed(r.cfg, Twins(r, s, ClassOf(r, f), f.node), h)
    {
      BestIsKept(r, s, groups, f, h);
    }
  }

  /** The groups are in order of size, the largest first. */
  ghost predicate LargestFirst(groups: seq<seq<RmFile>>) {
    forall i, j, f, h {:trigger f in groups[i], h in groups[j]} ::
      0 <= i < j < |groups| && f in groups[i] && h in groups[j] ==> f.size >= h.size
  }

  lemma LargerRun(r: Rules, s: seq<RmFile>, b: nat, p: nat, groups: seq<seq<RmFile>>, group: seq<RmFile>)
    requires Listing(r, s) && AllConsistent(r.cfg, r.files) && b <= p <= |s|
    requires SplitOk(r, s[..b], groups) && GroupOk(r, s[b..p], group) && LargestFirst(groups)
    ensures LargestFirst([group] + groups)
  {
    forall f, h, j | f in group && 0 <= j < |groups| && h in groups[j] ensures f.size >= h.size {
      RepresentsIsIn(r, s[b..p], f);
      assert InSome(groups, h);
      RepresentsIsIn(r, s[..b], h);
      var i :| b <= i < p && s[i] == f;
      var k :| 0 <= k < b && s[k] == h;
      InListOrder(r, s, k, i);
    }
  }

  lemma TwinNotWorse(r: Rules, s: seq<RmFile>, twins: seq<RmFile>, i: nat, j: nat)
    requires Elements(s) == r.files && AllConsistent(r.cfg, r.files)
    requires Sorted(r.cfg, twins) && i <= j < |twins|
    requires forall x :: x in twins ==> x in s
    requires KeyOf(r.cfg, twins[i]) == KeyOf(r.cfg, twins[j])
    ensures NotWorse(r.cfg, twins[i], twins[j])
  {
    assert twins[i] in Elements(s) && twins[j] in Elements(s);
    assert Consistent(r.cfg, twins[i], twins[j]);
    if i < j {
      assert InOrder(r.cfg, twins[i], twins[j]);
      InOrderNotWorse(r.cfg, twins[i], twins[j]);
    }
  }

  // ----- hardlinks and other lint -----

  /** Of some heads, those whose inodes are not in `nodes`. */
  ghost function Done(heads: map<RmFile, seq<RmFile>>, nodes: set<Node>): map<RmFile, seq<RmFile>> {
    map f | f in heads && f.node !in nodes :: heads[f]
  }

  /** The inodes of a run that are not in `nodes` are done; what was there before is there still. */
  ghost predicate PartlyFiled(r: Rules, run: seq<RmFile>, nodes: set<Node>, links: map<RmFile, seq<RmFile>>,
                              links': map<RmFile, seq<RmFile>>, lint: seq<RmFile>, lint': seq<RmFile>) {
    && links' == links + Done(HeadsOf(r, run), nodes)
    && Elements(lint') == Elements(lint) + set x | x in AsideOf(r, run) && x.node !in nodes
  }

  lemma FileLinks(r: Rules, run: seq<RmFile>, kind: Class, node: Node, f: RmFile)
    requires SameClass(r, run, kind) && f.node == node
    ensures var left := Survivors(r.cfg, Twins(r, run, kind, node), |Twins(r, run, kind, node)|);
      && (IsHead(r, run, f) <==> r.cfg.findHardlinkedDupes && |left| > 1 && left[0] == f)
      && (IsHead(r, run, f) ==> LinksOf(r, run, f) == left)
  {
    var twins := Twins(r, run, kind, node);
    var left := Survivors(r.cfg, twins, |twins|);
    if IsHead(r, run, f) { RepresentsIsIn(r, run, f); }
    if |left| > 1 && left[0] == f {
      TwinsMembers(r, run, kind, node);
      RepresentativeIsFirst(r.cfg, twins);
      assert f in Representative(r.cfg, twins);
      assert f in twins;
      assert Represents(r, run, f);
    }
  }

  lemma FileLint(r: Rules, run: seq<RmFile>, kind: Class, node: Node, x: RmFile)
    requires SameClass(r, run, kind)
    ensures var u := Uniques(r.cfg, Twins(r, run, kind, node), |Twins(r, run, kind, node)|);
      x in Aside(r.cfg, u, |u|) <==> x in AsideOf(r, run) && x.node == node
  {
    var twins := Twins(r, run, kind, node);
    var u := Uniques(r.cfg, twins, |twins|);
    AsideMembers(r.cfg, u, |u|);
    assert u[..|u|] == u;
    UniqueMembers(r.cfg, twins, |twins|);
    TwinsMembers(r, run, kind, node);
    TwinsMembers(r, run, ClassOf(r, x), x.node);
    if x in u {
      var i :| 0 <= i < |twins| && twins[i] == x && !PathDouble(r.cfg, twins, i);
      assert x in twins;
    }
    if IsAside(r, run, x) { assert x in TwinsOf(r, run, x); }
  }

  lemma NothingFiled(r: Rules, run: seq<RmFile>, nodes: set<Node>, links: map<RmFile, seq<RmFile>>, lint: seq<RmFile>)
    requires forall f :: f in run ==> f.node in nodes
    ensures PartlyFiled(r, run, nodes, links, links, lint, lint)
  {
    assert Done(HeadsOf(r, run), nodes) == map[];
    assert links + map[] == links;
  }

  lemma NoneFiled(r: Rules, s: seq<RmFile>)
    ensures Filed(r, s[..0], map[], [])
  {}

  /** One more inode is done. */
  lemma NextFiled(r: Rules, run: seq<RmFile>, kind: Class, nodes: set<Node>, node: Node,
                  links: map<RmFile, seq<RmFile>>, now: map<RmFile, seq<RmFile>>, lint: seq<RmFile>,
                  lintNow: seq<RmFile>)
    requires SameClass(r, run, kind) && node in nodes && PartlyFiled(r, run, nodes, links, now, lint, lintNow)
    ensures var twins := Twins(r, run, kind, node); var u := Uniques(r.cfg, twins, |twins|);
      var left := Survivors(r.cfg, twins, |twins|);
      PartlyFiled(r, run, nodes - {node}, links,
                  if r.cfg.findHardlinkedDupes && |left| > 1 then now[left[0] := left] else now,
                  lint, Aside(r.cfg, u, |u|) + lintNow)
  {
    var twins := Twins(r, run, kind, node);
    var left, u := Survivors(r.cfg, twins, |twins|), Uniques(r.cfg, twins, |twins|);
    NewHeads(r, run, kind, node);
    MoreLinks(HeadsOf(r, run), nodes, node, links, now, left, r.cfg.findHardlinkedDupes && |left| > 1);
    forall x ensures x in Aside(r.cfg, u, |u|) <==> x in AsideOf(r, run) && x.node == node {
      FileLint(r, run, kind, node, x);
    }
    MoreLint(AsideOf(r, run), nodes, node, Elements(lint), lintNow, Aside(r.cfg, u, |u|));
  }

  lemma MoreLinks(heads: map<RmFile, seq<RmFile>>, nodes: set<Node>, node: Node, links: map<RmFile, seq<RmFile>>,
                  now: map<RmFile, seq<RmFile>>, left: seq<RmFile>, bundle: bool)
    requires node in nodes && now == links + Done(heads, nodes) && (bundle ==> left != [])
    requires (map f | f in heads && f.node == node :: heads[f]) == if bundle then map[left[0] := left] else map[]
    ensures (if bundle then now[left[0] := left] else now) == links + Done(heads, nodes - {node})
  {
    var more := map f | f in heads && f.node == node :: heads[f];
    assert Done(heads, nodes - {node}) == Done(heads, nodes) + more;
  }

  lemma MoreLint(aside: set<RmFile>, nodes: set<Node>, node: Node, lint: set<RmFile>, now: seq<RmFile>,
                 more: seq<RmFile>)
    requires node in nodes && Elements(now) == lint + set x | x in aside && x.node !in nodes
    requires forall x :: x in more <==> x in aside && x.node == node
    ensures Elements(more + now) == lint + set x | x in aside && x.node !in nodes - {node}
  {
    assert forall x :: x in more + now <==> x in more || x in Elements(now);
  }

  /** The heads of one inode: one, or none. */
  lemma NewHeads(r: Rules, run: seq<RmFile>, kind: Class, node: Node)
    requires SameClass(r, run, kind)
    ensures var left := Survivors(r.cfg, Twins(r, run, kind, node), |Twins(r, run, kind, node)|);
      (map f | f in HeadsOf(r, run) && f.node == node :: HeadsOf(r, run)[f])
      == if r.cfg.findHardlinkedDupes && |left| > 1 then map[left[0] := left] else map[]
  {
    var twins := Twins(r, run, kind, node);
    var left := Survivors(r.cfg, twins, |twins|);
    if |left| > 1 {
      FirstSurvivor(r.cfg, twins, |twins|);
      TwinsMembers(r, run, kind, node);
      assert left[0] in twins;
      FileLinks(r, run, kind, node, left[0]);
    }
    forall f | f in HeadsOf(r, run) && f.node == node
      ensures r.cfg.findHardlinkedDupes && |left| > 1 && left[0] == f && HeadsOf(r, run)[f] == left
    {
      FileLinks(r, run, kind, node, f);
    }
  }

  /** Files of other classes do not matter. */
  lemma FiledConcat(r: Rules, a: seq<RmFile>, b: seq<RmFile>, links: map<RmFile, seq<RmFile>>,
                    links': map<RmFile, seq<RmFile>>, lint: seq<RmFile>, lint': seq<RmFile>)
    requires Apart(r, a, b) && Filed(r, a, links, lint) && PartlyFiled(r, b, {}, links, links', lint, lint')
    ensures Filed(r, a + b, links', lint')
  {
    HeadsConcat(r, a, b);
    AsideConcat(r, a, b);
    assert Done(HeadsOf(r, b), {}) == HeadsOf(r, b);
  }

  lemma HeadsConcat(r: Rules, a: seq<RmFile>, b: seq<RmFile>)
    requires Apart(r, a, b)
    ensures HeadsOf(r, a + b) == HeadsOf(r, a) + HeadsOf(r, b)
  {
    forall f
      ensures IsHead(r, a + b, f) <==> IsHead(r, a, f) || IsHead(r, b, f)
      ensures IsHead(r, b, f) ==> f in b && LinksOf(r, a + b, f) == LinksOf(r, b, f)
      ensures IsHead(r, a, f) ==> f in a && LinksOf(r, a + b, f) == LinksOf(r, a, f) && !IsHead(r, b, f)
    {
      SidesConcat(r, a, b, f);
      IsOfFiles(r, a, f);
      IsOfFiles(r, b, f);
    }
  }

  lemma AsideConcat(r: Rules, a: seq<RmFile>, b: seq<RmFile>)
    requires Apart(r, a, b)
    ensures AsideOf(r, a + b) == AsideOf(r, a) + AsideOf(r, b)
  {
    forall f
      ensures IsAside(r, a + b, f) <==> IsAside(r, a, f) || IsAside(r, b, f)
      ensures IsAside(r, b, f) ==> f in b
      ensures IsAside(r, a, f) ==> f in a
    {
      SidesConcat(r, a, b, f);
      IsOfFiles(r, a, f);
      IsOfFiles(r, b, f);
    }
  }

  lemma IsOfFiles(r: Rules, files: seq<RmFile>, f: RmFile)
    ensures IsHead(r, files, f) || IsAside(r, files, f) ==> f in files
  {
    if IsHead(r, files, f) { RepresentsIsIn(r, files, f); }
    if IsAside(r, files, f) {
      TwinsMembers(r, files, ClassOf(r, f), f.node);
      assert f in TwinsOf(r, files, f);
    }
  }

  lemma SidesConcat(r: Rules, a: seq<RmFile>, b: seq<RmFile>, f: RmFile)
    requires Apart(r, a, b)
    ensures IsHead(r, a + b, f) <==> IsHead(r, a, f) || IsHead(r, b, f)
    ensures IsHead(r, b, f) ==> LinksOf(r, a + b, f) == LinksOf(r, b, f)
    ensures IsHead(r, a, f) ==> LinksOf(r, a + b, f) == LinksOf(r, a, f) && !IsHead(r, b, f)
    ensures IsAside(r, a + b, f) <==> IsAside(r, a, f) || IsAside(r, b, f)
  {
    OnlyOneSide(r, a, b, f);
    assert Survivors(r.cfg, [], 0) == [];
  }

  lemma OnlyOneSide(r: Rules, a: seq<RmFile>, b: seq<RmFile>, f: RmFile)
    requires Apart(r, a, b)
    ensures TwinsOf(r, a + b, f) == (if TwinsOf(r, a, f) == [] then TwinsOf(r, b, f) else TwinsOf(r, a, f))
    ensures TwinsOf(r, a, f) == [] || TwinsOf(r, b, f) == []
  {
    var kind := ClassOf(r, f);
    TwinsConcat(r, a, b, kind, f.node);
    if x :| x in a && ClassOf(r, x) == kind {
      forall y | y in b ensures ClassOf(r, y) != kind { assert Differ(r, x, y); }
    }
    if ClassIn(r, a, kind) { NoTwins(r, b, kind, f.node); } else { NoTwins(r, a, kind, f.node); }
  }

  // ----- the session -----

  /** How many files have an inode in `nodes`. */
  function CountIn(files: seq<RmFile>, nodes: set<Node>): nat {
    if files == [] then 0
    else CountIn(files[..|files| - 1], nodes) + if files[|files| - 1].node in nodes then 1 else 0
  }

  lemma {:induction false} CountSplit(r: Rules, files: seq<RmFile>, kind: Class, nodes: set<Node>, n: Node)
    requires SameClass(r, files, kind) && n in nodes
    ensures CountIn(files, nodes) == CountIn(files, nodes - {n}) + |Twins(r, files, kind, n)|
  {
    if files != [] {
      var init, last := files[..|files| - 1], files[|files| - 1];
      assert last in files;
      assert forall f :: f in init ==> f in files;
      CountSplit(r, init, kind, nodes, n);
    }
  }

  lemma {:induction false} CountAll(files: seq<RmFile>, nodes: set<Node>)
    ensures (forall f :: f in files ==> f.node in nodes) ==> CountIn(files, nodes) == |files|
    ensures nodes == {} ==> CountIn(files, nodes) == 0
  {
    if files != [] {
      var init := files[..|files| - 1];
      assert forall f :: f in init ==> f in files;
      assert files[|files| - 1] in files;
      CountAll(init, nodes);
    }
  }

  /** The group so far, when the inodes in `nodes` are still to be reduced. */
  ghost predicate Partial(r: Rules, run: seq<RmFile>, nodes: set<Node>, group: seq<RmFile>) {
    DistinctNodes(group) && forall f :: f in group <==> Represents(r, run, f) && f.node !in nodes
  }

  lemma NextInode(r: Rules, run: seq<RmFile>, kind: Class, nodes: set<Node>, node: Node, group: seq<RmFile>)
    requires SameClass(r, run, kind) && node in nodes && Partial(r, run, nodes, group)
    ensures Partial(r, run, nodes - {node}, Representative(r.cfg, Twins(r, run, kind, node)) + group)
  {
    var twins := Twins(r, run, kind, node);
    var kept := Representative(r.cfg, twins);
    TwinsMembers(r, run, kind, node);
    RepresentativeIsFirst(r.cfg, twins);
    forall f ensures f in kept <==> Represents(r, run, f) && f.node == node {
      if Represents(r, run, f) { RepresentsIsIn(r, run, f); }
      if f in kept { assert f in twins; }
    }
    assert forall f :: f in kept + group <==> f in kept || f in group;
  }

  class RmSession {
    const cfg: RmCfg
    /** All files that are compared. */
    ghost const files: set<RmFile>
    var allFiles: seq<RmFile>
    var nodeTable: map<Node, seq<RmFile>>
    var sizeGroups: seq<seq<RmFile>>
    var totalFilteredFiles: int
    /** The files bundled under a head file. */
    var hardlinks: map<RmFile, seq<RmFile>>
    var otherLint: seq<RmFile>

    constructor (cfg: RmCfg, allFiles: seq<RmFile>)
      ensures this.cfg == cfg && this.allFiles == allFiles && nodeTable == map[] && sizeGroups == []
      ensures hardlinks == map[] && otherLint == [] && files == Elements(allFiles)
    {
      this.cfg, this.allFiles, this.files := cfg, allFiles, Elements(allFiles);
      nodeTable, sizeGroups, totalFilteredFiles := map[], [], 0;
      hardlinks, otherLint := map[], [];
    }

    ghost function Here(): Rules {
      Rules(cfg, files)
    }

    /** The walk over a cluster with `rm_pp_check_path_double`. */
    method RemovePathDoubles(cluster: seq<RmFile>) returns (kept: seq<RmFile>, removed: nat)
      requires !cfg.runEqualMode
      ensures kept == Uniques(cfg, cluster, |cluster|) && removed == |cluster| - |kept|
    {
      var uniquePaths: set<PathKey> := {};
      kept, removed := [], 0;
      for i := 0 to |cluster|
        invariant kept == Uniques(cfg, cluster, i) && removed == i - |kept|
        invariant forall k :: k in uniquePaths <==> exists j :: 0 <= j < i && PathOf(cluster[j]) == k
      {
        if PathOf(cluster[i]) in uniquePaths {
          removed := removed + 1;
        } else {
          uniquePaths := uniquePaths + {PathOf(cluster[i])};
          kept := kept + [cluster[i]];
        }
      }
    }

    /** The walk over a cluster with `rm_pp_handle_other_lint`. */
    method RemoveOtherLint(cluster: seq<RmFile>) returns (kept: seq<RmFile>, removed: nat)
      modifies this`otherLint
      ensures kept == Candidates(cluster, |cluster|) && removed == |cluster| - |kept|
      ensures otherLint == Aside(cfg, cluster, |cluster|) + old(otherLint)
    {
      kept, removed := [], 0;
      for i := 0 to |cluster|
        invariant kept == Candidates(cluster, i) && removed == i - |kept|
        invariant otherLint == Aside(cfg, cluster, i) + old(otherLint)
      {
        if cluster[i].lint.DupeCandidate? {
          kept := kept + [cluster[i]];
        } else {
          HandleOtherLint(cluster[i]);
          removed := removed + 1;
        }
      }
    }

    /** `rm_pp_handle_other_lint`, for a file that is not a candidate. */
    method HandleOtherLint(file: RmFile)
      requires !file.lint.DupeCandidate?
      modifies this`otherLint
      ensures otherLint == (if SetAside(cfg, file) then [file] else []) + old(otherLint)
    {
      if cfg.minMtime.Some? && file.mtime < cfg.minMtime.value {
        // filtered out
      } else if (cfg.keepAllTagged && file.isPrefd) || (cfg.keepAllUntagged && !file.isPrefd) {
        // protected
      } else {
        otherLint := [file] + otherLint;
      }
    }

    /** `rm_pp_handle_inode_clusters`: puts the cluster's representative into the newest group. */
    method HandleInodeCluster(files: seq<RmFile>)
      requires sizeGroups != []
      modifies this`sizeGroups, this`totalFilteredFiles, this`hardlinks, this`otherLint
      ensures var r := Representative(cfg, files);
        && sizeGroups == [r + old(sizeGroups)[0]] + old(sizeGroups)[1..]
        && totalFilteredFiles == old(totalFilteredFiles) - (|files| - |r|)
      ensures var left := Survivors(cfg, files, |files|);
        hardlinks == if cfg.findHardlinkedDupes && |left| > 1 then old(hardlinks)[left[0] := left]
                     else old(hardlinks)
      ensures var u := Uniques(cfg, files, |files|); otherLint == Aside(cfg, u, |u|) + old(otherLint)
    {
      var cluster, removed := KeepUniques(files);
      totalFilteredFiles := totalFilteredFiles - removed;
      CandidatesOfUniques(cfg, files, |files|);
      cluster, removed := RemoveOtherLint(cluster);
      totalFilteredFiles := totalFilteredFiles - removed;
      if |cluster| > 1 {
        cluster, removed := BundleHardlinks(cluster);
        totalFilteredFiles := totalFilteredFiles - removed;
      }
      assert cluster == Representative(cfg, files);
      PrependToGroup(cluster);
    }

    /** The last part: a file that is left goes to the front of the newest group. */
    method PrependToGroup(cluster: seq<RmFile>)
      requires |cluster| <= 1 && sizeGroups != []
      modifies this`sizeGroups
      ensures sizeGroups == [cluster + old(sizeGroups)[0]] + old(sizeGroups)[1..]
    {
      if |cluster| == 1 {
        sizeGroups := [cluster + sizeGroups[0]] + sizeGroups[1..];
      } else {
        assert [] + sizeGroups[0] == sizeGroups[0];
        assert sizeGroups == [sizeGroups[0]] + sizeGroups[1..];
      }
    }

    /** The first part: drops path doubles if there are several files. */
    method KeepUniques(files: seq<RmFile>) returns (kept: seq<RmFile>, removed: nat)
      ensures kept == Uniques(cfg, files, |files|) && removed == |files| - |kept|
    {
      kept, removed := files, 0;
      if |files| > 1 && !cfg.runEqualMode {
        kept, removed := RemovePathDoubles(files);
      } else {
        NoDoubles(cfg, files, |files|);
        assert files[..|files|] == files;
      }
    }

    /** The walk over a cluster with `rm_pp_handle_hardlink`; only the head file stays. */
    method BundleHardlinks(cluster: seq<RmFile>) returns (kept: seq<RmFile>, removed: nat)
      requires |cluster| > 1
      modifies this`hardlinks
      ensures kept == [cluster[0]] && removed == |cluster| - 1
      ensures hardlinks == if cfg.findHardlinkedDupes then old(hardlinks)[cluster[0] := cluster]
                           else old(hardlinks)
    {
      var head := cluster[0];
      if cfg.findHardlinkedDupes {
        hardlinks := hardlinks[head := [head]];
      }
      kept, removed := [head], 0;
      assert cluster[..1] == [head];
      for i := 1 to |cluster|
        invariant kept == [head] && removed == i - 1
        invariant hardlinks == if cfg.findHardlinkedDupes then old(hardlinks)[head := cluster[..i]]
                               else old(hardlinks)
      {
        if cfg.findHardlinkedDupes {
          assert cluster[..i + 1] == cluster[..i] + [cluster[i]];
          hardlinks := hardlinks[head := hardlinks[head] + [cluster[i]]];
        }
        removed := removed + 1;
      }
      assert cluster[..|cluster|] == cluster;
    }

    /** The node table holds the files of the run, by inode. */
    ghost predicate TableOk(run: seq<RmFile>, kind: Class)
      reads this`nodeTable
    {
      && SameClass(Here(), run, kind)
      && (forall f {:trigger HasCluster(f)} :: f in run ==> HasCluster(f))
      && (forall n {:trigger ClusterOk(run, kind, n)} :: n in nodeTable ==> ClusterOk(run, kind, n))
    }

    ghost predicate HasCluster(f: RmFile)
      reads this`nodeTable
    {
      f.node in nodeTable
    }

    ghost predicate ClusterOk(run: seq<RmFile>, kind: Class, n: Node)
      requires n in nodeTable
      reads this`nodeTable
    {
      nodeTable[n] == Twins(Here(), run, kind, n)
    }

    lemma StillOk(table: map<Node, seq<RmFile>>, run: seq<RmFile>, kind: Class, n: Node)
      requires n in nodeTable && n in table && nodeTable[n] == table[n] == Twins(Here(), run, kind, n)
      ensures ClusterOk(run, kind, n)
    {}

    lemma EmptyGroup(run: seq<RmFile>, kind: Class)
      requires TableOk(run, kind)
      ensures Partial(Here(), run, nodeTable.Keys, [])
    {
      forall f | Represents(Here(), run, f) ensures f.node in nodeTable {
        RepresentsIsIn(Here(), run, f);
        assert HasCluster(f);
      }
    }

    /** The inodes that are left in the table are still to be reduced; the others have a file in the newest group. */
    ghost predicate Reducing(run: seq<RmFile>, kind: Class, links: map<RmFile, seq<RmFile>>, lint: seq<RmFile>,
                             total: int)
      reads this
    {
      && sizeGroups != [] && SameClass(Here(), run, kind)
      && (forall n {:trigger ClusterOk(run, kind, n)} :: n in nodeTable ==> ClusterOk(run, kind, n))
      && Partial(Here(), run, nodeTable.Keys, sizeGroups[0])
      && PartlyFiled(Here(), run, nodeTable.Keys, links, hardlinks, lint, otherLint)
      && totalFilteredFiles == total + |sizeGroups[0]| - |run| + CountIn(run, nodeTable.Keys)
    }

    /** One call of the table's foreach. */
    method ReduceInode(node: Node, ghost run: seq<RmFile>, ghost kind: Class, ghost links: map<RmFile, seq<RmFile>>,
                       ghost lint: seq<RmFile>, ghost total: int)
      requires Reducing(run, kind, links, lint, total) && node in nodeTable
      modifies this`nodeTable, this`sizeGroups, this`totalFilteredFiles, this`hardlinks, this`otherLint
      ensures Reducing(run, kind, links, lint, total) && nodeTable == old(nodeTable) - {node}
      ensures sizeGroups[1..] == old(sizeGroups)[1..]
    {
      ghost var table, keys := nodeTable, nodeTable.Keys;
      forall n | n in table ensures table[n] == Twins(Here(), run, kind, n) { assert ClusterOk(run, kind, n); }
      NextInode(Here(), run, kind, keys, node, sizeGroups[0]);
      CountSplit(Here(), run, kind, keys, node);
      NextFiled(Here(), run, kind, keys, node, links, hardlinks, lint, otherLint);
      HandleInodeCluster(nodeTable[node]);
      nodeTable := nodeTable - {node};
      assert nodeTable.Keys == keys - {node};
      forall n | n in nodeTable ensures ClusterOk(run, kind, n) { StillOk(table, run, kind, n); }
    }

    lemma AllReduced(run: seq<RmFile>, kind: Class, links: map<RmFile, seq<RmFile>>, lint: seq<RmFile>, total: int)
      requires Reducing(run, kind, links, lint, total) && nodeTable == map[]
      ensures GroupOk(Here(), run, sizeGroups[0]) && totalFilteredFiles == total - |run| + |sizeGroups[0]|
      ensures PartlyFiled(Here(), run, {}, links, hardlinks, lint, otherLint)
    {
      assert nodeTable.Keys == {};
      CountAll(run, {});
    }

    /** The end of a run: every inode is reduced and the group is kept unless it is empty. */
    method ProcessGroup(ghost run: seq<RmFile>, ghost kind: Class) returns (ghost group: seq<RmFile>)
      requires TableOk(run, kind)
      modifies this`nodeTable, this`sizeGroups, this`totalFilteredFiles, this`hardlinks, this`otherLint
      ensures nodeTable == map[] && GroupOk(Here(), run, group)
      ensures sizeGroups == if group == [] then old(sizeGroups) else [group] + old(sizeGroups)
      ensures totalFilteredFiles == old(totalFilteredFiles) - |run| + |group|
      ensures PartlyFiled(Here(), run, {}, old(hardlinks), hardlinks, old(otherLint), otherLint)
    {
      sizeGroups := [[]] + sizeGroups;
      forall f | f in run ensures f.node in nodeTable { assert HasCluster(f); }
      CountAll(run, nodeTable.Keys);
      EmptyGroup(run, kind);
      NothingFiled(Here(), run, nodeTable.Keys, hardlinks, otherLint);
      while nodeTable != map[]
        invariant sizeGroups != [] && sizeGroups[1..] == old(sizeGroups)
        invariant Reducing(run, kind, old(hardlinks), old(otherLint), old(totalFilteredFiles))
        decreases |nodeTable|
      {
        var node :| node in nodeTable;
        ReduceInode(node, run, kind, old(hardlinks), old(otherLint), old(totalFilteredFiles));
      }
      AllReduced(run, kind, old(hardlinks), old(otherLint), old(totalFilteredFiles));
      group := sizeGroups[0];
      if sizeGroups[0] == [] {
        sizeGroups := sizeGroups[1..];
      }
    }

    /** Puts a file behind the others of its inode. */
    method PushToCluster(file: RmFile, ghost run: seq<RmFile>)
      requires TableOk(run, ClassOf(Here(), file))
      modifies this`nodeTable
      ensures TableOk(run + [file], ClassOf(Here(), file))
    {
      ghost var kind := ClassOf(Here(), file);
      var cluster := if file.node in nodeTable then nodeTable[file.node] else [];
      forall n ensures Twins(Here(), run + [file], kind, n)
                       == Twins(Here(), run, kind, n) + if n == file.node then [file] else [] {
        assert (run + [file])[..|run|] == run;
      }
      if file.node in nodeTable { assert ClusterOk(run, kind, file.node); } else { NoTwinsHere(run, kind, file.node); }
      ghost var table := nodeTable;
      forall n | n in table ensures table[n] == Twins(Here(), run, kind, n) { assert ClusterOk(run, kind, n); }
      forall f | f in run ensures f.node in table { assert HasCluster(f); }
      nodeTable := nodeTable[file.node := cluster + [file]];
      forall f | f in run + [file] ensures HasCluster(f) {}
      forall n | n in nodeTable ensures ClusterOk(run + [file], kind, n) {}
    }

    lemma NoTwinsHere(run: seq<RmFile>, kind: Class, n: Node)
      requires TableOk(run, kind) && n !in nodeTable
      ensures Twins(Here(), run, kind, n) == []
    {
      TwinsMembers(Here(), run, kind, n);
      forall f | f in run ensures f.node != n { assert HasCluster(f); }
      if Twins(Here(), run, kind, n) != [] { Member(Twins(Here(), run, kind, n)); }
    }

    /** The state after the files before position `b`, with the current run still open. */
    ghost predicate Progress(sorted: seq<RmFile>, b: nat)
      requires b <= |sorted|
      reads this`sizeGroups, this`totalFilteredFiles, this`hardlinks, this`otherLint
    {
      && Apart(Here(), sorted[..b], sorted[b..])
      && SplitOk(Here(), sorted[..b], sizeGroups) && LargestFirst(sizeGroups)
      && totalFilteredFiles == SumLengths(sizeGroups) + |sorted| - b
      && Filed(Here(), sorted[..b], hardlinks, otherLint)
    }

    /** The files from `b` to `p` are a complete run: turns them into a group. */
    method CloseRun(ghost sorted: seq<RmFile>, ghost b: nat, ghost p: nat, ghost run: seq<RmFile>, ghost kind: Class)
      requires SortedFiles(Here(), sorted) && b < p <= |sorted| && run == sorted[b..p]
      requires TableOk(run, kind) && Progress(sorted, b)
      requires p < |sorted| ==> Splits(cfg, sorted[p], sorted[p - 1])
      modifies this`nodeTable, this`sizeGroups, this`totalFilteredFiles, this`hardlinks, this`otherLint
      ensures nodeTable == map[] && Progress(sorted, p)
    {
      ghost var groups, links, lint := sizeGroups, hardlinks, otherLint;
      ghost var group := ProcessGroup(run, kind);
      RunEnds(Here(), sorted, b, p);
      FiledConcat(Here(), sorted[..b], run, links, hardlinks, lint, otherLint);
      assert sorted[..b] + run == sorted[..p];
      RunDone(Here(), sorted, b, p, groups, group, kind);
      LargerRun(Here(), sorted, b, p, groups, group);
      if group != [] { assert ([group] + groups)[1..] == groups; }
    }

    /** `rm_preprocess`, in a run that is not aborted. */
    method Preprocess(totalFiles: nat) returns (ghost sorted: seq<RmFile>)
      requires allFiles != [] && totalFiles == |allFiles| && nodeTable == map[] && sizeGroups == []
      requires hardlinks == map[] && otherLint == []
      requires files == Elements(allFiles) && NoDup(allFiles) && Sortable(cfg, files)
      modifies this
      ensures multiset(sorted) == multiset(old(allFiles)) && SortedFiles(Here(), sorted)
      ensures SplitOk(Here(), sorted, sizeGroups)
      ensures BestKept(Here(), sorted, sizeGroups) && LargestFirst(sizeGroups)
      ensures Filed(Here(), sorted, hardlinks, otherLint)
      ensures totalFilteredFiles == SumLengths(sizeGroups)
    {
      totalFilteredFiles := totalFiles;
      SortSorts(cfg, files, allFiles);
      SortPermutes(cfg, allFiles);
      SameElements(allFiles, Sort(cfg, allFiles));
      allFiles := Sort(cfg, allFiles);
      sorted := allFiles;
      NothingYet(Here(), sorted);
      NoneFiled(Here(), sorted);
      SplitAll(sorted);
      assert sorted[..|sorted|] == sorted;
      KeptIsBest(Here(), sorted, sizeGroups);
    }

    /** `g_queue_pop_head`, when the queue holds the list from position `p` on. */
    method PopHead(ghost sorted: seq<RmFile>, ghost p: nat) returns (file: Option<RmFile>)
      requires p <= |sorted| && allFiles == sorted[p..]
      modifies this`allFiles
      ensures if p < |sorted| then file == Some(sorted[p]) && allFiles == sorted[p + 1..]
              else file == None && allFiles == []
    {
      if allFiles == [] {
        return None;
      }
      file := Some(allFiles[0]);
      allFiles := allFiles[1..];
    }

    /** Between two rounds: the run from `b` is open, `file` at `p` is in hand, the rest is queued. */
    ghost predicate Between(sorted: seq<RmFile>, b: nat, p: nat, file: Option<RmFile>)
      reads this
    {
      && b <= p <= |sorted| && SortedFiles(Here(), sorted) && Progress(sorted, b)
      && if p < |sorted| then
           file == Some(sorted[p]) && allFiles == sorted[p + 1..] && TableOk(sorted[b..p], ClassOf(Here(), sorted[p]))
         else file == None && b == p
    }

    /** The loop of `rm_preprocess` over the sorted files. */
    method SplitAll(ghost sorted: seq<RmFile>)
      requires allFiles == sorted != [] && SortedFiles(Here(), sorted) && nodeTable == map[] && Progress(sorted, 0)
      modifies this
      ensures Progress(sorted, |sorted|)
    {
      var file := PopFirst(sorted);
      ghost var b: nat, p: nat := 0, 0;
      while file.Some?
        invariant Between(sorted, b, p, file)
        decreases |sorted| - p
      {
        file, b := Round(file.value, sorted, b, p);
        p := p + 1;
      }
      AllFiled(sorted, b, p);
    }

    lemma AllFiled(sorted: seq<RmFile>, b: nat, p: nat)
      requires Between(sorted, b, p, None)
      ensures Progress(sorted, |sorted|)
    {}

    method PopFirst(ghost sorted: seq<RmFile>) returns (file: Option<RmFile>)
      requires allFiles == sorted != [] && SortedFiles(Here(), sorted) && nodeTable == map[] && Progress(sorted, 0)
      modifies this`allFiles
      ensures Between(sorted, 0, 0, file)
    {
      file := PopHead(sorted, 0);
      OpenRun(sorted, 0);
    }

    /** One round of the loop. */
    method Round(current: RmFile, ghost sorted: seq<RmFile>, ghost b: nat, ghost p: nat)
      returns (next: Option<RmFile>, ghost b': nat)
      requires Between(sorted, b, p, Some(current))
      modifies this
      ensures Between(sorted, b', p + 1, next)
    {
      next := PopHead(sorted, p + 1);
      b' := HandleFile(current, next, sorted, b, p);
    }

    /** Files the current file away and closes its run if it was the last. */
    method HandleFile(current: RmFile, next: Option<RmFile>, ghost sorted: seq<RmFile>, ghost b: nat, ghost p: nat)
      returns (ghost b': nat)
      requires SortedFiles(Here(), sorted) && b <= p < |sorted| && current == sorted[p] && Progress(sorted, b)
      requires next == if p + 1 < |sorted| then Some(sorted[p + 1]) else None
      requires TableOk(sorted[b..p], ClassOf(Here(), current))
      modifies this`nodeTable, this`sizeGroups, this`totalFilteredFiles, this`hardlinks, this`otherLint
      ensures b' <= p + 1 && Progress(sorted, b')
      ensures if next.Some? then TableOk(sorted[b'..p + 1], ClassOf(Here(), next.value)) else b' == p + 1
    {
      FileAway(current, sorted, b, p);
      if next.None? || Splits(cfg, next.value, current) {
        CloseRun(sorted, b, p + 1, sorted[b..p + 1], ClassOf(Here(), current));
        OpenRun(sorted, p + 1);
        b' := p + 1;
      } else {
        RunGoesOn(Here(), sorted, p);
        b' := b;
      }
    }

    method FileAway(current: RmFile, ghost sorted: seq<RmFile>, ghost b: nat, ghost p: nat)
      requires b <= p < |sorted| && current == sorted[p] && Progress(sorted, b)
      requires TableOk(sorted[b..p], ClassOf(Here(), current))
      modifies this`nodeTable
      ensures Progress(sorted, b) && TableOk(sorted[b..p + 1], ClassOf(Here(), current))
    {
      PushToCluster(current, sorted[b..p]);
      RunGrows(sorted, b, p);
    }

    lemma OpenRun(sorted: seq<RmFile>, p: nat)
      requires p <= |sorted| && nodeTable == map[]
      ensures p < |sorted| ==> TableOk(sorted[p..p], ClassOf(Here(), sorted[p]))
    {}
  }
}
