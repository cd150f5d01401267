/** The increments planned by `rm_shred_get_read_size` (lib/shredder.c:496-533). */
module ReadSize {
  import opened Common
  import opened SieveState
  import opened SieveInvariant
  import opened SieveSteps
  import opened SieveRun
  import SieveTheorems

  /** Usual page sizes: a power of two up to 64 MiB; only the bound matters here. */
  const MAX_PAGE_SIZE: nat := 64 * 1024 * 1024

  lemma TargetBound(pageSize: nat, factor: nat)
    requires 0 < pageSize <= MAX_PAGE_SIZE && factor <= Max(1, MaxReadFactor(pageSize))
    ensures Max(pageSize * BALANCED_PAGES * factor / pageSize, 1) * pageSize <= MAX_READ_BYTES
  {
    var q := MAX_READ_BYTES / BALANCED_PAGES;
    assert factor * pageSize <= q / pageSize * pageSize;
    assert pageSize * BALANCED_PAGES * factor == (BALANCED_PAGES * factor) * pageSize;
    DivModUnique(pageSize * BALANCED_PAGES * factor, pageSize, BALANCED_PAGES * factor, 0);
    if factor == 0 { assert 1 * pageSize <= MAX_READ_BYTES; }
    else { assert BALANCED_PAGES * factor * pageSize == BALANCED_PAGES * (factor * pageSize); }
  }

  /**
   * Whenever a file is read, the increment is positive, stays inside the file,
   * is the one every other file of the group gets, and its length fits the
   * 32-bit result (at most 256 MiB and four pages).
   */
  lemma IncrementBounds(env: Env, s: State, f: FileId, ok: bool)
    requires Enabled(env, s, Read(f, ok))
    requires env.pageSize <= MAX_PAGE_SIZE
    requires WellFormed(env, s) && Sane(env) && Reachable(env, s)
    ensures var g := s.files[f].group; var t := ReadStep(env, s, f, ok);
      && s.files[f].hashOffset < t.files[f].hashOffset <= |env.files[f].content|
      && t.files[f].hashOffset == t.groups[g].nextOffset
      && (s.groups[g].nextOffset != 0 ==> t.groups[g].nextOffset == s.groups[g].nextOffset)
      && t.files[f].hashOffset - s.files[f].hashOffset <= MAX_READ_BYTES + BALANCED_PAGES * env.pageSize < 0x8000_0000
      && (env.paranoid ==> t.files[f].hashOffset - s.files[f].hashOffset <= PARANOID_BYTES)
  {
    ReachableInv(env, s);
    var g := s.files[f].group;
    assert Place(env, s.files[f], env.files[f], f, s.groups) && GroupShape(env, s.groups, g);
    OffsetAdvances(env.pageSize, env.paranoid, s.groups[g].fileSize, s.groups[g].hashOffset, s.groups[g].offsetFactor);
    TargetBound(env.pageSize, s.groups[g].offsetFactor);
  }

  // ----- how increments grow -----

  function Power8(n: nat): nat {
    if n == 0 then 1 else 8 * Power8(n - 1)
  }

  /** How many groups are above a group: the number of increments that its files have behind them. */
  ghost function Depth(gs: seq<Group>, g: GroupId): nat
    decreases g
  {
    if g < |gs| && gs[g].origin.Some? && gs[g].origin.value < g then 1 + Depth(gs, gs[g].origin.value) else 0
  }

  /** The factor grows eightfold with every generation, up to the limit. */
  lemma {:induction false} FactorIsPower(env: Env, gs: seq<Group>, g: GroupId)
    requires env.pageSize > 0 && Shape(env, gs) && g < |gs|
    ensures var d := Depth(gs, g);
      gs[g].offsetFactor == if d == 0 then 1 else Min(Power8(d), MaxReadFactor(env.pageSize))
    decreases g
  {
    assert GroupShape(env, gs, g);
    if gs[g].origin.Some? { FactorIsPower(env, gs, gs[g].origin.value); }
  }

  lemma WholePages(pageSize: nat, factor: nat)
    requires pageSize > 0
    ensures pageSize * BALANCED_PAGES * factor / pageSize == BALANCED_PAGES * factor
  {
    assert pageSize * BALANCED_PAGES * factor == (BALANCED_PAGES * factor) * pageSize;
    DivModUnique(pageSize * BALANCED_PAGES * factor, pageSize, BALANCED_PAGES * factor, 0);
  }

  /**
   * What is read of a file that has `d` increments behind it: 4 pages at first, then eight times as many with
   * every generation up to a quarter of 256 MiB in units of 4 pages, and at least one page.  If no more than
   * 4 pages would be left, all is read; and for the paranoid type never more than 16 MiB.
   */
  lemma ReadLengths(env: Env, s: State, f: FileId, ok: bool)
    requires Enabled(env, s, Read(f, ok))
    requires WellFormed(env, s) && Sane(env) && Reachable(env, s)
    ensures var d, page := Depth(s.groups, s.files[f].group), env.pageSize;
      var left := |env.files[f].content| - s.files[f].hashOffset;
      var factor := if d == 0 then 1 else Min(Power8(d), 256 * 1024 * 1024 / 4 / page);
      var balanced := Max(4 * factor, 1) * page;
      var all := if left <= balanced + 4 * page then left else balanced;
      ReadStep(env, s, f, ok).files[f].hashOffset - s.files[f].hashOffset
        == if env.paranoid then Min(all, 16 * 1024 * 1024) else all
  {
    ReachableInv(env, s);
    var g := s.files[f].group;
    assert Place(env, s.files[f], env.files[f], f, s.groups) && GroupShape(env, s.groups, g);
    FactorIsPower(env, s.groups, g);
    WholePages(env.pageSize, s.groups[g].offsetFactor);
  }

  lemma IncrementAtLeast(pageSize: nat, fileSize: nat, hashOffset: nat, factor: nat)
    requires pageSize > 0 && NextOffset(pageSize, false, fileSize, hashOffset, factor) < fileSize
    ensures NextOffset(pageSize, false, fileSize, hashOffset, factor) >= 4 * pageSize * factor
  {
    WholePages(pageSize, factor);
    var balanced := Max(BALANCED_PAGES * factor, 1) * pageSize;
    assert BALANCED_PAGES * factor * pageSize == 4 * pageSize * factor;
    MulLe(BALANCED_PAGES * factor, Max(BALANCED_PAGES * factor, 1), pageSize);
  }

  lemma ChildStartsLater(env: Env, gs: seq<Group>, g: GroupId, p: GroupId)
    requires env.pageSize > 0 && !env.paranoid && Shape(env, gs) && g < |gs| && gs[g].origin == Some(p)
    requires gs[g].hashOffset < gs[g].fileSize
    ensures p < |gs| && gs[g].hashOffset >= 4 * env.pageSize * gs[p].offsetFactor
  {
    assert GroupShape(env, gs, g) && GroupShape(env, gs, p) && ChildShape(gs, p, gs[g].key);
    IncrementAtLeast(env.pageSize, gs[p].fileSize, gs[p].hashOffset, gs[p].offsetFactor);
  }

  /**
   * So there are few generations: without the limit of the paranoid type, files with `d` increments behind them
   * that are not read to their end had at least as much read as the last increment, which grows exponentially.
   */
  lemma FewGenerations(env: Env, s: State, g: GroupId)
    requires Sane(env) && Reachable(env, s) && !env.paranoid && g < |s.groups|
    requires Depth(s.groups, g) > 0 && s.groups[g].hashOffset < s.groups[g].fileSize
    ensures var d, limit := Depth(s.groups, g) - 1, MaxReadFactor(env.pageSize);
      s.groups[g].hashOffset >= 4 * env.pageSize * if d == 0 then 1 else Min(Power8(d), limit)
  {
    ReachableInv(env, s);
    var p := s.groups[g].origin.value;
    ChildStartsLater(env, s.groups, g, p);
    FactorIsPower(env, s.groups, p);
  }

  /**
   * When the limit of paranoid digests makes a difference, and what another thread may find then: the increment
   * without it is more than 16 MiB.
   */
  lemma LimitMatters(env: Env, s: State, g: GroupId)
    requires Sane(env) && Reachable(env, s) && g < |s.groups|
    ensures var d, page := Depth(s.groups, g), env.pageSize;
      var left := s.groups[g].fileSize - s.groups[g].hashOffset;
      var factor := if d == 0 then 1 else Min(Power8(d), MaxReadFactor(page));
      var balanced := Max(4 * factor, 1) * page;
      var all := if left <= balanced + 4 * page then left else balanced;
      && UncappedOffset(env, s.groups[g]) == s.groups[g].hashOffset + all
      && (SieveTheorems.Limited(env, s.groups[g]) <==> env.paranoid && all > 16 * 1024 * 1024)
  {
    ReachableInv(env, s);
    assert GroupShape(env, s.groups, g);
    FactorIsPower(env, s.groups, g);
    WholePages(env.pageSize, s.groups[g].offsetFactor);
  }
}
