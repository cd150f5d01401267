/** What the sieve promises, in every reachable state. */
module SieveTheorems {
  import opened Common
  import opened SieveState
  import opened SieveInvariant
  import opened SieveSteps
  import opened SieveRun
  import MemoryBank

  // ----- soundness -----

  /** No two different lists of buffers have the same checksum. */
  ghost predicate Injective(digest: seq<seq<Byte>> -> Digest) {
    forall a, b :: digest(a) == digest(b) ==> a == b
  }

  /** Files of one group agree on everything that was hashed: by induction up the chain of parents. */
  lemma {:induction false} PrefixesAgree(env: Env, gs: seq<Group>, a: FileId, b: FileId, g: GroupId)
    requires a < |env.files| && b < |env.files| && g < |gs| && env.pageSize > 0 && Shape(env, gs)
    requires OnTrack(env, gs, a, g) && OnTrack(env, gs, b, g)
    requires |env.files[a].content| == |env.files[b].content| == gs[g].fileSize
    requires Sane(env) && Injective(env.digest)
    ensures gs[g].hashOffset <= gs[g].fileSize
    ensures env.files[a].content[..gs[g].hashOffset] == env.files[b].content[..gs[g].hashOffset]
    decreases g
  {
    assert GroupShape(env, gs, g);
    match gs[g].origin {
      case None =>
      case Some(p) =>
        PrefixesAgree(env, gs, a, b, p);
        assert ChildShape(gs, p, gs[g].key) && GroupShape(env, gs, p);
        var from, next := gs[p].hashOffset, gs[p].nextOffset;
        OffsetAdvances(env.pageSize, env.paranoid, gs[p].fileSize, from, gs[p].offsetFactor);
        var x, y := env.files[a].content, env.files[b].content;
        assert HashedBuffers(env, a, gs[p]) == HashedBuffers(env, b, gs[p]);
        if env.paranoid {
          assert Flatten(env.buffers(a, from, next)) == x[from..next];
          assert Flatten(env.buffers(b, from, next)) == y[from..next];
          assert x[..next] == x[..from] + x[from..next];
          assert y[..next] == y[..from] + y[from..next];
        } else {
          assert [x[..next]][0] == [y[..next]][0];
        }
    }
  }

  lemma {:induction false} ClustersCounted(env: Env, held: seq<FileId>)
    requires Sane(env) && forall i :: 0 <= i < |held| ==> held[i] < |env.files|
    ensures SumTally(env, held).clusters == |held|
  {
    if held != [] { ClustersCounted(env, held[1..]); }
  }

  /**
   * Soundness: a group handed over as a set of duplicates holds only files of
   * equal content, and meets the criteria, counted over the files it holds.
   */
  lemma Soundness(env: Env, s: State, g: GroupId, i: nat, j: nat)
    requires g < |s.groups| && s.groups[g].stage == Reported && s.groups[g].status == Finishing
    requires i < |s.groups[g].held| && j < |s.groups[g].held|
    requires Sane(env) && Reachable(env, s) && Injective(env.digest)
    ensures forall k :: 0 <= k < |s.groups[g].held| ==> s.groups[g].held[k] < |env.files|
    ensures env.files[s.groups[g].held[i]].content == env.files[s.groups[g].held[j]].content
    ensures Qualifies(env.cfg, SumTally(env, s.groups[g].held))
  {
    ReachableInv(env, s);
    var grp := s.groups[g];
    var a, b := grp.held[i], grp.held[j];
    assert GroupShape(env, s.groups, g) && Queue(s.files, grp, g) && GroupTally(env, grp);
    ClustersCounted(env, grp.held);
    assert Place(env, s.files[a], env.files[a], a, s.groups) && Place(env, s.files[b], env.files[b], b, s.groups);
    assert OnTrack(env, s.groups, a, g) && OnTrack(env, s.groups, b, g) by {
      assert OnCourse(env, s.groups, s.files[a], a) && OnCourse(env, s.groups, s.files[b], b);
    }
    PrefixesAgree(env, s.groups, a, b, g);
    if grp.hashOffset == grp.fileSize {
      var x, y := env.files[a].content, env.files[b].content;
      assert x[..|x|] == x && y[..|y|] == y;
    }
  }

  // ----- completeness -----

  ghost function Root(gs: seq<Group>, g: GroupId): GroupId
    decreases g
  {
    if g < |gs| && gs[g].origin.Some? && gs[g].origin.value < g then Root(gs, gs[g].origin.value) else g
  }

  ghost predicate Above(gs: seq<Group>, a: GroupId, g: GroupId)
    decreases g
  {
    a == g || (g < |gs| && gs[g].origin.Some? && gs[g].origin.value < g && Above(gs, a, gs[g].origin.value))
  }

  lemma {:induction false} RootAbove(gs: seq<Group>, g: GroupId)
    ensures Above(gs, Root(gs, g), g)
    decreases g
  {
    if g < |gs| && gs[g].origin.Some? && gs[g].origin.value < g { RootAbove(gs, gs[g].origin.value); }
  }

  /** The group just below `a` on the way to `g`. */
  lemma {:induction false} StepDown(env: Env, gs: seq<Group>, a: GroupId, g: GroupId, f: FileId) returns (x: GroupId)
    requires f < |env.files| && g < |gs| && Above(gs, a, g) && a != g && OnTrack(env, gs, f, g)
    ensures x < |gs| && gs[x].origin == Some(a) && a < x && Above(gs, x, g) && OnTrack(env, gs, f, x)
    decreases g
  {
    var p := gs[g].origin.value;
    if p == a { x := g; } else { x := StepDown(env, gs, a, p, f); }
  }

  /**
   * On the way to group `g` the two files' increments had the same digests.  With
   * the paranoid type that is a matter of where their buffers were cut, too.
   */
  ghost predicate HashedAlike(env: Env, gs: seq<Group>, a: FileId, b: FileId, g: GroupId)
    requires a < |env.files| && b < |env.files|
    decreases g
  {
    g < |gs| &&
    match gs[g].origin
    case None => true
    case Some(p) =>
      p < g && p < |gs| && HashedBuffers(env, a, gs[p]) == HashedBuffers(env, b, gs[p]) && HashedAlike(env, gs, a, b, p)
  }

  /** Files of equal content are hashed alike with every type but the paranoid one. */
  lemma {:induction false} AlikeUnlessParanoid(env: Env, gs: seq<Group>, a: FileId, b: FileId, g: GroupId)
    requires a < |env.files| && b < |env.files| && g < |gs| && env.pageSize > 0 && Shape(env, gs)
    requires env.files[a].content == env.files[b].content && !env.paranoid
    ensures HashedAlike(env, gs, a, b, g)
    decreases g
  {
    assert GroupShape(env, gs, g);
    if gs[g].origin.Some? { AlikeUnlessParanoid(env, gs, a, b, gs[g].origin.value); }
  }

  /** Files in one group were hashed alike on their way. */
  lemma {:induction false} TogetherHashedAlike(env: Env, gs: seq<Group>, a: FileId, b: FileId, g: GroupId)
    requires a < |env.files| && b < |env.files| && g < |gs|
    requires OnTrack(env, gs, a, g) && OnTrack(env, gs, b, g) && Injective(env.digest)
    ensures HashedAlike(env, gs, a, b, g)
    decreases g
  {
    if gs[g].origin.Some? { TogetherHashedAlike(env, gs, a, b, gs[g].origin.value); }
  }

  /** Two files from one size group that were hashed alike: one is somewhere below the other. */
  lemma {:induction false} NeverSplit(env: Env, gs: seq<Group>, a: FileId, g: GroupId, b: FileId, h: GroupId)
    requires a < |env.files| && b < |env.files| && g < |gs| && h < |gs|
    requires Root(gs, g) == Root(gs, h) && HashedAlike(env, gs, a, b, g)
    requires OnTrack(env, gs, a, g) && OnTrack(env, gs, b, h)
    requires env.pageSize > 0 && Shape(env, gs)
    ensures Above(gs, g, h) || Above(gs, h, g)
    decreases g
  {
    assert GroupShape(env, gs, g);
    match gs[g].origin {
      case None => RootAbove(gs, h);
      case Some(p) =>
        NeverSplit(env, gs, a, p, b, h);
        if Above(gs, p, h) && p != h {
          var x := StepDown(env, gs, p, h, b);
          assert GroupShape(env, gs, x) && gs[x].key == gs[g].key;
        }
    }
  }

  /** Files from one size group that are at rest or reported, and were hashed alike, are in the same group. */
  lemma AlikeTogether(env: Env, s: State, a: FileId, b: FileId)
    requires WellFormed(env, s) && a < |s.files| && b < |s.files|
    requires s.files[a].loc in {Held, Done} && s.files[b].loc in {Held, Done}
    requires HashedAlike(env, s.groups, a, b, s.files[a].group)
    requires Root(s.groups, s.files[a].group) == Root(s.groups, s.files[b].group)
    requires Sane(env) && Reachable(env, s)
    ensures s.files[a].group == s.files[b].group
  {
    ReachableInv(env, s);
    var g, h := s.files[a].group, s.files[b].group;
    assert Place(env, s.files[a], env.files[a], a, s.groups) && Place(env, s.files[b], env.files[b], b, s.groups);
    assert GroupShape(env, s.groups, g) && GroupShape(env, s.groups, h);
    assert OnCourse(env, s.groups, s.files[a], a) && OnCourse(env, s.groups, s.files[b], b);
    NeverSplit(env, s.groups, a, g, b, h);
    if Above(s.groups, g, h) {
      RestingGroupHasNoDescendant(env, s, g, h, b);
    } else {
      RestingGroupHasNoDescendant(env, s, h, g, a);
    }
  }

  /**
   * Completeness: two files from one size group that are at rest or reported are in
   * the same group if and only if their increments on the way there were hashed
   * alike.  What that means for files of equal content is said in SieveReading.
   */
  lemma Completeness(env: Env, s: State, a: FileId, b: FileId)
    requires WellFormed(env, s) && a < |s.files| && b < |s.files|
    requires s.files[a].loc in {Held, Done} && s.files[b].loc in {Held, Done}
    requires Root(s.groups, s.files[a].group) == Root(s.groups, s.files[b].group)
    requires Sane(env) && Reachable(env, s) && Injective(env.digest)
    ensures s.files[a].group == s.files[b].group <==> HashedAlike(env, s.groups, a, b, s.files[a].group)
  {
    if s.files[a].group == s.files[b].group {
      ReachableInv(env, s);
      assert Place(env, s.files[a], env.files[a], a, s.groups);
      assert OnCourse(env, s.groups, s.files[a], a) && OnCourse(env, s.groups, s.files[b], b);
      TogetherHashedAlike(env, s.groups, a, b, s.files[a].group);
    } else if HashedAlike(env, s.groups, a, b, s.files[a].group) {
      AlikeTogether(env, s, a, b);
    }
  }

  lemma RestingGroupHasNoDescendant(env: Env, s: State, g: GroupId, h: GroupId, f: FileId)
    requires env.pageSize > 0 && Shape(env, s.groups) && g < |s.groups| && h < |s.groups| && f < |env.files|
    requires !IsHashing(s.groups[g].status) && Above(s.groups, g, h) && OnTrack(env, s.groups, f, h)
    ensures g == h
  {
    if g != h {
      var x := StepDown(env, s.groups, g, h, f);
      assert GroupShape(env, s.groups, x);
      ParentIsHashing(env, s.groups, g);
    }
  }

  lemma ParentIsHashing(env: Env, gs: seq<Group>, g: GroupId)
    requires env.pageSize > 0 && Shape(env, gs) && g < |gs| && gs[g].children != map[]
    ensures IsHashing(gs[g].status)
  {
    assert GroupShape(env, gs, g);
  }

  /** Above a group without a parent, everything was freed. */
  lemma {:induction false} AncestorsFreed(env: Env, gs: seq<Group>, a: GroupId, g: GroupId)
    requires env.pageSize > 0 && Shape(env, gs) && g < |gs| && Above(gs, a, g) && a != g && gs[g].parent.None?
    ensures a < |gs| && gs[a].stage == Freed
    decreases g
  {
    assert GroupShape(env, gs, g);
    var p := gs[g].origin.value;
    if p != a {
      assert GroupShape(env, gs, p);
      AncestorsFreed(env, gs, a, p);
    }
  }

  /** The next group on the way down, without regard to files. */
  lemma {:induction false} HasChildBelow(env: Env, gs: seq<Group>, a: GroupId, g: GroupId)
    requires env.pageSize > 0 && Shape(env, gs) && g < |gs| && Above(gs, a, g) && a != g
    ensures a < |gs| && gs[a].children != map[]
    decreases g
  {
    assert GroupShape(env, gs, g);
    var p := gs[g].origin.value;
    if p != a { HasChildBelow(env, gs, a, p); }
  }

  /**
   * A reported group misses no twin: every file from the same size group that was
   * hashed alike is in it, unless reading it failed.
   */
  lemma ReportedIsComplete(env: Env, s: State, g: GroupId, i: nat, b: FileId)
    requires WellFormed(env, s)
    requires g < |s.groups| && s.groups[g].stage == Reported && i < |s.groups[g].held|
    requires b < |s.files| && s.files[b].loc !in {Fresh, Ignored}
    requires HashedAlike(env, s.groups, s.groups[g].held[i], b, g)
    requires Root(s.groups, g) == Root(s.groups, s.files[b].group)
    requires Sane(env) && Reachable(env, s)
    ensures b in s.groups[g].held
  {
    ReachableInv(env, s);
    var a, h := s.groups[g].held[i], s.files[b].group;
    assert GroupShape(env, s.groups, g) && Queue(s.files, s.groups[g], g);
    assert Place(env, s.files[b], env.files[b], b, s.groups) && GroupShape(env, s.groups, h);
    assert OnCourse(env, s.groups, s.files[a], a) && OnCourse(env, s.groups, s.files[b], b);
    NeverSplit(env, s.groups, a, g, b, h);
    if Above(s.groups, g, h) {
      RestingGroupHasNoDescendant(env, s, g, h, b);
    } else {
      AncestorsFreed(env, s.groups, h, g);
      HasChildBelow(env, s.groups, h, g);
      ParentIsHashing(env, s.groups, h);
    }
  }

  /** A group goes into the results as a set of duplicates if and only if the files it holds meet the criteria. */
  lemma ReportedIffQualifies(env: Env, s: State, g: GroupId)
    requires g < |s.groups| && s.groups[g].stage == Reported
    requires Sane(env) && Reachable(env, s)
    ensures forall k :: 0 <= k < |s.groups[g].held| ==> s.groups[g].held[k] < |env.files|
    ensures s.groups[g].status == Finishing <==> Qualifies(env.cfg, SumTally(env, s.groups[g].held))
  {
    ReachableInv(env, s);
    assert GroupShape(env, s.groups, g) && GroupTally(env, s.groups[g]);
  }

  /** How many files are held, hardlinks and files bundled by their checksum included. */
  ghost function FilesIn(env: Env, held: seq<FileId>): nat {
    if held == [] then 0
    else FilesIn(env, held[1..]) + if held[0] < |env.files| then env.files[held[0]].tally.files else 0
  }

  /** Some file that is held has something of this kind: is tagged, is not, or is new. */
  ghost predicate SomeHeld(env: Env, held: seq<FileId>, kind: Tally -> nat) {
    exists k :: 0 <= k < |held| && held[k] < |env.files| && kind(env.files[held[k]].tally) > 0
  }

  lemma {:induction false} SumOfTallies(env: Env, held: seq<FileId>)
    requires forall i :: 0 <= i < |held| ==> held[i] < |env.files|
    ensures var t := SumTally(env, held);
      && t.files == FilesIn(env, held)
      && (t.pref > 0 <==> SomeHeld(env, held, (t: Tally) => t.pref))
      && (t.npref > 0 <==> SomeHeld(env, held, (t: Tally) => t.npref))
      && (t.newer > 0 <==> SomeHeld(env, held, (t: Tally) => t.newer))
  {
    if held != [] {
      SumOfTallies(env, held[1..]);
      SomeHeldNext(env, held, (t: Tally) => t.pref);
      SomeHeldNext(env, held, (t: Tally) => t.npref);
      SomeHeldNext(env, held, (t: Tally) => t.newer);
    }
  }

  lemma SomeHeldNext(env: Env, held: seq<FileId>, kind: Tally -> nat)
    requires held != [] && held[0] < |env.files|
    ensures SomeHeld(env, held, kind) <==> kind(env.files[held[0]].tally) > 0 || SomeHeld(env, held[1..], kind)
  {
    if SomeHeld(env, held[1..], kind) {
      var k :| 0 <= k < |held[1..]| && held[1..][k] < |env.files| && kind(env.files[held[1..][k]].tally) > 0;
      assert held[k + 1] == held[1..][k];
    }
    if k :| 0 <= k < |held| && held[k] < |env.files| && kind(env.files[held[k]].tally) > 0 {
      if k > 0 { assert held[1..][k - 1] == held[k]; }
    }
  }

  /**
   * What the criteria are: a group goes into the results as a set of duplicates if and only if it holds at least
   * two files, one of them tagged, one not tagged and one new, as far as the options ask for that.
   */
  lemma ReportedIffDuplicates(env: Env, s: State, g: GroupId)
    requires g < |s.groups| && s.groups[g].stage == Reported
    requires Sane(env) && Reachable(env, s)
    ensures s.groups[g].status == Finishing <==>
      && FilesIn(env, s.groups[g].held) >= 2
      && (env.cfg.needsPref ==> SomeHeld(env, s.groups[g].held, (t: Tally) => t.pref))
      && (env.cfg.needsNpref ==> SomeHeld(env, s.groups[g].held, (t: Tally) => t.npref))
      && (env.cfg.needsNew ==> SomeHeld(env, s.groups[g].held, (t: Tally) => t.newer))
  {
    ReportedIffQualifies(env, s, g);
    SumOfTallies(env, s.groups[g].held);
  }

  /**
   * A group is hashed, to the end of what it was created for, if and only if its files so far may be duplicates,
   * are not read to their end, and there is something to compare: two clusters, or one inode with several links
   * whose checksum is wanted for directories.
   */
  lemma HashedIffNeeded(env: Env, s: State, g: GroupId)
    requires g < |s.groups|
    requires Sane(env) && Reachable(env, s)
    ensures var grp := s.groups[g]; var t := grp.tally;
      grp.status == StartHashing || grp.status == Hashing <==>
      && t.files >= 2 && grp.hashOffset < grp.fileSize
      && (env.cfg.needsPref ==> t.pref > 0) && (env.cfg.needsNpref ==> t.npref > 0)
      && (env.cfg.needsNew ==> t.newer > 0)
      && (t.clusters >= 2 || (env.cfg.mergeDirectories && t.inodes == 1 && t.unhashed > 0))
  {
    ReachableInv(env, s);
    assert GroupShape(env, s.groups, g) && GroupTally(env, s.groups[g]);
  }

  /**
   * The two directions together: of the files of the size group that did not fail, a
   * reported set of duplicates holds exactly those that have the content of its files
   * and were hashed alike.
   */
  lemma ReportedExactly(env: Env, s: State, g: GroupId, i: nat, b: FileId)
    requires g < |s.groups| && s.groups[g].stage == Reported && s.groups[g].status == Finishing
    requires i < |s.groups[g].held| && b < |s.files| && s.files[b].loc !in {Fresh, Ignored}
    requires Root(s.groups, g) == Root(s.groups, s.files[b].group)
    requires WellFormed(env, s) && Sane(env) && Reachable(env, s) && Injective(env.digest)
    ensures b in s.groups[g].held <==>
      var a := s.groups[g].held[i];
      env.files[b].content == env.files[a].content && HashedAlike(env, s.groups, a, b, g)
  {
    var a := s.groups[g].held[i];
    if b in s.groups[g].held {
      var j :| 0 <= j < |s.groups[g].held| && s.groups[g].held[j] == b;
      Soundness(env, s, g, i, j);
      ReachableInv(env, s);
      assert Queue(s.files, s.groups[g], g);
      assert OnCourse(env, s.groups, s.files[a], a) && OnCourse(env, s.groups, s.files[b], b);
      TogetherHashedAlike(env, s.groups, a, b, g);
    } else if HashedAlike(env, s.groups, a, b, g) {
      ReportedIsComplete(env, s, g, i, b);
    }
  }

  /**
   * With every type but the paranoid one the checksum that a child group is found by is that of all its files have
   * in common so far; if they are read to their end, it is the checksum of each of them as a whole.
   */
  lemma ChecksumOfAll(env: Env, s: State, g: GroupId, i: nat)
    requires g < |s.groups| && s.groups[g].origin.Some? && i < |s.groups[g].held|
    requires Sane(env) && Reachable(env, s) && !env.paranoid
    ensures var f := s.groups[g].held[i];
      && f < |env.files| && s.groups[g].hashOffset <= |env.files[f].content|
      && s.groups[g].key == env.digest([env.files[f].content[..s.groups[g].hashOffset]])
      && (s.groups[g].hashOffset == s.groups[g].fileSize ==> s.groups[g].key == env.digest([env.files[f].content]))
  {
    ReachableInv(env, s);
    var f := s.groups[g].held[i];
    assert GroupShape(env, s.groups, g) && Queue(s.files, s.groups[g], g);
    assert Place(env, s.files[f], env.files[f], f, s.groups) && OnCourse(env, s.groups, s.files[f], f);
    var x := env.files[f].content;
    assert x[..|x|] == x;
  }

  /** A reported group holds a file, so that the result factory finds the head of its queue. */
  lemma ReportedHasHead(env: Env, s: State, g: GroupId)
    requires g < |s.groups| && s.groups[g].stage == Reported
    requires Sane(env) && Reachable(env, s)
    ensures s.groups[g].held != []
  {
    ReachableInv(env, s);
    assert GroupShape(env, s.groups, g);
  }

  // ----- lifecycle -----

  /**
   * Every group is finalised at most once, and that happens when and only when
   * it has no parent and no pending file (the root group being filled excepted);
   * `numPending` is the number of the group's files that are out.
   */
  lemma FinalisedOnce(env: Env, s: State, g: GroupId)
    requires g < |s.groups| && s.open != Some(g)
    requires Sane(env) && Reachable(env, s)
    ensures s.groups[g].finalised == if Unneeded(s.groups[g]) then 1 else 0
    ensures s.groups[g].numPending == |PendingFiles(s.files, g)|
    ensures s.groups[g].stage == Live <==> s.groups[g].finalised == 0
  {
    ReachableInv(env, s);
    assert GroupShape(env, s.groups, g) && Queue(s.files, s.groups[g], g);
  }

  /** The assertions of `rm_shred_group_free` hold whenever a group is about to be freed. */
  lemma FreeAssertions(env: Env, s: State, step: Step, g: GroupId)
    requires Enabled(env, s, step)
    requires step == Dispose(g) || step == Report(g)
    requires WellFormed(env, s) && Sane(env) && Reachable(env, s)
    ensures s.groups[g].parent == None && s.groups[g].numPending == 0 && s.groups[g].inProgress == {}
  {
    ReachableInv(env, s);
    assert GroupShape(env, s.groups, g) && Queue(s.files, s.groups[g], g);
    assert PendingFiles(s.files, g) == {};
  }

  /** The offset assertions of `rm_shred_hash_callback` and `rm_shred_group_push_file`. */
  lemma OffsetAssertions(env: Env, s: State, f: FileId)
    requires f < |s.files|
    requires Sane(env) && Reachable(env, s)
    ensures s.files[f].loc.Hashed? ==>
      var g := s.files[f].group;
      && g < |s.groups| && s.files[f].hashOffset == s.groups[g].nextOffset
      && s.groups[g].hashOffset < s.files[f].hashOffset <= s.groups[g].fileSize
      && (forall k :: k in s.groups[g].children ==>
            s.groups[g].children[k] < |s.groups|
              && s.groups[s.groups[g].children[k]].hashOffset == s.files[f].hashOffset)
  {
    ReachableInv(env, s);
    if s.files[f].loc.Hashed? {
      var g := s.files[f].group;
      assert Place(env, s.files[f], env.files[f], f, s.groups) && GroupShape(env, s.groups, g);
      OffsetAdvances(env.pageSize, env.paranoid, s.groups[g].fileSize, s.groups[g].hashOffset,
                     s.groups[g].offsetFactor);
      forall k | k in s.groups[g].children
        ensures s.groups[g].children[k] < |s.groups|
          && s.groups[s.groups[g].children[k]].hashOffset == s.files[f].hashOffset
      {
        assert ChildShape(s.groups, g, k) && GroupShape(env, s.groups, s.groups[g].children[k]);
      }
    }
  }

  /**
   * What a thread may find as a group's next offset when it takes no lock: the planned
   * value, or while an increment is being sized the one before the limit.
   */
  ghost predicate MayFind(env: Env, s: State, g: GroupId, v: nat)
    requires g < |s.groups| && env.pageSize > 0
  {
    || v == s.groups[g].nextOffset
    || (v == UncappedOffset(env, s.groups[g]) && BeingSized(s, g))
  }

  ghost predicate BeingSized(s: State, g: GroupId) {
    exists h :: 0 <= h < |s.files| && s.files[h].loc == Sizing && s.files[h].group == g
  }

  /** The limit of paranoid digests makes a difference. */
  predicate Limited(env: Env, grp: Group)
    requires env.pageSize > 0
  {
    env.paranoid && UncappedOffset(env, grp) > grp.hashOffset + PARANOID_BYTES
  }

  /**
   * The assertion of `rm_shred_hash_callback` holds whatever it finds as the next offset, if and only if
   * no thread is sizing an increment of the group just then or the limit makes no difference.
   */
  lemma CallbackAssertion(env: Env, s: State, f: FileId)
    requires f < |s.files| && s.files[f].loc.Hashed?
    requires WellFormed(env, s) && Sane(env) && Reachable(env, s)
    ensures var g := s.files[f].group;
      (forall v :: MayFind(env, s, g, v) ==> s.files[f].hashOffset == v) <==>
      !(BeingSized(s, g) && Limited(env, s.groups[g]))
  {
    ReachableInv(env, s);
    var g := s.files[f].group;
    assert Place(env, s.files[f], env.files[f], f, s.groups) && GroupShape(env, s.groups, g);
    assert MayFind(env, s, g, s.groups[g].nextOffset);
    if BeingSized(s, g) { assert MayFind(env, s, g, UncappedOffset(env, s.groups[g])); }
  }

  // ----- memory -----

  /** Group `a` is `g` or one of the parents that `g` still has. */
  ghost predicate StillAbove(gs: seq<Group>, a: GroupId, g: GroupId)
    decreases g
  {
    a == g || (g < |gs| && gs[g].parent.Some? && gs[g].parent.value < g && StillAbove(gs, a, gs[g].parent.value))
  }

  lemma {:induction false} AboveIsOlder(gs: seq<Group>, a: GroupId, g: GroupId)
    requires StillAbove(gs, a, g)
    ensures a <= g
    decreases g
  {
    if a != g { AboveIsOlder(gs, a, gs[g].parent.value); }
  }

  /** The files that may yet come into a group: those that are pending in it or above it. */
  ghost function MayCome(s: State, g: GroupId): set<FileId> {
    set f | 0 <= f < |s.files| && IsPending(s.files[f], s.files[f].group) && StillAbove(s.groups, s.files[f].group, g)
  }

  /** What the walk up the parents counts. */
  lemma {:induction false} PotentialIsPending(env: Env, s: State, g: GroupId)
    requires g < |s.groups| && WellFormed(env, s) && Inv(env, s)
    ensures PotentialFileCount(s, g) == |MayCome(s, g)|
    decreases g
  {
    assert Queue(s.files, s.groups[g], g);
    var here := PendingFiles(s.files, g);
    match s.groups[g].parent {
      case None => assert MayCome(s, g) == here;
      case Some(p) =>
        PotentialIsPending(env, s, p);
        forall f | f in MayCome(s, p) ensures f !in here { AboveIsOlder(s.groups, s.files[f].group, p); }
        assert MayCome(s, g) == here + MayCome(s, p);
    }
  }

  /** Undisturbed, a group asks for half of the files that may yet come into it, and one more. */
  lemma AsksForAll(env: Env, s: State, f: FileId)
    requires WellFormed(env, s) && f < |s.files| && s.files[f].loc == Out && env.paranoid
    requires Sane(env) && Reachable(env, s) && s.started
    ensures var g := s.files[f].group;
      g < |s.groups| && (s.groups[g].status == StartHashing ==>
        AskStep(env, s, f, CountAt(s, g)).files[f].loc
        == Asking((|MayCome(s, g)| / 2 + 1) * Min(s.groups[g].fileSize - s.groups[g].hashOffset, 16 * 1024 * 1024)))
  {
    ReachableInv(env, s);
    PotentialIsPending(env, s, s.files[f].group);
  }

  /**
   * The count of active groups is right exactly if no group was charged while it was
   * active already; otherwise it is too high for good.
   */
  lemma ActiveGroupsCounted(env: Env, s: State)
    requires Sane(env) && Reachable(env, s)
    ensures s.bank.activeGroups == MemoryBank.ActiveCount(s.bank.accounts) + s.bank.phantoms
  {
    ReachableInv(env, s);
  }

  /**
   * Memory is only refused while the active groups and the phantoms are more than 0, or than 1 for a group that
   * files are being pushed into; unless that is due to the phantoms, an active group will give memory back.
   */
  lemma RefusalMeansActive(env: Env, s: State, f: FileId)
    requires WellFormed(env, s) && f < |s.files| && (s.files[f].loc.Asking? || s.files[f].loc.Pushing?)
    requires !GrantedNow(env, s, f)
    requires Sane(env) && Reachable(env, s)
    ensures var few := if s.files[f].loc.Pushing? then 1 else 0;
      && MemoryBank.ActiveCount(s.bank.accounts) + s.bank.phantoms > few
      && (s.bank.phantoms <= few ==>
            exists a :: 0 <= a < |s.groups| && s.bank.accounts[a].isActive && s.groups[a].status == Hashing
                          && s.groups[a].stage in {Live, Finalising})
  {
    ReachableInv(env, s);
    if s.bank.phantoms <= Threshold(s.files[f].loc) {
      MemoryBank.SomeActive(s.bank.accounts);
      var a :| 0 <= a < |s.bank.accounts| && s.bank.accounts[a].isActive;
      assert AccountLinked(s.bank.accounts[a], s.groups[a]);
    }
  }

  /**
   * With so few active groups every request is granted, and otherwise exactly those that the bank and the account
   * of the parent can pay.
   */
  lemma GrantedExactly(env: Env, s: State, f: FileId)
    requires WellFormed(env, s) && f < |s.files| && (s.files[f].loc.Asking? || s.files[f].loc.Pushing?)
    requires Sane(env) && Reachable(env, s)
    ensures var few := if s.files[f].loc.Pushing? then 1 else 0; var g := AskedFor(env, s, f);
      && g < |s.groups| && (s.groups[g].parent.Some? ==> s.groups[g].parent.value < |s.groups|)
      && (GrantedNow(env, s, f) <==>
            || MemoryBank.ActiveCount(s.bank.accounts) + s.bank.phantoms <= few
            || s.files[f].loc.required <= s.bank.available
                 + if s.groups[g].parent.Some? then s.bank.accounts[s.groups[g].parent.value].allocation else 0)
  {
    ReachableInv(env, s);
    assert Place(env, s.files[f], env.files[f], f, s.groups) && GroupShape(env, s.groups, s.files[f].group);
    assert OnCourse(env, s.groups, s.files[f], f);
    assert GroupShape(env, s.groups, AskedFor(env, s, f));
  }
}
