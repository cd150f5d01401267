/** Pushing a file into a group keeps the invariant. */
module SievePush {
  import opened Common
  import opened SieveState
  import opened SieveInvariant
  import MemoryBank

  // ----- frames -----

  /** The part of a group that never changes, up to planning its first increment and gaining children. */
  ghost predicate Extends(a: Group, b: Group) {
    && b.origin == a.origin && b.key == a.key
    && b.fileSize == a.fileSize && b.hashOffset == a.hashOffset && b.offsetFactor == a.offsetFactor
    && (a.nextOffset != 0 ==> b.nextOffset == a.nextOffset)
    && (forall k :: k in a.children ==> k in b.children && b.children[k] == a.children[k])
    && (IsHashing(a.status) ==> IsHashing(b.status))
  }

  ghost predicate AllExtend(gs: seq<Group>, gs': seq<Group>) {
    && |gs| <= |gs'|
    && forall g :: 0 <= g < |gs| ==> Extends(gs[g], gs'[g])
  }

  lemma {:induction false} OnTrackExtends(env: Env, gs: seq<Group>, gs': seq<Group>, f: FileId, g: GroupId)
    requires env.pageSize > 0 && f < |env.files| && g < |gs|
    requires Shape(env, gs) && AllExtend(gs, gs') && OnTrack(env, gs, f, g)
    ensures OnTrack(env, gs', f, g)
    decreases g
  {
    assert Extends(gs[g], gs'[g]) && GroupShape(env, gs, g);
    match gs[g].origin {
      case None =>
      case Some(p) =>
        OnTrackExtends(env, gs, gs', f, p);
        assert Extends(gs[p], gs'[p]) && ChildShape(gs, p, gs[g].key);
        assert GroupShape(env, gs, p);
    }
  }

  lemma OnCourseExtends(env: Env, gs: seq<Group>, gs': seq<Group>, x: File, f: FileId)
    requires env.pageSize > 0 && f < |env.files| && x.group < |gs|
    requires Shape(env, gs) && AllExtend(gs, gs') && OnCourse(env, gs, x, f)
    ensures OnCourse(env, gs', x, f)
  {
    OnTrackExtends(env, gs, gs', f, x.group);
    if InHand(x.loc) {
      assert GroupShape(env, gs, x.group) && Extends(gs[x.group], gs'[x.group]);
      var c := gs[x.group].children[KeyOf(env, f, gs[x.group])];
      assert Extends(gs[c], gs'[c]);
    }
  }

  lemma TrackedExtends(env: Env, files: seq<File>, gs: seq<Group>, gs': seq<Group>)
    requires env.pageSize > 0 && |files| == |env.files|
    requires Shape(env, gs) && AllExtend(gs, gs') && Tracked(env, files, gs)
    requires forall f :: 0 <= f < |files| && files[f].loc != Fresh ==> files[f].group < |gs|
    ensures Tracked(env, files, gs')
  {
    forall f | 0 <= f < |files| && files[f].loc != Fresh ensures OnCourse(env, gs', files[f], f) {
      OnCourseExtends(env, gs, gs', files[f], f);
    }
  }

  /** Files move on inside their groups. */
  lemma TrackedMoves(env: Env, files: seq<File>, files': seq<File>, gs: seq<Group>)
    requires |files| == |files'| == |env.files| && Tracked(env, files, gs)
    requires forall f :: 0 <= f < |files| && files'[f].loc != Fresh ==>
      files[f].loc != Fresh && files'[f].group == files[f].group && (InHand(files'[f].loc) ==> InHand(files[f].loc))
    ensures Tracked(env, files', gs)
  {
    forall f | 0 <= f < |files'| && files'[f].loc != Fresh ensures OnCourse(env, gs, files'[f], f) {
      assert OnCourse(env, gs, files[f], f);
    }
  }

  /** Replacing one group by one with the same links. */
  lemma ShapeUpdate(env: Env, gs: seq<Group>, g: GroupId, grp: Group)
    requires env.pageSize > 0 && g < |gs| && Shape(env, gs)
    requires Extends(gs[g], grp) && grp.children == gs[g].children
    requires gs[g].stage == Freed ==> grp.stage == Freed
    requires GroupShape(env, gs[g := grp], g)
    ensures Shape(env, gs[g := grp])
  {
    var gs' := gs[g := grp];
    forall i | 0 <= i < |gs| ensures GroupShape(env, gs', i) {
      assert GroupShape(env, gs, i);
      match gs[i].origin {
        case None =>
        case Some(p) => assert ChildShape(gs, p, gs[i].key); assert GroupShape(env, gs, p);
      }
    }
    forall i, k | 0 <= i < |gs'| && k in gs'[i].children ensures ChildShape(gs', i, k) {
      assert ChildShape(gs, i, k);
    }
  }

  // ----- counting the files left -----

  lemma {:induction false} SetFile(infos: seq<Info>, files: seq<File>, f: FileId, x: File)
    requires f < |files| <= |infos|
    ensures FilesLeft(files[f := x]) - (if Counted(x.loc) then 1 else 0)
         == FilesLeft(files) - (if Counted(files[f].loc) then 1 else 0)
    ensures BytesLeft(infos, files[f := x]) - (if Counted(x.loc) then |infos[f].content| - x.hashOffset else 0)
         == BytesLeft(infos, files) - (if Counted(files[f].loc) then |infos[f].content| - files[f].hashOffset else 0)
  {
    var n := |files| - 1;
    if f == n {
      assert files[f := x][..n] == files[..n];
    } else {
      assert files[f := x][..n] == files[..n][f := x];
      SetFile(infos, files[..n], f, x);
    }
  }

  lemma {:induction false} SameLeft(infos: seq<Info>, a: seq<File>, b: seq<File>)
    requires |a| == |b| <= |infos|
    requires forall f :: 0 <= f < |a| ==> Counted(a[f].loc) == Counted(b[f].loc) && a[f].hashOffset == b[f].hashOffset
    ensures FilesLeft(a) == FilesLeft(b) && BytesLeft(infos, a) == BytesLeft(infos, b)
  {
    if a != [] { SameLeft(infos, a[..|a|-1], b[..|b|-1]); }
  }

  // ----- the pieces of Push -----

  lemma CommitStructure(env: Env, files: seq<File>, gs: seq<Group>, g: GroupId)
    requires Structure(env, files, gs) && g < |gs|
    requires IsHashing(gs[g].status)
    ensures Structure(env, files, gs[g := gs[g].(status := Hashing)])
  {
    var gs' := gs[g := gs[g].(status := Hashing)];
    assert GroupShape(env, gs, g);
    ShapeUpdate(env, gs, g, gs'[g]);
    forall f | 0 <= f < |files| ensures Place(env, files[f], env.files[f], f, gs') {
      assert Place(env, files[f], env.files[f], f, gs);
    }
    TrackedExtends(env, files, gs, gs');
    forall i | 0 <= i < |gs'| ensures Queue(files, gs'[i], i) && GroupTally(env, gs'[i]) {
      assert Queue(files, gs[i], i) && GroupTally(env, gs[i]);
    }
  }

  /** The parent's account was zeroed by another thread. */
  lemma TearStructure(env: Env, files: seq<File>, gs: seq<Group>, p: GroupId)
    requires Structure(env, files, gs) && p < |gs| && gs[p].stage == Returned
    ensures Structure(env, files, gs[p := gs[p].(stage := Cleared)])
  {
    var grp := gs[p].(stage := Cleared);
    assert GroupShape(env, gs, p) && GroupTally(env, gs[p]);
    StagePlaces(env, files, gs, p, grp);
    GroupStructure(env, files, gs, p, grp);
  }

  lemma StagePlaces(env: Env, files: seq<File>, gs: seq<Group>, g: GroupId, grp: Group)
    requires Places(env, files, gs) && g < |gs| && gs[g].numPending == 0 && gs[g].stage != Freed
    requires grp == gs[g].(stage := grp.stage, finalised := grp.finalised, status := grp.status, parent := grp.parent)
    ensures Places(env, files, gs[g := grp])
  {
    var gs' := gs[g := grp];
    assert Queue(files, gs[g], g);
    assert PendingFiles(files, g) == {};
    forall i | 0 <= i < |gs'| ensures Queue(files, gs'[i], i) {
      assert Queue(files, gs[i], i);
    }
    forall f | 0 <= f < |files| ensures Place(env, files[f], env.files[f], f, gs') {
      assert Place(env, files[f], env.files[f], f, gs);
      assert f !in PendingFiles(files, g);
    }
  }

  lemma CommitBanked(env: Env, s: State, g: GroupId, required: nat, tear: Tear)
    requires Banked(env, s) && g < |s.groups| && ParentsBelow(s.groups) && env.paranoid
    requires IsHashing(s.groups[g].status) && s.groups[g].stage == Live
    requires tear != MemoryBank.Whole ==>
      s.groups[g].parent.Some? && s.groups[s.groups[g].parent.value].stage == Returned
    ensures Banked(env, Commit(s, g, required, tear))
  {
    var t, parent := Commit(s, g, required, tear), s.groups[g].parent;
    assert AccountLinked(s.bank.accounts[g], s.groups[g]);
    if parent.Some? { assert AccountLinked(s.bank.accounts[parent.value], s.groups[parent.value]); }
    MemoryBank.ChargeBalanced(s.bank, g, parent, required, tear, env.memory);
    forall i | 0 <= i < |t.groups| ensures AccountLinked(t.bank.accounts[i], t.groups[i]) {
      assert AccountLinked(s.bank.accounts[i], s.groups[i]);
    }
  }

  lemma CommitCore(env: Env, s: State, g: GroupId, required: nat, tear: Tear)
    requires g < |s.groups| && ParentsBelow(s.groups) && env.paranoid
    requires IsHashing(s.groups[g].status) && s.groups[g].stage == Live
    requires tear != MemoryBank.Whole ==>
      s.groups[g].parent.Some? && s.groups[s.groups[g].parent.value].stage == Returned
    requires Core(env, s)
    ensures Core(env, Commit(s, g, required, tear))
  {
    CommitBanked(env, s, g, required, tear);
    CommitStructure(env, s.files, s.groups, g);
    if tear != MemoryBank.Whole {
      TearStructure(env, s.files, s.groups[g := s.groups[g].(status := Hashing)], s.groups[g].parent.value);
    }
  }

  lemma RequiredPositive(grp: Group, count: nat)
    requires grp.hashOffset < grp.fileSize
    ensures Required(grp, count) > 0
  {
    var size := Min(grp.fileSize - grp.hashOffset, PARANOID_BYTES);
    assert (count / 2 + 1) * size == count / 2 * size + size;
    MulNonNegative(count / 2, size);
  }

  lemma MulNonNegative(a: int, b: int)
    requires a >= 0 && b >= 0
    ensures a * b >= 0
  {}

  /** Everything of the structure but the places, after one group changed. */
  lemma GroupStructure(env: Env, files: seq<File>, gs: seq<Group>, g: GroupId, grp: Group)
    requires Structure(env, files, gs) && g < |gs|
    requires Extends(gs[g], grp) && grp.children == gs[g].children
    requires gs[g].stage == Freed ==> grp.stage == Freed
    requires GroupShape(env, gs[g := grp], g) && GroupTally(env, grp)
    ensures Shape(env, gs[g := grp]) && Tallies(env, gs[g := grp]) && Tracked(env, files, gs[g := grp])
  {
    ShapeUpdate(env, gs, g, grp);
    forall f | 0 <= f < |files| ensures Place(env, files[f], env.files[f], f, gs) {}
    TrackedExtends(env, files, gs, gs[g := grp]);
  }

  lemma ReleasePending(s: State, t: State, g: GroupId)
    requires g < |s.groups| && t == ReleaseHeld(s, g) && Queue(s.files, s.groups[g], g)
    ensures |PendingFiles(t.files, g)| == |PendingFiles(s.files, g)| + |s.groups[g].held|
    ensures PendingFiles(s.files, g) <= PendingFiles(t.files, g)
    ensures forall i :: 0 <= i < |s.groups| && i != g ==> PendingFiles(t.files, i) == PendingFiles(s.files, i)
  {
    var held := s.groups[g].held;
    assert PendingFiles(t.files, g) == PendingFiles(s.files, g) + Elements(held);
    assert PendingFiles(s.files, g) !! Elements(held);
    NoDupCardinality(held);
    forall i | 0 <= i < |s.groups| && i != g ensures PendingFiles(t.files, i) == PendingFiles(s.files, i) {}
  }

  lemma ReleasePlaces(env: Env, s: State, g: GroupId, grp: Group)
    requires Places(env, s.files, s.groups) && g < |s.groups|
    requires grp == s.groups[g].(status := StartHashing, tally := grp.tally)
    requires s.groups[g].stage == Live && s.groups[g].status in {Dormant, StartHashing}
    ensures var t := ReleaseHeld(SetGroup(s, g, grp), g); Places(env, t.files, t.groups)
  {
    var u := SetGroup(s, g, grp);
    var t := ReleaseHeld(u, g);
    assert Queue(s.files, s.groups[g], g);
    ReleasePending(u, t, g);
    forall i | 0 <= i < |t.groups| ensures Queue(t.files, t.groups[i], i) {
      assert Queue(s.files, s.groups[i], i);
      if i != g { assert PendingFiles(t.files, i) == PendingFiles(u.files, i); }
    }
    forall f | 0 <= f < |t.files| ensures Place(env, t.files[f], env.files[f], f, t.groups) {
      assert Place(env, s.files[f], env.files[f], f, s.groups);
    }
  }

  /** The group starts hashing: its held files are handed to the scheduler. */
  lemma ReleaseStructure(env: Env, s: State, g: GroupId, grp: Group)
    requires Structure(env, s.files, s.groups) && g < |s.groups|
    requires grp == s.groups[g].(status := StartHashing, tally := grp.tally)
    requires s.groups[g].stage == Live && s.groups[g].status in {Dormant, StartHashing}
    requires grp.hashOffset < grp.fileSize && NeedsHashing(env.cfg, grp) && grp.tally.clusters > 0
    ensures var t := ReleaseHeld(SetGroup(s, g, grp), g); Structure(env, t.files, t.groups)
  {
    var t := ReleaseHeld(SetGroup(s, g, grp), g);
    ReleasePlaces(env, s, g, grp);
    assert t.groups == s.groups[g := t.groups[g]];
    assert GroupShape(env, s.groups, g);
    GroupStructure(env, s.files, s.groups, g, t.groups[g]);
    assert Queue(s.files, s.groups[g], g);
    TrackedMoves(env, s.files, t.files, t.groups);
  }

  /** A file between two groups that belongs into group `g`. */
  ghost predicate Arriving(env: Env, s: State, g: GroupId, f: FileId) {
    && g < |s.groups| && f < |s.files| == |env.files|
    && s.files[f].loc == Moving
    && s.files[f].hashOffset == s.groups[g].hashOffset
    && |env.files[f].content| == s.groups[g].fileSize
    && s.groups[g].stage == Live
    && OnTrack(env, s.groups, f, g)
  }

  lemma SendOutPlaces(env: Env, s: State, g: GroupId, f: FileId)
    requires Places(env, s.files, s.groups) && Arriving(env, s, g, f)
    requires IsHashing(s.groups[g].status)
    ensures var t := SendOut(s, g, f); Places(env, t.files, t.groups)
  {
    var t := SendOut(s, g, f);
    assert PendingFiles(t.files, g) == PendingFiles(s.files, g) + {f};
    forall i | 0 <= i < |t.groups| ensures Queue(t.files, t.groups[i], i) {
      assert Queue(s.files, s.groups[i], i);
      if i != g {
        assert PendingFiles(t.files, i) == PendingFiles(s.files, i);
      }
    }
    forall h | 0 <= h < |t.files| ensures Place(env, t.files[h], env.files[h], h, t.groups) {
      assert Place(env, s.files[h], env.files[h], h, s.groups);
    }
  }

  lemma SendOutStructure(env: Env, s: State, g: GroupId, f: FileId)
    requires Structure(env, s.files, s.groups) && Arriving(env, s, g, f)
    requires IsHashing(s.groups[g].status)
    ensures var t := SendOut(s, g, f); Structure(env, t.files, t.groups)
  {
    var t := SendOut(s, g, f);
    SendOutPlaces(env, s, g, f);
    assert GroupShape(env, s.groups, g) && GroupTally(env, s.groups[g]);
    GroupStructure(env, s.files, s.groups, g, t.groups[g]);
    OnTrackExtends(env, s.groups, t.groups, f, g);
  }

  lemma HoldPlaces(env: Env, s: State, g: GroupId, f: FileId, grp: Group)
    requires Places(env, s.files, s.groups) && Arriving(env, s, g, f)
    requires grp == s.groups[g].(tally := grp.tally)
    ensures var t := Hold(SetGroup(s, g, grp), g, f); Places(env, t.files, t.groups)
  {
    var t := Hold(SetGroup(s, g, grp), g, f);
    forall i | 0 <= i < |t.groups| ensures Queue(t.files, t.groups[i], i) {
      assert Queue(s.files, s.groups[i], i);
      assert PendingFiles(t.files, i) == PendingFiles(s.files, i);
    }
    forall h | 0 <= h < |t.files| ensures Place(env, t.files[h], env.files[h], h, t.groups) {
      assert Place(env, s.files[h], env.files[h], h, s.groups);
    }
  }

  lemma HoldStructure(env: Env, s: State, g: GroupId, f: FileId, grp: Group)
    requires Structure(env, s.files, s.groups) && Arriving(env, s, g, f)
    requires s.groups[g].status == Dormant
    requires grp == UpdateStatus(env.cfg, s.groups[g].(tally := Add(s.groups[g].tally, env.files[f].tally)))
    requires grp.status == Dormant
    ensures var t := Hold(SetGroup(s, g, grp), g, f); Structure(env, t.files, t.groups)
  {
    var t := Hold(SetGroup(s, g, grp), g, f);
    HoldPlaces(env, s, g, f, grp);
    assert t.groups[g].held[1..] == s.groups[g].held;
    assert GroupShape(env, s.groups, g) && GroupTally(env, s.groups[g]);
    assert t.groups == s.groups[g := t.groups[g]];
    HashedIfNeeded(env, s.groups[g], f);
    GroupStructure(env, s.files, s.groups, g, t.groups[g]);
    OnTrackExtends(env, s.groups, t.groups, f, g);
  }

  /** One more file is counted: the group hashes exactly if that is needed, before and after. */
  lemma HashedIfNeeded(env: Env, grp: Group, f: FileId)
    requires GroupTally(env, grp) && f < |env.files| && env.files[f].tally.clusters == 1
    requires grp.status == Dormant || IsHashing(grp.status)
    ensures IsHashing(CountedIn(env, grp, f).status) <==> NeedsHashing(env.cfg, CountedIn(env, grp, f))
    ensures CountedIn(env, grp, f).tally.clusters > 0
  {}

  lemma TallyStructure(env: Env, s: State, g: GroupId, tally: Tally)
    requires Structure(env, s.files, s.groups) && g < |s.groups| && IsHashing(s.groups[g].status)
    requires NeedsHashing(env.cfg, s.groups[g].(tally := tally)) && tally.clusters > 0
    ensures Structure(env, s.files, s.groups[g := s.groups[g].(tally := tally)])
  {
    var gs' := s.groups[g := s.groups[g].(tally := tally)];
    assert GroupShape(env, s.groups, g);
    assert GroupTally(env, s.groups[g]);
    GroupStructure(env, s.files, s.groups, g, gs'[g]);
    forall i | 0 <= i < |gs'| ensures Queue(s.files, gs'[i], i) {
      assert Queue(s.files, s.groups[i], i);
    }
    forall h | 0 <= h < |s.files| ensures Place(env, s.files[h], env.files[h], h, gs') {
      assert Place(env, s.files[h], env.files[h], h, s.groups);
    }
  }

  // ----- Push as a whole -----

  lemma BankedFrame(env: Env, s: State, t: State)
    requires Banked(env, s) && t.bank == s.bank && |t.groups| == |s.groups|
    requires forall i :: 0 <= i < |s.groups| ==>
      && t.groups[i].stage == s.groups[i].stage
      && (t.groups[i].status == s.groups[i].status
          || (s.groups[i].status == Dormant && t.groups[i].status == StartHashing))
    ensures Banked(env, t)
  {
    forall i | 0 <= i < |t.groups| ensures AccountLinked(t.bank.accounts[i], t.groups[i]) {
      assert AccountLinked(s.bank.accounts[i], s.groups[i]);
    }
  }

  /** What Push does to the lifecycle of groups and to the other files. */
  ghost predicate Pushed(s: State, t: State, g: GroupId, f: FileId)
    requires g < |s.groups| && f < |s.files|
  {
    && |t.groups| == |s.groups| && |t.files| == |s.files|
    && t.open == s.open && t.started == s.started
    && (forall i :: 0 <= i < |s.groups| && i != g ==> t.groups[i] == s.groups[i])
    && Extends(s.groups[g], t.groups[g])
    && t.groups[g].parent == s.groups[g].parent && t.groups[g].stage == s.groups[g].stage
    && t.groups[g].numPending >= s.groups[g].numPending
    && (IsHashing(t.groups[g].status) ==> t.groups[g].numPending > s.groups[g].numPending)
    && t.files[f].loc in {Held, Out} && t.files[f].group == g
    && t.files[f].hashOffset == s.files[f].hashOffset
    && (t.files[f].loc == Out <==> IsHashing(t.groups[g].status))
    && t.bank == s.bank
    && (!IsHashing(t.groups[g].status) ==> t.groups[g].held == [f] + s.groups[g].held)
    && (forall i :: 0 <= i < |s.files| && i != f ==>
          || t.files[i] == s.files[i]
          || (s.files[i].loc == Held && s.files[i].group == g && t.files[i] == s.files[i].(loc := Out)))
  }

  lemma SentOut(env: Env, s: State, g: GroupId, f: FileId)
    requires Arriving(env, s, g, f) && IsHashing(s.groups[g].status)
    requires Core(env, s)
    ensures Core(env, SendOut(s, g, f))
  {
    var t := SendOut(s, g, f);
    SendOutStructure(env, s, g, f);
    BankedFrame(env, s, t);
    SameLeft(env.files, s.files, t.files);
  }

  lemma Released(env: Env, s: State, g: GroupId, grp: Group)
    requires g < |s.groups|
    requires grp == s.groups[g].(status := StartHashing, tally := grp.tally)
    requires s.groups[g].stage == Live && s.groups[g].status in {Dormant, StartHashing}
    requires grp.hashOffset < grp.fileSize && NeedsHashing(env.cfg, grp) && grp.tally.clusters > 0
    requires Core(env, s)
    ensures Core(env, ReleaseHeld(SetGroup(s, g, grp), g))
  {
    var t := ReleaseHeld(SetGroup(s, g, grp), g);
    ReleaseStructure(env, s, g, grp);
    BankedFrame(env, s, t);
    assert Queue(s.files, s.groups[g], g);
    SameLeft(env.files, s.files, t.files);
  }

  lemma StillArriving(env: Env, s: State, t: State, g: GroupId, f: FileId)
    requires Arriving(env, s, g, f) && env.pageSize > 0 && Shape(env, s.groups)
    requires |t.groups| == |s.groups| && |t.files| == |s.files| && t.files[f] == s.files[f]
    requires AllExtend(s.groups, t.groups) && t.groups[g].stage == Live
    ensures Arriving(env, t, g, f)
  {
    OnTrackExtends(env, s.groups, t.groups, f, g);
  }

  /** What starting group `g` changes. */
  ghost predicate Begun(s: State, u: State, g: GroupId)
    requires g < |s.groups|
  {
    && u.open == s.open && u.started == s.started && u.bank == s.bank
    && |u.groups| == |s.groups| && |u.files| == |s.files|
    && (forall i :: 0 <= i < |s.groups| && i != g ==> u.groups[i] == s.groups[i])
    && IsHashing(u.groups[g].status)
    && u.groups[g] == s.groups[g].(status := u.groups[g].status, tally := u.groups[g].tally, held := [],
                                   numPending := s.groups[g].numPending + |s.groups[g].held|)
    && (forall i :: 0 <= i < |s.files| ==>
          u.files[i] == if i in s.groups[g].held then s.files[i].(loc := Out) else s.files[i])
  }

  lemma StartBegun(s: State, g: GroupId, grp: Group)
    requires g < |s.groups| && grp == s.groups[g].(status := StartHashing, tally := grp.tally)
    ensures Begun(s, ReleaseHeld(SetGroup(s, g, grp), g), g)
  {}

  lemma BegunPushed(env: Env, s: State, u: State, g: GroupId, f: FileId)
    requires Arriving(env, s, g, f) && Begun(s, u, g)
    requires env.pageSize > 0 && Shape(env, s.groups) && Queue(s.files, s.groups[g], g)
    requires Core(env, u)
    ensures Core(env, SendOut(u, g, f)) && Pushed(s, SendOut(u, g, f), g, f)
  {
    assert f !in s.groups[g].held;
    StillArriving(env, s, u, g, f);
    SentOut(env, u, g, f);
  }

  lemma PushStarts(env: Env, s: State, g: GroupId, f: FileId, grp: Group)
    requires Arriving(env, s, g, f)
    requires grp == s.groups[g].(status := StartHashing, tally := grp.tally)
    requires s.groups[g].status in {Dormant, StartHashing} && grp.hashOffset < grp.fileSize
    requires NeedsHashing(env.cfg, grp) && grp.tally.clusters > 0
    requires Core(env, s)
    ensures var t := SendOut(ReleaseHeld(SetGroup(s, g, grp), g), g, f);
      Core(env, t) && Pushed(s, t, g, f)
  {
    Released(env, s, g, grp);
    StartBegun(s, g, grp);
    assert Queue(s.files, s.groups[g], g);
    BegunPushed(env, s, ReleaseHeld(SetGroup(s, g, grp), g), g, f);
  }

  lemma PushContinues(env: Env, s: State, g: GroupId, f: FileId)
    requires Arriving(env, s, g, f) && |s.groups| == |s.bank.accounts|
    requires s.groups[g].status == Hashing
    requires Core(env, s)
    ensures var t := Push(env, s, g, f); Core(env, t) && Pushed(s, t, g, f)
  {
    var grp := s.groups[g].(tally := Add(s.groups[g].tally, env.files[f].tally));
    var counted := SetGroup(s, g, grp);
    assert GroupTally(env, s.groups[g]);
    HashedIfNeeded(env, s.groups[g], f);
    TallyStructure(env, s, g, grp.tally);
    BankedFrame(env, s, counted);
    StillArriving(env, s, counted, g, f);
    SentOut(env, counted, g, f);
  }

  lemma PushHolds(env: Env, s: State, g: GroupId, f: FileId, grp: Group)
    requires Arriving(env, s, g, f) && |s.groups| == |s.bank.accounts|
    requires grp == CountedIn(env, s.groups[g], f)
    requires grp.status == Dormant
    requires Core(env, s)
    ensures var t := Push(env, s, g, f); Core(env, t) && Pushed(s, t, g, f)
  {
    var t := Hold(SetGroup(s, g, grp), g, f);
    HoldStructure(env, s, g, f, grp);
    BankedFrame(env, s, t);
    SameLeft(env.files, s.files, t.files);
  }

  lemma PushCore(env: Env, s: State, g: GroupId, f: FileId)
    requires Arriving(env, s, g, f) && |s.groups| == |s.bank.accounts|
    requires Core(env, s)
    ensures var t := Push(env, s, g, f); Core(env, t) && Pushed(s, t, g, f)
  {
    var grp := CountedIn(env, s.groups[g], f);
    assert GroupShape(env, s.groups, g);
    assert Queue(s.files, s.groups[g], g);
    assert GroupTally(env, s.groups[g]);
    HashedIfNeeded(env, s.groups[g], f);
    if grp.status == StartHashing {
      PushStarts(env, s, g, f, grp);
    } else if grp.status == Hashing {
      PushContinues(env, s, g, f);
    } else {
      PushHolds(env, s, g, f, grp);
    }
  }
}
