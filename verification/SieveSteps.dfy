/** Every step keeps the invariant. */
module SieveSteps {
  import opened Common
  import opened SieveState
  import opened SieveInvariant
  import opened SievePush
  import MemoryBank

  // ----- increments -----

  /** An unfinished group always plans a positive increment that ends inside the file. */
  lemma OffsetAdvances(pageSize: nat, paranoid: bool, fileSize: nat, hashOffset: nat, factor: nat)
    requires pageSize > 0 && hashOffset < fileSize
    ensures hashOffset < NextOffset(pageSize, paranoid, fileSize, hashOffset, factor) <= fileSize
  {
    var pages := Max(pageSize * BALANCED_PAGES * factor / pageSize, 1);
    assert pages * pageSize >= pageSize by { assert (pages - 1) * pageSize >= 0; }
  }

  // ----- counters -----

  lemma {:induction false} QueuedAppend(queue: seq<Adjustment>, a: Adjustment)
    ensures QueuedFiles(queue + [a]) == QueuedFiles(queue) + a.files
    ensures QueuedBytes(queue + [a]) == QueuedBytes(queue) + a.bytes
  {
    if queue != [] {
      QueuedAppend(queue[1..], a);
      assert (queue + [a])[1..] == queue[1..] + [a];
    } else {
      assert QueuedFiles([a]) == a.files + QueuedFiles([a][1..]);
      assert QueuedBytes([a]) == a.bytes + QueuedBytes([a][1..]);
    }
  }

  /** A file changes and the matching adjustment is queued. */
  lemma ConservedAdjust(env: Env, s: State, f: FileId, x: File, files: int, bytes: int)
    requires |s.files| == |env.files| && f < |s.files| && Conserved(env, s)
    requires files == (if Counted(x.loc) then 1 else 0) - (if Counted(s.files[f].loc) then 1 else 0)
    requires bytes == (if Counted(x.loc) then |env.files[f].content| - x.hashOffset else 0)
                    - (if Counted(s.files[f].loc) then |env.files[f].content| - s.files[f].hashOffset else 0)
    ensures Conserved(env, Adjust(s.(files := s.files[f := x]), files, bytes))
  {
    SetFile(env.files, s.files, f, x);
    QueuedAppend(s.counters.queue, Adjustment(files, bytes));
  }

  // ----- moving files -----

  /** Putting a file that is not held at another place in its group, or out of the sieve. */
  lemma RelocatePlaces(env: Env, files: seq<File>, gs: seq<Group>, f: FileId, x: File)
    requires Places(env, files, gs) && f < |files|
    requires files[f].loc != Held && x.loc != Held
    requires IsPending(files[f], files[f].group) == IsPending(x, x.group)
    requires IsPending(x, x.group) ==> x.group == files[f].group
    requires Place(env, x, env.files[f], f, gs)
    ensures Places(env, files[f := x], gs)
  {
    var files' := files[f := x];
    forall g | 0 <= g < |gs| ensures Queue(files', gs[g], g) {
      assert Queue(files, gs[g], g);
      assert PendingFiles(files', g) == PendingFiles(files, g);
    }
    forall h | 0 <= h < |files'| ensures Place(env, files'[h], env.files[h], h, gs) {
      assert Place(env, files[h], env.files[h], h, gs);
    }
  }

  lemma EnterCore(env: Env, s: State, f: FileId, g: GroupId)
    requires f < |s.files| == |env.files| && s.files[f].loc == Fresh
    requires g < |s.groups| && s.groups[g].origin == None && s.groups[g].stage == Live
    requires s.groups[g].fileSize == |env.files[f].content|
    requires Core(env, s)
    ensures var t := Enter(env, s, f, g); Core(env, t) && Arriving(env, t, g, f)
  {
    assert GroupShape(env, s.groups, g) && Place(env, s.files[f], env.files[f], f, s.groups);
    var x := s.files[f].(loc := Moving, group := g);
    RelocatePlaces(env, s.files, s.groups, f, x);
    ConservedAdjust(env, s, f, x, 1, |env.files[f].content| - s.files[f].hashOffset);
    var t := Enter(env, s, f, g);
    forall h | 0 <= h < |t.files| && t.files[h].loc != Fresh ensures OnCourse(env, t.groups, t.files[h], h) {
      if h != f { assert OnCourse(env, s.groups, s.files[h], h); }
    }
  }

  lemma DiscardCore(env: Env, s: State, f: FileId)
    requires f < |s.files| && s.files[f].loc == Moving
    requires Core(env, s)
    ensures Core(env, Discard(env, s, f, Ignored))
  {
    assert Place(env, s.files[f], env.files[f], f, s.groups);
    var x := s.files[f].(loc := Ignored);
    RelocatePlaces(env, s.files, s.groups, f, x);
    ConservedAdjust(env, s, f, x, -1, -(|env.files[f].content| - s.files[f].hashOffset));
    TrackedMoves(env, s.files, Discard(env, s, f, Ignored).files, s.groups);
  }

  lemma UnpendQueue(files: seq<File>, grp: Group, i: GroupId, g: GroupId, f: FileId)
    requires f < |files| && IsPending(files[f], g) && Queue(files, grp, i)
    ensures Queue(files[f := files[f].(loc := Moving)],
                  if i == g then grp.(numPending := grp.numPending - 1, inProgress := grp.inProgress - {f}) else grp, i)
  {
    assert PendingFiles(files[f := files[f].(loc := Moving)], i)
      == PendingFiles(files, i) - (if i == g then {f} else {});
  }

  lemma UnpendPlaces(env: Env, s: State, g: GroupId, f: FileId)
    requires Places(env, s.files, s.groups) && f < |s.files| && IsPending(s.files[f], g)
    requires g < |s.groups|
    ensures var t := Unpend(s, g, f); Places(env, t.files, t.groups)
  {
    var t := Unpend(s, g, f);
    assert Place(env, s.files[f], env.files[f], f, s.groups);
    forall i | 0 <= i < |t.groups| ensures Queue(t.files, t.groups[i], i) {
      UnpendQueue(s.files, s.groups[i], i, g, f);
    }
    forall h | 0 <= h < |t.files| ensures Place(env, t.files[h], env.files[h], h, t.groups) {
      assert Place(env, s.files[h], env.files[h], h, s.groups);
    }
  }

  lemma UnpendCore(env: Env, s: State, g: GroupId, f: FileId)
    requires f < |s.files| && g < |s.groups| && IsPending(s.files[f], g)
    requires Core(env, s)
    ensures Core(env, Unpend(s, g, f))
  {
    var t := Unpend(s, g, f);
    UnpendPlaces(env, s, g, f);
    assert GroupShape(env, s.groups, g) && GroupTally(env, s.groups[g])
      && Place(env, s.files[f], env.files[f], f, s.groups);
    GroupStructure(env, s.files, s.groups, g, t.groups[g]);
    BankedFrame(env, s, t);
    SameLeft(env.files, s.files, t.files);
    TrackedMoves(env, s.files, t.files, t.groups);
  }

  // ----- new groups -----

  lemma NoPending(env: Env, files: seq<File>, gs: seq<Group>)
    requires Places(env, files, gs)
    ensures PendingFiles(files, |gs|) == {}
  {
    forall f | 0 <= f < |files| ensures !IsPending(files[f], |gs|) {
      assert Place(env, files[f], env.files[f], f, gs);
    }
  }

  /** Appending an empty group, linked or not linked to a parent that gains it as a child. */
  lemma AppendPlaces(env: Env, files: seq<File>, gs: seq<Group>, gs': seq<Group>, grp: Group)
    requires Places(env, files, gs) && |gs'| == |gs|
    requires forall g :: 0 <= g < |gs| ==> gs'[g] == gs[g].(children := gs'[g].children)
    requires grp.held == [] && grp.numPending == 0 && grp.inProgress == {}
    ensures Places(env, files, gs' + [grp])
  {
    var all := gs' + [grp];
    NoPending(env, files, gs);
    forall g | 0 <= g < |all| ensures Queue(files, all[g], g) {
      if g < |gs| { assert Queue(files, gs[g], g); }
    }
    forall f | 0 <= f < |files| ensures Place(env, files[f], env.files[f], f, all) {
      assert Place(env, files[f], env.files[f], f, gs);
    }
  }

  lemma AppendBanked(env: Env, s: State, t: State, grp: Group)
    requires Banked(env, s) && t.bank == MemoryBank.Open(s.bank)
    requires |t.groups| == |s.groups| + 1 && t.groups[|s.groups|] == grp
    requires forall g :: 0 <= g < |s.groups| ==> t.groups[g] == s.groups[g].(children := t.groups[g].children)
    requires grp.status == Dormant && grp.stage == Live
    ensures Banked(env, t)
  {
    MemoryBank.OpenBalanced(s.bank, env.memory);
    forall g | 0 <= g < |t.groups| ensures AccountLinked(t.bank.accounts[g], t.groups[g]) {
      if g < |s.groups| { assert AccountLinked(s.bank.accounts[g], s.groups[g]); }
    }
  }

  lemma AppendRootCore(env: Env, s: State, f: FileId)
    requires f < |s.files| && s.files[f].hashOffset == 0
    requires Core(env, s)
    ensures Core(env, AppendGroup(s, NewGroup(env, s, f, None, 0)))
  {
    var grp := NewGroup(env, s, f, None, 0);
    var t := AppendGroup(s, grp);
    AppendPlaces(env, s.files, s.groups, s.groups, grp);
    AppendBanked(env, s, t, grp);
    forall g | 0 <= g < |t.groups| ensures GroupShape(env, t.groups, g) && GroupTally(env, t.groups[g]) {
      if g < |s.groups| { assert GroupShape(env, s.groups, g) && GroupTally(env, s.groups[g]); }
    }
    forall g, k | 0 <= g < |t.groups| && k in t.groups[g].children ensures ChildShape(t.groups, g, k) {
      assert ChildShape(s.groups, g, k);
    }
    forall h | 0 <= h < |s.files| ensures Place(env, s.files[h], env.files[h], h, s.groups) {}
    TrackedExtends(env, s.files, s.groups, t.groups);
  }

  lemma AppendChildShape(env: Env, s: State, g: GroupId, f: FileId, grp: Group, key: Digest)
    requires env.pageSize > 0 && Shape(env, s.groups) && g < |s.groups| && f < |s.files| == |env.files|
    requires key !in s.groups[g].children && IsHashing(s.groups[g].status) && s.groups[g].nextOffset != 0
    requires env.paranoid ==> s.groups[g].status == Hashing
    requires s.files[f].hashOffset == s.groups[g].nextOffset && |env.files[f].content| == s.groups[g].fileSize
    requires s.groups[g].stage == Live
    requires grp == NewGroup(env, s, f, Some(g), key)
    ensures Shape(env, s.groups[g := s.groups[g].(children := s.groups[g].children[key := |s.groups|])] + [grp])
  {
    var c := |s.groups|;
    var gs := s.groups[g := s.groups[g].(children := s.groups[g].children[key := c])] + [grp];
    assert GroupShape(env, s.groups, g);
    OffsetAdvances(env.pageSize, env.paranoid, s.groups[g].fileSize, s.groups[g].hashOffset, s.groups[g].offsetFactor);
    forall i | 0 <= i < |gs| ensures GroupShape(env, gs, i) {
      if i < c {
        assert GroupShape(env, s.groups, i);
        if s.groups[i].origin.Some? { assert ChildShape(s.groups, s.groups[i].origin.value, s.groups[i].key); }
      }
    }
    forall i, k | 0 <= i < |gs| && k in gs[i].children ensures ChildShape(gs, i, k) {
      if !(i == g && k == key) { assert ChildShape(s.groups, i, k); }
    }
  }

  lemma AppendChildCore(env: Env, s: State, g: GroupId, f: FileId)
    requires g < |s.groups| && f < |s.files| == |env.files|
    requires ParentsBelow(s.groups) && ChildrenAbove(s.groups)
    requires IsHashing(s.groups[g].status) && s.groups[g].nextOffset != 0 && s.groups[g].stage == Live
    requires env.paranoid ==> s.groups[g].status == Hashing
    requires s.files[f].hashOffset == s.groups[g].nextOffset && |env.files[f].content| == s.groups[g].fileSize
    requires KeyOf(env, f, s.groups[g]) !in s.groups[g].children
    requires Core(env, s)
    ensures Core(env, ChildFor(env, s, g, f).0)
  {
    var key := KeyOf(env, f, s.groups[g]);
    var grp := NewGroup(env, s, f, Some(g), key);
    var t := ChildFor(env, s, g, f).0;
    var gs := s.groups[g := s.groups[g].(children := s.groups[g].children[key := |s.groups|])];
    assert t.groups == gs + [grp];
    AppendChildShape(env, s, g, f, grp, key);
    AppendPlaces(env, s.files, s.groups, gs, grp);
    AppendBanked(env, s, t, grp);
    forall i | 0 <= i < |t.groups| ensures GroupTally(env, t.groups[i]) {
      if i < |s.groups| { assert GroupTally(env, s.groups[i]); }
    }
    forall h | 0 <= h < |s.files| ensures Place(env, s.files[h], env.files[h], h, s.groups) {}
    TrackedExtends(env, s.files, s.groups, t.groups);
  }
}
