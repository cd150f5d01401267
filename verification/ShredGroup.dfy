/**
 * The shred group and the memory bank as the objects the worker threads
 * update (lib/shredder.c:462-647, 812-983).  Each method is tied to the step of the
 * transition system of SieveState that it is the code of: if the object shows a
 * group of a state before, it shows that group of the state after the step.
 */
module ShredGroup {
  import opened Common
  import opened SieveState
  import opened SieveInvariant
  import opened SieveRun
  import MemoryBank

  class ShredTag {
    var paranoidMemAlloc: int
    var activeGroups: int

    constructor (memory: int)
      ensures paranoidMemAlloc == memory && activeGroups == 0
    {
      paranoidMemAlloc, activeGroups := memory, 0;
    }
  }

  class RmShredGroup {
    const fileSize: nat
    const hashOffset: nat
    const offsetFactor: nat
    var parent: RmShredGroup?
    var nextOffset: nat
    var numFiles: nat
    var nPref: nat
    var nNpref: nat
    var nNew: nat
    var nClusters: nat
    var nUnhashedClusters: nat
    var nInodes: nat
    var numPending: int
    var status: Status
    var heldFiles: seq<FileId>
    var isActive: bool
    var memAllocation: int

    /** The counters, as the transition system keeps them. */
    function Counters(): Tally
      reads this
    {
      Tally(numFiles, nPref, nNpref, nNew, nClusters, nUnhashedClusters, nInodes)
    }

    function View(): Group
      reads this
    {
      Group(None, None, 0, map[], fileSize, hashOffset, nextOffset, offsetFactor, Counters(),
            numPending, status, heldFiles, {}, Live, 0)
    }

    /** `rm_shred_group_new` */
    constructor (parent: RmShredGroup?, fileSize: nat, hashOffset: nat, pageSize: nat)
      requires pageSize > 0
      ensures this.parent == parent && !isActive && memAllocation == 0
      ensures View() == Group(None, None, 0, map[], fileSize, hashOffset, 0,
                              if parent != null then Min(parent.offsetFactor * 8, MaxReadFactor(pageSize)) else 1,
                              ZERO_TALLY, 0, Dormant, [], {}, Live, 0)
    {
      this.parent := parent;
      this.fileSize := fileSize;
      this.hashOffset := hashOffset;
      if parent != null {
        offsetFactor := Min(parent.offsetFactor * 8, MaxReadFactor(pageSize));
      } else {
        offsetFactor := 1;
      }
      nextOffset := 0;
      numFiles, nPref, nNpref, nNew, nClusters, nUnhashedClusters, nInodes := 0, 0, 0, 0, 0, 0, 0;
      numPending, status, heldFiles := 0, Dormant, [];
      isActive, memAllocation := false, 0;
    }

    /** `rm_shred_group_qualifies` */
    predicate GroupQualifies(cfg: Config)
      reads this
    {
      && numFiles >= 2
      && (nPref > 0 || !cfg.needsPref)
      && (nNpref > 0 || !cfg.needsNpref)
      && (nNew > 0 || !cfg.needsNew)
    }

    /** `rm_shred_group_update_status` */
    method UpdateGroupStatus(cfg: Config)
      modifies this`status
      ensures View() == UpdateStatus(cfg, old(View()))
    {
      if status != Dormant || !GroupQualifies(cfg) || hashOffset == fileSize {
        return;
      }
      if nClusters > 1 {
        status := StartHashing;
      } else if nInodes == 1 && nUnhashedClusters > 0 && cfg.mergeDirectories {
        status := StartHashing;
      }
    }

    /** This object is group `g` of state `s`, and `tag` holds its bank. */
    ghost predicate Shows(tag: ShredTag, s: State, g: GroupId)
      reads this, tag, parent
    {
      && g < |s.groups| == |s.bank.accounts| && ParentsBelow(s.groups)
      && Likeness(s.groups[g]) == View()
      && s.bank.available == tag.paranoidMemAlloc && s.bank.activeGroups == tag.activeGroups
      && s.bank.accounts[g] == MemoryBank.Account(isActive, memAllocation)
      && parent != this && (parent != null <==> s.groups[g].parent.Some?)
      && (parent != null ==>
            s.bank.accounts[s.groups[g].parent.value] == MemoryBank.Account(parent.isActive, parent.memAllocation))
    }

    /** The groups `above` this one are its parents in state `s`, with as many pending files. */
    ghost predicate Line(s: State, g: GroupId, above: seq<RmShredGroup>)
      reads this, above
      decreases |above|
    {
      && g < |s.groups| && ParentsBelow(s.groups)
      && this !in above && numPending == s.groups[g].numPending >= 0
      && if above == [] then parent == null && s.groups[g].parent.None?
         else && parent == above[0] && s.groups[g].parent.Some?
              && above[0].Line(s, s.groups[g].parent.value, above[1..])
    }

    /** `rm_shred_group_potential_file_count` */
    method PotentialCount(ghost s: State, ghost g: GroupId, ghost above: seq<RmShredGroup>) returns (count: nat)
      requires Line(s, g, above)
      ensures count == PotentialFileCount(s, g)
      decreases |above|
    {
      count := numPending;
      if parent != null {
        var more := parent.PotentialCount(s, s.groups[g].parent.value, above[1..]);
        count := count + more;
      }
    }

    /** `rm_shred_check_paranoid_mem_alloc`, when no other thread comes between its parts. */
    method CheckParanoidMemAlloc(tag: ShredTag, threshold: int, ghost s: State, ghost g: GroupId,
                                 ghost above: seq<RmShredGroup>)
      returns (granted: bool)
      requires Shows(tag, s, g) && Line(s, g, above) && hashOffset <= fileSize
      modifies this`status, this`isActive, this`memAllocation, tag, parent
      ensures parent != null ==> parent.View() == old(parent.View())
      ensures IsCommitted(old(status)) ==> granted && Shows(tag, s, g)
      ensures !IsCommitted(old(status)) ==>
        var required := Required(s.groups[g], CountAt(s, g));
        && granted == Granting(s, g, required, threshold)
        && Shows(tag, if granted then Commit(s, g, required, MemoryBank.Whole) else s, g)
    {
      if status == Hashing || status == Finishing || status == Finished {
        return true;
      }
      var count := PotentialCount(s, g, above);
      var memRequired := (count / 2 + 1) * Min(fileSize - hashOffset, PARANOID_BYTES);
      var inherited := if parent != null then parent.memAllocation else 0;
      if memRequired <= tag.paranoidMemAlloc + inherited || tag.activeGroups <= threshold {
        TakeMemory(tag, memRequired, inherited, s, g);
        granted := true;
      } else {
        granted := false;
      }
    }

    /** The granted branch: first from the parent, the rest from the bank. */
    method TakeMemory(tag: ShredTag, memRequired: int, available: int, ghost s: State, ghost g: GroupId)
      requires Shows(tag, s, g) && available == if parent != null then parent.memAllocation else 0
      modifies this`status, this`isActive, this`memAllocation, tag, parent
      ensures parent != null ==> parent.View() == old(parent.View())
      ensures Shows(tag, Commit(s, g, memRequired, MemoryBank.Whole), g)
    {
      var inherited := Min(available, memRequired);
      if inherited > 0 {
        parent.memAllocation := parent.memAllocation - inherited;
        memAllocation := memAllocation + inherited;
      }
      var borrowed := Min(memRequired - inherited, tag.paranoidMemAlloc);
      tag.paranoidMemAlloc := tag.paranoidMemAlloc - borrowed;
      memAllocation := memAllocation + borrowed;
      tag.activeGroups := tag.activeGroups + 1;
      isActive := true;
      status := Hashing;
    }

    /** The part of `rm_shred_mem_return` under the mutex. */
    method MemReturnLocked(tag: ShredTag, ghost s: State, ghost g: GroupId)
      requires Shows(tag, s, g)
      modifies this`isActive, tag
      ensures !isActive && Shows(tag, ReturnMemoryStep(s, g), g)
    {
      if isActive {
        tag.paranoidMemAlloc := tag.paranoidMemAlloc + memAllocation;
        tag.activeGroups := tag.activeGroups - 1;
        isActive := false;
      }
    }

    /**
     * `rm_shred_mem_return`, when no other thread comes between its two parts: what
     * the group held is back in the bank, and the books balance as before.
     */
    method MemReturn(tag: ShredTag, ghost s: State, ghost g: GroupId, ghost total: nat)
      requires Shows(tag, s, g) && (!isActive ==> memAllocation == 0)
      requires MemoryBank.Balanced(s.bank, total) && memAllocation >= 0
      modifies this`isActive, this`memAllocation, tag
      ensures Shows(tag, ClearStep(ReturnMemoryStep(s, g), g), g)
      ensures tag.paranoidMemAlloc == old(tag.paranoidMemAlloc) + old(memAllocation) && memAllocation == 0
      ensures MemoryBank.Balanced(ClearStep(ReturnMemoryStep(s, g), g).bank, total)
    {
      MemoryBank.ReturnBalanced(s.bank, g, total);
      MemoryBank.ClearBalanced(MemoryBank.ReturnLocked(s.bank, g), g, total);
      if isActive {
        MemReturnLocked(tag, s, g);
        memAllocation := 0;
      }
    }

    /** The counters of `rm_shred_group_push_file`. */
    method CountFile(tally: Tally)
      modifies this`numFiles, this`nPref, this`nNpref, this`nNew, this`nClusters, this`nUnhashedClusters, this`nInodes
      ensures View() == old(View()).(tally := Add(old(Counters()), tally))
    {
      numFiles := numFiles + tally.files;
      nPref := nPref + tally.pref;
      nNpref := nNpref + tally.npref;
      nNew := nNew + tally.newer;
      nClusters := nClusters + tally.clusters;
      nUnhashedClusters := nUnhashedClusters + tally.unhashed;
      nInodes := nInodes + tally.inodes;
    }

    /** The counting at the start of `rm_shred_group_push_file`, which may start the group. */
    method CountAndUpdate(env: Env, f: FileId, tag: ShredTag, ghost s: State, ghost g: GroupId)
      requires f < |env.files| && Shows(tag, s, g)
      modifies this`numFiles, this`nPref, this`nNpref, this`nNew, this`nClusters, this`nUnhashedClusters, this`nInodes,
               this`status
      ensures Shows(tag, SetGroup(s, g, CountedIn(env, s.groups[g], f)), g)
      ensures heldFiles == old(heldFiles) && numPending == old(numPending)
    {
      CountFile(env.files[f].tally);
      UpdateGroupStatus(env.cfg);
    }

    /** The queue is cleared, and unless the scheduler is not running yet the group asks for memory. */
    method Start(tag: ShredTag, asks: bool, ghost s: State, ghost g: GroupId, ghost above: seq<RmShredGroup>)
      returns (queued: seq<FileId>)
      requires Shows(tag, s, g) && Line(s, g, above) && hashOffset <= fileSize && status == StartHashing
      modifies this, tag, parent
      ensures parent == old(parent) && Shows(tag, Started(s, g, asks), g)
      ensures queued == old(heldFiles)
    {
      numPending := numPending + |heldFiles|;
      queued := heldFiles;
      heldFiles := [];
      ghost var u := ReleaseHeld(s, g);
      assert Shows(tag, u, g);
      if asks {
        if above != [] { LineBelow(above[0], s, u, s.groups[g].parent.value, above[1..]); }
        var granted := CheckParanoidMemAlloc(tag, 1, u, g, above);
      }
    }

    /** The file is counted; a group that meets the criteria from now on starts. */
    method CountAndStart(tag: ShredTag, env: Env, f: FileId, asks: bool, ghost s: State, ghost g: GroupId,
                         ghost above: seq<RmShredGroup>)
      returns (queued: seq<FileId>)
      requires Shows(tag, s, g) && Line(s, g, above) && hashOffset <= fileSize
      requires f < |s.files| == |env.files|
      modifies this, tag, parent
      ensures parent == old(parent) && Shows(tag, Readied(env, s, g, f, asks), g)
      ensures queued == if CountedIn(env, s.groups[g], f).status == StartHashing then old(heldFiles) else []
    {
      CountAndUpdate(env, f, tag, s, g);
      ghost var u := SetGroup(s, g, CountedIn(env, s.groups[g], f));
      assert u.groups[g].status == status;
      queued := [];
      if status == StartHashing {
        if above != [] { LineBelow(above[0], s, u, s.groups[g].parent.value, above[1..]); }
        queued := Start(tag, asks, u, g, above);
      }
    }

    /** `rm_shred_group_push_file`; returns the files handed to the scheduler, in order. */
    method PushFile(tag: ShredTag, env: Env, f: FileId, initial: bool, ghost s: State, ghost g: GroupId,
                    ghost above: seq<RmShredGroup>)
      returns (queued: seq<FileId>)
      requires Shows(tag, s, g) && Line(s, g, above) && hashOffset <= fileSize
      requires f < |s.files| == |env.files|
      modifies this, tag, parent
      ensures parent == old(parent) && Shows(tag, Pushed(env, s, g, f, initial), g)
      ensures queued == Queued(env, s, g, f, initial)
    {
      queued := CountAndStart(tag, env, f, env.paranoid && !initial, s, g, above);
      var out := Deliver(tag, f, Readied(env, s, g, f, env.paranoid && !initial), g);
      if out {
        queued := queued + [f];
      }
    }

    /** The file is handed to the scheduler or held. */
    method Deliver(tag: ShredTag, f: FileId, ghost s: State, ghost g: GroupId) returns (out: bool)
      requires Shows(tag, s, g) && f < |s.files|
      modifies this`numPending, this`heldFiles
      ensures out == IsHashing(status) && Shows(tag, Delivered(s, g, f), g)
    {
      out := status == StartHashing || status == Hashing;
      if out {
        numPending := numPending + 1;
      } else {
        heldFiles := [f] + heldFiles;
      }
    }

    /** `rm_shred_get_read_size` */
    method GetReadSize(pageSize: nat, paranoid: bool) returns (bytes: nat)
      requires pageSize > 0 && hashOffset < fileSize
      modifies this`nextOffset
      ensures bytes > 0 && hashOffset + bytes == nextOffset <= fileSize
      ensures View() == old(View()).(nextOffset := NextOffset(pageSize, paranoid, fileSize, hashOffset, offsetFactor))
    {
      var balancedBytes := pageSize * BALANCED_PAGES;
      var targetBytes := balancedBytes * offsetFactor;
      var targetPages := Max(targetBytes / pageSize, 1);
      targetBytes := targetPages * pageSize;
      if hashOffset + targetBytes + balancedBytes >= fileSize {
        nextOffset := fileSize;
      } else {
        nextOffset := hashOffset + targetBytes;
      }
      if paranoid {
        nextOffset := Min(nextOffset, hashOffset + PARANOID_BYTES);
      }
      assert targetBytes > 0;
      bytes := nextOffset - hashOffset;
    }
  }

  /** What an object has to show of a group. */
  function Likeness(grp: Group): Group {
    Group(None, None, 0, map[], grp.fileSize, grp.hashOffset, grp.nextOffset, grp.offsetFactor, grp.tally,
          grp.numPending, grp.status, grp.held, {}, Live, 0)
  }

  /** The parents show the same of a state that differs below them only. */
  lemma {:induction false} LineBelow(group: RmShredGroup, s: State, u: State, g: GroupId, above: seq<RmShredGroup>)
    requires group.Line(s, g, above) && |u.groups| == |s.groups| && ParentsBelow(u.groups)
    requires forall i :: 0 <= i <= g ==> u.groups[i] == s.groups[i]
    ensures group.Line(u, g, above)
    decreases |above|
  {
    if above != [] { LineBelow(above[0], s, u, s.groups[g].parent.value, above[1..]); }
  }

  /** A group starts hashing when no other thread comes between: files released, and memory asked for. */
  function Started(s: State, g: GroupId, asks: bool): (t: State)
    requires g < |s.groups| == |s.bank.accounts| && ParentsBelow(s.groups)
    ensures |t.groups| == |s.groups| && |t.files| == |s.files| && ParentsBelow(t.groups)
  {
    var u := ReleaseHeld(s, g);
    var required := Required(u.groups[g], CountAt(u, g));
    if asks && Granting(u, g, required, 1) then Commit(u, g, required, MemoryBank.Whole) else u
  }

  /** A push when no other thread comes between. */
  function Pushed(env: Env, s: State, g: GroupId, f: FileId, initial: bool): State
    requires g < |s.groups| == |s.bank.accounts| && f < |s.files| == |env.files| && ParentsBelow(s.groups)
  {
    Delivered(Readied(env, s, g, f, env.paranoid && !initial), g, f)
  }

  function Readied(env: Env, s: State, g: GroupId, f: FileId, asks: bool): (t: State)
    requires g < |s.groups| == |s.bank.accounts| && f < |s.files| == |env.files| && ParentsBelow(s.groups)
    ensures |t.groups| == |s.groups| && |t.files| == |s.files|
  {
    var counted := SetGroup(s, g, CountedIn(env, s.groups[g], f));
    if counted.groups[g].status == StartHashing then Started(counted, g, asks) else counted
  }

  function Delivered(s: State, g: GroupId, f: FileId): State
    requires g < |s.groups| && f < |s.files|
  {
    if IsHashing(s.groups[g].status) then SendOut(s, g, f) else Hold(s, g, f)
  }

  /** The files such a push hands to the scheduler. */
  function Queued(env: Env, s: State, g: GroupId, f: FileId, initial: bool): seq<FileId>
    requires g < |s.groups| == |s.bank.accounts| && f < |s.files| == |env.files| && ParentsBelow(s.groups)
  {
    (if CountedIn(env, s.groups[g], f).status == StartHashing then s.groups[g].held else [])
    + (if IsHashing(Pushed(env, s, g, f, initial).groups[g].status) then [f] else [])
  }

  lemma ReadiedFiles(env: Env, s: State, g: GroupId, f: FileId, asks: bool, h: FileId)
    requires g < |s.groups| == |s.bank.accounts| && f < |s.files| == |env.files| && ParentsBelow(s.groups)
    requires h < |s.files|
    ensures Readied(env, s, g, f, asks).files[h]
         == if CountedIn(env, s.groups[g], f).status == StartHashing && h in s.groups[g].held
            then s.files[h].(loc := Out) else s.files[h]
  {}

  /** Exactly the queued files go out; the pushed file is held otherwise, and no other file moves. */
  lemma QueuedGoOut(env: Env, s: State, g: GroupId, f: FileId, initial: bool, h: FileId)
    requires g < |s.groups| == |s.bank.accounts| && f < |s.files| == |env.files| && ParentsBelow(s.groups)
    requires h < |s.files| && f !in s.groups[g].held
    ensures var t, queued := Pushed(env, s, g, f, initial), Queued(env, s, g, f, initial);
      && g < |t.groups| && h < |t.files|
      && t.files[h] == if h == f then s.files[f].(loc := if f in queued then Out else Held, group := g)
                       else if h in queued then s.files[h].(loc := Out)
                       else s.files[h]
  {
    ReadiedFiles(env, s, g, f, env.paranoid && !initial, h);
    ReadiedFiles(env, s, g, f, env.paranoid && !initial, f);
  }

  /** A push that asks for no memory is the one of the transition system. */
  lemma PushIsOneStep(env: Env, s: State, g: GroupId, f: FileId, initial: bool)
    requires g < |s.groups| == |s.bank.accounts| && f < |s.files| == |env.files| && ParentsBelow(s.groups)
    requires initial || !Asks(env, s.groups[g], f)
    ensures Pushed(env, s, g, f, initial) == Push(env, s, g, f)
  {}

  lemma SameGrant(a: State, b: State, c: GroupId, required: int)
    requires c < |a.groups| == |b.groups| == |a.bank.accounts| && ParentsBelow(a.groups) && ParentsBelow(b.groups)
    requires a.groups[c] == b.groups[c] && a.bank == b.bank
    ensures Granting(a, c, required, 1) == Granting(b, c, required, 1)
    ensures Commit(a, c, required, MemoryBank.Whole).groups[c] == Commit(b, c, required, MemoryBank.Whole).groups[c]
    ensures Commit(a, c, required, MemoryBank.Whole).bank == Commit(b, c, required, MemoryBank.Whole).bank
  {}

  lemma SameEnd(a: State, b: State, g: GroupId, c: GroupId, f: FileId)
    requires g < |a.groups| && c < |a.groups| == |b.groups| && c != g && f < |a.files| && f < |b.files|
    requires a.groups[c] == b.groups[c] && a.bank == b.bank
    ensures SendDown(a, g, c, f).groups[c] == SendOut(b, c, f).groups[c]
      && SendDown(a, g, c, f).bank == SendOut(b, c, f).bank
  {}

  lemma BegunGroups(env: Env, s: State, g: GroupId, c: GroupId, f: FileId)
    requires g < |s.groups| && c < |s.groups| && c != g && f < |s.files| == |env.files|
    ensures var t, w := BeginPush(env, s, c, f), Unpend(s, g, f);
      var u := ReleaseHeld(SetGroup(w, c, CountedIn(env, w.groups[c], f)), c);
      && t.groups[c] == u.groups[c] && t.bank == u.bank && t.groups == s.groups[c := t.groups[c]]
      && t.groups[c].parent == s.groups[c].parent
      && t.files[f] == File(Entering, s.files[f].group, s.files[f].hashOffset)
  {}

  lemma AsksForChild(env: Env, s: State, b: State, g: GroupId, f: FileId, c: GroupId)
    requires g < c < |s.groups| && f < |s.files| == |b.files| == |env.files| && HasChild(env, s, g, f, c)
    requires |b.groups| == |s.groups| && b.groups == s.groups[c := b.groups[c]] && InHand(b.files[f].loc)
      && b.files[f].group == g
    ensures AskedFor(env, b, f) == c
  {
    assert b.groups[g] == s.groups[g];
  }

  /** The count drops by the file that leaves its group. */
  lemma {:induction false} LessPotential(s: State, t: State, g: GroupId, i: GroupId)
    requires g <= i < |s.groups| == |t.groups| && ParentsBelow(s.groups) && ParentsBelow(t.groups)
    requires forall j :: 0 <= j < g ==> s.groups[j] == t.groups[j]
    requires t.groups[g].parent == s.groups[g].parent && t.groups[g].numPending == s.groups[g].numPending - 1
    requires i > g ==> t.groups[i].parent == s.groups[i].parent == Some(g)
    requires i > g ==> t.groups[i].numPending == s.groups[i].numPending
    ensures PotentialFileCount(t, i) == PotentialFileCount(s, i) - 1
  {
    if s.groups[g].parent.Some? { SamePotential(s, t, g, s.groups[g].parent.value); }
  }

  lemma {:induction false} SamePotential(s: State, t: State, g: GroupId, i: GroupId)
    requires i < g < |s.groups| == |t.groups| && ParentsBelow(s.groups) && ParentsBelow(t.groups)
    requires forall j :: 0 <= j < g ==> s.groups[j] == t.groups[j]
    ensures PotentialFileCount(t, i) == PotentialFileCount(s, i)
    decreases i
  {
    if s.groups[i].parent.Some? { SamePotential(s, t, g, s.groups[i].parent.value); }
  }

  lemma Decided(env: Env, b: State, g: GroupId, f: FileId, c: GroupId)
    requires WellFormed(env, b) && f < |b.files| && b.files[f].loc.Pushing? && b.files[f].group == g
      && AskedFor(env, b, f) == c
    ensures c < |b.groups| && g < |b.groups|
    ensures var required := b.files[f].loc.required;
      DecideStep(env, b, f, MemoryBank.Whole)
      == SendDown(if Granting(b, c, required, 1) then Commit(b, c, required, MemoryBank.Whole) else b, g, c, f)
  {}

  /** Such a push by the object. */
  lemma PushedAsking(env: Env, w: State, u: State, c: GroupId, f: FileId)
    requires c < |w.groups| == |w.bank.accounts| && f < |w.files| == |env.files| && ParentsBelow(w.groups)
    requires Asks(env, w.groups[c], f)
    requires u == ReleaseHeld(SetGroup(w, c, CountedIn(env, w.groups[c], f)), c)
    ensures |u.groups| == |w.groups| && u.bank == w.bank && |u.files| == |w.files| && ParentsBelow(u.groups)
    ensures var required := Required(u.groups[c], CountAt(u, c));
      Pushed(env, w, c, f, false)
      == SendOut(if Granting(u, c, required, 1) then Commit(u, c, required, MemoryBank.Whole) else u, c, f)
  {}

  /**
   * A push that asks, undisturbed, is what three steps of the transition system come to:
   * the first part of a sift, the test, and the decision on the request.
   */
  lemma PushIsThreeSteps(env: Env, s: State, g: GroupId, f: FileId, c: GroupId)
    requires g < c < |s.groups| == |s.bank.accounts| && f < |s.files| == |env.files| && ParentsBelow(s.groups)
    requires s.files[f].group == g && s.groups[c].parent == Some(g)
    requires HasChild(env, s, g, f, c) && Asks(env, s.groups[c], f)
    requires WellFormed(env, BeginPush(env, s, c, f))
    ensures var b := BeginPush(env, s, c, f);
      && b.files[f].loc == Entering && Unpend(s, g, f).groups[c] == s.groups[c]
      && var a := AskStep(env, b, f, TrueCount(env, b, f));
      && WellFormed(env, a) && a.files[f].loc.Pushing?
      && SameGroup(DecideStep(env, a, f, MemoryBank.Whole), Pushed(env, Unpend(s, g, f), c, f, false), c)
  {
    var b, w := BeginPush(env, s, c, f), Unpend(s, g, f);
    BegunGroups(env, s, g, c, f);
    AsksForChild(env, s, b, g, f, c);
    var u := ReleaseHeld(SetGroup(w, c, CountedIn(env, w.groups[c], f)), c);
    LessPotential(b, u, g, c);
    AskedInPush(env, b, u, f, c);
    var a := MoveTo(b, f, Pushing(Required(u.groups[c], CountAt(u, c))));
    AsksForChild(env, s, a, g, f, c);
    TwoSteps(env, a, w, u, g, f, c, Required(u.groups[c], CountAt(u, c)));
  }

  /** The test in the middle of a push. */
  lemma AskedInPush(env: Env, b: State, u: State, f: FileId, c: GroupId)
    requires WellFormed(env, b) && f < |b.files| && b.files[f].loc == Entering && AskedFor(env, b, f) == c
    requires c < |b.groups| == |u.groups| && b.groups[c] == u.groups[c] && u.groups[c].status == StartHashing
    requires ParentsBelow(u.groups) && PotentialFileCount(u, c) == PotentialFileCount(b, c) - 1
    ensures var a := MoveTo(b, f, Pushing(Required(u.groups[c], CountAt(u, c))));
      AskStep(env, b, f, TrueCount(env, b, f)) == a && WellFormed(env, a)
  {}

  predicate SameGroup(t: State, p: State, c: GroupId) {
    c < |t.groups| && c < |p.groups| && t.groups[c] == p.groups[c] && t.bank == p.bank
  }

  lemma TwoSteps(env: Env, b: State, w: State, u: State, g: GroupId, f: FileId, c: GroupId, required: int)
    requires WellFormed(env, b) && f < |b.files| && AskedFor(env, b, f) == c && c != g
    requires b.files[f].loc == Pushing(required) && b.files[f].group == g
    requires c < |w.groups| == |w.bank.accounts| && f < |w.files| == |env.files| && ParentsBelow(w.groups)
    requires Asks(env, w.groups[c], f)
    requires u == ReleaseHeld(SetGroup(w, c, CountedIn(env, w.groups[c], f)), c)
    requires required == Required(u.groups[c], CountAt(u, c))
    requires |b.groups| == |u.groups| && b.groups[c] == u.groups[c] && b.bank == u.bank
    ensures SameGroup(DecideStep(env, b, f, MemoryBank.Whole), Pushed(env, w, c, f, false), c)
  {
    Decided(env, b, g, f, c);
    PushedAsking(env, w, u, c, f);
    SameDecision(b, u, g, f, c, required);
  }

  lemma SameDecision(b: State, u: State, g: GroupId, f: FileId, c: GroupId, required: int)
    requires g < |b.groups| && c < |b.groups| == |u.groups| == |b.bank.accounts| && c != g && f < |b.files|
      && f < |u.files|
    requires ParentsBelow(b.groups) && ParentsBelow(u.groups) && b.groups[c] == u.groups[c] && b.bank == u.bank
    ensures var granted := Granting(b, c, required, 1);
      SameGroup(SendDown(if granted then Commit(b, c, required, MemoryBank.Whole) else b, g, c, f),
                SendOut(if Granting(u, c, required, 1) then Commit(u, c, required, MemoryBank.Whole) else u, c, f), c)
  {
    SameGrant(b, u, c, required);
    SameEnd(if Granting(b, c, required, 1) then Commit(b, c, required, MemoryBank.Whole) else b,
            if Granting(u, c, required, 1) then Commit(u, c, required, MemoryBank.Whole) else u, g, c, f);
  }
}
