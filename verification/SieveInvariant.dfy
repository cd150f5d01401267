/** What holds in every state of the sieve, between any two primitive updates. */
module SieveInvariant {
  import opened Common
  import opened SieveState
  import MemoryBank

  /** What the model assumes of its input: symlink targets are short paths, and buffers hold what is in the file. */
  ghost predicate Sane(env: Env) {
    && env.pageSize > 0
    && (env.paranoid ==> forall f: FileId, from: nat, to: nat {:trigger env.buffers(f, from, to)} ::
          f < |env.files| && from <= to <= |env.files[f].content| ==>
            Flatten(env.buffers(f, from, to)) == env.files[f].content[from..to])
    && forall f :: 0 <= f < |env.files| ==>
         && env.files[f].tally.clusters == 1
         && (env.files[f].isSymlink ==>
               |env.files[f].content| <= Min(2 * BALANCED_PAGES * env.pageSize, PARANOID_BYTES))
  }

  // ----- groups among themselves -----

  ghost predicate GroupShape(env: Env, gs: seq<Group>, g: GroupId)
    requires g < |gs| && env.pageSize > 0
  {
    var grp := gs[g];
    && grp.hashOffset <= grp.fileSize
    && grp.offsetFactor <= Max(1, MaxReadFactor(env.pageSize))
    && (grp.nextOffset != 0 ==> grp.hashOffset < grp.fileSize && grp.nextOffset == PlannedOffset(env, grp))
    && (grp.children != map[] ==>
          grp.nextOffset != 0 && IsHashing(grp.status) && (env.paranoid ==> grp.status == Hashing))
    && (IsHashing(grp.status) ==> grp.hashOffset < grp.fileSize && grp.held == [])
    && (grp.parent.Some? ==> grp.parent == grp.origin && grp.stage == Live)
    && (grp.stage != Live ==> grp.numPending == 0)
    && grp.finalised == (if grp.stage == Live then 0 else 1)
    && (grp.status == Finishing ==> grp.stage in {Reported, Freed})
    && (grp.stage == Reported ==> !IsHashing(grp.status))
    && (grp.stage == Freed ==> grp.held == [])
    && grp.status != Finished
    && match grp.origin
       case None => grp.hashOffset == 0 && grp.offsetFactor == 1
       case Some(p) =>
         && p < g
         && grp.key in gs[p].children && gs[p].children[grp.key] == g
         && grp.hashOffset == gs[p].nextOffset
         && grp.fileSize == gs[p].fileSize
         && grp.offsetFactor == Min(gs[p].offsetFactor * 8, MaxReadFactor(env.pageSize))
         && (grp.parent.None? ==> gs[p].stage == Freed)
  }

  ghost predicate ChildShape(gs: seq<Group>, g: GroupId, k: Digest)
    requires g < |gs| && k in gs[g].children
  {
    var c := gs[g].children[k];
    g < c < |gs| && gs[c].origin == Some(g) && gs[c].key == k
  }

  ghost predicate Shape(env: Env, gs: seq<Group>)
    requires env.pageSize > 0
  {
    && (forall g :: 0 <= g < |gs| ==> GroupShape(env, gs, g))
    && (forall g, k :: 0 <= g < |gs| && k in gs[g].children ==> ChildShape(gs, g, k))
  }

  // ----- files in their groups -----

  /** On the way to being read. */
  predicate Waits(loc: Loc) {
    loc.Out? || loc.Asking? || loc.Granted? || loc.Planned? || loc.Ready? || loc.Sizing?
  }

  /** Read, and not in a child group yet. */
  predicate WasRead(loc: Loc) {
    loc.Hashed? || InHand(loc)
  }

  predicate IsPending(x: File, g: GroupId) {
    x.group == g && (Waits(x.loc) || WasRead(x.loc))
  }

  ghost function PendingFiles(files: seq<File>, g: GroupId): set<FileId> {
    set f | 0 <= f < |files| && IsPending(files[f], g)
  }

  ghost predicate Place(env: Env, x: File, info: Info, f: FileId, gs: seq<Group>) {
    && x.hashOffset <= |info.content|
    && (x.loc == Fresh ==> x.hashOffset == 0)
    && (x.loc != Fresh ==> x.group < |gs| && Seated(env, x, info, f, gs[x.group]))
  }

  /** How a file relates to the group it is in. */
  ghost predicate Seated(env: Env, x: File, info: Info, f: FileId, grp: Group) {
    && grp.fileSize == |info.content|
    && (x.loc == Held ==> x.hashOffset == grp.hashOffset && f in grp.held)
    && (x.loc == Done ==> grp.stage == Freed && !IsHashing(grp.status))
    && (Waits(x.loc) ==> x.hashOffset == grp.hashOffset)
    && (WasRead(x.loc) ==> x.hashOffset == grp.nextOffset)
    && (x.loc.Moving? ==> x.hashOffset == grp.hashOffset || (grp.nextOffset != 0 && x.hashOffset == grp.nextOffset))
    && (IsPending(x, x.group) ==> IsHashing(grp.status) && grp.stage == Live)
    && (WasRead(x.loc) || (env.paranoid && (x.loc.Planned? || x.loc.Ready? || x.loc.Sizing?)) ==> grp.nextOffset != 0)
    && (x.loc.Asking? || x.loc.Granted? || x.loc.Planned? || InHand(x.loc) ==> env.paranoid)
    && (x.loc.Asking? || x.loc.Pushing? ==> x.loc.required > 0)
    && (env.paranoid && IsPending(x, x.group) && !x.loc.Out? && !x.loc.Asking? ==> grp.status == Hashing)
  }

  ghost predicate Queue(files: seq<File>, grp: Group, g: GroupId) {
    && NoDup(grp.held)
    && (forall i :: 0 <= i < |grp.held| ==>
          grp.held[i] < |files| && files[grp.held[i]].loc == Held && files[grp.held[i]].group == g)
    && grp.numPending == |PendingFiles(files, g)|
    && grp.inProgress <= PendingFiles(files, g)
  }

  ghost predicate Places(env: Env, files: seq<File>, gs: seq<Group>) {
    && |files| == |env.files|
    && (forall f {:trigger Place(env, files[f], env.files[f], f, gs)} :: 0 <= f < |files| ==>
        Place(env, files[f], env.files[f], f, gs))
    && (forall g {:trigger Queue(files, gs[g], g)} :: 0 <= g < |gs| ==> Queue(files, gs[g], g))
  }

  // ----- counters of the groups -----

  ghost function SumTally(env: Env, held: seq<FileId>): Tally
    requires forall i :: 0 <= i < |held| ==> held[i] < |env.files|
  {
    if held == [] then ZERO_TALLY else Add(SumTally(env, held[1..]), env.files[held[0]].tally)
  }

  /**
   * There is something to be compared in a group that may end up as a set of duplicates: different
   * clusters, or an inode with several links whose checksum is wanted for directories.
   */
  ghost predicate NeedsHashing(cfg: Config, grp: Group) {
    && Qualifies(cfg, grp.tally) && grp.hashOffset != grp.fileSize
    && (grp.tally.clusters >= 2 || (cfg.mergeDirectories && grp.tally.inodes == 1 && grp.tally.unhashed > 0))
  }

  ghost predicate GroupTally(env: Env, grp: Group) {
    && (forall i :: 0 <= i < |grp.held| ==> grp.held[i] < |env.files|)
    && (!IsHashing(grp.status) && grp.stage != Freed ==> grp.tally == SumTally(env, grp.held))
    && (IsHashing(grp.status) <==> NeedsHashing(env.cfg, grp))
    && (grp.tally.clusters == 0 ==> grp.tally == ZERO_TALLY)
    && (grp.stage == Reported && grp.status == Dormant ==> !Qualifies(env.cfg, grp.tally))
    && (grp.status == Finishing ==>
          Qualifies(env.cfg, grp.tally) && (grp.hashOffset == grp.fileSize || grp.tally.clusters <= 1))
  }

  ghost predicate Tallies(env: Env, gs: seq<Group>) {
    forall g {:trigger GroupTally(env, gs[g])} :: 0 <= g < |gs| ==> GroupTally(env, gs[g])
  }

  // ----- the digests that led a file to its group -----

  ghost predicate OnTrack(env: Env, gs: seq<Group>, f: FileId, g: GroupId)
    requires f < |env.files|
    decreases g
  {
    g < |gs| &&
    match gs[g].origin
    case None => true
    case Some(p) => p < g && p < |gs| && KeyOf(env, f, gs[p]) == gs[g].key && OnTrack(env, gs, f, p)
  }

  /** The child group a file is being pushed into has begun to hash. */
  ghost predicate Targets(env: Env, gs: seq<Group>, f: FileId, g: GroupId)
    requires f < |env.files|
  {
    && g < |gs| && KeyOf(env, f, gs[g]) in gs[g].children
    && gs[g].children[KeyOf(env, f, gs[g])] < |gs| && IsHashing(gs[gs[g].children[KeyOf(env, f, gs[g])]].status)
  }

  ghost predicate OnCourse(env: Env, gs: seq<Group>, x: File, f: FileId)
    requires f < |env.files|
  {
    && OnTrack(env, gs, f, x.group)
    && (InHand(x.loc) ==> Targets(env, gs, f, x.group))
  }

  ghost predicate Tracked(env: Env, files: seq<File>, gs: seq<Group>)
    requires |files| == |env.files|
  {
    forall f {:trigger OnCourse(env, gs, files[f], f)} ::
      0 <= f < |files| && files[f].loc != Fresh ==> OnCourse(env, gs, files[f], f)
  }

  // ----- accounts -----

  ghost predicate AccountLinked(a: MemoryBank.Account, grp: Group) {
    && (a.isActive <==> grp.status == Hashing && grp.stage in {Live, Finalising})
    && (!a.isActive && grp.stage in {Live, Finalising} ==> a.allocation == 0)
    && (grp.stage in {Live, Finalising, Returned} ==> a.allocation >= 0)
  }

  ghost predicate Banked(env: Env, s: State) {
    && |s.bank.accounts| == |s.groups|
    && MemoryBank.Balanced(s.bank, env.memory)
    && (forall g {:trigger AccountLinked(s.bank.accounts[g], s.groups[g])} ::
          0 <= g < |s.groups| ==> AccountLinked(s.bank.accounts[g], s.groups[g]))
    && (!env.paranoid ==> forall g :: 0 <= g < |s.groups| ==> s.groups[g].status != Hashing)
  }

  // ----- progress counters -----

  predicate Counted(loc: Loc) { loc !in {Fresh, Ignored, Done} }

  ghost function FilesLeft(files: seq<File>): nat {
    if files == [] then 0
    else FilesLeft(files[..|files|-1]) + if Counted(files[|files|-1].loc) then 1 else 0
  }

  ghost function BytesLeft(infos: seq<Info>, files: seq<File>): int
    requires |infos| >= |files|
  {
    if files == [] then 0
    else
      var n := |files| - 1;
      BytesLeft(infos, files[..n]) + if Counted(files[n].loc) then |infos[n].content| - files[n].hashOffset else 0
  }

  ghost function QueuedFiles(queue: seq<Adjustment>): int {
    if queue == [] then 0 else queue[0].files + QueuedFiles(queue[1..])
  }

  ghost function QueuedBytes(queue: seq<Adjustment>): int {
    if queue == [] then 0 else queue[0].bytes + QueuedBytes(queue[1..])
  }

  /** With the queued adjustments applied, the counters say what is left. */
  ghost predicate Conserved(env: Env, s: State)
    requires |s.files| == |env.files|
  {
    && s.counters.files + QueuedFiles(s.counters.queue) == FilesLeft(s.files)
    && s.counters.bytes + QueuedBytes(s.counters.queue) == BytesLeft(env.files, s.files)
  }

  // ----- all of it -----

  /** Every live group is still needed, except `spare`. */
  ghost predicate Needed(s: State, spare: Option<GroupId>) {
    && (forall g :: 0 <= g < |s.groups| && s.groups[g].stage == Live && Unneeded(s.groups[g]) ==>
          s.open == Some(g) || spare == Some(g))
    && (s.open.Some? ==>
          && !s.started && s.open.value < |s.groups|
          && s.groups[s.open.value].origin == None && s.groups[s.open.value].stage == Live
          && (IsHashing(s.groups[s.open.value].status) ==> s.groups[s.open.value].numPending > 0))
    && (!s.started ==> forall g :: 0 <= g < |s.groups| ==> s.groups[g].origin == None)
  }

  /** The parts of the invariant that do not look at the accounts. */
  ghost predicate Structure(env: Env, files: seq<File>, gs: seq<Group>) {
    && Sane(env)
    && Shape(env, gs)
    && Places(env, files, gs)
    && Tallies(env, gs)
    && Tracked(env, files, gs)
  }

  ghost predicate Core(env: Env, s: State) {
    && Structure(env, s.files, s.groups)
    && Banked(env, s)
    && Conserved(env, s)
  }

  /** No file is between two critical sections of a sifting thread, and work begins with the scheduler. */
  ghost predicate Settled(files: seq<File>, started: bool) {
    && (forall f :: 0 <= f < |files| ==> files[f].loc != Moving)
    && (!started ==> forall f :: 0 <= f < |files| && (Waits(files[f].loc) || WasRead(files[f].loc)) ==>
        files[f].loc == Out)
  }

  /** A group that does not hash holds a file. */
  ghost predicate Peopled(gs: seq<Group>) {
    forall g :: 0 <= g < |gs| && !IsHashing(gs[g].status) && gs[g].stage != Freed ==> gs[g].held != []
  }

  ghost predicate Inv(env: Env, s: State) {
    && Core(env, s)
    && Needed(s, None)
    && Settled(s.files, s.started)
    && Peopled(s.groups)
  }

  lemma InvWellFormed(env: Env, s: State)
    requires Inv(env, s)
    ensures WellFormed(env, s)
  {
    forall g | 0 <= g < |s.groups| ensures GroupShape(env, s.groups, g) && Queue(s.files, s.groups[g], g) {}
    forall g, k | 0 <= g < |s.groups| && k in s.groups[g].children ensures ChildShape(s.groups, g, k) {}
    forall f | 0 <= f < |s.files| ensures Place(env, s.files[f], env.files[f], f, s.groups) {}
  }

  lemma InitialInv(env: Env)
    requires Sane(env)
    ensures Inv(env, Initial(env))
  {
    var files := Initial(env).files;
    NothingLeft(env, files);
  }

  lemma {:induction false} NothingLeft(env: Env, files: seq<File>)
    requires |files| <= |env.files| && forall f :: 0 <= f < |files| ==> !Counted(files[f].loc)
    ensures FilesLeft(files) == 0 && BytesLeft(env.files, files) == 0
  {
    if files != [] { NothingLeft(env, files[..|files|-1]); }
  }
}
