/**
 * The progressive sieve of lib/shredder.c as a transition system.
 *
 * A state holds the files and the shred groups.  Every critical section of the
 * source is one step, and what runs outside of all locks is a step of its own, so
 * the steps of different threads interleave freely.  A request for memory in
 * particular is three things: the test of the status and the amount, which no
 * lock protects; the section under the mutex of the bank, which does not test
 * again; and the sections under the group's lock that follow.
 */
module SieveState {
  import opened Common
  import MemoryBank

  type FileId = nat
  type GroupId = nat
  type Digest = int
  type Tear = MemoryBank.Tear

  const BALANCED_PAGES: nat := 4
  const MAX_READ_BYTES: nat := 256 * 1024 * 1024
  const PARANOID_BYTES: nat := 16 * 1024 * 1024

  datatype Config = Config(needsPref: bool, needsNpref: bool, needsNew: bool, mergeDirectories: bool)

  /** The counters a group keeps of the files that passed through it. */
  datatype Tally = Tally(files: nat, pref: nat, npref: nat, newer: nat,
                         clusters: nat, unhashed: nat, inodes: nat)

  /** A file (the head of its hardlink and checksum cluster); `tally` is what it adds to a group. */
  datatype Info = Info(content: seq<Byte>, tally: Tally, isSymlink: bool)

  /**
   * What stays fixed during a run.  `digest` is the checksum function.  It is
   * applied to all the data fed to it so far, as one buffer; with the paranoid type
   * it is applied to the buffers of one increment, and it depends on how they were
   * cut.  `buffers` says in which buffers bytes `from` to `to` of a file arrive when
   * they are read, which happens at most once in a run.  `memory` is what the bank
   * starts with.
   */
  datatype Env = Env(cfg: Config, pageSize: nat, paranoid: bool, digest: seq<seq<Byte>> -> Digest,
                     buffers: (FileId, nat, nat) -> seq<seq<Byte>>, files: seq<Info>, memory: nat)

  datatype Status = Dormant | StartHashing | Hashing | Finishing | Finished

  /** How far `rm_shred_group_finalise` got with a group. */
  datatype Stage =
    | Live         // not finalised
    | Finalising   // finalise was entered
    | Returned     // memory credited to the bank, account not zeroed yet
    | Cleared      // account zeroed
    | Reported     // in the result pool
    | Freed        // freed; its children are being orphaned

  datatype Group = Group(
    origin: Option<GroupId>,   // the parent at creation (not a field of the source)
    parent: Option<GroupId>,
    key: Digest,               // its key in the parent's table of children
    children: map<Digest, GroupId>,
    fileSize: nat, hashOffset: nat,
    nextOffset: nat,           // 0 until the first increment is planned
    offsetFactor: nat,
    tally: Tally,
    numPending: int,
    status: Status,
    held: seq<FileId>,
    inProgress: set<FileId>,
    stage: Stage,
    finalised: nat)            // number of calls of finalise (not a field of the source)

  datatype Loc =
    | Fresh              // not pushed into the sieve yet
    | Held               // in the held_files queue of its group
    | Out                // handed to the scheduler
    | Asking(required: int)  // about to ask the bank for this amount
    | Granted            // its group is committed
    | Planned            // the offset of the next increment is planned
    | Ready              // has a digest to update
    | Sizing             // its increment is being sized: the offset is stored, but not capped yet
    | Hashed(ok: bool)   // increment read and hashed, or failed
    | Moving             // between two groups, in the hands of the sifting thread
    | Entering           // on its way into a child group that starts to hash: its held files are
                         // released, and the sifting thread, holding the locks of both groups,
                         // is about to test the child group's status
    | Pushing(required: int) // likewise, about to ask the bank for this amount
    | Ignored            // discarded after a failure
    | Done               // discarded together with a result group

  datatype File = File(loc: Loc, group: GroupId, hashOffset: nat)

  datatype Adjustment = Adjustment(files: int, bytes: int)

  datatype Counters = Counters(queue: seq<Adjustment>, files: int, bytes: int)

  datatype State = State(files: seq<File>, groups: seq<Group>, bank: MemoryBank.Bank,
                         open: Option<GroupId>, started: bool, counters: Counters)

  // ----- tallies and criteria -----

  const ZERO_TALLY := Tally(0, 0, 0, 0, 0, 0, 0)

  function Add(a: Tally, b: Tally): Tally {
    Tally(a.files + b.files, a.pref + b.pref, a.npref + b.npref, a.newer + b.newer,
          a.clusters + b.clusters, a.unhashed + b.unhashed, a.inodes + b.inodes)
  }

  predicate Qualifies(cfg: Config, t: Tally) {
    && t.files >= 2
    && (t.pref > 0 || !cfg.needsPref)
    && (t.npref > 0 || !cfg.needsNpref)
    && (t.newer > 0 || !cfg.needsNew)
  }

  function UpdateStatus(cfg: Config, g: Group): Group {
    if g.status != Dormant || !Qualifies(cfg, g.tally) || g.hashOffset == g.fileSize then g
    else if g.tally.clusters > 1 then g.(status := StartHashing)
    else if g.tally.inodes == 1 && g.tally.unhashed > 0 && cfg.mergeDirectories then g.(status := StartHashing)
    else g
  }

  predicate IsHashing(status: Status) { status == StartHashing || status == Hashing }

  // ----- increments -----

  function MaxReadFactor(pageSize: nat): nat
    requires pageSize > 0
  {
    MAX_READ_BYTES / BALANCED_PAGES / pageSize
  }

  /** The next offset `rm_shred_get_read_size` plans for a group. */
  function NextOffset(pageSize: nat, paranoid: bool, fileSize: nat, hashOffset: nat, factor: nat): nat
    requires pageSize > 0
  {
    var balanced := pageSize * BALANCED_PAGES;
    var pages := Max(balanced * factor / pageSize, 1);
    var target := pages * pageSize;
    var next := if hashOffset + target + balanced >= fileSize then fileSize else hashOffset + target;
    if paranoid then Min(next, hashOffset + PARANOID_BYTES) else next
  }

  function PlannedOffset(env: Env, g: Group): nat
    requires env.pageSize > 0
  {
    NextOffset(env.pageSize, env.paranoid, g.fileSize, g.hashOffset, g.offsetFactor)
  }

  /** The buffers behind a file's digest once the group's increment is hashed. */
  function HashedBuffers(env: Env, f: FileId, g: Group): seq<seq<Byte>>
    requires f < |env.files|
  {
    if env.paranoid then env.buffers(f, g.hashOffset, g.nextOffset)
    else if g.nextOffset <= |env.files[f].content| then [env.files[f].content[..g.nextOffset]]
    else []
  }

  function KeyOf(env: Env, f: FileId, g: Group): Digest
    requires f < |env.files|
  {
    env.digest(HashedBuffers(env, f, g))
  }

  // ----- references between files and groups -----

  predicate ParentsBelow(groups: seq<Group>) {
    forall g :: 0 <= g < |groups| && groups[g].parent.Some? ==> groups[g].parent.value < g
  }

  predicate ChildrenAbove(groups: seq<Group>) {
    forall g, k :: 0 <= g < |groups| && k in groups[g].children ==> g < groups[g].children[k] < |groups|
  }

  predicate HeldInRange(files: seq<File>, groups: seq<Group>) {
    forall g, i :: 0 <= g < |groups| && 0 <= i < |groups[g].held| ==> groups[g].held[i] < |files|
  }

  predicate WellFormed(env: Env, s: State) {
    && env.pageSize > 0
    && |s.files| == |env.files|
    && |s.bank.accounts| == |s.groups|
    && ParentsBelow(s.groups)
    && ChildrenAbove(s.groups)
    && HeldInRange(s.files, s.groups)
    && (forall f :: 0 <= f < |s.files| && s.files[f].loc != Fresh ==> s.files[f].group < |s.groups|)
    && (s.open.Some? ==> s.open.value < |s.groups|)
  }

  // ----- pieces of the critical sections -----

  function SetGroup(s: State, g: GroupId, grp: Group): State
    requires g < |s.groups|
  {
    s.(groups := s.groups[g := grp])
  }

  function Adjust(s: State, files: int, bytes: int): State {
    s.(counters := s.counters.(queue := s.counters.queue + [Adjustment(files, bytes)]))
  }

  function Discard(env: Env, s: State, f: FileId, loc: Loc): State
    requires f < |s.files| == |env.files|
  {
    Adjust(s.(files := s.files[f := s.files[f].(loc := loc)]),
           -1, -(|env.files[f].content| - s.files[f].hashOffset))
  }

  /** Discards every file of a queue. */
  function DiscardAll(env: Env, s: State, queue: seq<FileId>): State
    decreases |queue|
    requires |s.files| == |env.files| && forall i :: 0 <= i < |queue| ==> queue[i] < |s.files|
  {
    if queue == [] then s
    else DiscardAll(env, Discard(env, s, queue[0], Done), queue[1..])
  }

  /** Upper bound of the files a group may end up with: all that are pending here or above. */
  function PotentialFileCount(s: State, g: GroupId): int
    requires g < |s.groups| && ParentsBelow(s.groups)
    decreases g
  {
    s.groups[g].numPending +
    match s.groups[g].parent case Some(p) => PotentialFileCount(s, p) case None => 0
  }

  /** What a group asks the bank for, with `count` as the potential file count. */
  function Required(grp: Group, count: nat): int {
    (count / 2 + 1) * Min(grp.fileSize - grp.hashOffset, PARANOID_BYTES)
  }

  /** Whether the bank would grant a group an amount right now. */
  predicate Granting(s: State, g: GroupId, required: int, threshold: int)
    requires g < |s.groups| == |s.bank.accounts|
    requires s.groups[g].parent.Some? ==> s.groups[g].parent.value < |s.groups|
  {
    MemoryBank.Grants(s.bank, s.groups[g].parent, required, threshold)
  }

  /**
   * A request that is granted.  The parent's account, credited to the bank before, may
   * be zeroed by another thread meanwhile; that assignment is outside of the mutex.
   */
  function Commit(s: State, g: GroupId, required: int, tear: Tear): (t: State)
    requires g < |s.groups| == |s.bank.accounts| && ParentsBelow(s.groups)
    ensures ParentsBelow(t.groups) && |t.groups| == |s.groups| == |t.bank.accounts| && t.files == s.files
    ensures ChildrenAbove(s.groups) ==> ChildrenAbove(t.groups)
  {
    var parent := s.groups[g].parent;
    var t := SetGroup(s, g, s.groups[g].(status := Hashing))
               .(bank := MemoryBank.Charge(s.bank, g, parent, required, tear));
    if tear != MemoryBank.Whole && parent.Some?
    then SetGroup(t, parent.value, t.groups[parent.value].(stage := Cleared)) else t
  }

  function ReleaseHeld(s: State, g: GroupId): State
    requires g < |s.groups|
  {
    var grp := s.groups[g];
    SetGroup(s, g, grp.(numPending := grp.numPending + |grp.held|, held := []))
      .(files := seq(|s.files|, i requires 0 <= i < |s.files| =>
          if i in grp.held then s.files[i].(loc := Out) else s.files[i]))
  }

  function SendOut(s: State, g: GroupId, f: FileId): State
    requires g < |s.groups| && f < |s.files|
  {
    SetGroup(s, g, s.groups[g].(numPending := s.groups[g].numPending + 1))
      .(files := s.files[f := s.files[f].(loc := Out, group := g)])
  }

  function Hold(s: State, g: GroupId, f: FileId): State
    requires g < |s.groups| && f < |s.files|
  {
    SetGroup(s, g, s.groups[g].(held := [f] + s.groups[g].held))
      .(files := s.files[f := s.files[f].(loc := Held, group := g)])
  }

  /** The group after one more file was counted. */
  function CountedIn(env: Env, grp: Group, f: FileId): Group
    requires f < |env.files|
  {
    UpdateStatus(env.cfg, grp.(tally := Add(grp.tally, env.files[f].tally)))
  }

  /** `rm_shred_group_push_file`, unless it asks for memory. */
  function Push(env: Env, s: State, g: GroupId, f: FileId): (t: State)
    requires g < |s.groups| == |s.bank.accounts| && f < |s.files| == |env.files|
    ensures |t.groups| == |s.groups| && t.bank == s.bank
  {
    var counted := SetGroup(s, g, CountedIn(env, s.groups[g], f));
    match counted.groups[g].status
    case StartHashing => SendOut(ReleaseHeld(counted, g), g, f)
    case Hashing => SendOut(counted, g, f)
    case _ => Hold(counted, g, f)
  }

  /** `rm_shred_group_push_file` up to the test for memory: the file stays with the sifting thread. */
  function BeginPush(env: Env, s: State, g: GroupId, f: FileId): (t: State)
    requires g < |s.groups| && f < |s.files| == |env.files|
    ensures |t.groups| == |s.groups| && t.bank == s.bank
  {
    var counted := SetGroup(s, g, CountedIn(env, s.groups[g], f));
    var released := ReleaseHeld(counted, g);
    released.(files := released.files[f := released.files[f].(loc := Entering)])
  }

  function NewGroup(env: Env, s: State, f: FileId, parent: Option<GroupId>, key: Digest): Group
    requires f < |s.files| == |env.files| && env.pageSize > 0
    requires parent.Some? ==> parent.value < |s.groups|
  {
    Group(parent, parent, key, map[], |env.files[f].content|, s.files[f].hashOffset, 0,
          if parent.Some? then Min(s.groups[parent.value].offsetFactor * 8, MaxReadFactor(env.pageSize)) else 1,
          ZERO_TALLY, 0, Dormant, [], {}, Live, 0)
  }

  function AppendGroup(s: State, grp: Group): State {
    s.(groups := s.groups + [grp], bank := MemoryBank.Open(s.bank))
  }

  function CallFinalise(s: State, g: GroupId): State
    requires g < |s.groups|
  {
    SetGroup(s, g, s.groups[g].(stage := Finalising, finalised := s.groups[g].finalised + 1))
  }

  predicate Unneeded(g: Group) { g.parent.None? && g.numPending == 0 }

  // ----- the steps -----

  /** What the walk up the parents arrives at when nothing moves meanwhile. */
  function CountAt(s: State, g: GroupId): nat
    requires g < |s.groups| && ParentsBelow(s.groups)
  {
    Max(PotentialFileCount(s, g), 0)
  }

  /** The true count for a file that is about to ask; one that is being sifted is not pending any more. */
  function TrueCount(env: Env, s: State, f: FileId): nat
    requires WellFormed(env, s) && f < |s.files| && s.files[f].loc != Fresh
  {
    var g := AskedFor(env, s, f);
    if g >= |s.groups| then 0
    else if s.files[f].loc.Entering? then Max(PotentialFileCount(s, g) - 1, 0) else CountAt(s, g)
  }

  datatype Step =
    | Admit(f: FileId)             // push a file into the open root group, or open one
    | Close                        // all files of the root group are pushed
    | Launch                       // start the scheduler
    | Ask(f: FileId, count: nat)   // what needs no lock of rm_shred_check_paranoid_mem_alloc, with the
                                   // count it arrives at, for the next increment or for a push
    | Decide(f: FileId, tear: Tear) // the mutex section of a request
    | Plan(f: FileId)              // plan the increment of a paranoid group
    | Register(f: FileId)          // register a paranoid digest for twin candidates
    | Size(f: FileId)              // size the increment, up to its limit for paranoid digests
    | Read(f: FileId, ok: bool)    // the limit; read and hash one increment
    | Sift(f: FileId)              // move a hashed file to its child group, up to the test for memory
    | Abort(f: FileId)             // give a queued file up after an abort
    | Orphan(g: GroupId)           // tell a child that its parent was freed
    | ReturnMemory(g: GroupId)     // finalise, critical section of rm_shred_mem_return
    | Clear(g: GroupId)            // finalise, the assignment after that critical section
    | Dispose(g: GroupId)          // finalise, the rest
    | Report(g: GroupId)           // the result factory is done with a group
    | Count                        // apply the oldest counter adjustment

  /** In the hands of a sifting thread that holds the locks of the file's group and of the child group. */
  predicate InHand(loc: Loc) { loc.Entering? || loc.Pushing? }

  /** The sifting thread that has file `f` holds the locks of the file's group and of the child group. */
  predicate Grips(env: Env, s: State, f: FileId, g: GroupId) {
    && f < |s.files| && f < |env.files| && InHand(s.files[f].loc)
    && (s.files[f].group == g ||
        (s.files[f].group < |s.groups| && var p := s.groups[s.files[f].group];
         KeyOf(env, f, p) in p.children && p.children[KeyOf(env, f, p)] == g))
  }

  predicate Locked(env: Env, s: State, g: GroupId) {
    exists f :: 0 <= f < |s.files| && Grips(env, s, f, g)
  }

  /** The group that a request is or will be made for. */
  function AskedFor(env: Env, s: State, f: FileId): GroupId
    requires f < |s.files| && f < |env.files|
  {
    var g := s.files[f].group;
    if InHand(s.files[f].loc) && g < |s.groups| && KeyOf(env, f, s.groups[g]) in s.groups[g].children
    then s.groups[g].children[KeyOf(env, f, s.groups[g])] else g
  }

  /** Up to how many active groups a request is granted in any case. */
  function Threshold(loc: Loc): int {
    if loc.Pushing? then 1 else 0
  }

  /** The request of a file is granted if it is decided now. */
  predicate GrantedNow(env: Env, s: State, f: FileId) {
    && f < |s.files| && f < |env.files| && (s.files[f].loc.Asking? || s.files[f].loc.Pushing?)
    && var g := AskedFor(env, s, f);
    && g < |s.groups| == |s.bank.accounts|
    && (s.groups[g].parent.Some? ==> s.groups[g].parent.value < |s.groups|)
    && Granting(s, g, s.files[f].loc.required, Threshold(s.files[f].loc))
  }

  /** Another thread is about to zero the account of the parent of the group that asks. */
  predicate CanTear(env: Env, s: State, f: FileId) {
    && GrantedNow(env, s, f)
    && var parent := s.groups[AskedFor(env, s, f)].parent;
    && parent.Some? && s.groups[parent.value].stage == Returned
  }

  predicate Enabled(env: Env, s: State, step: Step) {
    match step
    case Admit(f) =>
      && !s.started && f < |s.files| && s.files[f].loc == Fresh
      && (s.open.Some? ==> f < |env.files| && s.open.value < |s.groups|
                           && |env.files[f].content| == s.groups[s.open.value].fileSize)
    case Close => s.open.Some?
    case Launch => !s.started && s.open.None?
    case Ask(f, count) => s.started && f < |s.files| && (s.files[f].loc == Out || s.files[f].loc == Entering)
    case Decide(f, tear) =>
      && s.started && f < |s.files| && (s.files[f].loc.Asking? || s.files[f].loc.Pushing?)
      && (tear != MemoryBank.Whole ==> CanTear(env, s, f))
    case Plan(f) => s.started && f < |s.files| && s.files[f].loc == Granted && !Locked(env, s, s.files[f].group)
    case Register(f) => s.started && f < |s.files| && s.files[f].loc == Planned && !Locked(env, s, s.files[f].group)
    case Size(f) => s.started && f < |s.files| && s.files[f].loc == Ready
    case Read(f, ok) => s.started && f < |s.files| && s.files[f].loc == Sizing
    case Sift(f) => s.started && f < |s.files| && s.files[f].loc.Hashed? && !Locked(env, s, s.files[f].group)
    case Abort(f) => s.started && f < |s.files| && s.files[f].loc == Out && !Locked(env, s, s.files[f].group)
    case Orphan(g) =>
      && g < |s.groups| && s.groups[g].parent.Some? && s.groups[g].parent.value < |s.groups|
      && s.groups[s.groups[g].parent.value].stage == Freed && !Locked(env, s, g)
    case ReturnMemory(g) => g < |s.groups| && s.groups[g].stage == Finalising
    case Clear(g) => g < |s.groups| && s.groups[g].stage == Returned
    case Dispose(g) => g < |s.groups| && s.groups[g].stage == Cleared
    case Report(g) => g < |s.groups| && s.groups[g].stage == Reported
    case Count => s.counters.queue != []
  }

  function AdmitStep(env: Env, s: State, f: FileId): State
    requires WellFormed(env, s) && Enabled(env, s, Admit(f))
  {
    match s.open
    case Some(g) => Push(env, Enter(env, s, f, g), g, f)
    case None =>
      var g := |s.groups|;
      var t := AppendGroup(s, NewGroup(env, s, f, None, 0)).(open := Some(g));
      Push(env, Enter(env, t, f, g), g, f)
  }

  /** Registers a file with the progress counters, on its way into root group `g`. */
  function Enter(env: Env, s: State, f: FileId, g: GroupId): State
    requires f < |s.files| == |env.files|
  {
    Adjust(s.(files := s.files[f := s.files[f].(loc := Moving, group := g)]),
           1, |env.files[f].content| - s.files[f].hashOffset)
  }

  function CloseStep(s: State): State
    requires s.open.Some? && s.open.value < |s.groups|
  {
    var g := s.open.value;
    (if s.groups[g].status == Dormant then CallFinalise(s, g) else s).(open := None)
  }

  function MoveTo(s: State, f: FileId, loc: Loc): State
    requires f < |s.files|
  {
    s.(files := s.files[f := s.files[f].(loc := loc)])
  }

  predicate IsCommitted(status: Status) { status in {Hashing, Finishing, Finished} }

  /** Whether a group is committed, the amount it needs otherwise; the bank is not locked. */
  function AskStep(env: Env, s: State, f: FileId, count: nat): State
    requires WellFormed(env, s) && f < |s.files| && (s.files[f].loc == Out || s.files[f].loc == Entering)
  {
    var g := AskedFor(env, s, f);
    if s.files[f].loc == Entering then
      if IsCommitted(s.groups[g].status) then SendDown(s, s.files[f].group, g, f)
      else MoveTo(s, f, Pushing(Required(s.groups[g], count)))
    else if !env.paranoid then MoveTo(s, f, Ready)
    else if IsCommitted(s.groups[g].status) then MoveTo(s, f, Granted)
    else MoveTo(s, f, Asking(Required(s.groups[g], count)))
  }

  /**
   * The mutex section.  A refused file goes back to the scheduler; a file that is
   * being pushed is sent on in any case.
   */
  function DecideStep(env: Env, s: State, f: FileId, tear: Tear): State
    requires WellFormed(env, s) && f < |s.files| && (s.files[f].loc.Asking? || s.files[f].loc.Pushing?)
  {
    var g := s.files[f].group;
    if s.files[f].loc.Asking? then
      if GrantedNow(env, s, f) then MoveTo(Commit(s, g, s.files[f].loc.required, tear), f, Granted)
      else MoveTo(s, f, Out)
    else
      var c := AskedFor(env, s, f);
      var t := if GrantedNow(env, s, f) then Commit(s, c, s.files[f].loc.required, tear) else s;
      SendDown(t, g, c, f)
  }

  function PlanStep(env: Env, s: State, f: FileId): State
    requires WellFormed(env, s) && f < |s.files| && s.files[f].loc != Fresh
  {
    var g := s.files[f].group;
    var next := if s.groups[g].nextOffset == 0 then PlannedOffset(env, s.groups[g]) else s.groups[g].nextOffset;
    MoveTo(SetGroup(s, g, s.groups[g].(nextOffset := next)), f, Planned)
  }

  function RegisterStep(env: Env, s: State, f: FileId): State
    requires WellFormed(env, s) && f < |s.files| && s.files[f].loc != Fresh
  {
    var g := s.files[f].group;
    var t := if env.files[f].isSymlink then s
             else SetGroup(s, g, s.groups[g].(inProgress := s.groups[g].inProgress + {f}));
    MoveTo(t, f, Ready)
  }

  /** The value that another thread may find as a group's next offset while an increment is being sized. */
  function UncappedOffset(env: Env, g: Group): nat
    requires env.pageSize > 0
  {
    NextOffset(env.pageSize, false, g.fileSize, g.hashOffset, g.offsetFactor)
  }

  function ReadStep(env: Env, s: State, f: FileId, ok: bool): State
    requires WellFormed(env, s) && Enabled(env, s, Read(f, ok))
  {
    var g := s.files[f].group;
    var next := PlannedOffset(env, s.groups[g]);
    var bytes := next - s.files[f].hashOffset;
    Adjust(SetGroup(s, g, s.groups[g].(nextOffset := next))
             .(files := s.files[f := s.files[f].(loc := Hashed(ok), hashOffset := next)]),
           0, if env.files[f].isSymlink then -|env.files[f].content| else -bytes)
  }

  /** The child group for a file's digest, created when there is none yet. */
  function ChildFor(env: Env, s: State, g: GroupId, f: FileId): (r: (State, GroupId))
    requires env.pageSize > 0 && g < |s.groups| == |s.bank.accounts| && f < |s.files| == |env.files|
    requires ParentsBelow(s.groups) && ChildrenAbove(s.groups)
    ensures r.1 < |r.0.groups| == |r.0.bank.accounts| && r.0.files == s.files && ParentsBelow(r.0.groups)
  {
    var key := KeyOf(env, f, s.groups[g]);
    if key in s.groups[g].children then (s, s.groups[g].children[key])
    else
      var c := |s.groups|;
      var t := AppendGroup(s, NewGroup(env, s, f, Some(g), key));
      (SetGroup(t, g, t.groups[g].(children := t.groups[g].children[key := c])), c)
  }

  function Unpend(s: State, g: GroupId, f: FileId): (t: State)
    requires g < |s.groups| && f < |s.files|
    ensures ParentsBelow(s.groups) ==> ParentsBelow(t.groups)
    ensures ChildrenAbove(s.groups) ==> ChildrenAbove(t.groups)
  {
    SetGroup(s, g, s.groups[g].(numPending := s.groups[g].numPending - 1,
                                inProgress := s.groups[g].inProgress - {f}))
      .(files := s.files[f := s.files[f].(loc := Moving)])
  }

  /** Whether pushing a file into a group asks for memory. */
  predicate Asks(env: Env, grp: Group, f: FileId)
    requires f < |env.files|
  {
    env.paranoid && CountedIn(env, grp, f).status == StartHashing
  }

  /**
   * `rm_shred_sift`, up to the test for memory if there is one.  The group's count of
   * pending files then drops when the file is sent on; only the unlocked readers of the
   * count could tell the difference, and they may find any count.
   */
  function SiftStep(env: Env, s: State, f: FileId, ok: bool): State
    requires WellFormed(env, s) && f < |s.files| && s.files[f].loc != Fresh
  {
    var g := s.files[f].group;
    if ok then
      var (v, c) := ChildFor(env, s, g, f);
      if Asks(env, v.groups[c], f) then BeginPush(env, v, c, f) else PushDown(env, v, g, c, f)
    else GiveUp(env, s, g, f)
  }

  function PushDown(env: Env, s: State, g: GroupId, c: GroupId, f: FileId): State
    requires g < |s.groups| && c < |s.groups| == |s.bank.accounts| && f < |s.files| == |env.files|
  {
    EndIfUnneeded(Push(env, Unpend(s, g, f), c, f), g)
  }

  function GiveUp(env: Env, s: State, g: GroupId, f: FileId): State
    requires g < |s.groups| && f < |s.files| == |env.files|
  {
    EndIfUnneeded(Discard(env, Unpend(s, g, f), f, Ignored), g)
  }

  function SendDown(s: State, g: GroupId, c: GroupId, f: FileId): State
    requires g < |s.groups| && c < |s.groups| && f < |s.files|
  {
    EndIfUnneeded(SendOut(Unpend(s, g, f), c, f), g)
  }

  function EndIfUnneeded(s: State, g: GroupId): State
    requires g < |s.groups|
  {
    if Unneeded(s.groups[g]) then CallFinalise(s, g) else s
  }

  function OrphanStep(s: State, g: GroupId): State
    requires g < |s.groups|
  {
    var t := SetGroup(s, g, s.groups[g].(parent := None));
    if t.groups[g].numPending == 0 then CallFinalise(t, g) else t
  }

  function ReturnMemoryStep(s: State, g: GroupId): State
    requires g < |s.groups| == |s.bank.accounts|
  {
    SetGroup(s, g, s.groups[g].(stage := Returned)).(bank := MemoryBank.ReturnLocked(s.bank, g))
  }

  function ClearStep(s: State, g: GroupId): State
    requires g < |s.groups| == |s.bank.accounts|
  {
    SetGroup(s, g, s.groups[g].(stage := Cleared)).(bank := MemoryBank.Clear(s.bank, g))
  }

  function DisposeStep(env: Env, s: State, g: GroupId): State
    requires WellFormed(env, s) && g < |s.groups|
  {
    var grp := s.groups[g];
    match grp.status
    case Dormant =>
      SetGroup(s, g, grp.(stage := Reported, status := if Qualifies(env.cfg, grp.tally) then Finishing else Dormant))
    case StartHashing => FreeGroup(env, s, g)
    case Hashing => FreeGroup(env, s, g)
    case _ => SetGroup(s, g, grp.(stage := Reported))
  }

  function FreeGroup(env: Env, s: State, g: GroupId): State
    requires g < |s.groups| && |s.files| == |env.files| && HeldInRange(s.files, s.groups)
  {
    DiscardAll(env, SetGroup(s, g, s.groups[g].(stage := Freed, held := [])), s.groups[g].held)
  }

  function CountStep(s: State): State
    requires s.counters.queue != []
  {
    var c := s.counters;
    s.(counters := Counters(c.queue[1..], c.files + c.queue[0].files, c.bytes + c.queue[0].bytes))
  }

  function Apply(env: Env, s: State, step: Step): State
    requires WellFormed(env, s) && Enabled(env, s, step)
  {
    match step
    case Admit(f) => AdmitStep(env, s, f)
    case Close => CloseStep(s)
    case Launch => s.(started := true)
    case Ask(f, count) => AskStep(env, s, f, count)
    case Decide(f, tear) => DecideStep(env, s, f, tear)
    case Plan(f) => PlanStep(env, s, f)
    case Register(f) => RegisterStep(env, s, f)
    case Size(f) => MoveTo(s, f, Sizing)
    case Read(f, ok) => ReadStep(env, s, f, ok)
    case Sift(f) => SiftStep(env, s, f, s.files[f].loc.ok)
    case Abort(f) => SiftStep(env, s, f, false)
    case Orphan(g) => OrphanStep(s, g)
    case ReturnMemory(g) => ReturnMemoryStep(s, g)
    case Clear(g) => ClearStep(s, g)
    case Dispose(g) => DisposeStep(env, s, g)
    case Report(g) => FreeGroup(env, s, g)
    case Count => CountStep(s)
  }

  /** The unlocked walk of a request, if the step has one, finds the true count. */
  predicate Exact(env: Env, s: State, step: Step)
    requires WellFormed(env, s) && Enabled(env, s, step)
  {
    step.Ask? ==> step.count == TrueCount(env, s, step.f)
  }

  function Initial(env: Env): State {
    State(seq(|env.files|, _ => File(Fresh, 0, 0)), [], MemoryBank.Bank(env.memory, 0, [], 0, 0),
          None, false, Counters([], 0, 0))
  }

  ghost predicate Joined(env: Env, s: State, step: Step, t: State) {
    WellFormed(env, s) && Enabled(env, s, step) && t == Apply(env, s, step)
  }

  /** A run: states joined by enabled steps, from the initial state. */
  ghost predicate IsRun(env: Env, run: seq<State>, steps: seq<Step>) {
    && |run| == |steps| + 1
    && run[0] == Initial(env)
    && forall i :: 0 <= i < |steps| ==> Joined(env, run[i], steps[i], run[i + 1])
  }

  ghost predicate Reachable(env: Env, s: State) {
    exists run, steps, i :: IsRun(env, run, steps) && 0 <= i < |run| && run[i] == s
  }
}
