/**
 * When the sieve can still come to its end, whatever was charged twice: as long as
 * what the groups ask for can be in the bank.
 */
module SieveEnding {
  import opened Common
  import opened SieveState
  import opened SieveInvariant
  import opened SievePush
  import opened SieveSteps
  import opened SieveRun
  import opened SieveFrame
  import opened SieveMemory
  import opened SieveProgress
  import opened SieveTermination
  import opened SieveStarving
  import SieveTheorems
  import MemoryBank

  // ----- runs that go on from a state -----

  /** Neither an abort nor a leak, and no walk that overlooks the files of the group that asks. */
  ghost predicate Orderly(env: Env, s: State, step: Step)
    requires WellFormed(env, s)
  {
    Enabled(env, s, step) && !step.Abort? && !InWindow(env, s, step) && Sees(env, s, step)
  }

  /** `steps` lead from `s` to `t`, one orderly step after the other. */
  ghost predicate Leads(env: Env, s: State, steps: seq<Step>, t: State)
    decreases |steps|
  {
    if steps == [] then s == t
    else WellFormed(env, s) && Orderly(env, s, steps[0]) && Leads(env, Apply(env, s, steps[0]), steps[1..], t)
  }

  /** The sieve can still come to its end. */
  ghost predicate CanEnd(env: Env, s: State) {
    exists steps, t :: Leads(env, s, steps, t) && Quiet(t)
  }

  // ----- what fits the bank -----

  /** The files that are still in the sieve and came in with size group `r`. */
  ghost function FilesOf(s: State, r: GroupId): set<FileId> {
    set f | 0 <= f < |s.files| && Counted(s.files[f].loc) && SieveTheorems.Root(s.groups, s.files[f].group) == r
  }

  /** All that the files of a size group can be asked for at once is in the bank. */
  ghost predicate Fits(env: Env, s: State, r: GroupId)
    requires r < |s.groups|
  {
    FilesOf(s, r) != {} ==> (|FilesOf(s, r)| / 2 + 1) * Min(s.groups[r].fileSize, PARANOID_BYTES) <= env.memory
  }

  ghost predicate AllFit(env: Env, s: State) {
    forall r :: 0 <= r < |s.groups| && s.groups[r].origin == None && IsHashing(s.groups[r].status) ==> Fits(env, s, r)
  }

  /** No file is between the hashing of an increment and the next group. */
  ghost predicate Landed(s: State) {
    forall f :: 0 <= f < |s.files| ==> s.files[f].loc != Hashed(true) && !InHand(s.files[f].loc)
  }

  ghost predicate NoneStarves(env: Env, s: State) {
    forall g: GroupId {:trigger Starving(env, s, g)} :: !Starving(env, s, g)
  }

  /** Either the size groups fit, and no read needs to fail; or no group starves already, and all reads fail. */
  ghost predicate Hopeful(env: Env, s: State, ok: bool) {
    if ok then AllFit(env, s) else Landed(s) && NoneStarves(env, s)
  }

  // ----- the true count is not too low -----

  lemma {:induction false} PotentialAtLeast(env: Env, s: State, g: GroupId)
    requires g < |s.groups| && ParentsBelow(s.groups)
    requires Inv(env, s)
    ensures PotentialFileCount(s, g) >= s.groups[g].numPending >= 0
    decreases g
  {
    assert Queue(s.files, s.groups[g], g);
    if s.groups[g].parent.Some? { PotentialAtLeast(env, s, s.groups[g].parent.value); }
  }

  lemma ExactSees(env: Env, s: State, step: Step)
    requires WellFormed(env, s) && Enabled(env, s, step) && Exact(env, s, step)
    requires Inv(env, s)
    ensures Sees(env, s, step)
  {
    if step.Ask? {
      var f, c := step.f, AskedFor(env, s, step.f);
      if c < |s.groups| {
        PotentialAtLeast(env, s, c);
        if s.files[f].loc == Entering {
          InHandFits(env, s, f);
          var g := s.files[f].group;
          ChildFits(env, s, g, f, c);
          PotentialAtLeast(env, s, g);
          assert Queue(s.files, s.groups[g], g) && f in PendingFiles(s.files, g);
        }
      }
    }
  }

  // ----- the next step -----

  /** A step to go on with. */
  ghost predicate Chosen(env: Env, s: State, step: Step, ok: bool)
    requires WellFormed(env, s)
  {
    && Enabled(env, s, step) && Exact(env, s, step)
    && !step.Abort? && !step.Admit? && !InWindow(env, s, step)
    && (step.Read? ==> step.ok == ok)
    && (Raises(env, s, step) ==>
          var g := s.files[step.f].group;
          && s.groups[g].parent == None && Required(s.groups[g], step.count) <= env.memory <= s.bank.available)
    && (step.Decide? && s.files[step.f].loc.Asking? && !GrantedNow(env, s, step.f) ==>
          s.groups[s.files[step.f].group].status != StartHashing || s.files[step.f].loc.required > env.memory)
  }

  lemma CommittedParent(env: Env, s: State, g: GroupId)
    requires g < |s.groups| && s.groups[g].parent.Some? && s.groups[g].parent.value < |s.groups|
    requires s.groups[s.groups[g].parent.value].stage == Live && env.paranoid
    requires Inv(env, s)
    ensures s.groups[s.groups[g].parent.value].status == Hashing
    ensures s.bank.accounts[s.groups[g].parent.value].isActive
  {
    var p := s.groups[g].parent.value;
    assert GroupShape(env, s.groups, g) && GroupShape(env, s.groups, p);
    assert AccountLinked(s.bank.accounts[p], s.groups[p]);
  }

  /** A decision for a group whose parent, if any, is live does not leak. */
  lemma DecisionKeepsBooks(env: Env, s: State, f: FileId)
    requires WellFormed(env, s) && Inv(env, s) && Enabled(env, s, Decide(f, MemoryBank.Whole))
    requires var g := AskedFor(env, s, f);
      g < |s.groups| && s.groups[g].parent.Some? ==>
        s.groups[g].parent.value < |s.groups| && s.groups[s.groups[g].parent.value].stage == Live
    ensures !InWindow(env, s, Decide(f, MemoryBank.Whole))
  {
    AskingGroup(env, s, f);
    var g := AskedFor(env, s, f);
    if s.groups[g].parent.Some? { CommittedParent(env, s, g); }
  }

  /** A file in the hands of a sifting thread moves on. */
  lemma InHandMoves(env: Env, s: State, f: FileId, ok: bool) returns (step: Step)
    requires s.started && f < |s.files| && InHand(s.files[f].loc)
    requires WellFormed(env, s) && Inv(env, s)
    ensures Chosen(env, s, step, ok) && !Raises(env, s, step)
  {
    if s.files[f].loc == Entering {
      step := Ask(f, TrueCount(env, s, f));
    } else {
      step := Decide(f, MemoryBank.Whole);
      InHandFits(env, s, f);
      ChildFits(env, s, s.files[f].group, f, AskedFor(env, s, f));
      DecisionKeepsBooks(env, s, f);
    }
  }

  function EndingStep(s: State, g: GroupId): Step
    requires g < |s.groups|
  {
    match s.groups[g].stage
    case Finalising => ReturnMemory(g)
    case Returned => Clear(g)
    case Cleared => Dispose(g)
    case _ => Report(g)
  }

  /** Steps that have nothing to do with memory. */
  lemma PlainChosen(env: Env, s: State, step: Step, ok: bool)
    requires WellFormed(env, s) && Enabled(env, s, step)
    requires !step.Ask? && !step.Decide? && !step.Abort? && !step.Admit? && (step.Read? ==> step.ok == ok)
    ensures Chosen(env, s, step, ok) && !Raises(env, s, step)
  {}

  lemma EndingMoves(env: Env, s: State, g: GroupId, ok: bool)
    requires g < |s.groups| && s.groups[g].stage !in {Live, Freed}
    requires WellFormed(env, s)
    ensures Chosen(env, s, EndingStep(s, g), ok) && !Raises(env, s, EndingStep(s, g))
  {}

  /** All groups are live or freed, and nobody holds a lock. */
  ghost predicate Calm(s: State) {
    && s.started && s.open == None
    && (forall f :: 0 <= f < |s.files| ==> !InHand(s.files[f].loc))
    && (forall g :: 0 <= g < |s.groups| ==> s.groups[g].stage in {Live, Freed})
    && (forall g :: 0 <= g < |s.groups| && s.groups[g].parent.Some? && s.groups[g].parent.value < |s.groups| ==>
          s.groups[s.groups[g].parent.value].stage == Live)
  }

  /** A file of a committed group, or of any type that needs no memory, moves on. */
  lemma IncrementMoves(env: Env, s: State, f: FileId, ok: bool) returns (step: Step)
    requires Calm(s) && f < |s.files| && IsPending(s.files[f], s.files[f].group)
    requires s.files[f].loc in {Out} || s.files[f].loc.Asking? ==>
      s.files[f].group < |s.groups| && (env.paranoid ==> s.groups[s.files[f].group].status != StartHashing)
    requires WellFormed(env, s) && Inv(env, s)
    ensures Chosen(env, s, step, ok) && !Raises(env, s, step)
  {
    var loc, g := s.files[f].loc, s.files[f].group;
    assert Place(env, s.files[f], env.files[f], f, s.groups);
    assert !Locked(env, s, g);
    if loc == Out {
      step := Ask(f, TrueCount(env, s, f));
    } else if loc.Asking? {
      step := Decide(f, MemoryBank.Whole);
      DecisionKeepsBooks(env, s, f);
    } else {
      step := NextPart(f, loc, ok);
      PlainChosen(env, s, step, ok);
    }
  }

  /** The next part of an increment. */
  function NextPart(f: FileId, loc: Loc, ok: bool): Step {
    if loc == Granted then Plan(f)
    else if loc == Planned then Register(f)
    else if loc == Ready then Size(f)
    else if loc == Sizing then Read(f, ok)
    else Sift(f)
  }

  /** The group at the top of the live groups above a live one. */
  lemma {:induction false} TopOf(env: Env, s: State, g: GroupId) returns (r: GroupId)
    requires Calm(s) && g < |s.groups| && s.groups[g].stage == Live
    requires WellFormed(env, s) && Inv(env, s)
    ensures r < |s.groups| && s.groups[r].stage == Live && s.groups[r].parent == None && s.groups[r].numPending > 0
    ensures env.paranoid && s.groups[g].status == Hashing ==> s.groups[r].status == Hashing
    decreases g
  {
    if s.groups[g].parent == None {
      r := g;
      assert Queue(s.files, s.groups[g], g);
    } else {
      var p := s.groups[g].parent.value;
      if env.paranoid { CommittedParent(env, s, g); }
      r := TopOf(env, s, p);
    }
  }

  /** All pending files wait for memory of their groups. */
  ghost predicate AllWait(s: State) {
    forall f :: 0 <= f < |s.files| && IsPending(s.files[f], s.files[f].group) ==>
      && (s.files[f].loc == Out || s.files[f].loc.Asking?)
      && s.files[f].group < |s.groups| && s.groups[s.files[f].group].status == StartHashing
  }

  /** Then no group is active, and the whole bank is back. */
  lemma BankIsBack(env: Env, s: State)
    requires Calm(s) && AllWait(s) && env.paranoid
    requires WellFormed(env, s) && Inv(env, s)
    ensures s.bank.available >= env.memory
  {
    forall a | 0 <= a < |s.bank.accounts| ensures !s.bank.accounts[a].isActive {
      assert AccountLinked(s.bank.accounts[a], s.groups[a]);
      if s.bank.accounts[a].isActive {
        var r := TopOf(env, s, a);
        assert Queue(s.files, s.groups[r], r);
        var f := PendingFile(s.files, r);
        assert false;
      }
    }
    MemoryBank.NoneActive(s.bank.accounts);
  }

  /** The need of a waiting group is at most that of its size group. */
  lemma NeedFits(env: Env, s: State, g: GroupId)
    requires g < |s.groups| && IsHashing(s.groups[g].status) && s.groups[g].numPending > 0 && AllFit(env, s)
    requires WellFormed(env, s) && Inv(env, s)
    ensures Need(s.groups[g]) <= env.memory
  {
    var r := SieveTheorems.Root(s.groups, g);
    RootOf(env, s, g);
    assert Queue(s.files, s.groups[g], g) && GroupShape(env, s.groups, g);
    PendingInSizeGroup(env, s, g);
    assert Fits(env, s, r);
    NeedAtMost(s.groups[g], |FilesOf(s, r)|, s.groups[r].fileSize);
  }

  lemma NeedAtMost(grp: Group, n: nat, size: nat)
    requires 0 <= grp.numPending <= n && grp.hashOffset <= grp.fileSize <= size
    ensures Need(grp) <= (n / 2 + 1) * Min(size, PARANOID_BYTES)
  {
    MulBoth(grp.numPending / 2 + 1, n / 2 + 1, Min(grp.fileSize - grp.hashOffset, PARANOID_BYTES),
            Min(size, PARANOID_BYTES));
  }

  lemma PendingInSizeGroup(env: Env, s: State, g: GroupId)
    requires g < |s.groups|
    requires Inv(env, s)
    ensures |PendingFiles(s.files, g)| <= |FilesOf(s, SieveTheorems.Root(s.groups, g))|
  {
    SubsetSizes(PendingFiles(s.files, g), FilesOf(s, SieveTheorems.Root(s.groups, g)));
  }

  lemma MulBoth(a: nat, b: nat, x: nat, y: nat)
    requires a <= b && x <= y
    ensures a * x <= b * y
  {
    MulLe(a, b, x);
    MulLe(x, y, b);
  }

  lemma SubsetSizes<T>(a: set<T>, b: set<T>)
    requires a <= b
    ensures |a| <= |b|
  {
    var rest := b - a;
    assert b == a + rest;
    assert |b| == |a| + |rest|;
  }

  lemma {:induction false} RootOf(env: Env, s: State, g: GroupId)
    requires g < |s.groups| && IsHashing(s.groups[g].status)
    requires Inv(env, s)
    ensures var r := SieveTheorems.Root(s.groups, g);
      r < |s.groups| && s.groups[r].origin == None && IsHashing(s.groups[r].status)
      && s.groups[r].fileSize == s.groups[g].fileSize
    decreases g
  {
    assert GroupShape(env, s.groups, g);
    if s.groups[g].origin.Some? {
      var p := s.groups[g].origin.value;
      assert GroupShape(env, s.groups, p);
      RootOf(env, s, p);
    }
  }

  /** When all wait, a request of a group at the top is granted. */
  lemma TopMoves(env: Env, s: State, ok: bool) returns (step: Step)
    requires Calm(s) && AllWait(s) && env.paranoid && s.counters.queue == [] && !Quiet(s) && Hopeful(env, s, ok)
    requires WellFormed(env, s) && Inv(env, s)
    ensures Chosen(env, s, step, ok)
  {
    var g :| 0 <= g < |s.groups| && s.groups[g].stage != Freed;
    var r := TopOf(env, s, g);
    assert Queue(s.files, s.groups[r], r);
    var f := PendingFile(s.files, r);
    BankIsBack(env, s);
    if ok { NeedFits(env, s, r); }
    step := WaitingMoves(env, s, r, f, ok);
  }

  lemma WaitingMoves(env: Env, s: State, r: GroupId, f: FileId, ok: bool) returns (step: Step)
    requires Calm(s) && env.paranoid && s.bank.available >= env.memory
    requires r < |s.groups| && s.groups[r].stage == Live && s.groups[r].status == StartHashing
    requires s.groups[r].parent == None && s.groups[r].numPending > 0
    requires f < |s.files| && s.files[f].group == r && (s.files[f].loc == Out || s.files[f].loc.Asking?)
    requires if ok then Need(s.groups[r]) <= env.memory else !Starving(env, s, r)
    requires WellFormed(env, s) && Inv(env, s)
    ensures Chosen(env, s, step, ok)
  {
    if Need(s.groups[r]) <= env.memory {
      if s.files[f].loc == Out {
        step := Ask(f, TrueCount(env, s, f));
      } else {
        step := Decide(f, MemoryBank.Whole);
        DecisionKeepsBooks(env, s, f);
      }
    } else {
      assert !OnlyLargeRequests(env, s, r);
      var h: FileId :| AsksFor(env, s, h, r) && s.files[h].loc.required <= env.memory;
      step := Decide(h, MemoryBank.Whole);
      DecisionKeepsBooks(env, s, h);
    }
  }

  lemma ChooseStep(env: Env, s: State, ok: bool) returns (step: Step)
    requires !Quiet(s) && Hopeful(env, s, ok)
    requires WellFormed(env, s) && Inv(env, s)
    ensures Chosen(env, s, step, ok)
  {
    if s.open.Some? {
      step := Close;
    } else if !s.started {
      step := Launch;
    } else if s.counters.queue != [] {
      step := Count;
    } else if f :| 0 <= f < |s.files| && InHand(s.files[f].loc) {
      step := InHandMoves(env, s, f, ok);
    } else {
      step := LifecycleMoves(env, s, ok);
    }
  }

  lemma LifecycleMoves(env: Env, s: State, ok: bool) returns (step: Step)
    requires !Quiet(s) && Hopeful(env, s, ok) && s.started && s.open == None && s.counters.queue == []
    requires forall f :: 0 <= f < |s.files| ==> !InHand(s.files[f].loc)
    requires WellFormed(env, s) && Inv(env, s)
    ensures Chosen(env, s, step, ok)
  {
    if g :| 0 <= g < |s.groups| && s.groups[g].stage !in {Live, Freed} {
      step := EndingStep(s, g);
      EndingMoves(env, s, g, ok);
    } else if g :| 0 <= g < |s.groups| && s.groups[g].parent.Some?
                   && s.groups[s.groups[g].parent.value].stage == Freed {
      step := Orphan(g);
      assert !Locked(env, s, g);
      PlainChosen(env, s, step, ok);
    } else {
      step := CalmMoves(env, s, ok);
    }
  }

  lemma CalmMoves(env: Env, s: State, ok: bool) returns (step: Step)
    requires !Quiet(s) && Hopeful(env, s, ok) && Calm(s) && s.counters.queue == []
    requires WellFormed(env, s) && Inv(env, s)
    ensures Chosen(env, s, step, ok)
  {
    if AllWait(s) && env.paranoid {
      step := TopMoves(env, s, ok);
    } else if AllWait(s) {
      var g :| 0 <= g < |s.groups| && s.groups[g].stage != Freed;
      var r := TopOf(env, s, g);
      assert Queue(s.files, s.groups[r], r);
      var f := PendingFile(s.files, r);
      step := IncrementMoves(env, s, f, ok);
    } else {
      var f :| 0 <= f < |s.files| && IsPending(s.files[f], s.files[f].group)
        && !((s.files[f].loc == Out || s.files[f].loc.Asking?)
             && s.files[f].group < |s.groups| && s.groups[s.files[f].group].status == StartHashing);
      assert Place(env, s.files[f], env.files[f], f, s.groups);
      step := IncrementMoves(env, s, f, ok);
    }
  }

  // ----- what stays -----

  /** Going up from a group leads to the same size group as long as groups only grow. */
  lemma {:induction false} RootStays(gs: seq<Group>, gs': seq<Group>, g: GroupId)
    requires AllExtend(gs, gs') && g < |gs|
    ensures SieveTheorems.Root(gs', g) == SieveTheorems.Root(gs, g)
    decreases g
  {
    assert Extends(gs[g], gs'[g]);
    if gs[g].origin.Some? && gs[g].origin.value < g { RootStays(gs, gs', gs[g].origin.value); }
  }

  /** The file stays in its group or goes down to a child group. */
  ghost predicate GoesDown(s: State, t: State, f: FileId)
    requires f < |s.files| && f < |t.files|
  {
    || t.files[f].group == s.files[f].group
    || (s.files[f].group < t.files[f].group < |t.groups|
        && t.groups[t.files[f].group].origin == Some(s.files[f].group))
  }

  lemma SentDown(env: Env, s: State, u: State, f: FileId, c: GroupId)
    requires f < |s.files| && Sifted(env, s, s.files[f].group, f) && HasChild(env, s, s.files[f].group, f, c)
    requires Leaves(s, u, f)
    requires f < |u.files| && u.files[f].group in {s.files[f].group, c}
    requires Core(env, s)
    ensures GoesDown(s, u, f)
  {
    ChildFits(env, s, s.files[f].group, f, c);
    assert GroupShape(env, s.groups, c) && Extends(s.groups[c], u.groups[c]);
  }

  lemma SiftGoesDown(env: Env, s: State, f: FileId, ok: bool)
    requires f < |s.files| && (s.files[f].loc == Out || s.files[f].loc.Hashed?) && (ok ==> s.files[f].loc.Hashed?)
    requires WellFormed(env, s) && Inv(env, s)
    ensures var t := SiftStep(env, s, f, ok); f < |t.files| && GoesDown(s, t, f)
  {
    if ok { HashedGoesDown(env, s, f); }
  }

  lemma HashedGoesDown(env: Env, s: State, f: FileId)
    requires f < |s.files| && s.files[f].loc.Hashed?
    requires WellFormed(env, s) && Inv(env, s)
    ensures var t := SiftStep(env, s, f, true); f < |t.files| && GoesDown(s, t, f)
  {
    var g := s.files[f].group;
    var (v, c) := ChildFor(env, s, g, f);
    HashedFits(env, s, f);
    assert v.files == s.files;
    if Asks(env, v.groups[c], f) {
      BeginPushLeaves(env, v, c, f);
      SentDown(env, v, BeginPush(env, v, c, f), f, c);
    } else {
      PushDownGoesDown(env, v, g, c, f);
    }
  }

  lemma PushDownGoesDown(env: Env, v: State, g: GroupId, c: GroupId, f: FileId)
    requires Sifted(env, v, g, f) && HasChild(env, v, g, f, c) && g < c < |v.groups| && v.files[f].loc.Hashed?
    requires Queue(v.files, v.groups[c], c)
    requires Core(env, v)
    ensures var t := PushDown(env, v, g, c, f); f < |t.files| && GoesDown(v, t, f)
  {
    PushDownLeaves(env, v, g, c, f);
    PushDownGroup(env, v, g, c, f);
    SentDown(env, v, PushDown(env, v, g, c, f), f, c);
  }

  lemma PushDownGroup(env: Env, v: State, g: GroupId, c: GroupId, f: FileId)
    requires g < |v.groups| && c < |v.groups| == |v.bank.accounts| && f < |v.files| == |env.files|
    ensures var t := PushDown(env, v, g, c, f); f < |t.files| && t.files[f].group == c
  {}

  lemma ActorGoesDown(env: Env, s: State, step: Step)
    requires Enabled(env, s, step) && Actor(s, step) < |s.files| && !step.Admit?
    requires WellFormed(env, s) && Inv(env, s)
    ensures var t := Apply(env, s, step); step.f < |t.files| && GoesDown(s, t, step.f)
  {
    var f := step.f;
    if step.Sift? {
      SiftGoesDown(env, s, f, s.files[f].loc.ok);
    } else if step.Abort? {
      SiftGoesDown(env, s, f, false);
    } else if InHand(s.files[f].loc) {
      InHandGoesDown(env, s, step);
    }
  }

  lemma InHandGoesDown(env: Env, s: State, step: Step)
    requires Enabled(env, s, step) && Actor(s, step) < |s.files| && InHand(s.files[step.f].loc)
    requires WellFormed(env, s) && Inv(env, s)
    ensures var t := Apply(env, s, step); step.f < |t.files| && GoesDown(s, t, step.f)
  {
    InHandFits(env, s, step.f);
    StepLeaves(env, s, step);
    SentDown(env, s, Apply(env, s, step), step.f, AskedFor(env, s, step.f));
  }

  /** No file joins a size group, and no size group starts to hash. */
  lemma FilesStay(env: Env, s: State, step: Step, r: GroupId)
    requires Enabled(env, s, step) && !step.Admit?
    requires WellFormed(env, s) && Inv(env, s)
    ensures FilesOf(Apply(env, s, step), r) <= FilesOf(s, r)
  {
    var t, a := Apply(env, s, step), Actor(s, step);
    StepLeaves(env, s, step);
    forall f | f in FilesOf(t, r) ensures f in FilesOf(s, r) {
      if f == a {
        ActorGoesDown(env, s, step);
        ActorCounted(env, s, step);
      } else {
        assert LetGo(s.files[f], t.files[f]);
      }
      assert Place(env, s.files[f], env.files[f], f, s.groups);
      RootStays(s.groups, t.groups, s.files[f].group);
    }
  }

  lemma ActorCounted(env: Env, s: State, step: Step)
    requires Enabled(env, s, step) && Actor(s, step) < |s.files| && !step.Admit?
    requires WellFormed(env, s)
    ensures Counted(s.files[step.f].loc)
  {}

  /** No size group starts to hash, and there is no new one. */
  ghost predicate RootsStay(s: State, t: State) {
    && |s.groups| <= |t.groups|
    && (forall r :: 0 <= r < |s.groups| && s.groups[r].origin == None ==>
          t.groups[r].origin == None && (IsHashing(t.groups[r].status) ==> IsHashing(s.groups[r].status)))
    && (forall r :: 0 <= r < |t.groups| && t.groups[r].origin == None ==> r < |s.groups| && s.groups[r].origin == None)
  }

  lemma RootsStayOn(s: State, t: State, u: State)
    requires RootsStay(s, t) && RootsStay(t, u)
    ensures RootsStay(s, u)
  {}

  lemma ChildRoots(env: Env, s: State, g: GroupId, f: FileId)
    requires env.pageSize > 0 && g < |s.groups| == |s.bank.accounts| && f < |s.files| == |env.files|
    requires ParentsBelow(s.groups) && ChildrenAbove(s.groups)
    ensures RootsStay(s, ChildFor(env, s, g, f).0)
  {}

  lemma BeginPushRoots(env: Env, v: State, c: GroupId, f: FileId)
    requires c < |v.groups| && f < |v.files| == |env.files| && v.groups[c].origin.Some?
    ensures RootsStay(v, BeginPush(env, v, c, f))
  {}

  lemma PushRoots(env: Env, v: State, c: GroupId, f: FileId)
    requires c < |v.groups| == |v.bank.accounts| && f < |v.files| == |env.files| && v.groups[c].origin.Some?
    ensures RootsStay(v, Push(env, v, c, f))
  {}

  lemma PushDownRoots(env: Env, v: State, g: GroupId, c: GroupId, f: FileId)
    requires g < |v.groups| && c < |v.groups| == |v.bank.accounts| && f < |v.files| == |env.files|
    requires v.groups[c].origin.Some?
    ensures RootsStay(v, PushDown(env, v, g, c, f))
  {
    var u := Unpend(v, g, f);
    PushRoots(env, u, c, f);
    RootsStayOn(v, u, Push(env, u, c, f));
    RootsStayOn(v, Push(env, u, c, f), PushDown(env, v, g, c, f));
  }

  lemma SiftRoots(env: Env, s: State, f: FileId, ok: bool)
    requires f < |s.files| && (s.files[f].loc == Out || s.files[f].loc.Hashed?) && (ok ==> s.files[f].loc.Hashed?)
    requires WellFormed(env, s) && Inv(env, s)
    ensures RootsStay(s, SiftStep(env, s, f, ok))
  {
    var g := s.files[f].group;
    if ok {
      var (v, c) := ChildFor(env, s, g, f);
      HashedFits(env, s, f);
      ChildFits(env, v, g, f, c);
      assert GroupShape(env, v.groups, c);
      ChildRoots(env, s, g, f);
      if Asks(env, v.groups[c], f) {
        BeginPushRoots(env, v, c, f);
      } else {
        PushDownRoots(env, v, g, c, f);
      }
      RootsStayOn(s, v, SiftStep(env, s, f, ok));
    } else {
      GiveUpRoots(env, s, g, f);
    }
  }

  lemma GiveUpRoots(env: Env, s: State, g: GroupId, f: FileId)
    requires g < |s.groups| && f < |s.files| == |env.files|
    ensures RootsStay(s, GiveUp(env, s, g, f))
  {}

  lemma SendDownRoots(s: State, g: GroupId, c: GroupId, f: FileId)
    requires g < |s.groups| && c < |s.groups| && f < |s.files|
    ensures RootsStay(s, SendDown(s, g, c, f))
  {}

  lemma CommitRoots(s: State, g: GroupId, required: int, tear: Tear)
    requires g < |s.groups| == |s.bank.accounts| && ParentsBelow(s.groups) && IsHashing(s.groups[g].status)
    ensures RootsStay(s, Commit(s, g, required, tear))
  {}

  lemma RequestRoots(env: Env, s: State, step: Step)
    requires Enabled(env, s, step) && (step.Ask? || step.Decide?)
    requires WellFormed(env, s) && Inv(env, s)
    ensures RootsStay(s, Apply(env, s, step))
  {
    if step.Decide? {
      DecideRoots(env, s, step.f, step.tear);
    } else if s.files[step.f].loc == Entering {
      SendDownRoots(s, s.files[step.f].group, AskedFor(env, s, step.f), step.f);
    }
  }

  lemma DecideRoots(env: Env, s: State, f: FileId, tear: Tear)
    requires Enabled(env, s, Decide(f, tear))
    requires WellFormed(env, s) && Inv(env, s)
    ensures RootsStay(s, DecideStep(env, s, f, tear))
  {
    var c := AskedFor(env, s, f);
    AskingGroup(env, s, f);
    CommitRoots(s, c, s.files[f].loc.required, tear);
    if s.files[f].loc.Pushing? {
      var t := if GrantedNow(env, s, f) then Commit(s, c, s.files[f].loc.required, tear) else s;
      SendDownRoots(t, s.files[f].group, c, f);
      RootsStayOn(s, t, DecideStep(env, s, f, tear));
    }
  }

  lemma IncrementRoots(env: Env, s: State, step: Step)
    requires Enabled(env, s, step) && (step.Plan? || step.Register? || step.Size? || step.Read?)
    requires WellFormed(env, s)
    ensures RootsStay(s, Apply(env, s, step))
  {}

  lemma OtherRoots(env: Env, s: State, step: Step)
    requires Enabled(env, s, step)
    requires step in {Close, Launch, Count} || step.Orphan? || step.ReturnMemory? || step.Clear?
             || (step.Dispose? && s.groups[step.g].status == Dormant)
    requires WellFormed(env, s)
    ensures RootsStay(s, Apply(env, s, step))
  {
    if step !in {Close, Launch, Count} { OneGroupRoots(s, Apply(env, s, step), step.g); }
  }

  lemma OneGroupRoots(s: State, t: State, g: GroupId)
    requires g < |s.groups| && |t.groups| == |s.groups| && t.groups == s.groups[g := t.groups[g]]
    requires t.groups[g].origin == s.groups[g].origin
    requires IsHashing(t.groups[g].status) ==> IsHashing(s.groups[g].status)
    ensures RootsStay(s, t)
  {}

  lemma StepRoots(env: Env, s: State, step: Step)
    requires Enabled(env, s, step) && !step.Admit?
    requires WellFormed(env, s) && Inv(env, s)
    ensures RootsStay(s, Apply(env, s, step))
  {
    if step.Sift? {
      SiftRoots(env, s, step.f, s.files[step.f].loc.ok);
    } else if step.Abort? {
      SiftRoots(env, s, step.f, false);
    } else if step.Ask? || step.Decide? {
      RequestRoots(env, s, step);
    } else if step.Report? || (step.Dispose? && s.groups[step.g].status != Dormant) {
      assert step.Dispose? ==> GroupShape(env, s.groups, step.g);
      FreeBank(env, s, step.g);
    } else if step.Plan? || step.Register? || step.Size? || step.Read? {
      IncrementRoots(env, s, step);
    } else {
      OtherRoots(env, s, step);
    }
  }

  lemma AllFitStays(env: Env, s: State, step: Step)
    requires Enabled(env, s, step) && !step.Admit? && AllFit(env, s)
    requires WellFormed(env, s) && Inv(env, s)
    ensures AllFit(env, Apply(env, s, step))
  {
    var t := Apply(env, s, step);
    StepLeaves(env, s, step);
    StepRoots(env, s, step);
    forall r | 0 <= r < |t.groups| && t.groups[r].origin == None && IsHashing(t.groups[r].status)
      ensures Fits(env, t, r)
    {
      FilesStay(env, s, step, r);
      FewerFit(env, s, t, r);
    }
  }

  lemma FewerFit(env: Env, s: State, t: State, r: GroupId)
    requires r < |s.groups| && r < |t.groups| && Extends(s.groups[r], t.groups[r]) && FilesOf(t, r) <= FilesOf(s, r)
    requires Fits(env, s, r)
    ensures Fits(env, t, r)
  {
    SubsetSizes(FilesOf(t, r), FilesOf(s, r));
    MulLe(|FilesOf(t, r)| / 2 + 1, |FilesOf(s, r)| / 2 + 1, Min(s.groups[r].fileSize, PARANOID_BYTES));
  }

  lemma LandedStays(env: Env, s: State, step: Step)
    requires WellFormed(env, s) && Chosen(env, s, step, false) && Landed(s)
    requires Inv(env, s)
    ensures Landed(Apply(env, s, step))
  {
    var t, a := Apply(env, s, step), Actor(s, step);
    StepLeaves(env, s, step);
    forall f | 0 <= f < |t.files| ensures t.files[f].loc != Hashed(true) && !InHand(t.files[f].loc) {
      if f == a { ActorLands(env, s, step); } else { assert LetGo(s.files[f], t.files[f]); }
    }
  }

  lemma ActorLands(env: Env, s: State, step: Step)
    requires WellFormed(env, s) && Chosen(env, s, step, false) && Landed(s) && Actor(s, step) < |s.files|
    ensures var t := Apply(env, s, step);
      step.f < |t.files| && t.files[step.f].loc != Hashed(true) && !InHand(t.files[step.f].loc)
  {}

  /** Such a step starts no group, and leaves those that wait as they are, but for one that is granted its memory. */
  ghost predicate WaitedBefore(s: State, t: State, g: GroupId)
    requires g < |t.groups|
  {
    t.groups[g].stage == Live && t.groups[g].status == StartHashing ==>
      && g < |s.groups| && s.groups[g].stage == Live && s.groups[g].status == StartHashing
      && s.groups[g].numPending == t.groups[g].numPending
      && s.groups[g].fileSize == t.groups[g].fileSize && s.groups[g].hashOffset == t.groups[g].hashOffset
  }

  lemma GroupWaited(env: Env, s: State, step: Step, g: GroupId)
    requires WellFormed(env, s) && Enabled(env, s, step) && Actor(s, step) >= |s.files|
    requires Inv(env, s)
    ensures g < |Apply(env, s, step).groups| ==> WaitedBefore(s, Apply(env, s, step), g)
  {
    if step.Report? || (step.Dispose? && s.groups[step.g].status != Dormant) {
      assert step.Dispose? ==> GroupShape(env, s.groups, step.g);
      FreeBank(env, s, step.g);
    } else {
      StageWaited(env, s, step, g);
    }
  }

  lemma StageWaited(env: Env, s: State, step: Step, g: GroupId)
    requires WellFormed(env, s) && Enabled(env, s, step)
    requires step in {Close, Launch, Count} || step.Orphan? || step.ReturnMemory? || step.Clear?
             || (step.Dispose? && s.groups[step.g].status == Dormant)
    ensures g < |Apply(env, s, step).groups| ==> WaitedBefore(s, Apply(env, s, step), g)
  {}

  lemma FileWaited(env: Env, s: State, step: Step, g: GroupId)
    requires WellFormed(env, s) && Chosen(env, s, step, false) && Landed(s) && Actor(s, step) < |s.files|
    requires env.paranoid
    requires Inv(env, s)
    ensures g < |Apply(env, s, step).groups| ==> WaitedBefore(s, Apply(env, s, step), g)
  {
    if step.Sift? || step.Abort? { SiftWaited(env, s, step, g); }
  }

  lemma SiftWaited(env: Env, s: State, step: Step, g: GroupId)
    requires WellFormed(env, s) && Chosen(env, s, step, false) && Landed(s) && (step.Sift? || step.Abort?)
    requires env.paranoid
    requires Inv(env, s)
    ensures g < |Apply(env, s, step).groups| ==> WaitedBefore(s, Apply(env, s, step), g)
  {
    if step.Sift? && s.files[step.f].group < |s.groups| && s.groups[s.files[step.f].group].status == StartHashing {
      ReadIsCommitted(env, s, step.f, s.files[step.f].group);
    }
  }

  /** So a group that starves after such a step starved before. */
  lemma StarvedBefore(env: Env, s: State, step: Step, g: GroupId)
    requires WellFormed(env, s) && Chosen(env, s, step, false) && Landed(s) && s.started
    requires Starving(env, Apply(env, s, step), g)
    requires Inv(env, s)
    ensures Starving(env, s, g)
  {
    var a := Actor(s, step);
    StepLeaves(env, s, step);
    if a < |s.files| { FileWaited(env, s, step, g); } else { GroupWaited(env, s, step, g); }
    forall h: FileId | AsksFor(env, s, h, g) ensures s.files[h].loc.required > env.memory {
      if h != a { StillAsks(env, s, step, h, g); } else { DecidedLarge(env, s, step, g); }
    }
  }

  lemma StillAsks(env: Env, s: State, step: Step, h: FileId, g: GroupId)
    requires WellFormed(env, s) && Chosen(env, s, step, false) && Landed(s) && Inv(env, s)
    requires Starving(env, Apply(env, s, step), g) && AsksFor(env, s, h, g) && h != Actor(s, step)
    ensures s.files[h].loc.required > env.memory
  {
    var t := Apply(env, s, step);
    StepLeaves(env, s, step);
    assert LetGo(s.files[h], t.files[h]);
    assert AsksFor(env, t, h, g);
  }

  /** The only step for a file that asks is the decision; granted, the group would not wait any more. */
  lemma DecidedLarge(env: Env, s: State, step: Step, g: GroupId)
    requires WellFormed(env, s) && Chosen(env, s, step, false) && Landed(s) && Actor(s, step) < |s.files|
    requires AsksFor(env, s, step.f, g) && g < |Apply(env, s, step).groups|
    requires WaitedBefore(s, Apply(env, s, step), g)
    requires Apply(env, s, step).groups[g].stage == Live && Apply(env, s, step).groups[g].status == StartHashing
    ensures s.files[step.f].loc.required > env.memory
  {
    assert step.Decide? && s.files[step.f].loc.Asking?;
  }

  lemma HopefulStays(env: Env, s: State, step: Step, ok: bool)
    requires WellFormed(env, s) && Chosen(env, s, step, ok) && Hopeful(env, s, ok)
    requires !ok ==> s.started
    requires Inv(env, s)
    ensures Hopeful(env, Apply(env, s, step), ok)
  {
    if ok {
      AllFitStays(env, s, step);
    } else {
      LandedStays(env, s, step);
      forall g: GroupId ensures !Starving(env, Apply(env, s, step), g) {
        if Starving(env, Apply(env, s, step), g) { StarvedBefore(env, s, step, g); }
      }
    }
  }

  // ----- the end -----

  lemma ChosenIsOrderly(env: Env, s: State, step: Step, ok: bool)
    requires WellFormed(env, s) && Chosen(env, s, step, ok)
    requires Inv(env, s)
    ensures Orderly(env, s, step)
  {
    ExactSees(env, s, step);
  }

  /** A request that is raised is granted next. */
  lemma RaisedIsGranted(env: Env, s: State, step: Step, ok: bool)
    requires WellFormed(env, s) && Chosen(env, s, step, ok) && Raises(env, s, step)
    requires Inv(env, s)
    ensures var t, next := Apply(env, s, step), Decide(step.f, MemoryBank.Whole);
      && WellFormed(env, t) && Inv(env, t) && t.started && Chosen(env, t, next, ok) && !Raises(env, t, next)
      && WellFormed(env, Apply(env, t, next)) && Inv(env, Apply(env, t, next))
      && LessLeft(env, Apply(env, t, next), s)
  {
    var t, f := Apply(env, s, step), step.f;
    StepInv(env, s, step);
    DecisionKeepsBooks(env, t, f);
    assert GrantedNow(env, t, f);
    StepInv(env, t, Decide(f, MemoryBank.Whole));
    GrantedWork(env, s, t, f);
  }

  /** One step, or two for a request, and there is less left to do. */
  lemma GoesOn(env: Env, s: State, ok: bool) returns (steps: seq<Step>, t: State)
    requires WellFormed(env, s) && Inv(env, s) && Hopeful(env, s, ok) && !Quiet(s)
    requires !ok ==> s.started
    ensures Leads(env, s, steps, t) && WellFormed(env, t) && Inv(env, t) && Hopeful(env, t, ok)
    ensures (s.started ==> t.started) && |t.files| <= |env.files| && LessLeft(env, t, s)
    ensures AllReads(steps, ok)
  {
    var step := ChooseStep(env, s, ok);
    OneStep(env, s, step, ok);
    t := Apply(env, s, step);
    if Raises(env, s, step) {
      var decide := Decide(step.f, MemoryBank.Whole);
      RaisedIsGranted(env, s, step, ok);
      OneStep(env, t, decide, ok);
      TwoLead(env, s, step, decide);
      steps := [step, decide];
      t := Apply(env, t, decide);
    } else {
      StepDescends(env, s, step);
      OneLeads(env, s, step);
      steps := [step];
    }
  }

  lemma OneLeads(env: Env, s: State, step: Step)
    requires WellFormed(env, s) && Orderly(env, s, step)
    ensures Leads(env, s, [step], Apply(env, s, step))
  {
    assert [step][1..] == [];
  }

  lemma TwoLead(env: Env, s: State, a: Step, b: Step)
    requires WellFormed(env, s) && Orderly(env, s, a)
    requires WellFormed(env, Apply(env, s, a)) && Orderly(env, Apply(env, s, a), b)
    ensures Leads(env, s, [a, b], Apply(env, Apply(env, s, a), b))
  {
    OneLeads(env, Apply(env, s, a), b);
    assert [a, b][1..] == [b];
  }

  lemma OneStep(env: Env, s: State, step: Step, ok: bool)
    requires WellFormed(env, s) && Inv(env, s) && Chosen(env, s, step, ok) && Hopeful(env, s, ok)
    requires !ok ==> s.started
    ensures var t := Apply(env, s, step);
      && Orderly(env, s, step) && WellFormed(env, t) && Inv(env, t) && Hopeful(env, t, ok)
      && (s.started ==> t.started)
  {
    ChosenIsOrderly(env, s, step, ok);
    HopefulStays(env, s, step, ok);
    StepInv(env, s, step);
    StepLeaves(env, s, step);
  }

  /** With `ok`, no read fails; otherwise all do. */
  ghost predicate AllReads(steps: seq<Step>, ok: bool) {
    forall i :: 0 <= i < |steps| && steps[i].Read? ==> steps[i].ok == ok
  }

  lemma {:induction false} LeadsOn(env: Env, s: State, a: seq<Step>, t: State, b: seq<Step>, u: State)
    requires Leads(env, s, a, t) && Leads(env, t, b, u)
    ensures Leads(env, s, a + b, u)
    decreases |a|
  {
    if a == [] {
      assert a + b == b;
    } else {
      LeadsOn(env, Apply(env, s, a[0]), a[1..], t, b, u);
      ConcatTail(a, b);
    }
  }

  /** The sieve can be driven to its end by orderly steps; with `ok`, by steps that do not fail to read. */
  lemma {:induction false} Ends(env: Env, s: State, ok: bool) returns (steps: seq<Step>, t: State)
    requires WellFormed(env, s) && Inv(env, s) && Hopeful(env, s, ok)
    requires !ok ==> s.started
    ensures Leads(env, s, steps, t) && Quiet(t) && AllReads(steps, ok)
    decreases FilesWork(env.files, s.files), PhaseWork(s), |s.counters.queue|
  {
    if Quiet(s) {
      steps, t := [], s;
    } else {
      var first, next := GoesOn(env, s, ok);
      var more;
      more, t := Ends(env, next, ok);
      LeadsOn(env, s, first, next, more, t);
      steps := first + more;
    }
  }

  lemma {:induction false} DoomedLeads(env: Env, s: State, steps: seq<Step>, t: State, g: GroupId)
    requires Leads(env, s, steps, t) && Doomed(env, s, g)
    requires Inv(env, s)
    ensures Doomed(env, t, g)
    decreases |steps|
  {
    if steps != [] {
      StepInv(env, s, steps[0]);
      StarvesOn(env, s, steps[0], g);
      DoomedLeads(env, Apply(env, s, steps[0]), steps[1..], t, g);
    }
  }

  lemma StarvingCannotEnd(env: Env, s: State, g: GroupId)
    requires Starving(env, s, g) && s.bank.phantoms > 0 && s.bank.leaked == 0
    requires Inv(env, s)
    ensures !CanEnd(env, s)
  {
    if CanEnd(env, s) {
      var steps, t :| Leads(env, s, steps, t) && Quiet(t);
      DoomedLeads(env, s, steps, t, g);
      DoomedIsNotQuiet(env, t, g);
    }
  }

  /**
   * After a second charge, and unless memory leaked: between increments the sieve can
   * still come to its end if and only if no group starves.
   */
  lemma EndsUnlessStarving(env: Env, s: State)
    requires env.paranoid && s.started && Landed(s) && s.bank.phantoms > 0 && s.bank.leaked == 0
    requires WellFormed(env, s) && Sane(env) && Reachable(env, s)
    ensures CanEnd(env, s) <==> forall g: GroupId {:trigger Starving(env, s, g)} :: !Starving(env, s, g)
  {
    ReachableInv(env, s);
    if NoneStarves(env, s) {
      var steps, t := Ends(env, s, false);
    } else {
      var g: GroupId :| Starving(env, s, g);
      StarvingCannotEnd(env, s, g);
    }
  }

  /** Size groups that do not fit are still waiting for their memory, and ask for all they need. */
  ghost predicate UnfitWait(env: Env, s: State) {
    forall r: GroupId {:trigger Fits(env, s, r)} ::
      r < |s.groups| && s.groups[r].origin == None && IsHashing(s.groups[r].status) && !Fits(env, s, r) ==>
        s.groups[r].stage == Live && s.groups[r].status == StartHashing && OnlyLargeRequests(env, s, r)
  }

  /** All files of a size group that waits are pending in it. */
  lemma AllPending(env: Env, s: State, r: GroupId)
    requires r < |s.groups| && s.groups[r].status == StartHashing && env.paranoid
    requires Inv(env, s)
    ensures FilesOf(s, r) <= PendingFiles(s.files, r)
  {
    forall f | f in FilesOf(s, r) ensures IsPending(s.files[f], r) {
      var g := s.files[f].group;
      assert Place(env, s.files[f], env.files[f], f, s.groups);
      assert GroupShape(env, s.groups, r);
      SieveTheorems.RootAbove(s.groups, g);
      if g != r { SieveTheorems.HasChildBelow(env, s.groups, r, g); }
    }
  }

  lemma UnfitStarves(env: Env, s: State, r: GroupId)
    requires r < |s.groups| && s.groups[r].origin == None && IsHashing(s.groups[r].status) && !Fits(env, s, r)
    requires env.paranoid && s.started && UnfitWait(env, s)
    requires Inv(env, s)
    ensures Starving(env, s, r)
  {
    AllPending(env, s, r);
    SubsetSizes(FilesOf(s, r), PendingFiles(s.files, r));
    assert Queue(s.files, s.groups[r], r) && GroupShape(env, s.groups, r);
    var f :| f in FilesOf(s, r);
    assert f in PendingFiles(s.files, r);
    MulLe(|FilesOf(s, r)| / 2 + 1, s.groups[r].numPending / 2 + 1, Min(s.groups[r].fileSize, PARANOID_BYTES));
  }

  /**
   * The same as a condition on sizes, numbers of files and the bank: after a second
   * charge, while those size groups that do not fit the bank have not got any memory,
   * the sieve can still come to its end if and only if all size groups fit.
   */
  lemma EndsIfAndOnlyIfAllFit(env: Env, s: State)
    requires env.paranoid && s.started && s.bank.phantoms > 0 && s.bank.leaked == 0 && UnfitWait(env, s)
    requires WellFormed(env, s) && Sane(env) && Reachable(env, s)
    ensures CanEnd(env, s) <==> AllFit(env, s)
  {
    ReachableInv(env, s);
    if AllFit(env, s) {
      var steps, t := Ends(env, s, true);
    } else {
      var r: GroupId :| r < |s.groups| && s.groups[r].origin == None && IsHashing(s.groups[r].status)
        && !Fits(env, s, r);
      UnfitStarves(env, s, r);
      StarvingCannotEnd(env, s, r);
    }
  }

  /** The files of one size. */
  ghost function SameSize(env: Env, size: nat): set<FileId> {
    set f | 0 <= f < |env.files| && |env.files[f].content| == size
  }

  /** What can be checked before the start: all that files of one size can be asked for at once is in the bank. */
  ghost predicate SizesFit(env: Env) {
    forall f: FileId :: f < |env.files| ==>
      var size := |env.files[f].content|;
      (|SameSize(env, size)| / 2 + 1) * Min(size, PARANOID_BYTES) <= env.memory
  }

  lemma {:induction false} RootSize(env: Env, s: State, g: GroupId)
    requires g < |s.groups|
    requires Inv(env, s)
    ensures var r := SieveTheorems.Root(s.groups, g);
      r < |s.groups| && s.groups[r].fileSize == s.groups[g].fileSize
    decreases g
  {
    assert GroupShape(env, s.groups, g);
    if s.groups[g].origin.Some? { RootSize(env, s, s.groups[g].origin.value); }
  }

  lemma SizeGroupFits(env: Env, s: State, r: GroupId)
    requires r < |s.groups| && SizesFit(env)
    requires Inv(env, s)
    ensures Fits(env, s, r)
  {
    if FilesOf(s, r) != {} {
      var size := s.groups[r].fileSize;
      forall f | f in FilesOf(s, r) ensures f in SameSize(env, size) {
        assert Place(env, s.files[f], env.files[f], f, s.groups);
        RootSize(env, s, s.files[f].group);
      }
      var f :| f in FilesOf(s, r);
      assert f in SameSize(env, size);
      SubsetSizes(FilesOf(s, r), SameSize(env, size));
      MulLe(|FilesOf(s, r)| / 2 + 1, |SameSize(env, size)| / 2 + 1, Min(size, PARANOID_BYTES));
    }
  }

  /** If the sizes fit, every reachable state can be brought to the end, by steps that do not fail to read. */
  lemma SizesFitEnds(env: Env, s: State) returns (steps: seq<Step>, t: State)
    requires SizesFit(env)
    requires Sane(env) && Reachable(env, s)
    ensures Leads(env, s, steps, t) && Quiet(t) && AllReads(steps, true)
  {
    ReachableInv(env, s);
    forall r | 0 <= r < |s.groups| && s.groups[r].origin == None && IsHashing(s.groups[r].status)
      ensures Fits(env, s, r)
    {
      SizeGroupFits(env, s, r);
    }
    steps, t := Ends(env, s, true);
  }
}
