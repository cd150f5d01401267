/**
 * The sieve does not get stuck as long as no group is charged twice, and at the
 * end nothing is left over.
 */
module SieveProgress {
  import opened Common
  import opened SieveState
  import opened SieveInvariant
  import opened SievePush
  import opened SieveSteps
  import opened SieveRun
  import opened SieveMemory
  import MemoryBank

  /** Everything is over. */
  ghost predicate Quiet(s: State) {
    && s.started
    && s.counters.queue == []
    && forall g :: 0 <= g < |s.groups| ==> s.groups[g].stage == Freed
  }

  /** A request for memory is under way, or follows at once. */
  predicate Requests(loc: Loc) { loc.Asking? || InHand(loc) }

  /** The step raises a request for memory, and nothing else. */
  predicate Raises(env: Env, s: State, step: Step)
    requires WellFormed(env, s) && Enabled(env, s, step)
  {
    step.Ask? && s.files[step.f].loc == Out && env.paranoid && !IsCommitted(s.groups[s.files[step.f].group].status)
  }

  /** A step to rely on: not an abort, no second charge, and the walk up the parents finds the true count. */
  predicate Fair(env: Env, s: State, step: Step)
    requires WellFormed(env, s)
  {
    Enabled(env, s, step) && !step.Abort? && !ChargesTwice(env, s, step) && Exact(env, s, step)
  }

  /** The step is fair, and if it raises a request then that would be granted. */
  ghost predicate Helps(env: Env, s: State, step: Step)
    requires WellFormed(env, s)
  {
    && Fair(env, s, step)
    && (Raises(env, s, step) ==>
          var g := s.files[step.f].group; Granting(s, g, Required(s.groups[g], step.count), 0))
  }

  ghost predicate NoRequests(s: State) {
    forall f :: 0 <= f < |s.files| ==> !Requests(s.files[f].loc)
  }

  // ----- no deadlock -----

  lemma PendingFile(files: seq<File>, g: GroupId) returns (f: FileId)
    requires |PendingFiles(files, g)| != 0
    ensures f < |files| && IsPending(files[f], g)
  {
    f :| f in PendingFiles(files, g);
  }

  /** The next step on a pending file. */
  function FileStep(env: Env, s: State, f: FileId): Step
    requires WellFormed(env, s) && f < |s.files| && s.files[f].loc != Fresh
  {
    var loc := s.files[f].loc;
    if loc == Granted then Plan(f)
    else if loc == Planned then Register(f)
    else if loc == Ready then Size(f)
    else if loc == Sizing then Read(f, true)
    else if loc.Hashed? then Sift(f)
    else Ask(f, TrueCount(env, s, f))
  }

  lemma FileMoves(env: Env, s: State, f: FileId)
    requires WellFormed(env, s) && f < |s.files| && (Waits(s.files[f].loc) || s.files[f].loc.Hashed?)
    requires NoRequests(s) && s.started
    ensures Fair(env, s, FileStep(env, s, f))
  {
    assert !Locked(env, s, s.files[f].group);
  }

  /** A live group that got its memory always leads to a step, here or above. */
  lemma {:induction false} CommittedMoves(env: Env, s: State, g: GroupId) returns (step: Step)
    requires s.started && g < |s.groups|
    requires s.groups[g].stage == Live && s.groups[g].status == Hashing
    requires WellFormed(env, s) && Inv(env, s) && NoRequests(s)
    ensures Fair(env, s, step) && !Raises(env, s, step)
    decreases g
  {
    assert GroupShape(env, s.groups, g) && Queue(s.files, s.groups[g], g);
    if s.groups[g].numPending != 0 {
      var f := PendingFile(s.files, g);
      FileMoves(env, s, f);
      step := FileStep(env, s, f);
    } else {
      var p := s.groups[g].parent.value;
      step := ParentMoves(env, s, g, p);
      if s.groups[p].stage == Live {
        HashingAbove(env, s, g, p);
        step := CommittedMoves(env, s, p);
      }
    }
  }

  lemma HashingAbove(env: Env, s: State, g: GroupId, p: GroupId)
    requires g < |s.groups| && p < g && s.groups[g].parent == Some(p)
    requires s.groups[g].status == Hashing
    requires Inv(env, s)
    ensures s.groups[p].status == Hashing
  {
    assert GroupShape(env, s.groups, g) && GroupShape(env, s.groups, p)
      && AccountLinked(s.bank.accounts[g], s.groups[g]);
  }

  lemma ParentMoves(env: Env, s: State, g: GroupId, p: GroupId) returns (step: Step)
    requires s.started && g < |s.groups| && p < g && s.groups[g].parent == Some(p)
    requires WellFormed(env, s) && Inv(env, s) && NoRequests(s)
    ensures s.groups[p].stage != Live ==> Fair(env, s, step) && !Raises(env, s, step)
  {
    assert !Locked(env, s, g);
    match s.groups[p].stage {
      case Live => step := Count;
      case Finalising => step := ReturnMemory(p);
      case Returned => step := Clear(p);
      case Cleared => step := Dispose(p);
      case Reported => step := Report(p);
      case Freed => step := Orphan(g);
    }
  }

  /** While some group holds memory, something can move. */
  lemma ActiveMoves(env: Env, s: State) returns (step: Step)
    requires s.started && s.bank.activeGroups > s.bank.phantoms
    requires WellFormed(env, s) && Inv(env, s) && NoRequests(s)
    ensures Fair(env, s, step) && !Raises(env, s, step)
  {
    MemoryBank.SomeActive(s.bank.accounts);
    var a :| 0 <= a < |s.bank.accounts| && s.bank.accounts[a].isActive;
    assert AccountLinked(s.bank.accounts[a], s.groups[a]);
    if s.groups[a].stage == Finalising {
      step := ReturnMemory(a);
    } else {
      step := CommittedMoves(env, s, a);
    }
  }

  lemma {:induction false} LiveMoves(env: Env, s: State, g: GroupId) returns (step: Step)
    requires s.started && g < |s.groups| && s.groups[g].stage == Live && s.bank.phantoms == 0
    requires WellFormed(env, s) && Inv(env, s) && NoRequests(s)
    ensures Helps(env, s, step)
    decreases g
  {
    assert GroupShape(env, s.groups, g) && Queue(s.files, s.groups[g], g);
    if s.groups[g].numPending != 0 {
      var f := PendingFile(s.files, g);
      FileMoves(env, s, f);
      step := FileStep(env, s, f);
      if !Helps(env, s, step) {
        step := ActiveMoves(env, s);
      }
    } else {
      var p := s.groups[g].parent.value;
      step := ParentMoves(env, s, g, p);
      if s.groups[p].stage == Live { step := LiveMoves(env, s, p); }
    }
  }

  /**
   * Deadlock freedom: while no group was charged twice and no request is under way,
   * some step helps, unless all is over.
   */
  lemma Progress(env: Env, s: State) returns (step: Step)
    requires !Quiet(s) && s.bank.phantoms == 0
    requires WellFormed(env, s) && Inv(env, s) && NoRequests(s)
    ensures Helps(env, s, step)
  {
    if s.open.Some? {
      step := Close;
    } else if !s.started {
      step := Launch;
    } else if s.counters.queue != [] {
      step := Count;
    } else {
      var g :| 0 <= g < |s.groups| && s.groups[g].stage != Freed;
      if s.groups[g].stage == Live { step := LiveMoves(env, s, g); } else { step := EndedMoves(env, s, g); }
    }
  }

  lemma EndedMoves(env: Env, s: State, g: GroupId) returns (step: Step)
    requires g < |s.groups| && s.groups[g].stage !in {Live, Freed}
    requires WellFormed(env, s)
    ensures Helps(env, s, step)
  {
    match s.groups[g].stage {
      case Finalising => step := ReturnMemory(g);
      case Returned => step := Clear(g);
      case Cleared => step := Dispose(g);
      case Reported => step := Report(g);
    }
  }

  // ----- what is left at the end -----

  lemma {:induction false} NothingCounted(infos: seq<Info>, files: seq<File>)
    requires |files| <= |infos| && forall f :: 0 <= f < |files| ==> !Counted(files[f].loc)
    ensures FilesLeft(files) == 0 && BytesLeft(infos, files) == 0
  {
    if files != [] { NothingCounted(infos, files[..|files|-1]); }
  }

  /**
   * At the end every file that entered was discarded once, alone after a failure
   * or with its result group; both progress counters are 0; no group is active but
   * the phantoms, and the bank holds what it started with, plus what leaked.
   */
  lemma QuietEnd(env: Env, s: State)
    requires Quiet(s)
    requires Sane(env) && Reachable(env, s)
    ensures forall f :: 0 <= f < |s.files| ==> s.files[f].loc in {Fresh, Ignored, Done}
    ensures s.counters.files == 0 && s.counters.bytes == 0
    ensures s.bank.activeGroups == s.bank.phantoms && s.bank.available == env.memory + s.bank.leaked
  {
    ReachableInv(env, s);
    forall f | 0 <= f < |s.files| ensures s.files[f].loc in {Fresh, Ignored, Done} {
      assert Place(env, s.files[f], env.files[f], f, s.groups);
      if s.files[f].loc != Fresh { assert GroupShape(env, s.groups, s.files[f].group); }
    }
    NothingCounted(env.files, s.files);
    forall g | 0 <= g < |s.bank.accounts| ensures !s.bank.accounts[g].isActive {
      assert AccountLinked(s.bank.accounts[g], s.groups[g]);
    }
    MemoryBank.NoneActive(s.bank.accounts);
  }
}
