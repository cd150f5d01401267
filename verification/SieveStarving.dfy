/**
 * What a second charge leads to: the count of active groups stays too high for
 * good, and a group that needs more than the bank can ever hold is refused for ever.
 */
module SieveStarving {
  import opened Common
  import opened SieveState
  import opened SieveInvariant
  import opened SievePush
  import opened SieveSteps
  import opened SieveRun
  import opened SieveFrame
  import opened SieveMemory
  import opened SieveProgress
  import MemoryBank

  // ----- what a group needs -----

  /** What a group asks for if no file above it is pending; with more files it asks for more. */
  function Need(grp: Group): int {
    (Max(grp.numPending, 0) / 2 + 1) * Min(grp.fileSize - grp.hashOffset, PARANOID_BYTES)
  }

  lemma RequiredGrows(grp: Group, a: nat, b: nat)
    requires a <= b && grp.hashOffset <= grp.fileSize
    ensures Required(grp, a) <= Required(grp, b)
  {
    MulLe(a / 2 + 1, b / 2 + 1, Min(grp.fileSize - grp.hashOffset, PARANOID_BYTES));
  }

  /** The file asks for memory for a group. */
  predicate AsksFor(env: Env, s: State, f: FileId, g: GroupId) {
    && f < |s.files| && f < |env.files| && (s.files[f].loc.Asking? || s.files[f].loc.Pushing?)
    && AskedFor(env, s, f) == g
  }

  /** All requests for a group that are under way are for more than the bank started with. */
  ghost predicate OnlyLargeRequests(env: Env, s: State, g: GroupId) {
    forall f: FileId {:trigger AsksFor(env, s, f, g)} :: AsksFor(env, s, f, g) ==> s.files[f].loc.required > env.memory
  }

  /** A group that has not got its memory, and needs more than the bank started with. */
  ghost predicate Starving(env: Env, s: State, g: GroupId) {
    && env.paranoid && s.started && g < |s.groups|
    && s.groups[g].stage == Live && s.groups[g].status == StartHashing && s.groups[g].numPending > 0
    && Need(s.groups[g]) > env.memory
    && OnlyLargeRequests(env, s, g)
  }

  /** No walk finds fewer files than are pending in the group that asks; no lock protects what it finds above. */
  predicate Sees(env: Env, s: State, step: Step)
    requires WellFormed(env, s) && Enabled(env, s, step)
  {
    step.Ask? ==>
      var g := AskedFor(env, s, step.f);
      g < |s.groups| ==> step.count >= s.groups[g].numPending
  }

  /** The bank holds no more than it started with as long as nothing leaked. */
  lemma {:induction false} AllocatedAtLeast(accounts: seq<MemoryBank.Account>, p: nat)
    requires p < |accounts| && accounts[p].isActive
    requires forall g :: 0 <= g < |accounts| && accounts[g].isActive ==> accounts[g].allocation >= 0
    ensures MemoryBank.Allocated(accounts) >= accounts[p].allocation && MemoryBank.ActiveCount(accounts) > 0
  {
    var n := |accounts| - 1;
    if p < n {
      AllocatedAtLeast(accounts[..n], p);
    } else {
      AllocatedNonNegative(accounts[..n]);
    }
  }

  lemma {:induction false} AllocatedNonNegative(accounts: seq<MemoryBank.Account>)
    requires forall g :: 0 <= g < |accounts| && accounts[g].isActive ==> accounts[g].allocation >= 0
    ensures MemoryBank.Allocated(accounts) >= 0
  {
    if accounts != [] { AllocatedNonNegative(accounts[..|accounts|-1]); }
  }

  /** What a group can get from the bank and its parent, as long as nothing leaked. */
  lemma BankBounded(env: Env, s: State, parent: Option<GroupId>)
    requires Banked(env, s) && s.bank.leaked == 0 && (parent.Some? ==> parent.value < |s.groups|)
    ensures s.bank.activeGroups >= s.bank.phantoms
    ensures parent.Some? && s.bank.accounts[parent.value].isActive ==> s.bank.activeGroups > s.bank.phantoms
    ensures (parent.Some? && !s.bank.accounts[parent.value].isActive ==>
              s.bank.accounts[parent.value].allocation <= 0) ==>
      s.bank.available + MemoryBank.Inherited(s.bank, parent) <= env.memory
  {
    forall g | 0 <= g < |s.bank.accounts| && s.bank.accounts[g].isActive ensures s.bank.accounts[g].allocation >= 0 {
      assert AccountLinked(s.bank.accounts[g], s.groups[g]);
    }
    AllocatedNonNegative(s.bank.accounts);
    if parent.Some? && s.bank.accounts[parent.value].isActive { AllocatedAtLeast(s.bank.accounts, parent.value); }
  }

  /** A request for more than the bank started with is refused once there is a phantom, unless it leaks. */
  lemma Refused(env: Env, s: State, f: FileId, tear: Tear)
    requires Enabled(env, s, Decide(f, tear)) && s.files[f].loc.required > env.memory
    requires s.bank.phantoms > 0 && s.bank.leaked == 0 && !InWindow(env, s, Decide(f, tear))
    requires WellFormed(env, s) && Inv(env, s)
    ensures !GrantedNow(env, s, f)
  {
    AskingGroup(env, s, f);
    var g := AskedFor(env, s, f);
    var parent := s.groups[g].parent;
    BankBounded(env, s, parent);
    if s.files[f].loc.Pushing? {
      InHandFits(env, s, f);
      ChildFits(env, s, s.files[f].group, f, g);
      assert AccountLinked(s.bank.accounts[parent.value], s.groups[parent.value]);
    }
  }

  // ----- what the steps do to a starving group -----

  /** The group still waits, and needs no less. */
  ghost predicate Waiting(s: State, t: State, g: GroupId)
    requires g < |s.groups|
  {
    && g < |t.groups| && t.groups[g].stage == Live && t.groups[g].status == StartHashing
    && t.groups[g].fileSize == s.groups[g].fileSize && t.groups[g].hashOffset == s.groups[g].hashOffset
    && t.groups[g].numPending >= s.groups[g].numPending
  }

  /** Files that are not the step's concern go on asking for the same groups. */
  lemma AsksForTheSame(env: Env, s: State, t: State, f: FileId, h: FileId, g: GroupId)
    requires Leaves(s, t, f) && h != f && AsksFor(env, t, h, g)
    requires Inv(env, s)
    ensures AsksFor(env, s, h, g) && s.files[h] == t.files[h]
  {
    assert LetGo(s.files[h], t.files[h]);
    assert Place(env, s.files[h], env.files[h], h, s.groups) && OnCourse(env, s.groups, s.files[h], h);
    assert Extends(s.groups[s.files[h].group], t.groups[s.files[h].group]);
  }

  lemma StillStarving(env: Env, s: State, t: State, f: FileId, g: GroupId)
    requires Starving(env, s, g) && Leaves(s, t, f) && Waiting(s, t, g)
    requires AsksFor(env, t, f, g) ==> t.files[f].loc.required > env.memory
    requires Inv(env, s)
    ensures Starving(env, t, g)
  {
    assert GroupShape(env, s.groups, g);
    RequiredGrows(s.groups[g], s.groups[g].numPending, t.groups[g].numPending);
    forall h: FileId | AsksFor(env, t, h, g) ensures t.files[h].loc.required > env.memory {
      if h != f {
        AsksForTheSame(env, s, t, f, h, g);
      }
    }
  }

  /** A group whose file was read has its memory. */
  lemma ReadIsCommitted(env: Env, s: State, f: FileId, g: GroupId)
    requires f < |s.files| && g < |s.groups| && s.groups[g].status == StartHashing && env.paranoid
    requires Waits(s.files[f].loc) || WasRead(s.files[f].loc)
    requires s.files[f].loc != Out && !s.files[f].loc.Asking?
    requires Inv(env, s)
    ensures s.files[f].group != g
  {
    assert Place(env, s.files[f], env.files[f], f, s.groups);
  }

  lemma SendDownWaits(s: State, p: GroupId, c: GroupId, f: FileId, g: GroupId)
    requires p < |s.groups| && c < |s.groups| && f < |s.files| && g < |s.groups| && p != g
    requires s.groups[g].stage == Live && s.groups[g].status == StartHashing
    ensures Waiting(s, SendDown(s, p, c, f), g) && SendDown(s, p, c, f).files[f].loc == Out
  {}

  lemma AskStarves(env: Env, s: State, f: FileId, count: nat, g: GroupId)
    requires Starving(env, s, g) && Enabled(env, s, Ask(f, count))
    requires WellFormed(env, s) && Inv(env, s) && Sees(env, s, Ask(f, count))
    ensures var t := AskStep(env, s, f, count);
      Waiting(s, t, g) && (AsksFor(env, t, f, g) ==> t.files[f].loc.required > env.memory)
  {
    var t, c := AskStep(env, s, f, count), AskedFor(env, s, f);
    assert GroupShape(env, s.groups, g);
    if s.files[f].loc == Entering {
      ReadIsCommitted(env, s, f, g);
      if IsCommitted(s.groups[c].status) { SendDownWaits(s, s.files[f].group, c, f, g); }
    }
    if AsksFor(env, t, f, g) { AskedIsLarge(env, s, f, count, g); }
  }

  lemma AskedIsLarge(env: Env, s: State, f: FileId, count: nat, g: GroupId)
    requires Starving(env, s, g) && Enabled(env, s, Ask(f, count))
    requires WellFormed(env, s) && Inv(env, s) && Sees(env, s, Ask(f, count))
    requires AsksFor(env, AskStep(env, s, f, count), f, g)
    ensures AskStep(env, s, f, count).files[f].loc.required > env.memory
  {
    assert GroupShape(env, s.groups, g);
    StillAsking(env, s, f, count);
    RequiredGrows(s.groups[g], s.groups[g].numPending, count);
  }

  /** A file that asks after the test asks for the group that it was tested for. */
  lemma StillAsking(env: Env, s: State, f: FileId, count: nat)
    requires WellFormed(env, s) && Enabled(env, s, Ask(f, count))
    ensures var t, c := AskStep(env, s, f, count), AskedFor(env, s, f);
      t.files[f].loc.Asking? || t.files[f].loc.Pushing? ==>
        && AskedFor(env, t, f) == c < |s.groups|
        && t.files[f].loc.required == Required(s.groups[c], count)
  {
    var c := AskedFor(env, s, f);
    if s.files[f].loc == Entering && IsCommitted(s.groups[c].status) {
      assert SendDown(s, s.files[f].group, c, f).files[f].loc == Out;
    }
  }

  lemma CommitWaits(env: Env, s: State, f: FileId, tear: Tear, g: GroupId)
    requires Enabled(env, s, Decide(f, tear)) && GrantedNow(env, s, f)
    requires Starving(env, s, g) && AskedFor(env, s, f) != g
    requires WellFormed(env, s) && Inv(env, s)
    ensures var t := Commit(s, AskedFor(env, s, f), s.files[f].loc.required, tear);
      Waiting(s, t, g) && t.groups[g].numPending == s.groups[g].numPending && t.files == s.files
  {}

  lemma DecideStarves(env: Env, s: State, f: FileId, tear: Tear, g: GroupId)
    requires Enabled(env, s, Decide(f, tear)) && !InWindow(env, s, Decide(f, tear))
    requires Starving(env, s, g) && s.bank.phantoms > 0 && s.bank.leaked == 0
    requires WellFormed(env, s) && Inv(env, s)
    ensures var t := DecideStep(env, s, f, tear); Waiting(s, t, g) && !AsksFor(env, t, f, g)
  {
    var c := AskedFor(env, s, f);
    AskingGroup(env, s, f);
    if c == g {
      assert AsksFor(env, s, f, g);
      Refused(env, s, f, tear);
    }
    if s.files[f].loc.Pushing? {
      if GrantedNow(env, s, f) { CommitWaits(env, s, f, tear, g); }
      PushedWaits(env, s, f, tear, g);
    } else {
      AskedWaits(env, s, f, tear, g);
    }
  }

  lemma AskedWaits(env: Env, s: State, f: FileId, tear: Tear, g: GroupId)
    requires Enabled(env, s, Decide(f, tear)) && s.files[f].loc.Asking?
    requires Starving(env, s, g) && (GrantedNow(env, s, f) ==> AskedFor(env, s, f) != g)
    requires WellFormed(env, s) && Inv(env, s)
    ensures var t := DecideStep(env, s, f, tear); Waiting(s, t, g) && !AsksFor(env, t, f, g)
  {
    if GrantedNow(env, s, f) { CommitWaits(env, s, f, tear, g); }
    AskedDecided(env, s, f, tear);
  }

  lemma AskedDecided(env: Env, s: State, f: FileId, tear: Tear)
    requires WellFormed(env, s) && f < |s.files| && s.files[f].loc.Asking?
    ensures var t := DecideStep(env, s, f, tear); f < |t.files| && t.files[f].loc in {Granted, Out}
    ensures !GrantedNow(env, s, f) ==> DecideStep(env, s, f, tear).groups == s.groups
    ensures GrantedNow(env, s, f) ==>
      DecideStep(env, s, f, tear).groups == Commit(s, AskedFor(env, s, f), s.files[f].loc.required, tear).groups
  {}

  lemma PushedWaits(env: Env, s: State, f: FileId, tear: Tear, g: GroupId)
    requires Enabled(env, s, Decide(f, tear)) && s.files[f].loc.Pushing? && Starving(env, s, g)
    requires WellFormed(env, s) && Inv(env, s)
    requires AskedFor(env, s, f) < |s.groups|
    requires GrantedNow(env, s, f) ==>
      var t := Commit(s, AskedFor(env, s, f), s.files[f].loc.required, tear);
      Waiting(s, t, g) && t.groups[g].numPending == s.groups[g].numPending && t.files == s.files
    ensures var t := DecideStep(env, s, f, tear); Waiting(s, t, g) && f < |t.files| && t.files[f].loc == Out
  {
    var c := AskedFor(env, s, f);
    ReadIsCommitted(env, s, f, g);
    var t := if GrantedNow(env, s, f) then Commit(s, c, s.files[f].loc.required, tear) else s;
    SendDownWaits(t, s.files[f].group, c, f, g);
  }

  lemma PushDownWaits(env: Env, v: State, p: GroupId, c: GroupId, f: FileId, g: GroupId)
    requires p < |v.groups| && c < |v.groups| == |v.bank.accounts| && f < |v.files| == |env.files|
    requires g < |v.groups| && p != g && env.paranoid
    requires v.groups[g].stage == Live && v.groups[g].status == StartHashing
    requires !Asks(env, v.groups[c], f)
    ensures var t := PushDown(env, v, p, c, f); Waiting(v, t, g) && f < |t.files| && t.files[f].loc in {Held, Out}
  {
    assert c != g;
  }

  lemma BeginPushWaits(env: Env, v: State, c: GroupId, f: FileId, g: GroupId)
    requires c < |v.groups| && f < |v.files| == |env.files| && g < |v.groups|
    requires v.groups[g].stage == Live && v.groups[g].status == StartHashing && v.groups[g].held == []
    ensures var t := BeginPush(env, v, c, f); Waiting(v, t, g) && f < |t.files| && t.files[f].loc == Entering
  {}

  lemma SiftStarves(env: Env, s: State, f: FileId, ok: bool, g: GroupId)
    requires Starving(env, s, g) && f < |s.files| && s.files[f].group != g
    requires s.files[f].loc.Hashed? || (s.files[f].loc == Out && !ok)
    requires WellFormed(env, s) && Inv(env, s)
    ensures var t := SiftStep(env, s, f, ok);
      Waiting(s, t, g) && f < |t.files| && !t.files[f].loc.Asking? && !t.files[f].loc.Pushing?
  {
    var p := s.files[f].group;
    assert GroupShape(env, s.groups, g);
    if ok {
      var (v, c) := ChildFor(env, s, p, f);
      ChildWaits(env, s, p, f, g);
      if Asks(env, v.groups[c], f) {
        BeginPushWaits(env, v, c, f, g);
      } else {
        PushDownWaits(env, v, p, c, f, g);
      }
      SiftedWaits(s, v, SiftStep(env, s, f, ok), g);
    } else {
      GiveUpWaits(env, s, p, f, g);
    }
  }

  lemma SiftedWaits(s: State, v: State, t: State, g: GroupId)
    requires g < |s.groups| && g < |v.groups| && v.groups[g] == s.groups[g] && Waiting(v, t, g)
    ensures Waiting(s, t, g)
  {}

  lemma ChildWaits(env: Env, s: State, p: GroupId, f: FileId, g: GroupId)
    requires env.pageSize > 0 && p < |s.groups| == |s.bank.accounts| && f < |s.files| == |env.files|
    requires ParentsBelow(s.groups) && ChildrenAbove(s.groups) && g < |s.groups| && g != p
    ensures var v := ChildFor(env, s, p, f).0;
      g < |v.groups| && v.groups[g] == s.groups[g] && v.files == s.files
  {}

  lemma GiveUpWaits(env: Env, s: State, p: GroupId, f: FileId, g: GroupId)
    requires p < |s.groups| && f < |s.files| == |env.files| && g < |s.groups| && g != p
    requires s.groups[g].stage == Live && s.groups[g].status == StartHashing
    ensures var t := GiveUp(env, s, p, f); Waiting(s, t, g) && f < |t.files| && t.files[f].loc == Ignored
  {}

  lemma FreeWaits(env: Env, s: State, h: GroupId, g: GroupId)
    requires Starving(env, s, g) && h < |s.groups| && h != g && HeldInRange(s.files, s.groups)
    requires Inv(env, s)
    ensures Waiting(s, FreeGroup(env, s, h), g)
  {
    assert Queue(s.files, s.groups[h], h);
    DiscardAllEffect(env, SetGroup(s, h, s.groups[h].(stage := Freed, held := [])), s.groups[h].held);
  }

  lemma IncrementWaits(env: Env, s: State, step: Step, g: GroupId)
    requires Starving(env, s, g) && Enabled(env, s, step)
    requires step.Plan? || step.Register? || step.Size? || step.Read?
    requires WellFormed(env, s) && Inv(env, s)
    ensures var t := Apply(env, s, step); Waiting(s, t, g) && !AsksFor(env, t, step.f, g)
  {
    ReadIsCommitted(env, s, step.f, g);
  }

  lemma GroupWaits(env: Env, s: State, step: Step, g: GroupId)
    requires Starving(env, s, g) && Enabled(env, s, step) && Actor(s, step) >= |s.files|
    requires WellFormed(env, s) && Inv(env, s)
    ensures Waiting(s, Apply(env, s, step), g)
  {
    if step.Report? || (step.Dispose? && s.groups[step.g].status != Dormant) {
      assert step.Dispose? ==> GroupShape(env, s.groups, step.g);
      FreeWaits(env, s, step.g, g);
    } else if step !in {Close, Launch, Count} {
      StageWaits(env, s, step, g);
    }
  }

  lemma StageWaits(env: Env, s: State, step: Step, g: GroupId)
    requires Enabled(env, s, step)
    requires step.Orphan? || step.ReturnMemory? || step.Clear? || (step.Dispose? && s.groups[step.g].status == Dormant)
    requires g < |s.groups| && s.groups[g].stage == Live && s.groups[g].status == StartHashing
    requires s.groups[g].numPending > 0
    requires WellFormed(env, s)
    ensures Waiting(s, Apply(env, s, step), g)
  {}

  lemma StepWaits(env: Env, s: State, step: Step, g: GroupId)
    requires Starving(env, s, g) && s.bank.phantoms > 0 && s.bank.leaked == 0
    requires Enabled(env, s, step) && !(step.Abort? && s.files[step.f].group == g) && !InWindow(env, s, step)
    requires WellFormed(env, s) && Inv(env, s) && Sees(env, s, step)
    ensures var t, f := Apply(env, s, step), Actor(s, step);
      Waiting(s, t, g) && (AsksFor(env, t, f, g) ==> t.files[f].loc.required > env.memory)
  {
    StepLeaves(env, s, step);
    if Actor(s, step) >= |s.files| {
      GroupWaits(env, s, step, g);
    } else if step.Ask? {
      AskStarves(env, s, step.f, step.count, g);
    } else if step.Decide? {
      DecideStarves(env, s, step.f, step.tear, g);
    } else if step.Sift? {
      ReadIsCommitted(env, s, step.f, g);
      SiftStarves(env, s, step.f, s.files[step.f].loc.ok, g);
    } else if step.Abort? {
      SiftStarves(env, s, step.f, false, g);
    } else {
      IncrementWaits(env, s, step, g);
    }
  }

  /**
   * A starving group starves on, whatever the threads do: from a state with a
   * phantom, every step but an abort of one of its files and a leak keeps it waiting.
   */
  lemma StarvesOn(env: Env, s: State, step: Step, g: GroupId)
    requires Starving(env, s, g) && s.bank.phantoms > 0 && s.bank.leaked == 0
    requires Enabled(env, s, step) && !(step.Abort? && s.files[step.f].group == g) && !InWindow(env, s, step)
    requires WellFormed(env, s) && Inv(env, s) && Sees(env, s, step)
    ensures var t := Apply(env, s, step); Starving(env, t, g) && t.bank.phantoms > 0 && t.bank.leaked == 0
  {
    StepWaits(env, s, step, g);
    StepLeaves(env, s, step);
    StillStarving(env, s, Apply(env, s, step), Actor(s, step), g);
    StepBooks(env, s, step);
  }

  /** Neither an abort of a file of the group nor a leak, and no walk that overlooks the group's own files. */
  ghost predicate Undisturbed(env: Env, s: State, step: Step, g: GroupId)
    requires WellFormed(env, s) && Enabled(env, s, step)
  {
    && !(step.Abort? && step.f < |s.files| && s.files[step.f].group == g)
    && !InWindow(env, s, step) && Sees(env, s, step)
  }

  ghost predicate Doomed(env: Env, s: State, g: GroupId) {
    Starving(env, s, g) && s.bank.phantoms > 0 && s.bank.leaked == 0
  }

  lemma RunStarvesOn(env: Env, run: seq<State>, steps: seq<Step>, k: nat, g: GroupId)
    requires IsRun(env, run, steps) && k < |steps|
    requires Doomed(env, run[k], g) && Moves(env, run, steps, g)[k]
    requires Sane(env)
    ensures Doomed(env, run[k + 1], g)
  {
    RunInv(env, run, steps, k);
    assert Joined(env, run[k], steps[k], run[k + 1]);
    StarvesOn(env, run[k], steps[k], g);
  }

  lemma {:induction false} StaysDoomed(states: seq<bool>, moves: seq<bool>, i: nat, j: nat)
    requires i <= j < |states| && |moves| == |states| - 1 && states[i]
    requires forall k :: i <= k < j && states[k] && moves[k] ==> states[k + 1]
    requires forall k :: i <= k < j ==> moves[k]
    ensures states[j]
    decreases j
  {
    if i < j {
      StaysDoomed(states, moves, i, j - 1);
      assert states[j - 1] && moves[j - 1] ==> states[j - 1 + 1];
    }
  }

  ghost function Dooms(env: Env, run: seq<State>, g: GroupId): seq<bool> {
    seq(|run|, k requires 0 <= k < |run| => Doomed(env, run[k], g))
  }

  ghost function Moves(env: Env, run: seq<State>, steps: seq<Step>, g: GroupId): seq<bool>
    requires |run| == |steps| + 1
  {
    seq(|steps|, k requires 0 <= k < |steps| =>
        Joined(env, run[k], steps[k], run[k + 1]) && Undisturbed(env, run[k], steps[k], g))
  }

  lemma DoomedIsNotQuiet(env: Env, s: State, g: GroupId)
    requires Doomed(env, s, g)
    ensures !Quiet(s)
  {}

  /** So in a run that goes on from there without these, the sieve never comes to its end. */
  lemma NeverQuiet(env: Env, run: seq<State>, steps: seq<Step>, i: nat, j: nat, g: GroupId)
    requires IsRun(env, run, steps) && i <= j < |run| && Doomed(env, run[i], g)
    requires forall k :: i <= k < j ==> Moves(env, run, steps, g)[k]
    requires Sane(env)
    ensures Doomed(env, run[j], g) && !Quiet(run[j])
  {
    var states, moves := Dooms(env, run, g), Moves(env, run, steps, g);
    forall k | i <= k < j && states[k] && moves[k] ensures states[k + 1] {
      RunStarvesOn(env, run, steps, k, g);
    }
    StaysDoomed(states, moves, i, j);
    DoomedIsNotQuiet(env, run[j], g);
  }
}
