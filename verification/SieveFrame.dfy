/** What a step leaves alone: fixed parts of the groups, and all files but the one it is about. */
module SieveFrame {
  import opened Common
  import opened SieveState
  import opened SieveInvariant
  import opened SievePush
  import opened SieveSteps
  import opened SieveRun
  import MemoryBank

  /** Groups only grow; of the other files only held ones move, when they are released or discarded. */
  ghost predicate Leaves(s: State, t: State, f: FileId) {
    && |t.files| == |s.files| && AllExtend(s.groups, t.groups) && (s.started ==> t.started)
    && forall h :: 0 <= h < |s.files| && h != f ==> LetGo(s.files[h], t.files[h])
  }

  predicate LetGo(x: File, y: File) {
    y == x || (x.loc == Held && (y == x.(loc := Out) || y == x.(loc := Done)))
  }

  lemma LeavesOn(s: State, t: State, u: State, f: FileId)
    requires Leaves(s, t, f) && Leaves(t, u, f)
    ensures Leaves(s, u, f)
  {
    forall g | 0 <= g < |s.groups| ensures Extends(s.groups[g], u.groups[g]) {
      assert Extends(s.groups[g], t.groups[g]) && Extends(t.groups[g], u.groups[g]);
    }
    forall h | 0 <= h < |s.files| && h != f ensures LetGo(s.files[h], u.files[h]) {
      assert LetGo(s.files[h], t.files[h]) && LetGo(t.files[h], u.files[h]);
    }
  }

  lemma PushLeaves(env: Env, s: State, g: GroupId, f: FileId)
    requires g < |s.groups| == |s.bank.accounts| && f < |s.files| == |env.files| && Queue(s.files, s.groups[g], g)
    ensures Leaves(s, Push(env, s, g, f), f)
  {}

  lemma BeginPushLeaves(env: Env, s: State, g: GroupId, f: FileId)
    requires g < |s.groups| && f < |s.files| == |env.files| && Queue(s.files, s.groups[g], g)
    requires Asks(env, s.groups[g], f)
    ensures Leaves(s, BeginPush(env, s, g, f), f)
  {}

  lemma UnpendLeaves(s: State, g: GroupId, f: FileId)
    requires g < |s.groups| && f < |s.files|
    ensures Leaves(s, Unpend(s, g, f), f)
  {}

  lemma EndLeaves(s: State, g: GroupId, f: FileId)
    requires g < |s.groups|
    ensures Leaves(s, EndIfUnneeded(s, g), f)
  {}

  lemma PushDownLeaves(env: Env, s: State, g: GroupId, c: GroupId, f: FileId)
    requires g < |s.groups| && c < |s.groups| == |s.bank.accounts| && f < |s.files| == |env.files| && c != g
    requires Queue(s.files, s.groups[c], c) && s.files[f].loc != Held && !IsPending(s.files[f], c)
    ensures Leaves(s, PushDown(env, s, g, c, f), f)
  {
    var u := Unpend(s, g, f);
    UnpendLeaves(s, g, f);
    assert PendingFiles(u.files, c) == PendingFiles(s.files, c);
    PushLeaves(env, u, c, f);
    LeavesOn(s, u, Push(env, u, c, f), f);
    EndLeaves(Push(env, u, c, f), g, f);
    LeavesOn(s, Push(env, u, c, f), PushDown(env, s, g, c, f), f);
  }

  lemma SendDownLeaves(s: State, g: GroupId, c: GroupId, f: FileId)
    requires g < |s.groups| && c < |s.groups| && f < |s.files|
    ensures Leaves(s, SendDown(s, g, c, f), f)
  {
    var t := SendOut(Unpend(s, g, f), c, f);
    assert Leaves(s, t, f);
    EndLeaves(t, g, f);
    LeavesOn(s, t, SendDown(s, g, c, f), f);
  }

  lemma GiveUpLeaves(env: Env, s: State, g: GroupId, f: FileId)
    requires g < |s.groups| && f < |s.files| == |env.files|
    ensures Leaves(s, GiveUp(env, s, g, f), f)
  {}

  lemma CommitLeaves(s: State, g: GroupId, required: int, tear: Tear, f: FileId)
    requires g < |s.groups| == |s.bank.accounts| && ParentsBelow(s.groups) && IsHashing(s.groups[g].status)
    ensures Leaves(s, Commit(s, g, required, tear), f)
  {}

  lemma ChildLeaves(env: Env, s: State, g: GroupId, f: FileId)
    requires env.pageSize > 0 && g < |s.groups| == |s.bank.accounts| && f < |s.files| == |env.files|
    requires ParentsBelow(s.groups) && ChildrenAbove(s.groups)
    ensures Leaves(s, ChildFor(env, s, g, f).0, f)
  {}

  lemma SiftLeaves(env: Env, s: State, f: FileId, ok: bool)
    requires f < |s.files| && (s.files[f].loc == Out || s.files[f].loc.Hashed?) && (ok ==> s.files[f].loc.Hashed?)
    requires WellFormed(env, s) && Inv(env, s)
    ensures Leaves(s, SiftStep(env, s, f, ok), f)
  {
    var g := s.files[f].group;
    if ok {
      var (v, c) := ChildFor(env, s, g, f);
      HashedFits(env, s, f);
      ChildLeaves(env, s, g, f);
      if Asks(env, v.groups[c], f) {
        BeginPushLeaves(env, v, c, f);
      } else {
        PushDownLeaves(env, v, g, c, f);
      }
      LeavesOn(s, v, SiftStep(env, s, f, ok), f);
    } else {
      GiveUpLeaves(env, s, g, f);
    }
  }

  lemma AdmitLeaves(env: Env, s: State, f: FileId)
    requires Enabled(env, s, Admit(f))
    requires WellFormed(env, s) && Inv(env, s)
    ensures Leaves(s, AdmitStep(env, s, f), f)
  {
    if s.open.Some? {
      EnteredLeaves(env, s, f, s.open.value);
    } else {
      var u := AppendGroup(s, NewGroup(env, s, f, None, 0)).(open := Some(|s.groups|));
      AppendRootCore(env, s, f) by { assert Place(env, s.files[f], env.files[f], f, s.groups); }
      EnteredLeaves(env, u, f, |s.groups|);
      LeavesOn(s, u, AdmitStep(env, s, f), f);
    }
  }

  lemma EnteredLeaves(env: Env, u: State, f: FileId, g: GroupId)
    requires g < |u.groups| == |u.bank.accounts| && f < |u.files| == |env.files| && u.files[f].loc == Fresh
    requires Core(env, u)
    ensures Leaves(u, Push(env, Enter(env, u, f, g), g, f), f)
  {
    var v := Enter(env, u, f, g);
    assert Queue(u.files, u.groups[g], g);
    assert PendingFiles(v.files, g) == PendingFiles(u.files, g);
    PushLeaves(env, v, g, f);
    LeavesOn(u, v, Push(env, v, g, f), f);
  }

  lemma AskLeaves(env: Env, s: State, f: FileId, count: nat)
    requires Enabled(env, s, Ask(f, count))
    requires WellFormed(env, s)
    ensures Leaves(s, AskStep(env, s, f, count), f)
  {
    if s.files[f].loc == Entering { SendDownLeaves(s, s.files[f].group, AskedFor(env, s, f), f); }
  }

  lemma DecideLeaves(env: Env, s: State, f: FileId, tear: Tear)
    requires Enabled(env, s, Decide(f, tear))
    requires WellFormed(env, s) && Inv(env, s)
    ensures Leaves(s, DecideStep(env, s, f, tear), f)
  {
    assert Place(env, s.files[f], env.files[f], f, s.groups);
    var c := AskedFor(env, s, f);
    if s.files[f].loc.Pushing? { InHandFits(env, s, f); }
    var t := if GrantedNow(env, s, f) then Commit(s, c, s.files[f].loc.required, tear) else s;
    CommitLeaves(s, c, s.files[f].loc.required, tear, f);
    if s.files[f].loc.Pushing? {
      SendDownLeaves(t, s.files[f].group, c, f);
      LeavesOn(s, t, DecideStep(env, s, f, tear), f);
    }
  }

  /** One group changes, and the file the step is about. */
  lemma OneChanges(s: State, t: State, g: GroupId, f: FileId)
    requires g < |s.groups| && |t.groups| == |s.groups| && t.groups == s.groups[g := t.groups[g]]
    requires Extends(s.groups[g], t.groups[g]) && (s.started ==> t.started)
    requires |t.files| == |s.files| && (f < |s.files| ==> t.files == s.files[f := t.files[f]])
    requires f >= |s.files| ==> t.files == s.files
    ensures Leaves(s, t, f)
  {}

  lemma IncrementLeaves(env: Env, s: State, step: Step)
    requires Enabled(env, s, step) && (step.Plan? || step.Register? || step.Size? || step.Read?)
    requires WellFormed(env, s) && Inv(env, s)
    ensures Leaves(s, Apply(env, s, step), step.f)
  {
    var g := s.files[step.f].group;
    assert GroupShape(env, s.groups, g);
    OneChanges(s, Apply(env, s, step), g, step.f);
  }

  lemma FreeLeaves(env: Env, s: State, g: GroupId, f: FileId)
    requires g < |s.groups| && HeldInRange(s.files, s.groups)
    requires Inv(env, s)
    ensures Leaves(s, FreeGroup(env, s, g), f)
  {
    assert Queue(s.files, s.groups[g], g);
    DiscardAllEffect(env, SetGroup(s, g, s.groups[g].(stage := Freed, held := [])), s.groups[g].held);
  }

  lemma StageLeaves(env: Env, s: State, step: Step, f: FileId)
    requires Enabled(env, s, step) && f >= |s.files|
    requires step.Orphan? || step.ReturnMemory? || step.Clear? || (step.Dispose? && s.groups[step.g].status == Dormant)
    requires WellFormed(env, s)
    ensures Leaves(s, Apply(env, s, step), f)
  {
    OneChanges(s, Apply(env, s, step), step.g, f);
  }

  lemma GroupLeaves(env: Env, s: State, step: Step, f: FileId)
    requires Enabled(env, s, step) && f >= |s.files|
    requires step in {Close, Launch, Count} || step.Orphan? || step.ReturnMemory? || step.Clear? || step.Dispose?
             || step.Report?
    requires WellFormed(env, s) && Inv(env, s)
    ensures Leaves(s, Apply(env, s, step), f)
  {
    if step.Report? || (step.Dispose? && s.groups[step.g].status != Dormant) {
      assert step.Dispose? ==> GroupShape(env, s.groups, step.g);
      FreeLeaves(env, s, step.g, f);
    } else if step.Orphan? || step.ReturnMemory? || step.Clear? || step.Dispose? {
      StageLeaves(env, s, step, f);
    }
  }

  /** The file that a step is about, if any. */
  function Actor(s: State, step: Step): FileId {
    if step in {Close, Launch, Count} || step.Orphan? || step.ReturnMemory? || step.Clear? || step.Dispose?
       || step.Report? then |s.files|
    else step.f
  }

  lemma FileLeaves(env: Env, s: State, step: Step)
    requires Enabled(env, s, step) && Actor(s, step) < |s.files|
    requires WellFormed(env, s) && Inv(env, s)
    ensures Leaves(s, Apply(env, s, step), step.f)
  {
    if step.Admit? {
      AdmitLeaves(env, s, step.f);
    } else if step.Ask? {
      AskLeaves(env, s, step.f, step.count);
    } else if step.Decide? {
      DecideLeaves(env, s, step.f, step.tear);
    } else if step.Sift? {
      SiftLeaves(env, s, step.f, s.files[step.f].loc.ok);
    } else if step.Abort? {
      SiftLeaves(env, s, step.f, false);
    } else {
      IncrementLeaves(env, s, step);
    }
  }

  lemma StepLeaves(env: Env, s: State, step: Step)
    requires Enabled(env, s, step)
    requires WellFormed(env, s) && Inv(env, s)
    ensures Leaves(s, Apply(env, s, step), Actor(s, step))
  {
    if Actor(s, step) < |s.files| { FileLeaves(env, s, step); } else { GroupLeaves(env, s, step, |s.files|); }
  }
}
