/** Which digests of a group get to know of new twin candidates (lib/shredder.c:987-1029, 1596-1618). */
module SieveTwins {
  import opened Common
  import opened SieveState
  import opened SieveInvariant
  import opened SievePush
  import opened SieveSteps
  import opened SieveRun
  import opened SieveFrame

  /** The file's paranoid digest is registered with group `g`: it has one, and has not left for a child group. */
  ghost predicate InTheMaking(env: Env, s: State, f: FileId, g: GroupId) {
    && f < |s.files| && f < |env.files| && s.files[f].group == g && env.paranoid && !env.files[f].isSymlink
    && (s.files[f].loc in {Ready, Sizing} || WasRead(s.files[f].loc))
  }

  ghost predicate TwinsListed(env: Env, s: State, g: GroupId)
    requires g < |s.groups|
  {
    forall f: FileId :: f in s.groups[g].inProgress <==> InTheMaking(env, s, f, g)
  }

  /** Exactly the digests in the making are listed, in every group. */
  ghost predicate AllListed(env: Env, s: State) {
    forall g {:trigger TwinsListed(env, s, g)} :: 0 <= g < |s.groups| ==> TwinsListed(env, s, g)
  }

  /** The lists of the groups stay; new groups have none. */
  ghost predicate ListsStay(s: State, t: State) {
    && |s.groups| <= |t.groups|
    && forall g :: 0 <= g < |t.groups| ==>
         t.groups[g].inProgress == if g < |s.groups| then s.groups[g].inProgress else {}
  }

  /** Or a file is crossed out in one group. */
  ghost predicate CrossedOut(s: State, t: State, g: GroupId, f: FileId) {
    && g < |s.groups| <= |t.groups|
    && forall i :: 0 <= i < |t.groups| ==>
         t.groups[i].inProgress ==
         if i == g then s.groups[g].inProgress - {f} else if i < |s.groups| then s.groups[i].inProgress else {}
  }

  /** A file that is not in the making, before or after, or stays in the making in its group. */
  lemma StillListed(env: Env, s: State, t: State, f: FileId)
    requires ListsStay(s, t) && Leaves(s, t, f)
    requires forall g: GroupId :: InTheMaking(env, t, f, g) <==> InTheMaking(env, s, f, g)
    requires WellFormed(env, s) && AllListed(env, s)
    ensures AllListed(env, t)
  {
    forall g | 0 <= g < |t.groups| ensures TwinsListed(env, t, g) {
      assert g < |s.groups| ==> TwinsListed(env, s, g);
      forall h: FileId ensures InTheMaking(env, t, h, g) <==> InTheMaking(env, s, h, g) {
        if h < |s.files| && h != f { assert LetGo(s.files[h], t.files[h]); }
      }
    }
  }

  lemma LeavesList(env: Env, s: State, t: State, f: FileId, g: GroupId)
    requires CrossedOut(s, t, g, f) && Leaves(s, t, f)
    requires forall i: GroupId :: !InTheMaking(env, t, f, i) && (InTheMaking(env, s, f, i) ==> i == g)
    requires WellFormed(env, s) && AllListed(env, s)
    ensures AllListed(env, t)
  {
    forall i | 0 <= i < |t.groups| ensures TwinsListed(env, t, i) {
      assert i < |s.groups| ==> TwinsListed(env, s, i);
      forall h: FileId | h != f ensures InTheMaking(env, t, h, i) <==> InTheMaking(env, s, h, i) {
        if h < |s.files| { assert LetGo(s.files[h], t.files[h]); }
      }
    }
  }

  lemma PushLists(env: Env, s: State, g: GroupId, f: FileId)
    requires g < |s.groups| == |s.bank.accounts| && f < |s.files| == |env.files|
    ensures ListsStay(s, Push(env, s, g, f))
    ensures Push(env, s, g, f).files[f].loc in {Out, Held}
  {}

  lemma SendDownLists(s: State, g: GroupId, c: GroupId, f: FileId)
    requires g < |s.groups| && c < |s.groups| && f < |s.files|
    ensures CrossedOut(s, SendDown(s, g, c, f), g, f) && SendDown(s, g, c, f).files[f].loc == Out
  {}

  lemma PushDownLists(env: Env, s: State, g: GroupId, c: GroupId, f: FileId)
    requires g < |s.groups| && c < |s.groups| == |s.bank.accounts| && f < |s.files| == |env.files|
    ensures CrossedOut(s, PushDown(env, s, g, c, f), g, f)
    ensures PushDown(env, s, g, c, f).files[f].loc in {Out, Held}
  {
    PushLists(env, Unpend(s, g, f), c, f);
  }

  lemma GiveUpLists(env: Env, s: State, g: GroupId, f: FileId)
    requires g < |s.groups| && f < |s.files| == |env.files|
    ensures CrossedOut(s, GiveUp(env, s, g, f), g, f) && GiveUp(env, s, g, f).files[f].loc == Ignored
  {}

  lemma ChildLists(env: Env, s: State, g: GroupId, f: FileId)
    requires env.pageSize > 0 && g < |s.groups| == |s.bank.accounts| && f < |s.files| == |env.files|
    requires ParentsBelow(s.groups) && ChildrenAbove(s.groups)
    ensures ListsStay(s, ChildFor(env, s, g, f).0)
  {}

  lemma SiftLists(env: Env, s: State, f: FileId, ok: bool)
    requires f < |s.files| && (s.files[f].loc == Out || s.files[f].loc.Hashed?) && (ok ==> s.files[f].loc.Hashed?)
    requires WellFormed(env, s) && Inv(env, s) && AllListed(env, s)
    ensures AllListed(env, SiftStep(env, s, f, ok))
  {
    var g := s.files[f].group;
    if ok {
      HashedFits(env, s, f);
      var (v, c) := ChildFor(env, s, g, f);
      if Asks(env, v.groups[c], f) { EntersListed(env, s, f); } else { PushedDownLists(env, s, f); }
    } else {
      SiftLeaves(env, s, f, ok);
      GiveUpLists(env, s, g, f);
      LeavesList(env, s, GiveUp(env, s, g, f), f, g);
    }
  }

  lemma PushedDownLists(env: Env, s: State, f: FileId)
    requires f < |s.files| && s.files[f].loc.Hashed?
    requires WellFormed(env, s) && Inv(env, s) && AllListed(env, s)
    requires var (v, c) := ChildFor(env, s, s.files[f].group, f); c < |v.groups| && !Asks(env, v.groups[c], f)
    ensures AllListed(env, SiftStep(env, s, f, true))
  {
    var g := s.files[f].group;
    var (v, c) := ChildFor(env, s, g, f);
    SiftLeaves(env, s, f, true);
    ChildLists(env, s, g, f);
    PushDownLists(env, v, g, c, f);
    CrossedOutOn(s, v, PushDown(env, v, g, c, f), g, f);
    LeavesList(env, s, PushDown(env, v, g, c, f), f, g);
  }

  lemma CrossedOutOn(s: State, v: State, t: State, g: GroupId, f: FileId)
    requires ListsStay(s, v) && CrossedOut(v, t, g, f) && g < |s.groups|
    ensures CrossedOut(s, t, g, f)
  {}

  lemma EntersListed(env: Env, s: State, f: FileId)
    requires f < |s.files| && s.files[f].loc.Hashed?
    requires WellFormed(env, s) && Inv(env, s) && AllListed(env, s)
    requires var (v, c) := ChildFor(env, s, s.files[f].group, f); c < |v.groups| && Asks(env, v.groups[c], f)
    ensures AllListed(env, SiftStep(env, s, f, true))
  {
    var g, t := s.files[f].group, SiftStep(env, s, f, true);
    var (v, c) := ChildFor(env, s, g, f);
    ChildLists(env, s, g, f);
    SiftLeaves(env, s, f, true);
    assert ListsStay(v, BeginPush(env, v, c, f));
    assert t.files[f].loc == Entering && t.files[f].group == g;
    StillListed(env, s, t, f);
  }

  lemma AdmitLists(env: Env, s: State, f: FileId)
    requires Enabled(env, s, Admit(f))
    requires WellFormed(env, s) && Inv(env, s) && AllListed(env, s)
    ensures AllListed(env, AdmitStep(env, s, f))
  {
    AdmitLeaves(env, s, f);
    AdmitKeepsLists(env, s, f);
    StillListed(env, s, AdmitStep(env, s, f), f);
  }

  lemma AdmitKeepsLists(env: Env, s: State, f: FileId)
    requires WellFormed(env, s) && Enabled(env, s, Admit(f))
    ensures ListsStay(s, AdmitStep(env, s, f)) && AdmitStep(env, s, f).files[f].loc in {Out, Held}
  {
    match s.open {
      case Some(g) => PushLists(env, Enter(env, s, f, g), g, f);
      case None =>
        var g := |s.groups|;
        var u := AppendGroup(s, NewGroup(env, s, f, None, 0)).(open := Some(g));
        PushLists(env, Enter(env, u, f, g), g, f);
    }
  }

  lemma AskLists(env: Env, s: State, f: FileId, count: nat)
    requires Enabled(env, s, Ask(f, count))
    requires WellFormed(env, s) && Inv(env, s) && AllListed(env, s)
    ensures AllListed(env, AskStep(env, s, f, count))
  {
    var g, t := s.files[f].group, AskStep(env, s, f, count);
    AskLeaves(env, s, f, count);
    if s.files[f].loc == Entering && IsCommitted(s.groups[AskedFor(env, s, f)].status) {
      SendDownLists(s, g, AskedFor(env, s, f), f);
      LeavesList(env, s, t, f, g);
    } else {
      StillListed(env, s, t, f);
    }
  }

  lemma DecideLists(env: Env, s: State, f: FileId, tear: Tear)
    requires Enabled(env, s, Decide(f, tear))
    requires WellFormed(env, s) && Inv(env, s) && AllListed(env, s)
    ensures AllListed(env, DecideStep(env, s, f, tear))
  {
    if s.files[f].loc.Pushing? { SentDownLists(env, s, f, tear); } else { AskedLists(env, s, f, tear); }
  }

  lemma SentDownLists(env: Env, s: State, f: FileId, tear: Tear)
    requires Enabled(env, s, Decide(f, tear)) && s.files[f].loc.Pushing?
    requires WellFormed(env, s) && Inv(env, s) && AllListed(env, s)
    ensures AllListed(env, DecideStep(env, s, f, tear))
  {
    var g, c, t := s.files[f].group, AskedFor(env, s, f), DecideStep(env, s, f, tear);
    DecideLeaves(env, s, f, tear);
    if GrantedNow(env, s, f) { CommitLists(s, c, s.files[f].loc.required, tear); }
    var u := if GrantedNow(env, s, f) then Commit(s, c, s.files[f].loc.required, tear) else s;
    SendDownLists(u, g, c, f);
    CrossedOutOn(s, u, t, g, f);
    LeavesList(env, s, t, f, g);
  }

  lemma AskedLists(env: Env, s: State, f: FileId, tear: Tear)
    requires Enabled(env, s, Decide(f, tear)) && s.files[f].loc.Asking?
    requires WellFormed(env, s) && Inv(env, s) && AllListed(env, s)
    ensures AllListed(env, DecideStep(env, s, f, tear))
  {
    var t := DecideStep(env, s, f, tear);
    DecideLeaves(env, s, f, tear);
    if GrantedNow(env, s, f) { CommitLists(s, s.files[f].group, s.files[f].loc.required, tear); }
    assert t.files[f].loc in {Granted, Out};
    StillListed(env, s, t, f);
  }

  lemma CommitLists(s: State, g: GroupId, required: int, tear: Tear)
    requires g < |s.groups| == |s.bank.accounts| && ParentsBelow(s.groups)
    ensures ListsStay(s, Commit(s, g, required, tear))
  {}

  /** A digest is registered, unless it is a symlink's. */
  lemma RegisterLists(env: Env, s: State, f: FileId)
    requires Enabled(env, s, Register(f))
    requires WellFormed(env, s) && Inv(env, s) && AllListed(env, s)
    ensures AllListed(env, RegisterStep(env, s, f))
  {
    var t := RegisterStep(env, s, f);
    IncrementLeaves(env, s, Register(f));
    assert Place(env, s.files[f], env.files[f], f, s.groups);
    forall i | 0 <= i < |t.groups| ensures TwinsListed(env, t, i) {
      assert TwinsListed(env, s, i);
      forall h: FileId | h != f ensures InTheMaking(env, t, h, i) <==> InTheMaking(env, s, h, i) {}
    }
  }

  lemma FreeLists(env: Env, s: State, g: GroupId)
    requires g < |s.groups| && HeldInRange(s.files, s.groups)
    requires Inv(env, s)
    ensures ListsStay(s, FreeGroup(env, s, g))
  {
    assert Queue(s.files, s.groups[g], g);
    DiscardAllEffect(env, SetGroup(s, g, s.groups[g].(stage := Freed, held := [])), s.groups[g].held);
  }

  lemma FileStepLists(env: Env, s: State, step: Step)
    requires Enabled(env, s, step) && Actor(s, step) < |s.files|
    requires WellFormed(env, s) && Inv(env, s) && AllListed(env, s)
    ensures AllListed(env, Apply(env, s, step))
  {
    if step.Admit? {
      AdmitLists(env, s, step.f);
    } else if step.Ask? {
      AskLists(env, s, step.f, step.count);
    } else if step.Decide? {
      DecideLists(env, s, step.f, step.tear);
    } else if step.Sift? {
      SiftLists(env, s, step.f, s.files[step.f].loc.ok);
    } else if step.Abort? {
      SiftLists(env, s, step.f, false);
    } else if step.Register? {
      RegisterLists(env, s, step.f);
    } else {
      IncrementLeaves(env, s, step);
      StillListed(env, s, Apply(env, s, step), step.f);
    }
  }

  lemma StepLists(env: Env, s: State, step: Step)
    requires Enabled(env, s, step)
    requires WellFormed(env, s) && Inv(env, s) && AllListed(env, s)
    ensures AllListed(env, Apply(env, s, step))
  {
    if Actor(s, step) < |s.files| {
      FileStepLists(env, s, step);
    } else {
      GroupLeaves(env, s, step, |s.files|);
      GroupStepLists(env, s, step);
      StillListed(env, s, Apply(env, s, step), |s.files|);
    }
  }

  lemma GroupStepLists(env: Env, s: State, step: Step)
    requires Enabled(env, s, step) && Actor(s, step) >= |s.files|
    requires WellFormed(env, s) && Inv(env, s)
    ensures ListsStay(s, Apply(env, s, step))
  {
    if step.Report? || (step.Dispose? && s.groups[step.g].status != Dormant) {
      assert step.Dispose? ==> GroupShape(env, s.groups, step.g);
      FreeLists(env, s, step.g);
    } else {
      StageStepLists(env, s, step);
    }
  }

  lemma StageStepLists(env: Env, s: State, step: Step)
    requires Enabled(env, s, step) && WellFormed(env, s)
    requires step in {Close, Launch, Count} || step.Orphan? || step.ReturnMemory? || step.Clear?
             || (step.Dispose? && s.groups[step.g].status == Dormant)
    ensures ListsStay(s, Apply(env, s, step))
  {}

  /**
   * In every run a group lists exactly the paranoid digests that are in the making for it, so that these, and
   * no others, are told of a new child group's digest; symlinks are read at once and are never listed.
   */
  lemma {:induction false} TwinsKnown(env: Env, run: seq<State>, steps: seq<Step>, i: nat, g: GroupId)
    requires IsRun(env, run, steps) && i < |run|
    requires Sane(env)
    ensures AllListed(env, run[i])
    ensures g < |run[i].groups| ==>
      forall f: FileId :: f in run[i].groups[g].inProgress <==>
        && f < |env.files| && env.paranoid && !env.files[f].isSymlink
        && f < |run[i].files| && run[i].files[f].group == g
        && (run[i].files[f].loc == Ready || run[i].files[f].loc == Sizing || run[i].files[f].loc.Hashed?
            || run[i].files[f].loc == Entering || run[i].files[f].loc.Pushing?)
  {
    RunInv(env, run, steps, i);
    if i > 0 {
      TwinsKnown(env, run, steps, i - 1, g);
      RunInv(env, run, steps, i - 1);
      assert Joined(env, run[i - 1], steps[i - 1], run[i - 1 + 1]);
      StepLists(env, run[i - 1], steps[i - 1]);
    }
    if g < |run[i].groups| { assert TwinsListed(env, run[i], g); }
  }
}
