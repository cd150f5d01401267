/** The invariant holds in every state of every run. */
module SieveRun {
  import opened Common
  import opened SieveState
  import opened SieveInvariant
  import opened SievePush
  import opened SieveSteps
  import MemoryBank

  // ----- finalising -----

  lemma CallFinaliseCore(env: Env, s: State, g: GroupId)
    requires g < |s.groups| && s.groups[g].stage == Live && Unneeded(s.groups[g])
    requires Core(env, s)
    ensures Core(env, CallFinalise(s, g))
  {
    var t := CallFinalise(s, g);
    assert GroupShape(env, s.groups, g) && GroupTally(env, s.groups[g]);
    StagePlaces(env, s.files, s.groups, g, t.groups[g]);
    GroupStructure(env, s.files, s.groups, g, t.groups[g]);
    forall i | 0 <= i < |t.groups| ensures AccountLinked(t.bank.accounts[i], t.groups[i]) {
      assert AccountLinked(s.bank.accounts[i], s.groups[i]);
    }
  }

  lemma FinaliseIfUnneeded(env: Env, s: State, g: GroupId)
    requires g < |s.groups| && s.groups[g].stage == Live && Needed(s, Some(g)) && s.open != Some(g)
    requires Core(env, s)
    ensures var t := EndIfUnneeded(s, g);
      Core(env, t) && Needed(t, None) && t.files == s.files && t.started == s.started
      && (Peopled(s.groups) ==> Peopled(t.groups))
  {
    if Unneeded(s.groups[g]) { CallFinaliseCore(env, s, g); }
  }

  // ----- preprocessing -----

  ghost predicate SettledBut(files: seq<File>, started: bool, f: FileId) {
    && (forall h :: 0 <= h < |files| && h != f ==> files[h].loc != Moving)
    && (!started ==> forall h :: 0 <= h < |files| && h != f && (Waits(files[h].loc) || WasRead(files[h].loc)) ==>
          files[h].loc == Out)
  }

  ghost predicate PeopledBut(gs: seq<Group>, c: GroupId) {
    forall g :: 0 <= g < |gs| && g != c && !IsHashing(gs[g].status) && gs[g].stage != Freed ==> gs[g].held != []
  }

  lemma PushSettled(s: State, t: State, g: GroupId, f: FileId)
    requires g < |s.groups| && f < |s.files| && Pushed(s, t, g, f)
    requires SettledBut(s.files, s.started, f) && PeopledBut(s.groups, g)
    ensures Settled(t.files, t.started) && Peopled(t.groups)
  {}

  lemma AdmitOpen(env: Env, u: State, f: FileId, g: GroupId)
    requires f < |u.files| == |env.files| && u.files[f].loc == Fresh && |u.groups| == |u.bank.accounts|
    requires u.open == Some(g) && g < |u.groups| && u.groups[g].fileSize == |env.files[f].content|
    requires Core(env, u) && Needed(u, None) && Settled(u.files, u.started) && PeopledBut(u.groups, g)
    ensures Inv(env, Push(env, Enter(env, u, f, g), g, f))
  {
    EnterCore(env, u, f, g);
    EnteredInv(env, Enter(env, u, f, g), f, g);
  }

  lemma EnteredInv(env: Env, v: State, f: FileId, g: GroupId)
    requires Arriving(env, v, g, f) && |v.groups| == |v.bank.accounts| && v.open == Some(g)
    requires Needed(v, None) && SettledBut(v.files, v.started, f) && PeopledBut(v.groups, g)
    requires Core(env, v)
    ensures Inv(env, Push(env, v, g, f))
  {
    PushCore(env, v, g, f);
    assert Queue(v.files, v.groups[g], g);
    PushSettled(v, Push(env, v, g, f), g, f);
  }

  lemma AdmitInv(env: Env, s: State, f: FileId)
    requires Enabled(env, s, Admit(f))
    requires WellFormed(env, s) && Inv(env, s)
    ensures Inv(env, AdmitStep(env, s, f))
  {
    assert Place(env, s.files[f], env.files[f], f, s.groups);
    if s.open.Some? {
      AdmitOpen(env, s, f, s.open.value);
    } else {
      AppendRootCore(env, s, f);
      AdmitOpen(env, AppendGroup(s, NewGroup(env, s, f, None, 0)).(open := Some(|s.groups|)), f, |s.groups|);
    }
  }

  lemma CloseInv(env: Env, s: State)
    requires s.open.Some?
    requires Inv(env, s)
    ensures Inv(env, CloseStep(s))
  {
    var g := s.open.value;
    var u := s.(open := None);
    if s.groups[g].status == Dormant {
      assert GroupShape(env, s.groups, g);
      DormantNotPending(env, s, g);
      FinaliseIfUnneeded(env, u, g);
    } else {
      assert GroupShape(env, s.groups, g);
    }
  }

  lemma DormantNotPending(env: Env, s: State, g: GroupId)
    requires g < |s.groups| && !IsHashing(s.groups[g].status)
    requires Core(env, s)
    ensures s.groups[g].numPending == 0
  {
    assert Queue(s.files, s.groups[g], g);
    forall f | 0 <= f < |s.files| ensures !IsPending(s.files[f], g) {
      assert Place(env, s.files[f], env.files[f], f, s.groups);
    }
    assert PendingFiles(s.files, g) == {};
  }

  // ----- sifting -----

  /** A file of a live group whose increment is hashed. */
  ghost predicate Sifted(env: Env, s: State, g: GroupId, f: FileId) {
    && g < |s.groups| == |s.bank.accounts| && f < |s.files| == |env.files|
    && ParentsBelow(s.groups) && ChildrenAbove(s.groups)
    && s.groups[g].stage == Live && IsHashing(s.groups[g].status) && s.groups[g].nextOffset != 0
    && (env.paranoid ==> s.groups[g].status == Hashing)
    && s.files[f].group == g && s.files[f].hashOffset == s.groups[g].nextOffset
    && |env.files[f].content| == s.groups[g].fileSize
    && OnTrack(env, s.groups, f, g)
  }

  ghost predicate HasChild(env: Env, s: State, g: GroupId, f: FileId, c: GroupId) {
    && g < |s.groups| && f < |env.files|
    && KeyOf(env, f, s.groups[g]) in s.groups[g].children && s.groups[g].children[KeyOf(env, f, s.groups[g])] == c
  }

  /** The child group of a file's digest is live, and the file belongs there. */
  lemma ChildFits(env: Env, s: State, g: GroupId, f: FileId, c: GroupId)
    requires Sifted(env, s, g, f) && HasChild(env, s, g, f, c)
    requires Core(env, s)
    ensures g < c < |s.groups| && s.groups[c].stage == Live && s.groups[c].parent == Some(g)
    ensures s.groups[c].hashOffset == s.groups[g].nextOffset && s.groups[c].fileSize == s.groups[g].fileSize
    ensures OnTrack(env, s.groups, f, c)
    ensures s.groups[c].status in {Dormant, StartHashing, Hashing}
  {
    assert ChildShape(s.groups, g, KeyOf(env, f, s.groups[g])) && GroupShape(env, s.groups, c);
  }

  lemma ChildCore(env: Env, s: State, g: GroupId, f: FileId)
    requires Sifted(env, s, g, f)
    requires Core(env, s)
    ensures var (v, c) := ChildFor(env, s, g, f);
      Core(env, v) && Sifted(env, v, g, f) && HasChild(env, v, g, f, c)
  {
    var (v, c) := ChildFor(env, s, g, f);
    if KeyOf(env, f, s.groups[g]) !in s.groups[g].children {
      AppendChildCore(env, s, g, f);
      OnTrackExtends(env, s.groups, v.groups, f, g);
    }
  }

  /** What finding or making the child group changes. */
  lemma ChildFrame(env: Env, s: State, g: GroupId, f: FileId)
    requires env.pageSize > 0 && Sifted(env, s, g, f) && Needed(s, None) && Peopled(s.groups) && s.started
    ensures var (v, c) := ChildFor(env, s, g, f);
      && Needed(v, None) && PeopledBut(v.groups, c) && c != g && v.groups[g].parent == s.groups[g].parent
      && v.groups[g].numPending == s.groups[g].numPending && v.files == s.files
      && v.open == s.open && v.started == s.started
  {}

  lemma SiftedUnpends(env: Env, s: State, g: GroupId, f: FileId, c: GroupId)
    requires Sifted(env, s, g, f) && HasChild(env, s, g, f, c) && IsPending(s.files[f], g)
    requires Core(env, s)
    ensures var t := Unpend(s, g, f); Core(env, t) && Arriving(env, t, c, f)
  {
    var t := Unpend(s, g, f);
    UnpendCore(env, s, g, f);
    OnTrackExtends(env, s.groups, t.groups, f, g);
    ChildFits(env, t, g, f, c);
  }

  lemma SiftNeeded(s: State, u: State, g: GroupId, f: FileId, c: GroupId)
    requires c < |s.groups| && g < |s.groups| && g != c && f < |s.files| && Needed(s, None)
    requires Pushed(Unpend(s, g, f), u, c, f) && s.groups[c].numPending >= 0 && s.open == None
    ensures Needed(u, Some(g)) && u.groups[g].stage == s.groups[g].stage
  {}

  /** The last part of a sift: the file is in the child group, and its own group may be done. */
  lemma SiftDown(env: Env, s: State, g: GroupId, f: FileId, c: GroupId)
    requires Sifted(env, s, g, f) && HasChild(env, s, g, f, c) && WasRead(s.files[f].loc)
    requires Needed(s, None) && PeopledBut(s.groups, c) && Settled(s.files, s.started) && s.started && s.open == None
    requires Core(env, s)
    ensures Inv(env, PushDown(env, s, g, c, f))
  {
    var t := Unpend(s, g, f);
    SiftedUnpends(env, s, g, f, c);
    PushCore(env, t, c, f);
    var u := Push(env, t, c, f);
    PushSettled(t, u, c, f);
    assert Queue(s.files, s.groups[c], c);
    SiftNeeded(s, u, g, f, c);
    FinaliseIfUnneeded(env, u, g);
  }

  /** The file stays in the hands of the sifting thread, and the held files of the child group are released. */
  lemma BeginPushCore(env: Env, s: State, g: GroupId, f: FileId, c: GroupId)
    requires Sifted(env, s, g, f) && HasChild(env, s, g, f, c) && s.files[f].loc.Hashed?
    requires Asks(env, s.groups[c], f)
    requires Core(env, s)
    ensures Core(env, BeginPush(env, s, c, f))
  {
    ChildFits(env, s, g, f, c);
    assert GroupShape(env, s.groups, c) && Queue(s.files, s.groups[c], c);
    var grp := CountedIn(env, s.groups[c], f);
    assert GroupTally(env, s.groups[c]);
    HashedIfNeeded(env, s.groups[c], f);
    Released(env, s, c, grp);
    var u := ReleaseHeld(SetGroup(s, c, grp), c);
    assert u.groups == s.groups[c := u.groups[c]] && u.groups[c].status == StartHashing;
    assert u.files[f] == s.files[f];
    EnteringCore(env, u, g, f, c, Entering);
  }

  /** A hashed file is on its way into a child group that starts to hash. */
  lemma EnteringCore(env: Env, u: State, g: GroupId, f: FileId, c: GroupId, loc: Loc)
    requires env.paranoid && f < |u.files| == |env.files| && u.files[f].group == g
    requires WasRead(u.files[f].loc) && InHand(loc) && (loc.Pushing? ==> loc.required > 0)
    requires HasChild(env, u, g, f, c) && c < |u.groups| && IsHashing(u.groups[c].status)
    requires Core(env, u)
    ensures Core(env, MoveTo(u, f, loc))
  {
    assert Place(env, u.files[f], env.files[f], f, u.groups) && OnCourse(env, u.groups, u.files[f], f);
    MoveCore(env, u, f, loc);
  }

  lemma BeginPushInv(env: Env, s: State, g: GroupId, f: FileId, c: GroupId)
    requires Sifted(env, s, g, f) && HasChild(env, s, g, f, c) && s.files[f].loc.Hashed?
    requires Asks(env, s.groups[c], f)
    requires Needed(s, None) && PeopledBut(s.groups, c) && Settled(s.files, s.started) && s.started
    requires Core(env, s)
    ensures Inv(env, BeginPush(env, s, c, f))
  {
    BeginPushCore(env, s, g, f, c);
    ChildFits(env, s, g, f, c);
    var t := BeginPush(env, s, c, f);
    assert t.groups == s.groups[c := t.groups[c]] && t.groups[c].parent == Some(g);
    assert Settled(t.files, t.started);
  }

  /** A hashed file belongs into the child group of its digest. */
  lemma HashedFits(env: Env, s: State, f: FileId)
    requires f < |s.files| && s.files[f].loc.Hashed?
    requires WellFormed(env, s) && Inv(env, s)
    ensures var g := s.files[f].group;
      && Sifted(env, s, g, f) && IsPending(s.files[f], g)
      && var (v, c) := ChildFor(env, s, g, f);
      && Core(env, v) && Sifted(env, v, g, f) && HasChild(env, v, g, f, c)
      && g < c < |v.groups| && v.groups[c].stage == Live && Queue(v.files, v.groups[c], c)
  {
    var g := s.files[f].group;
    assert Place(env, s.files[f], env.files[f], f, s.groups) && OnCourse(env, s.groups, s.files[f], f);
    ChildCore(env, s, g, f);
    var (v, c) := ChildFor(env, s, g, f);
    ChildFits(env, v, g, f, c);
    assert Queue(v.files, v.groups[c], c);
  }

  lemma SiftInv(env: Env, s: State, f: FileId, ok: bool)
    requires s.started && f < |s.files|
    requires s.files[f].loc == Out || s.files[f].loc.Hashed?
    requires ok ==> s.files[f].loc.Hashed?
    requires WellFormed(env, s) && Inv(env, s)
    ensures Inv(env, SiftStep(env, s, f, ok))
  {
    var g := s.files[f].group;
    if !ok {
      assert Place(env, s.files[f], env.files[f], f, s.groups);
      var t := Unpend(s, g, f);
      UnpendCore(env, s, g, f);
      DiscardCore(env, t, f);
      FinaliseIfUnneeded(env, Discard(env, t, f, Ignored), g);
    } else {
      var (v, c) := ChildFor(env, s, g, f);
      HashedFits(env, s, f);
      ChildFrame(env, s, g, f);
      if Asks(env, v.groups[c], f) {
        BeginPushInv(env, v, g, f, c);
      } else {
        SiftDown(env, v, g, f, c);
      }
    }
  }

  // ----- requests for memory -----

  /** A pending file moves on inside its group. */
  lemma MoveCore(env: Env, s: State, f: FileId, loc: Loc)
    requires f < |s.files| == |env.files| && IsPending(s.files[f], s.files[f].group)
    requires Waits(loc) || WasRead(loc)
    requires Place(env, s.files[f].(loc := loc), env.files[f], f, s.groups)
    requires OnCourse(env, s.groups, s.files[f].(loc := loc), f)
    requires Core(env, s)
    ensures Core(env, MoveTo(s, f, loc))
  {
    var t := MoveTo(s, f, loc);
    AdvanceStructure(env, s.files, s.groups, f, t.files[f]);
    BankedFrame(env, s, t);
    SameLeft(env.files, s.files, t.files);
  }

  lemma WaitCore(env: Env, s: State, f: FileId, loc: Loc)
    requires f < |s.files| == |env.files| && IsPending(s.files[f], s.files[f].group)
    requires Waits(loc) && Place(env, s.files[f].(loc := loc), env.files[f], f, s.groups)
    requires Core(env, s)
    ensures Core(env, MoveTo(s, f, loc))
  {
    assert OnCourse(env, s.groups, s.files[f], f) by {
      assert Place(env, s.files[f], env.files[f], f, s.groups);
    }
    MoveCore(env, s, f, loc);
  }

  lemma AskInv(env: Env, s: State, f: FileId, count: nat)
    requires Enabled(env, s, Ask(f, count))
    requires WellFormed(env, s) && Inv(env, s)
    ensures Inv(env, AskStep(env, s, f, count))
  {
    if s.files[f].loc == Entering {
      AskEnteringInv(env, s, f, count);
    } else {
      var g := s.files[f].group;
      assert Place(env, s.files[f], env.files[f], f, s.groups) && GroupShape(env, s.groups, g);
      RequiredPositive(s.groups[g], count);
      WaitCore(env, s, f, AskStep(env, s, f, count).files[f].loc);
    }
  }

  /** The test in a push: the child group may have got its memory meanwhile. */
  lemma AskEnteringInv(env: Env, s: State, f: FileId, count: nat)
    requires Enabled(env, s, Ask(f, count)) && s.files[f].loc == Entering
    requires WellFormed(env, s) && Inv(env, s)
    ensures Inv(env, AskStep(env, s, f, count))
  {
    InHandFits(env, s, f);
    var g, c := s.files[f].group, AskedFor(env, s, f);
    ChildFits(env, s, g, f, c);
    assert GroupShape(env, s.groups, c);
    if IsCommitted(s.groups[c].status) {
      EndPushInv(env, s, g, f, c);
    } else {
      RequiredPositive(s.groups[c], count);
      EnteringCore(env, s, g, f, c, Pushing(Required(s.groups[c], count)));
    }
  }

  lemma AskedInv(env: Env, s: State, f: FileId, tear: Tear)
    requires Enabled(env, s, Decide(f, tear)) && s.files[f].loc.Asking?
    requires WellFormed(env, s) && Inv(env, s)
    ensures Inv(env, DecideStep(env, s, f, tear))
  {
    assert Place(env, s.files[f], env.files[f], f, s.groups);
    if GrantedNow(env, s, f) {
      GrantedInv(env, s, f, tear);
    } else {
      WaitCore(env, s, f, Out);
    }
  }

  lemma GrantedInv(env: Env, s: State, f: FileId, tear: Tear)
    requires Enabled(env, s, Decide(f, tear)) && s.files[f].loc.Asking? && GrantedNow(env, s, f)
    requires WellFormed(env, s) && Inv(env, s)
    ensures Inv(env, MoveTo(Commit(s, s.files[f].group, s.files[f].loc.required, tear), f, Granted))
  {
    var g := s.files[f].group;
    assert Place(env, s.files[f], env.files[f], f, s.groups);
    var t := Commit(s, g, s.files[f].loc.required, tear);
    CommitCore(env, s, g, s.files[f].loc.required, tear);
    assert Place(env, t.files[f], env.files[f], f, t.groups);
    WaitCore(env, t, f, Granted);
  }

  /** A file being pushed is where it can be sifted down, whatever the bank says. */
  lemma InHandFits(env: Env, s: State, f: FileId)
    requires f < |s.files| && InHand(s.files[f].loc) && s.started
    requires WellFormed(env, s) && Inv(env, s)
    ensures var g, c := s.files[f].group, AskedFor(env, s, f);
      && Sifted(env, s, g, f) && HasChild(env, s, g, f, c) && c < |s.groups| && IsHashing(s.groups[c].status)
      && env.paranoid && (s.files[f].loc.Pushing? ==> s.files[f].loc.required > 0)
  {
    assert Place(env, s.files[f], env.files[f], f, s.groups) && OnCourse(env, s.groups, s.files[f], f);
  }

  lemma CommitFits(env: Env, s: State, g: GroupId, f: FileId, c: GroupId, required: nat, tear: Tear)
    requires Sifted(env, s, g, f) && HasChild(env, s, g, f, c) && c < |s.groups|
    requires Needed(s, None) && Peopled(s.groups) && env.paranoid && IsHashing(s.groups[c].status)
    requires tear != MemoryBank.Whole ==> s.groups[g].stage == Returned
    requires Core(env, s)
    ensures var t := Commit(s, c, required, tear);
      && Core(env, t) && Needed(t, None) && Peopled(t.groups)
      && Sifted(env, t, g, f) && HasChild(env, t, g, f, c) && t.groups[c].status == Hashing
  {
    ChildFits(env, s, g, f, c);
    CommitCore(env, s, c, required, tear);
    var t := Commit(s, c, required, tear);
    OnTrackExtends(env, s.groups, t.groups, f, g);
  }

  lemma SendOutPushed(s: State, g: GroupId, f: FileId)
    requires g < |s.groups| && f < |s.files| && s.files[f].loc.Moving? && IsHashing(s.groups[g].status)
    ensures Pushed(s, SendOut(s, g, f), g, f)
  {}

  /** The file is sent on to its child group. */
  lemma EndPushInv(env: Env, s: State, g: GroupId, f: FileId, c: GroupId)
    requires Sifted(env, s, g, f) && HasChild(env, s, g, f, c) && InHand(s.files[f].loc)
    requires c < |s.groups| && IsHashing(s.groups[c].status)
    requires Needed(s, None) && Peopled(s.groups) && Settled(s.files, s.started) && s.started && s.open == None
    requires Core(env, s)
    ensures Inv(env, SendDown(s, g, c, f))
  {
    var t := Unpend(s, g, f);
    ChildFits(env, s, g, f, c);
    SiftedUnpends(env, s, g, f, c);
    SentOut(env, t, c, f);
    SendOutPushed(t, c, f);
    var u := SendOut(t, c, f);
    PushSettled(t, u, c, f);
    assert Queue(s.files, s.groups[c], c);
    SiftNeeded(s, u, g, f, c);
    FinaliseIfUnneeded(env, u, g);
  }

  lemma PushedInv(env: Env, s: State, f: FileId, tear: Tear)
    requires Enabled(env, s, Decide(f, tear)) && s.files[f].loc.Pushing?
    requires WellFormed(env, s) && Inv(env, s)
    ensures Inv(env, DecideStep(env, s, f, tear))
  {
    InHandFits(env, s, f);
    var g, c := s.files[f].group, AskedFor(env, s, f);
    ChildFits(env, s, g, f, c);
    if GrantedNow(env, s, f) {
      CommitFits(env, s, g, f, c, s.files[f].loc.required, tear);
      EndPushInv(env, Commit(s, c, s.files[f].loc.required, tear), g, f, c);
    } else {
      EndPushInv(env, s, g, f, c);
    }
  }

  lemma DecideInv(env: Env, s: State, f: FileId, tear: Tear)
    requires Enabled(env, s, Decide(f, tear))
    requires WellFormed(env, s) && Inv(env, s)
    ensures Inv(env, DecideStep(env, s, f, tear))
  {
    if s.files[f].loc.Asking? { AskedInv(env, s, f, tear); } else { PushedInv(env, s, f, tear); }
  }

  // ----- reading -----

  /** Planning the first increment of a group. */
  lemma PlanStructure(env: Env, files: seq<File>, gs: seq<Group>, g: GroupId, grp: Group)
    requires Structure(env, files, gs) && g < |gs|
    requires IsHashing(gs[g].status)
    requires grp == gs[g].(nextOffset := PlannedOffset(env, gs[g]))
    ensures Structure(env, files, gs[g := grp])
  {
    var gs' := gs[g := grp];
    assert GroupShape(env, gs, g) && GroupTally(env, gs[g]);
    OffsetAdvances(env.pageSize, env.paranoid, gs[g].fileSize, gs[g].hashOffset, gs[g].offsetFactor);
    GroupStructure(env, files, gs, g, grp);
    forall i | 0 <= i < |gs'| ensures Queue(files, gs'[i], i) {
      assert Queue(files, gs[i], i);
    }
    forall f | 0 <= f < |files| ensures Place(env, files[f], env.files[f], f, gs') {
      assert Place(env, files[f], env.files[f], f, gs);
    }
  }

  /** A pending file moves on inside its group. */
  lemma AdvanceStructure(env: Env, files: seq<File>, gs: seq<Group>, f: FileId, x: File)
    requires Structure(env, files, gs) && f < |files|
    requires IsPending(files[f], files[f].group) && IsPending(x, files[f].group)
    requires Place(env, x, env.files[f], f, gs) && OnCourse(env, gs, x, f)
    ensures Structure(env, files[f := x], gs)
  {
    RelocatePlaces(env, files, gs, f, x);
    var files' := files[f := x];
    forall h | 0 <= h < |files| && files'[h].loc != Fresh ensures OnCourse(env, gs, files'[h], h) {
      if h != f { assert OnCourse(env, gs, files[h], h); }
    }
  }

  lemma InProgressStructure(env: Env, files: seq<File>, gs: seq<Group>, g: GroupId, f: FileId)
    requires Structure(env, files, gs) && g < |gs| && f < |files| && IsPending(files[f], g)
    ensures Structure(env, files, gs[g := gs[g].(inProgress := gs[g].inProgress + {f})])
  {
    var grp := gs[g].(inProgress := gs[g].inProgress + {f});
    var gs' := gs[g := grp];
    assert GroupShape(env, gs, g) && GroupTally(env, gs[g]);
    GroupStructure(env, files, gs, g, grp);
    forall i | 0 <= i < |gs'| ensures Queue(files, gs'[i], i) {
      assert Queue(files, gs[i], i);
    }
    forall h | 0 <= h < |files| ensures Place(env, files[h], env.files[h], h, gs') {
      assert Place(env, files[h], env.files[h], h, gs);
    }
  }

  lemma PlanInv(env: Env, s: State, f: FileId)
    requires Enabled(env, s, Plan(f))
    requires WellFormed(env, s) && Inv(env, s)
    ensures Inv(env, PlanStep(env, s, f))
  {
    var g := s.files[f].group;
    assert Place(env, s.files[f], env.files[f], f, s.groups) && GroupShape(env, s.groups, g);
    var grp := s.groups[g].(nextOffset := PlannedOffset(env, s.groups[g]));
    OffsetAdvances(env.pageSize, env.paranoid, grp.fileSize, grp.hashOffset, grp.offsetFactor);
    PlanStructure(env, s.files, s.groups, g, grp);
    var t := SetGroup(s, g, grp);
    BankedFrame(env, s, t);
    assert Place(env, t.files[f], env.files[f], f, t.groups);
    WaitCore(env, t, f, Planned);
  }

  lemma SizeInv(env: Env, s: State, f: FileId)
    requires Enabled(env, s, Size(f))
    requires WellFormed(env, s) && Inv(env, s)
    ensures Inv(env, MoveTo(s, f, Sizing))
  {
    assert Place(env, s.files[f], env.files[f], f, s.groups);
    WaitCore(env, s, f, Sizing);
  }

  lemma RegisterInv(env: Env, s: State, f: FileId)
    requires Enabled(env, s, Register(f))
    requires WellFormed(env, s) && Inv(env, s)
    ensures Inv(env, RegisterStep(env, s, f))
  {
    var g := s.files[f].group;
    assert Place(env, s.files[f], env.files[f], f, s.groups) && GroupShape(env, s.groups, g);
    if env.files[f].isSymlink {
      WaitCore(env, s, f, Ready);
    } else {
      InProgressCore(env, s, g, f);
      var t := SetGroup(s, g, s.groups[g].(inProgress := s.groups[g].inProgress + {f}));
      assert Place(env, t.files[f], env.files[f], f, t.groups);
      WaitCore(env, t, f, Ready);
    }
  }

  lemma InProgressCore(env: Env, s: State, g: GroupId, f: FileId)
    requires g < |s.groups| && f < |s.files| && IsPending(s.files[f], g)
    requires Core(env, s)
    ensures Core(env, SetGroup(s, g, s.groups[g].(inProgress := s.groups[g].inProgress + {f})))
  {
    InProgressStructure(env, s.files, s.groups, g, f);
    BankedFrame(env, s, SetGroup(s, g, s.groups[g].(inProgress := s.groups[g].inProgress + {f})));
  }

  /**
   * Symlinks are charged with their whole size: right exactly when the increment
   * is the whole file, which short targets ensure in the first generation.
   */
  lemma SymlinkReadWhole(env: Env, gs: seq<Group>, g: GroupId)
    requires env.pageSize > 0 && Shape(env, gs) && g < |gs| && IsHashing(gs[g].status)
    requires gs[g].fileSize <= Min(2 * BALANCED_PAGES * env.pageSize, PARANOID_BYTES)
    ensures gs[g].origin == None && PlannedOffset(env, gs[g]) == gs[g].fileSize
  {
    assert GroupShape(env, gs, g);
    if gs[g].origin.Some? {
      var p := gs[g].origin.value;
      assert ChildShape(gs, p, gs[g].key) && GroupShape(env, gs, p);
      SymlinkReadWhole(env, gs, p);
      assert false;
    }
    FirstIncrement(env.pageSize);
  }

  lemma FirstIncrement(pageSize: nat)
    requires pageSize > 0
    ensures pageSize * BALANCED_PAGES * 1 / pageSize == BALANCED_PAGES
  {
    assert pageSize * BALANCED_PAGES == BALANCED_PAGES * pageSize;
  }

  lemma ReadStructure(env: Env, s: State, f: FileId, ok: bool)
    requires Enabled(env, s, Read(f, ok))
    requires WellFormed(env, s) && Core(env, s)
    ensures var t := ReadStep(env, s, f, ok); Structure(env, t.files, t.groups)
  {
    var g := s.files[f].group;
    assert Place(env, s.files[f], env.files[f], f, s.groups) && GroupShape(env, s.groups, g);
    var t := ReadStep(env, s, f, ok);
    OffsetAdvances(env.pageSize, env.paranoid, s.groups[g].fileSize, s.groups[g].hashOffset, s.groups[g].offsetFactor);
    PlanStructure(env, s.files, s.groups, g, t.groups[g]);
    assert t.groups == s.groups[g := t.groups[g]];
    HashedStructure(env, s.files, t.groups, f, t.files[f]);
  }

  lemma HashedStructure(env: Env, files: seq<File>, gs: seq<Group>, f: FileId, x: File)
    requires Structure(env, files, gs) && f < |files| && files[f].loc == Sizing && files[f].group < |gs|
    requires x.loc.Hashed? && x.group == files[f].group && x.hashOffset == gs[x.group].nextOffset != 0
    requires x.hashOffset <= gs[x.group].fileSize
    ensures Structure(env, files[f := x], gs)
  {
    assert Place(env, files[f], env.files[f], f, gs) && OnCourse(env, gs, files[f], f);
    AdvanceStructure(env, files, gs, f, x);
  }

  /** The test of `rm_shred_get_read_size` for reading the rest of the file at once, and its paranoid limit. */
  predicate InOneGo(env: Env, grp: Group)
    requires env.pageSize > 0
  {
    var balanced := env.pageSize * BALANCED_PAGES;
    && grp.hashOffset + Max(balanced * grp.offsetFactor / env.pageSize, 1) * env.pageSize + balanced >= grp.fileSize
    && (env.paranoid ==> grp.fileSize - grp.hashOffset <= PARANOID_BYTES)
  }

  lemma RestAtOnce(env: Env, grp: Group)
    requires env.pageSize > 0 && grp.hashOffset <= grp.fileSize
    ensures PlannedOffset(env, grp) == grp.fileSize <==> InOneGo(env, grp)
  {}

  /** Reading keeps the counters right exactly if a symlink is read from its start in one go. */
  lemma ReadConserves(env: Env, s: State, f: FileId, ok: bool)
    requires WellFormed(env, s) && Enabled(env, s, Read(f, ok)) && Conserved(env, s)
    requires var grp := s.groups[s.files[f].group];
      s.files[f].hashOffset == grp.hashOffset < grp.fileSize == |env.files[f].content|
    ensures Conserved(env, ReadStep(env, s, f, ok)) <==>
      (env.files[f].isSymlink ==> s.files[f].hashOffset == 0 && InOneGo(env, s.groups[s.files[f].group]))
  {
    var t, grp := ReadStep(env, s, f, ok), s.groups[s.files[f].group];
    SetFile(env.files, s.files, f, t.files[f]);
    var bytes := t.files[f].hashOffset - s.files[f].hashOffset;
    QueuedAppend(s.counters.queue, Adjustment(0, if env.files[f].isSymlink then -|env.files[f].content| else -bytes));
    RestAtOnce(env, grp);
    OffsetAdvances(env.pageSize, env.paranoid, grp.fileSize, grp.hashOffset, grp.offsetFactor);
  }

  lemma ReadCore(env: Env, s: State, f: FileId, ok: bool)
    requires Enabled(env, s, Read(f, ok))
    requires WellFormed(env, s) && Core(env, s)
    ensures Core(env, ReadStep(env, s, f, ok))
  {
    var g := s.files[f].group;
    ReadStructure(env, s, f, ok);
    BankedFrame(env, s, ReadStep(env, s, f, ok));
    assert Place(env, s.files[f], env.files[f], f, s.groups) && GroupShape(env, s.groups, g);
    if env.files[f].isSymlink { SymlinkReadWhole(env, s.groups, g); }
    RestAtOnce(env, s.groups[g]);
    ReadConserves(env, s, f, ok);
  }

  lemma ReadInv(env: Env, s: State, f: FileId, ok: bool)
    requires Enabled(env, s, Read(f, ok))
    requires WellFormed(env, s) && Inv(env, s)
    ensures Inv(env, ReadStep(env, s, f, ok))
  {
    ReadCore(env, s, f, ok);
  }

  // ----- the end of a group -----

  lemma OrphanCore(env: Env, s: State, g: GroupId)
    requires g < |s.groups| && s.groups[g].parent.Some? && ParentsBelow(s.groups)
    requires s.groups[s.groups[g].parent.value].stage == Freed
    requires Core(env, s)
    ensures Core(env, SetGroup(s, g, s.groups[g].(parent := None)))
  {
    var t := SetGroup(s, g, s.groups[g].(parent := None));
    assert GroupShape(env, s.groups, g) && GroupTally(env, s.groups[g]);
    GroupStructure(env, s.files, s.groups, g, t.groups[g]);
    forall i | 0 <= i < |t.groups| ensures Queue(t.files, t.groups[i], i) {
      assert Queue(s.files, s.groups[i], i);
    }
    forall f | 0 <= f < |t.files| ensures Place(env, t.files[f], env.files[f], f, t.groups) {
      assert Place(env, s.files[f], env.files[f], f, s.groups);
    }
    BankedFrame(env, s, t);
  }

  lemma OrphanInv(env: Env, s: State, g: GroupId)
    requires Enabled(env, s, Orphan(g))
    requires WellFormed(env, s) && Inv(env, s)
    ensures Inv(env, OrphanStep(s, g))
  {
    assert GroupShape(env, s.groups, g);
    OrphanCore(env, s, g);
    FinaliseIfUnneeded(env, SetGroup(s, g, s.groups[g].(parent := None)), g);
  }

  lemma ReturnMemoryInv(env: Env, s: State, g: GroupId)
    requires Enabled(env, s, ReturnMemory(g))
    requires WellFormed(env, s) && Inv(env, s)
    ensures Inv(env, ReturnMemoryStep(s, g))
  {
    var t := ReturnMemoryStep(s, g);
    assert GroupShape(env, s.groups, g) && GroupTally(env, s.groups[g])
      && AccountLinked(s.bank.accounts[g], s.groups[g]);
    StagePlaces(env, s.files, s.groups, g, t.groups[g]);
    GroupStructure(env, s.files, s.groups, g, t.groups[g]);
    MemoryBank.ReturnBalanced(s.bank, g, env.memory);
    forall i | 0 <= i < |t.groups| ensures AccountLinked(t.bank.accounts[i], t.groups[i]) {
      assert AccountLinked(s.bank.accounts[i], s.groups[i]);
    }
  }

  lemma {:induction false} DiscardAllEffect(env: Env, s: State, queue: seq<FileId>)
    requires |s.files| == |env.files| && NoDup(queue) && Conserved(env, s)
    requires forall i :: 0 <= i < |queue| ==> queue[i] < |s.files| && s.files[queue[i]].loc == Held
    ensures var t := DiscardAll(env, s, queue);
      && t == s.(files := t.files, counters := t.counters) && |t.files| == |s.files|
      && (forall f :: 0 <= f < |s.files| ==>
            t.files[f] == if f in queue then s.files[f].(loc := Done) else s.files[f])
      && Conserved(env, t)
    decreases |queue|
  {
    if queue != [] {
      var f := queue[0];
      ConservedAdjust(env, s, f, s.files[f].(loc := Done), -1, -(|env.files[f].content| - s.files[f].hashOffset));
      DiscardAllEffect(env, Discard(env, s, f, Done), queue[1..]);
    }
  }

  lemma FreePlaces(env: Env, files: seq<File>, files': seq<File>, gs: seq<Group>, g: GroupId)
    requires Places(env, files, gs) && g < |gs| && gs[g].numPending == 0 && |files'| == |files|
    requires IsHashing(gs[g].status) ==> gs[g].held == []
    requires forall f :: 0 <= f < |files| ==> files'[f] == if f in gs[g].held then files[f].(loc := Done) else files[f]
    ensures Places(env, files', gs[g := gs[g].(stage := Freed, held := [])])
  {
    var gs' := gs[g := gs[g].(stage := Freed, held := [])];
    assert Queue(files, gs[g], g);
    assert PendingFiles(files, g) == {};
    forall i | 0 <= i < |gs'| ensures Queue(files', gs'[i], i) {
      assert Queue(files, gs[i], i);
      assert PendingFiles(files', i) == PendingFiles(files, i);
    }
    forall f | 0 <= f < |files'| ensures Place(env, files'[f], env.files[f], f, gs') {
      assert Place(env, files[f], env.files[f], f, gs);
      assert f !in PendingFiles(files, g);
    }
  }

  lemma FreeStructure(env: Env, s: State, g: GroupId)
    requires g < |s.groups| && HeldInRange(s.files, s.groups)
    requires s.groups[g].stage in {Cleared, Reported}
    requires Core(env, s)
    ensures var t := FreeGroup(env, s, g); Structure(env, t.files, t.groups) && Conserved(env, t)
  {
    var u := SetGroup(s, g, s.groups[g].(stage := Freed, held := []));
    var t := FreeGroup(env, s, g);
    assert GroupShape(env, s.groups, g) && Queue(s.files, s.groups[g], g) && GroupTally(env, s.groups[g]);
    DiscardAllEffect(env, u, s.groups[g].held);
    FreePlaces(env, s.files, t.files, s.groups, g);
    GroupStructure(env, s.files, s.groups, g, t.groups[g]);
    TrackedMoves(env, s.files, t.files, t.groups);
  }

  lemma FreeInv(env: Env, s: State, g: GroupId)
    requires g < |s.groups| == |s.bank.accounts| && HeldInRange(s.files, s.groups)
    requires s.groups[g].stage in {Cleared, Reported}
    requires Inv(env, s)
    ensures Inv(env, FreeGroup(env, s, g))
  {
    var t := FreeGroup(env, s, g);
    FreeStructure(env, s, g);
    assert Queue(s.files, s.groups[g], g);
    DiscardAllEffect(env, SetGroup(s, g, s.groups[g].(stage := Freed, held := [])), s.groups[g].held);
    forall i | 0 <= i < |t.groups| ensures AccountLinked(t.bank.accounts[i], t.groups[i]) {
      assert AccountLinked(s.bank.accounts[i], s.groups[i]);
    }
  }

  lemma ClearInv(env: Env, s: State, g: GroupId)
    requires Enabled(env, s, Clear(g))
    requires WellFormed(env, s) && Inv(env, s)
    ensures Inv(env, ClearStep(s, g))
  {
    var t := ClearStep(s, g);
    TearStructure(env, s.files, s.groups, g);
    assert AccountLinked(s.bank.accounts[g], s.groups[g]);
    MemoryBank.ClearBalanced(s.bank, g, env.memory);
    forall i | 0 <= i < |t.groups| ensures AccountLinked(t.bank.accounts[i], t.groups[i]) {
      assert AccountLinked(s.bank.accounts[i], s.groups[i]);
    }
  }

  lemma ReportInv(env: Env, s: State, g: GroupId, status: Status)
    requires g < |s.groups| == |s.bank.accounts| && s.groups[g].stage == Cleared && s.groups[g].status == Dormant
    requires status == if Qualifies(env.cfg, s.groups[g].tally) then Finishing else Dormant
    requires Inv(env, s)
    ensures Inv(env, SetGroup(s, g, s.groups[g].(stage := Reported, status := status)))
  {
    var t := SetGroup(s, g, s.groups[g].(stage := Reported, status := status));
    assert GroupShape(env, s.groups, g) && GroupTally(env, s.groups[g]);
    StagePlaces(env, s.files, s.groups, g, t.groups[g]);
    GroupStructure(env, s.files, s.groups, g, t.groups[g]);
    forall i | 0 <= i < |t.groups| ensures AccountLinked(t.bank.accounts[i], t.groups[i]) {
      assert AccountLinked(s.bank.accounts[i], s.groups[i]);
    }
  }

  lemma DisposeInv(env: Env, s: State, g: GroupId)
    requires Enabled(env, s, Dispose(g))
    requires WellFormed(env, s) && Inv(env, s)
    ensures Inv(env, DisposeStep(env, s, g))
  {
    assert GroupShape(env, s.groups, g);
    if s.groups[g].status == Dormant {
      ReportInv(env, s, g, if Qualifies(env.cfg, s.groups[g].tally) then Finishing else Dormant);
    } else {
      FreeInv(env, s, g);
    }
  }

  // ----- all steps -----

  lemma CountInv(env: Env, s: State)
    requires s.counters.queue != []
    requires Inv(env, s)
    ensures Inv(env, CountStep(s))
  {}

  lemma GroupStepInv(env: Env, s: State, step: Step)
    requires Enabled(env, s, step)
    requires step.Orphan? || step.ReturnMemory? || step.Clear? || step.Dispose? || step.Report? || step.Count?
    requires WellFormed(env, s) && Inv(env, s)
    ensures Inv(env, Apply(env, s, step))
  {
    match step {
      case Orphan(g) => OrphanInv(env, s, g);
      case ReturnMemory(g) => ReturnMemoryInv(env, s, g);
      case Clear(g) => ClearInv(env, s, g);
      case Dispose(g) => DisposeInv(env, s, g);
      case Report(g) => FreeInv(env, s, g);
      case Count => CountInv(env, s);
    }
  }

  /** Every step of every thread keeps the invariant. */
  lemma StepInv(env: Env, s: State, step: Step)
    requires Enabled(env, s, step)
    requires WellFormed(env, s) && Inv(env, s)
    ensures Inv(env, Apply(env, s, step)) && WellFormed(env, Apply(env, s, step))
  {
    match step {
      case Admit(f) => AdmitInv(env, s, f);
      case Close => CloseInv(env, s);
      case Launch =>
      case Ask(f, count) => AskInv(env, s, f, count);
      case Decide(f, tear) => DecideInv(env, s, f, tear);
      case Plan(f) => PlanInv(env, s, f);
      case Register(f) => RegisterInv(env, s, f);
      case Read(f, ok) => ReadInv(env, s, f, ok);
      case Size(f) => SizeInv(env, s, f);
      case Sift(f) => SiftInv(env, s, f, s.files[f].loc.ok);
      case Abort(f) => SiftInv(env, s, f, false);
      case _ => GroupStepInv(env, s, step);
    }
    InvWellFormed(env, Apply(env, s, step));
  }

  /** The invariant holds in every state of every run, whatever the interleaving. */
  lemma {:induction false} RunInv(env: Env, run: seq<State>, steps: seq<Step>, i: nat)
    requires IsRun(env, run, steps) && i < |run|
    requires Sane(env)
    ensures Inv(env, run[i]) && WellFormed(env, run[i])
  {
    if i == 0 {
      InitialInv(env);
      InvWellFormed(env, run[0]);
    } else {
      RunInv(env, run, steps, i - 1);
      assert Joined(env, run[i - 1], steps[i - 1], run[i - 1 + 1]);
      StepInv(env, run[i - 1], steps[i - 1]);
    }
  }

  lemma ReachableInv(env: Env, s: State)
    requires Sane(env) && Reachable(env, s)
    ensures Inv(env, s) && WellFormed(env, s)
  {
    var run, steps, i :| IsRun(env, run, steps) && 0 <= i < |run| && run[i] == s;
    RunInv(env, run, steps, i);
  }
}
