/**
 * Only requests for memory can go on forever: every other step leaves less to do.
 * As long as no group is charged twice the sieve can be driven to its end.  Once
 * one was, a group can starve.
 */
module SieveTermination {
  import opened Common
  import opened SieveState
  import opened SieveInvariant
  import opened SievePush
  import opened SieveSteps
  import opened SieveRun
  import opened SieveMemory
  import opened SieveProgress
  import MemoryBank

  function LocRank(loc: Loc): nat {
    match loc
    case Fresh => 12
    case Hashed(_) => 11
    case Entering => 10
    case Pushing(_) => 9
    case Moving => 8
    case Held => 7
    case Asking(_) => 6
    case Out => 5
    case Granted => 4
    case Planned => 3
    case Ready => 2
    case Sizing => 1
    case _ => 0
  }

  /** Work left on a file: an increment outweighs all moves in between. */
  function FileWork(size: nat, x: File): nat {
    (if x.hashOffset <= size then 11 * (size - x.hashOffset) else 0) + LocRank(x.loc)
  }

  ghost function FilesWork(infos: seq<Info>, files: seq<File>): nat
    requires |infos| >= |files|
  {
    if files == [] then 0
    else FilesWork(infos, files[..|files|-1]) + FileWork(|infos[|files|-1].content|, files[|files|-1])
  }

  function GroupWork(g: Group): nat {
    (if g.parent.Some? then 1 else 0) +
    match g.stage
    case Live => 5 case Finalising => 4 case Returned => 3 case Cleared => 2 case Reported => 1 case Freed => 0
  }

  ghost function GroupsWork(gs: seq<Group>): nat {
    if gs == [] then 0 else GroupsWork(gs[..|gs|-1]) + GroupWork(gs[|gs|-1])
  }

  ghost function PhaseWork(s: State): nat {
    (if s.open.Some? then 1 else 0) + (if s.started then 0 else 1) + GroupsWork(s.groups)
  }

  lemma {:induction false} SetFileWork(infos: seq<Info>, files: seq<File>, f: FileId, x: File)
    requires f < |files| <= |infos|
    ensures FilesWork(infos, files[f := x]) - FileWork(|infos[f].content|, x)
         == FilesWork(infos, files) - FileWork(|infos[f].content|, files[f])
  {
    var n := |files| - 1;
    if f == n {
      assert files[f := x][..n] == files[..n];
    } else {
      assert files[f := x][..n] == files[..n][f := x];
      SetFileWork(infos, files[..n], f, x);
    }
  }

  lemma {:induction false} NoMoreWork(infos: seq<Info>, a: seq<File>, b: seq<File>)
    requires |a| == |b| <= |infos|
    requires forall f :: 0 <= f < |a| ==> FileWork(|infos[f].content|, b[f]) <= FileWork(|infos[f].content|, a[f])
    ensures FilesWork(infos, b) <= FilesWork(infos, a)
  {
    if a != [] { NoMoreWork(infos, a[..|a|-1], b[..|b|-1]); }
  }

  lemma LessWork(infos: seq<Info>, a: seq<File>, b: seq<File>, f: FileId)
    requires |a| == |b| <= |infos| && f < |a|
    requires forall h :: 0 <= h < |a| ==> FileWork(|infos[h].content|, b[h]) <= FileWork(|infos[h].content|, a[h])
    requires FileWork(|infos[f].content|, b[f]) < FileWork(|infos[f].content|, a[f])
    ensures FilesWork(infos, b) < FilesWork(infos, a)
  {
    NoMoreWork(infos, a[f := b[f]], b);
    SetFileWork(infos, a, f, b[f]);
  }

  lemma {:induction false} SetGroupWork(gs: seq<Group>, g: GroupId, grp: Group)
    requires g < |gs|
    ensures GroupsWork(gs[g := grp]) - GroupWork(grp) == GroupsWork(gs) - GroupWork(gs[g])
  {
    var n := |gs| - 1;
    if g == n {
      assert gs[g := grp][..n] == gs[..n];
    } else {
      assert gs[g := grp][..n] == gs[..n][g := grp];
      SetGroupWork(gs[..n], g, grp);
    }
  }

  /** Pushing costs work: the file moves on, and the files it releases do too. */
  lemma PushWork(env: Env, s: State, t: State, g: GroupId, f: FileId)
    requires |s.files| == |env.files| && g < |s.groups| && f < |s.files| && Pushed(s, t, g, f)
    requires s.files[f].loc == Moving
    ensures FilesWork(env.files, t.files) < FilesWork(env.files, s.files)
  {
    LessWork(env.files, s.files, t.files, f);
  }

  /** A fresh file pushed into a root group. */
  lemma EnterWork(env: Env, u: State, f: FileId, g: GroupId)
    requires f < |u.files| == |env.files| && u.files[f].loc == Fresh && |u.groups| == |u.bank.accounts|
    requires g < |u.groups| && u.groups[g].origin == None && u.groups[g].stage == Live
    requires u.groups[g].fileSize == |env.files[f].content|
    requires Core(env, u)
    ensures var t := Push(env, Enter(env, u, f, g), g, f);
      |t.files| == |env.files| && FilesWork(env.files, t.files) < FilesWork(env.files, u.files)
  {
    assert Place(env, u.files[f], env.files[f], f, u.groups);
    var v := Enter(env, u, f, g);
    EnterCore(env, u, f, g);
    EnteredWork(env, u.files, v, f, g);
  }

  lemma {:induction false} EnteredWork(env: Env, files: seq<File>, v: State, f: FileId, g: GroupId)
    requires f < |files| == |env.files| && FileWork(|env.files[f].content|, files[f].(loc := Moving, group := g))
      <= FileWork(|env.files[f].content|, files[f])
    requires v.files == files[f := files[f].(loc := Moving, group := g)] && g < |v.groups|
    requires Core(env, v) && Arriving(env, v, g, f)
    ensures var t := Push(env, v, g, f);
      |t.files| == |env.files| && FilesWork(env.files, t.files) < FilesWork(env.files, files)
  {
    PushCore(env, v, g, f);
    PushWork(env, v, Push(env, v, g, f), g, f);
    SetFileWork(env.files, files, f, v.files[f]);
  }

  lemma AdmitWork(env: Env, s: State, f: FileId)
    requires Enabled(env, s, Admit(f))
    requires WellFormed(env, s) && Inv(env, s)
    ensures var t := AdmitStep(env, s, f);
      |t.files| == |env.files| && FilesWork(env.files, t.files) < FilesWork(env.files, s.files)
  {
    assert Place(env, s.files[f], env.files[f], f, s.groups);
    if s.open.Some? {
      EnterWork(env, s, f, s.open.value);
    } else {
      var g := |s.groups|;
      AppendRootCore(env, s, f);
      EnterWork(env, AppendGroup(s, NewGroup(env, s, f, None, 0)).(open := Some(g)), f, g);
    }
  }

  /** One file moves on to a place of lower rank. */
  lemma MoveWork(env: Env, files: seq<File>, f: FileId, x: File)
    requires f < |files| == |env.files|
    requires FileWork(|env.files[f].content|, x) < FileWork(|env.files[f].content|, files[f])
    ensures FilesWork(env.files, files[f := x]) < FilesWork(env.files, files)
  {
    SetFileWork(env.files, files, f, x);
  }

  lemma GiveUpWork(env: Env, s: State, g: GroupId, f: FileId)
    requires g < |s.groups| && f < |s.files| == |env.files| && (s.files[f].loc == Out || s.files[f].loc.Hashed?)
    ensures |GiveUp(env, s, g, f).files| == |env.files|
    ensures FilesWork(env.files, GiveUp(env, s, g, f).files) < FilesWork(env.files, s.files)
  {
    var x := s.files[f].(loc := Ignored);
    assert GiveUp(env, s, g, f).files == s.files[f := x];
    MoveWork(env, s.files, f, x);
  }

  lemma PushDownWork(env: Env, s: State, g: GroupId, f: FileId, c: GroupId)
    requires Sifted(env, s, g, f) && HasChild(env, s, g, f, c) && s.files[f].loc.Hashed?
    requires Core(env, s)
    ensures c < |s.groups| && |PushDown(env, s, g, c, f).files| == |env.files|
    ensures FilesWork(env.files, PushDown(env, s, g, c, f).files) < FilesWork(env.files, s.files)
  {
    var t := Unpend(s, g, f);
    ChildFits(env, s, g, f, c);
    SiftedUnpends(env, s, g, f, c);
    ArrivedWork(env, t, c, f);
    SetFileWork(env.files, s.files, f, t.files[f]);
    assert PushDown(env, s, g, c, f).files == Push(env, t, c, f).files;
  }

  lemma ArrivedWork(env: Env, t: State, c: GroupId, f: FileId)
    requires Arriving(env, t, c, f) && |t.groups| == |t.bank.accounts|
    requires Core(env, t)
    ensures |Push(env, t, c, f).files| == |env.files|
    ensures FilesWork(env.files, Push(env, t, c, f).files) < FilesWork(env.files, t.files)
  {
    PushCore(env, t, c, f);
    PushWork(env, t, Push(env, t, c, f), c, f);
  }

  lemma BeginPushFiles(env: Env, s: State, c: GroupId, f: FileId)
    requires c < |s.groups| && f < |s.files| == |env.files| && Queue(s.files, s.groups[c], c)
    ensures var t := BeginPush(env, s, c, f);
      && |t.files| == |s.files| && t.files[f].loc == Entering && t.files[f].hashOffset == s.files[f].hashOffset
      && forall h :: 0 <= h < |s.files| && h != f ==>
           t.files[h] == s.files[h] || (s.files[h].loc == Held && t.files[h] == s.files[h].(loc := Out))
  {}

  lemma BeginPushWork(env: Env, s: State, c: GroupId, f: FileId)
    requires c < |s.groups| && f < |s.files| == |env.files| && s.files[f].loc.Hashed?
    requires Queue(s.files, s.groups[c], c)
    ensures FilesWork(env.files, BeginPush(env, s, c, f).files) < FilesWork(env.files, s.files)
  {
    BeginPushFiles(env, s, c, f);
    LessReleased(env, s.files, BeginPush(env, s, c, f).files, f);
  }

  /** One file moves on, and others are released. */
  lemma LessReleased(env: Env, a: seq<File>, b: seq<File>, f: FileId)
    requires |a| == |b| == |env.files| && f < |a|
    requires FileWork(|env.files[f].content|, b[f]) < FileWork(|env.files[f].content|, a[f])
    requires forall h :: 0 <= h < |a| && h != f ==> b[h] == a[h] || (a[h].loc == Held && b[h] == a[h].(loc := Out))
    ensures FilesWork(env.files, b) < FilesWork(env.files, a)
  {
    LessWork(env.files, a, b, f);
  }

  lemma SiftWork(env: Env, s: State, f: FileId)
    requires Enabled(env, s, Sift(f)) && s.files[f].loc.ok
    requires WellFormed(env, s) && Inv(env, s)
    ensures var t := SiftStep(env, s, f, true);
      |t.files| == |env.files| && FilesWork(env.files, t.files) < FilesWork(env.files, s.files)
  {
    var g := s.files[f].group;
    var (v, c) := ChildFor(env, s, g, f);
    HashedFits(env, s, f);
    if Asks(env, v.groups[c], f) {
      BeginPushWork(env, v, c, f);
    } else {
      PushDownWork(env, v, g, f, c);
    }
  }

  lemma ReadWork(env: Env, s: State, f: FileId, ok: bool)
    requires Enabled(env, s, Read(f, ok))
    requires WellFormed(env, s) && Inv(env, s)
    ensures FilesWork(env.files, ReadStep(env, s, f, ok).files) < FilesWork(env.files, s.files)
  {
    var g := s.files[f].group;
    assert Place(env, s.files[f], env.files[f], f, s.groups) && GroupShape(env, s.groups, g);
    OffsetAdvances(env.pageSize, env.paranoid, s.groups[g].fileSize, s.groups[g].hashOffset, s.groups[g].offsetFactor);
    MoveWork(env, s.files, f, ReadStep(env, s, f, ok).files[f]);
  }

  /** The steps between the queue and the read. */
  lemma WaitWork(env: Env, s: State, step: Step)
    requires WellFormed(env, s) && Enabled(env, s, step) && !Raises(env, s, step)
    requires (step.Ask? && s.files[step.f].loc == Out) || step.Plan? || step.Register? || step.Size?
             || (step.Decide? && s.files[step.f].loc.Asking?)
    ensures var t := Apply(env, s, step);
      |t.files| == |env.files| && FilesWork(env.files, t.files) < FilesWork(env.files, s.files)
  {
    var t := Apply(env, s, step);
    assert t.files == s.files[step.f := t.files[step.f]];
    MoveWork(env, s.files, step.f, t.files[step.f]);
  }

  lemma SendDownWork(env: Env, s: State, g: GroupId, c: GroupId, f: FileId)
    requires g < |s.groups| && c < |s.groups| && f < |s.files| == |env.files| && InHand(s.files[f].loc)
    ensures |SendDown(s, g, c, f).files| == |env.files|
    ensures FilesWork(env.files, SendDown(s, g, c, f).files) < FilesWork(env.files, s.files)
  {
    var x := s.files[f].(loc := Out, group := c);
    assert SendDown(s, g, c, f).files == s.files[f := x];
    MoveWork(env, s.files, f, x);
  }

  lemma EnteringWork(env: Env, s: State, f: FileId, count: nat)
    requires Enabled(env, s, Ask(f, count)) && s.files[f].loc == Entering
    requires WellFormed(env, s)
    ensures var t := AskStep(env, s, f, count);
      |t.files| == |env.files| && FilesWork(env.files, t.files) < FilesWork(env.files, s.files)
  {
    var c := AskedFor(env, s, f);
    if IsCommitted(s.groups[c].status) {
      SendDownWork(env, s, s.files[f].group, c, f);
    } else {
      MoveWork(env, s.files, f, AskStep(env, s, f, count).files[f]);
    }
  }

  lemma PushedWork(env: Env, s: State, f: FileId, tear: Tear)
    requires Enabled(env, s, Decide(f, tear)) && s.files[f].loc.Pushing?
    requires WellFormed(env, s)
    ensures var t := DecideStep(env, s, f, tear);
      |t.files| == |env.files| && FilesWork(env.files, t.files) < FilesWork(env.files, s.files)
  {
    var g, c := s.files[f].group, AskedFor(env, s, f);
    var t := if GrantedNow(env, s, f) then Commit(s, c, s.files[f].loc.required, tear) else s;
    SendDownWork(env, t, g, c, f);
  }

  lemma OrphanWork(env: Env, s: State, g: GroupId)
    requires Enabled(env, s, Orphan(g))
    requires WellFormed(env, s) && Inv(env, s)
    ensures PhaseWork(OrphanStep(s, g)) < PhaseWork(s) && OrphanStep(s, g).files == s.files
  {
    assert GroupShape(env, s.groups, g);
    var t := OrphanStep(s, g);
    assert t.groups == s.groups[g := t.groups[g]];
    SetGroupWork(s.groups, g, t.groups[g]);
  }

  lemma FreeFilesWork(env: Env, s: State, g: GroupId)
    requires g < |s.groups| && HeldInRange(s.files, s.groups)
    requires Inv(env, s)
    ensures var t := FreeGroup(env, s, g);
      |t.files| == |env.files| && FilesWork(env.files, t.files) <= FilesWork(env.files, s.files)
    ensures FreeGroup(env, s, g).groups == s.groups[g := s.groups[g].(stage := Freed, held := [])]
    ensures FreeGroup(env, s, g).open == s.open && FreeGroup(env, s, g).started == s.started
  {
    assert Queue(s.files, s.groups[g], g);
    DiscardAllEffect(env, SetGroup(s, g, s.groups[g].(stage := Freed, held := [])), s.groups[g].held);
    NoMoreWork(env.files, s.files, FreeGroup(env, s, g).files);
  }

  lemma FreeWork(env: Env, s: State, g: GroupId)
    requires g < |s.groups| && HeldInRange(s.files, s.groups)
    requires s.groups[g].stage in {Cleared, Reported}
    requires Inv(env, s)
    ensures var t := FreeGroup(env, s, g);
      |t.files| == |env.files| && FilesWork(env.files, t.files) <= FilesWork(env.files, s.files)
        && PhaseWork(t) < PhaseWork(s)
  {
    FreeFilesWork(env, s, g);
    SetGroupWork(s.groups, g, s.groups[g].(stage := Freed, held := []));
  }

  lemma DisposeReportWork(env: Env, s: State, g: GroupId)
    requires Enabled(env, s, Dispose(g)) && s.groups[g].status == Dormant
    requires WellFormed(env, s)
    ensures var t := DisposeStep(env, s, g); t.files == s.files && PhaseWork(t) < PhaseWork(s)
  {
    SetGroupWork(s.groups, g, DisposeStep(env, s, g).groups[g]);
  }

  /** The order in which steps descend: files, then groups, then queued adjustments. */
  ghost predicate LessLeft(env: Env, t: State, s: State)
    requires |s.files| <= |env.files| && |t.files| <= |env.files|
  {
    || FilesWork(env.files, t.files) < FilesWork(env.files, s.files)
    || (FilesWork(env.files, t.files) == FilesWork(env.files, s.files) &&
        (PhaseWork(t) < PhaseWork(s) ||
         (PhaseWork(t) == PhaseWork(s) && |t.counters.queue| < |s.counters.queue|)))
  }

  lemma CloseWork(env: Env, s: State)
    requires s.open.Some?
    requires Inv(env, s)
    ensures PhaseWork(CloseStep(s)) < PhaseWork(s) && CloseStep(s).files == s.files
  {
    var g := s.open.value;
    assert GroupShape(env, s.groups, g);
    SetGroupWork(s.groups, g, CloseStep(s).groups[g]);
  }

  lemma GiveBackWork(s: State, g: GroupId)
    requires g < |s.groups| == |s.bank.accounts|
    ensures s.groups[g].stage == Finalising ==>
      PhaseWork(ReturnMemoryStep(s, g)) < PhaseWork(s) && ReturnMemoryStep(s, g).files == s.files
    ensures s.groups[g].stage == Returned ==>
      PhaseWork(ClearStep(s, g)) < PhaseWork(s) && ClearStep(s, g).files == s.files
  {
    SetGroupWork(s.groups, g, ReturnMemoryStep(s, g).groups[g]);
    SetGroupWork(s.groups, g, ClearStep(s, g).groups[g]);
  }

  lemma GroupDescends(env: Env, s: State, step: Step)
    requires WellFormed(env, s) && Enabled(env, s, step)
    requires step in {Close, Launch, Count} || step.Orphan? || step.ReturnMemory? || step.Clear? || step.Dispose?
      || step.Report?
    requires Inv(env, s)
    ensures |Apply(env, s, step).files| == |env.files| && LessLeft(env, Apply(env, s, step), s)
  {
    match step {
      case Close => CloseWork(env, s);
      case Launch =>
      case Orphan(g) => OrphanWork(env, s, g);
      case ReturnMemory(g) => GiveBackWork(s, g);
      case Clear(g) => GiveBackWork(s, g);
      case Dispose(g) =>
        assert GroupShape(env, s.groups, g);
        if s.groups[g].status == Dormant { DisposeReportWork(env, s, g); } else { FreeWork(env, s, g); }
      case Report(g) => FreeWork(env, s, g);
      case Count =>
    }
  }

  lemma FileDescends(env: Env, s: State, step: Step)
    requires WellFormed(env, s) && Enabled(env, s, step) && !Raises(env, s, step)
    requires step.Ask? || step.Decide? || step.Read? || step.Sift? || step.Abort?
    requires Inv(env, s)
    ensures |Apply(env, s, step).files| == |env.files| && LessLeft(env, Apply(env, s, step), s)
  {
    match step {
      case Ask(f, count) =>
        if s.files[f].loc == Out { WaitWork(env, s, step); } else { EnteringWork(env, s, f, count); }
      case Decide(f, tear) => if s.files[f].loc.Asking? { WaitWork(env, s, step); }
        else { PushedWork(env, s, f, tear); }
      case Read(f, ok) => ReadWork(env, s, f, ok);
      case Sift(f) =>
        if s.files[f].loc.ok { SiftWork(env, s, f); } else { GiveUpWork(env, s, s.files[f].group, f); }
      case Abort(f) => GiveUpWork(env, s, s.files[f].group, f);
    }
  }

  /** Every step but the raising of a request leaves less to do, in a well-founded order. */
  lemma StepDescends(env: Env, s: State, step: Step)
    requires WellFormed(env, s) && Enabled(env, s, step) && !Raises(env, s, step)
    requires Inv(env, s)
    ensures |Apply(env, s, step).files| == |env.files| && LessLeft(env, Apply(env, s, step), s)
  {
    if step.Admit? {
      AdmitWork(env, s, step.f);
    } else if step.Plan? || step.Register? || step.Size? {
      WaitWork(env, s, step);
    } else if step.Ask? || step.Decide? || step.Read? || step.Sift? || step.Abort? {
      FileDescends(env, s, step);
    } else {
      GroupDescends(env, s, step);
    }
  }

  // ----- the end can be reached -----

  /** Each request under way, or about to be made, is the only one for its group, which has no memory yet. */
  ghost predicate RequestsApart(env: Env, s: State)
    requires |s.files| <= |env.files|
  {
    && (forall f :: 0 <= f < |s.files| && Requests(s.files[f].loc) ==>
          AskedFor(env, s, f) < |s.groups| && s.groups[AskedFor(env, s, f)].status == StartHashing)
    && (forall f, h :: 0 <= f < h < |s.files| && Requests(s.files[f].loc) && Requests(s.files[h].loc) ==>
          AskedFor(env, s, f) != AskedFor(env, s, h))
  }

  /** `steps` lead from `s` to `t`, one fair step after the other. */
  ghost predicate Drive(env: Env, s: State, steps: seq<Step>, t: State)
    decreases |steps|
  {
    if steps == [] then s == t
    else WellFormed(env, s) && Fair(env, s, steps[0]) && Drive(env, Apply(env, s, steps[0]), steps[1..], t)
  }

  lemma NothingAsked(env: Env, s: State)
    requires |s.files| <= |env.files| && NoRequests(s)
    ensures RequestsApart(env, s)
  {}

  lemma CommitEffect(s: State, g: GroupId, required: int)
    requires g < |s.groups| == |s.bank.accounts| && ParentsBelow(s.groups)
    ensures Commit(s, g, required, MemoryBank.Whole).files == s.files
    ensures Commit(s, g, required, MemoryBank.Whole).groups == s.groups[g := s.groups[g].(status := Hashing)]
  {}

  /** What a decision leaves alone. */
  ghost predicate Decided(s: State, t: State, f: FileId, c: GroupId) {
    && |t.files| == |s.files| && |t.groups| == |s.groups|
    && (forall h :: 0 <= h < |s.files| && h != f ==> t.files[h] == s.files[h])
    && (forall g :: 0 <= g < |s.groups| ==>
          && t.groups[g].children == s.groups[g].children && t.groups[g].nextOffset == s.groups[g].nextOffset
          && t.groups[g].hashOffset == s.groups[g].hashOffset
          && (g != c ==> t.groups[g].status == s.groups[g].status))
  }

  lemma SendDownEffect(s: State, g: GroupId, c: GroupId, f: FileId)
    requires g < |s.groups| && c < |s.groups| && f < |s.files|
    ensures Decided(s, SendDown(s, g, c, f), f, c) && SendDown(s, g, c, f).files[f].loc == Out
  {}

  lemma DecideEffect(env: Env, s: State, f: FileId)
    requires WellFormed(env, s) && f < |s.files| && (s.files[f].loc.Asking? || s.files[f].loc.Pushing?)
    ensures var t := DecideStep(env, s, f, MemoryBank.Whole);
      Decided(s, t, f, AskedFor(env, s, f)) && f < |t.files| && !Requests(t.files[f].loc)
  {
    var g, c := s.files[f].group, AskedFor(env, s, f);
    var t := if GrantedNow(env, s, f) then Commit(s, c, s.files[f].loc.required, MemoryBank.Whole) else s;
    CommitEffect(s, c, s.files[f].loc.required);
    if s.files[f].loc.Pushing? { SendDownEffect(t, g, c, f); }
  }

  lemma OthersAskTheSame(env: Env, s: State, t: State, f: FileId, c: GroupId, h: FileId)
    requires Decided(s, t, f, c) && h < |s.files| == |env.files| && h != f
    ensures AskedFor(env, t, h) == AskedFor(env, s, h)
  {
    if s.files[h].group < |s.groups| {
      assert KeyOf(env, h, t.groups[s.files[h].group]) == KeyOf(env, h, s.groups[s.files[h].group]);
    }
  }

  lemma DecidedApart(env: Env, s: State, t: State, f: FileId)
    requires f < |s.files| == |env.files| && Requests(s.files[f].loc)
    requires Decided(s, t, f, AskedFor(env, s, f)) && !Requests(t.files[f].loc)
    requires RequestsApart(env, s)
    ensures RequestsApart(env, t)
  {
    var c := AskedFor(env, s, f);
    forall h | 0 <= h < |t.files| && h != f ensures AskedFor(env, t, h) == AskedFor(env, s, h) {
      OthersAskTheSame(env, s, t, f, c, h);
    }
    forall h | 0 <= h < |t.files| && Requests(t.files[h].loc)
      ensures AskedFor(env, t, h) < |t.groups| && t.groups[AskedFor(env, t, h)].status == StartHashing
    {
      assert AskedFor(env, s, h) != c by { if h < f {} }
    }
  }

  /** Deciding the only request for a group makes no phantom and leaves the other requests apart. */
  lemma DecideApart(env: Env, s: State, f: FileId)
    requires f < |s.files| && (s.files[f].loc.Asking? || s.files[f].loc.Pushing?)
    requires WellFormed(env, s) && Inv(env, s) && RequestsApart(env, s)
    ensures Fair(env, s, Decide(f, MemoryBank.Whole)) && !Raises(env, s, Decide(f, MemoryBank.Whole))
    ensures var t := DecideStep(env, s, f, MemoryBank.Whole); |t.files| == |env.files| && RequestsApart(env, t)
  {
    assert s.started;
    DecideEffect(env, s, f);
    DecidedApart(env, s, DecideStep(env, s, f, MemoryBank.Whole), f);
  }

  /** The test in a push finds the child group without memory, and the request follows. */
  lemma EnterApart(env: Env, s: State, f: FileId)
    requires f < |s.files| && s.files[f].loc == Entering
    requires WellFormed(env, s) && Inv(env, s) && RequestsApart(env, s)
    ensures var step := Ask(f, TrueCount(env, s, f)); Fair(env, s, step) && !Raises(env, s, step)
    ensures var t := AskStep(env, s, f, TrueCount(env, s, f)); |t.files| == |env.files| && RequestsApart(env, t)
  {
    assert s.started;
    var t := AskStep(env, s, f, TrueCount(env, s, f));
    assert t.groups == s.groups && t.files == s.files[f := t.files[f]] && InHand(t.files[f].loc);
    forall h | 0 <= h < |t.files| ensures AskedFor(env, t, h) == AskedFor(env, s, h) {}
  }

  lemma {:induction false} DiscardAllRequests(env: Env, s: State, queue: seq<FileId>)
    requires |s.files| == |env.files| && forall i :: 0 <= i < |queue| ==> queue[i] < |s.files|
    requires NoRequests(s)
    ensures NoRequests(DiscardAll(env, s, queue)) && |DiscardAll(env, s, queue).files| == |s.files|
    decreases |queue|
  {
    if queue != [] { DiscardAllRequests(env, Discard(env, s, queue[0], Done), queue[1..]); }
  }

  lemma FreeRequests(env: Env, s: State, g: GroupId)
    requires g < |s.groups| && |s.files| == |env.files| && HeldInRange(s.files, s.groups) && NoRequests(s)
    ensures NoRequests(FreeGroup(env, s, g)) && |FreeGroup(env, s, g).files| == |s.files|
  {
    DiscardAllRequests(env, SetGroup(s, g, s.groups[g].(stage := Freed, held := [])), s.groups[g].held);
  }

  lemma PushRequests(env: Env, s: State, g: GroupId, f: FileId)
    requires g < |s.groups| == |s.bank.accounts| && f < |s.files| == |env.files|
    requires forall h :: 0 <= h < |s.files| && h != f ==> !Requests(s.files[h].loc)
    ensures NoRequests(Push(env, s, g, f)) && |Push(env, s, g, f).files| == |s.files|
  {}

  /** A push that asks is then the only request under way. */
  lemma BeginPushApart(env: Env, s: State, g: GroupId, f: FileId, c: GroupId)
    requires Sifted(env, s, g, f) && HasChild(env, s, g, f, c) && c < |s.groups| && c != g
    requires Asks(env, s.groups[c], f) && NoRequests(s)
    ensures var t := BeginPush(env, s, c, f); |t.files| == |env.files| && RequestsApart(env, t)
  {
    var t := BeginPush(env, s, c, f);
    forall h | 0 <= h < |t.files| && Requests(t.files[h].loc) ensures h == f && AskedFor(env, t, h) == c {}
  }

  /** A push that does not ask. */
  lemma PushDownApart(env: Env, v: State, g: GroupId, f: FileId, c: GroupId)
    requires Sifted(env, v, g, f) && HasChild(env, v, g, f, c) && c < |v.groups| && NoRequests(v)
    ensures var t := PushDown(env, v, g, c, f); |t.files| == |env.files| && RequestsApart(env, t)
  {
    PushRequests(env, Unpend(v, g, f), c, f);
    NothingAsked(env, PushDown(env, v, g, c, f));
  }

  lemma SiftApart(env: Env, s: State, f: FileId)
    requires Enabled(env, s, Sift(f)) && NoRequests(s)
    requires WellFormed(env, s) && Inv(env, s)
    ensures var t := SiftStep(env, s, f, s.files[f].loc.ok); |t.files| == |env.files| && RequestsApart(env, t)
  {
    var g := s.files[f].group;
    assert Place(env, s.files[f], env.files[f], f, s.groups);
    if s.files[f].loc.ok {
      var (v, c) := ChildFor(env, s, g, f);
      HashedFits(env, s, f);
      if Asks(env, v.groups[c], f) {
        BeginPushApart(env, v, g, f, c);
      } else {
        PushDownApart(env, v, g, f, c);
      }
    } else {
      NothingAsked(env, GiveUp(env, s, g, f));
    }
  }

  lemma AdmitRequests(env: Env, s: State, f: FileId)
    requires Enabled(env, s, Admit(f)) && NoRequests(s)
    requires WellFormed(env, s)
    ensures NoRequests(AdmitStep(env, s, f)) && |AdmitStep(env, s, f).files| == |s.files|
  {
    if s.open.Some? {
      PushRequests(env, Enter(env, s, f, s.open.value), s.open.value, f);
    } else {
      var g := |s.groups|;
      PushRequests(env, Enter(env, AppendGroup(s, NewGroup(env, s, f, None, 0)).(open := Some(g)), f, g), g, f);
    }
  }

  lemma OtherRequests(env: Env, s: State, step: Step)
    requires WellFormed(env, s) && Enabled(env, s, step) && !Raises(env, s, step) && NoRequests(s)
    requires !step.Admit? && !step.Sift? && !step.Abort? && !step.Dispose? && !step.Report?
    ensures NoRequests(Apply(env, s, step)) && |Apply(env, s, step).files| == |s.files|
  {}

  /** From a state without requests, a fair step that raises none leaves at most one. */
  lemma StepApart(env: Env, s: State, step: Step)
    requires WellFormed(env, s) && Fair(env, s, step) && !Raises(env, s, step)
    requires Inv(env, s) && NoRequests(s)
    ensures var t := Apply(env, s, step); |t.files| == |env.files| && RequestsApart(env, t)
  {
    if step.Sift? {
      SiftApart(env, s, step.f);
    } else {
      if step.Admit? {
        AdmitRequests(env, s, step.f);
      } else if step.Dispose? || step.Report? {
        FreeRequests(env, s, step.g);
      } else {
        OtherRequests(env, s, step);
      }
      NothingAsked(env, Apply(env, s, step));
    }
  }

  lemma DriveFirst(env: Env, s: State, step: Step, more: seq<Step>, t: State)
    requires WellFormed(env, s) && Fair(env, s, step) && Drive(env, Apply(env, s, step), more, t)
    ensures Drive(env, s, [step] + more, t)
  {
    assert ([step] + more)[1..] == more;
  }

  /** A request that would be granted is raised and decided; that leaves less to do. */
  lemma RaiseAndDecide(env: Env, s: State, f: FileId, count: nat)
    requires WellFormed(env, s) && Helps(env, s, Ask(f, count)) && Raises(env, s, Ask(f, count))
    requires Inv(env, s) && NoRequests(s)
    ensures var t := AskStep(env, s, f, count);
      && Inv(env, t) && WellFormed(env, t) && Fair(env, t, Decide(f, MemoryBank.Whole)) && t.bank == s.bank
      && var u := DecideStep(env, t, f, MemoryBank.Whole);
      && Inv(env, u) && WellFormed(env, u) && RequestsApart(env, u) && LessLeft(env, u, s)
      && u.bank.phantoms == t.bank.phantoms
  {
    var t := AskStep(env, s, f, count);
    Raise(env, s, f, count);
    DecideApart(env, t, f);
    StepInv(env, t, Decide(f, MemoryBank.Whole));
    StepBooks(env, t, Decide(f, MemoryBank.Whole));
    GrantedWork(env, s, t, f);
  }

  /** The request is the only one under way, and it is granted. */
  lemma Raise(env: Env, s: State, f: FileId, count: nat)
    requires WellFormed(env, s) && Helps(env, s, Ask(f, count)) && Raises(env, s, Ask(f, count))
    requires Inv(env, s) && NoRequests(s)
    ensures var t := AskStep(env, s, f, count);
      && Inv(env, t) && WellFormed(env, t) && t.bank == s.bank && t.started && t.files[f].loc.Asking?
      && t.files == s.files[f := t.files[f]] && s.files[f].loc == Out && RequestsApart(env, t) && GrantedNow(env, t, f)
  {
    var t := AskStep(env, s, f, count);
    StepInv(env, s, Ask(f, count));
    assert Place(env, s.files[f], env.files[f], f, s.groups);
    forall h | 0 <= h < |t.files| && Requests(t.files[h].loc) ensures h == f {}
  }

  lemma GrantedWork(env: Env, s: State, t: State, f: FileId)
    requires WellFormed(env, s) && WellFormed(env, t) && f < |s.files| && s.files[f].loc == Out
    requires t.files == s.files[f := t.files[f]] && t.files[f] == s.files[f].(loc := t.files[f].loc)
    requires t.files[f].loc.Asking? && GrantedNow(env, t, f)
    ensures LessLeft(env, DecideStep(env, t, f, MemoryBank.Whole), s)
  {
    var u := DecideStep(env, t, f, MemoryBank.Whole);
    assert u.files == s.files[f := s.files[f].(loc := Granted)];
    MoveWork(env, s.files, f, u.files[f]);
  }

  /**
   * Unless a group was charged twice, or two requests for one group or a request for
   * a group that has its memory are under way, the sieve can be driven to its end
   * by fair steps; no group is charged twice then.
   */
  lemma {:induction false} ReachesEnd(env: Env, s: State) returns (steps: seq<Step>, t: State)
    requires WellFormed(env, s) && Inv(env, s) && s.bank.phantoms == 0 && RequestsApart(env, s)
    ensures Drive(env, s, steps, t) && Quiet(t)
    decreases FilesWork(env.files, s.files), PhaseWork(s), |s.counters.queue|, 1
  {
    if f :| 0 <= f < |s.files| && s.files[f].loc == Entering {
      EnterApart(env, s, f);
      steps, t := Onwards(env, s, Ask(f, TrueCount(env, s, f)));
    } else if f :| 0 <= f < |s.files| && (s.files[f].loc.Asking? || s.files[f].loc.Pushing?) {
      DecideApart(env, s, f);
      steps, t := Onwards(env, s, Decide(f, MemoryBank.Whole));
    } else if Quiet(s) {
      steps, t := [], s;
    } else {
      var step := Progress(env, s);
      if Raises(env, s, step) {
        RaiseAndDecide(env, s, step.f, step.count);
        var more;
        more, t := ReachesEnd(env, DecideStep(env, Apply(env, s, step), step.f, MemoryBank.Whole));
        steps := DriveTwice(env, s, step, more, t);
      } else {
        StepApart(env, s, step);
        steps, t := Onwards(env, s, step);
      }
    }
  }

  /** A request is raised and decided. */
  lemma DriveTwice(env: Env, s: State, step: Step, more: seq<Step>, t: State) returns (steps: seq<Step>)
    requires WellFormed(env, s) && step.Ask? && Fair(env, s, step)
    requires var asked := Apply(env, s, step); var decide := Decide(step.f, MemoryBank.Whole);
      WellFormed(env, asked) && Fair(env, asked, decide) && Drive(env, Apply(env, asked, decide), more, t)
    ensures Drive(env, s, steps, t)
  {
    var asked := Apply(env, s, step);
    DriveFirst(env, asked, Decide(step.f, MemoryBank.Whole), more, t);
    DriveFirst(env, s, step, [Decide(step.f, MemoryBank.Whole)] + more, t);
    steps := [step] + ([Decide(step.f, MemoryBank.Whole)] + more);
  }

  lemma {:induction false} Onwards(env: Env, s: State, step: Step) returns (steps: seq<Step>, t: State)
    requires WellFormed(env, s) && Fair(env, s, step) && !Raises(env, s, step) && s.bank.phantoms == 0
    requires var u := Apply(env, s, step); |u.files| <= |env.files| && RequestsApart(env, u)
    requires Inv(env, s)
    ensures Drive(env, s, steps, t) && Quiet(t)
    decreases FilesWork(env.files, s.files), PhaseWork(s), |s.counters.queue|, 0
  {
    StepInv(env, s, step);
    StepDescends(env, s, step);
    StepBooks(env, s, step);
    var more;
    more, t := ReachesEnd(env, Apply(env, s, step));
    DriveFirst(env, s, step, more, t);
    steps := [step] + more;
  }
}
