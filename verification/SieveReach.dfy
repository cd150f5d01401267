/**
 * Building runs step by step, for the examples: what the usual sequences of steps
 * of one thread do to the state.  Every walk up the parents finds the true count.
 */
module SieveReach {
  import opened Common
  import opened SieveState
  import opened SieveInvariant
  import opened SieveRun
  import MemoryBank

  ghost predicate ExactlyJoined(env: Env, s: State, step: Step, t: State) {
    Joined(env, s, step, t) && Exact(env, s, step)
  }

  ghost predicate ExactRun(env: Env, run: seq<State>, steps: seq<Step>) {
    && |run| == |steps| + 1
    && run[0] == Initial(env)
    && forall i :: 0 <= i < |steps| ==> ExactlyJoined(env, run[i], steps[i], run[i + 1])
  }

  ghost predicate Reached(env: Env, s: State) {
    exists run, steps :: ExactRun(env, run, steps) && run[|steps|] == s
  }

  lemma ReachedReachable(env: Env, s: State)
    requires Sane(env) && Reached(env, s)
    ensures Reachable(env, s) && WellFormed(env, s) && Inv(env, s)
  {
    var run, steps :| ExactRun(env, run, steps) && run[|steps|] == s;
    forall i | 0 <= i < |steps| ensures Joined(env, run[i], steps[i], run[i + 1]) {
      assert ExactlyJoined(env, run[i], steps[i], run[i + 1]);
    }
    assert IsRun(env, run, steps) && 0 <= |steps| < |run|;
    ReachableInv(env, s);
  }

  lemma ReachedInitial(env: Env)
    ensures Reached(env, Initial(env))
  {
    var run, steps: seq<Step> := [Initial(env)], [];
    assert ExactRun(env, run, steps) && run[|steps|] == Initial(env);
  }

  /** One more step. */
  lemma Take(env: Env, s: State, step: Step) returns (t: State)
    requires Sane(env) && Reached(env, s)
    requires Enabled(env, s, step) && (WellFormed(env, s) ==> Exact(env, s, step))
    ensures WellFormed(env, s) && t == Apply(env, s, step) && Reached(env, t)
  {
    ReachedReachable(env, s);
    t := Apply(env, s, step);
    var run, steps :| ExactRun(env, run, steps) && run[|steps|] == s;
    var run', steps' := run + [t], steps + [step];
    assert ExactlyJoined(env, s, step, t);
    forall k | 0 <= k < |steps'| ensures ExactlyJoined(env, run'[k], steps'[k], run'[k + 1]) {
      if k < |steps| {
        assert ExactlyJoined(env, run[k], steps[k], run[k + 1]);
        assert run'[k] == run[k] && steps'[k] == steps[k] && run'[k + 1] == run[k + 1];
      }
    }
    assert ExactRun(env, run', steps') && run'[|steps'|] == t;
  }

  ghost predicate NobodyPushes(s: State) {
    forall f :: 0 <= f < |s.files| ==> !InHand(s.files[f].loc)
  }

  lemma Unlocked(env: Env, s: State, g: GroupId)
    requires NobodyPushes(s)
    ensures !Locked(env, s, g)
  {}

  /** A file of a committed group has what it needs for its increment. */
  lemma AskCommitted(env: Env, s: State, f: FileId) returns (t: State)
    requires Sane(env) && Reached(env, s) && env.paranoid && s.started
    requires f < |s.files| && s.files[f].loc == Out && s.files[f].group < |s.groups|
    requires s.groups[s.files[f].group].status == Hashing
    ensures Reached(env, t) && t == MoveTo(s, f, Granted)
  {
    ReachedReachable(env, s);
    t := Take(env, s, Ask(f, TrueCount(env, s, f)));
  }

  /** A request that is raised. */
  lemma AskFor(env: Env, s: State, f: FileId, required: int) returns (t: State)
    requires Sane(env) && Reached(env, s) && env.paranoid && s.started
    requires f < |s.files| && s.files[f].loc == Out && s.files[f].group < |s.groups|
    requires s.groups[s.files[f].group].status == StartHashing && ParentsBelow(s.groups)
    requires required == Required(s.groups[s.files[f].group], CountAt(s, s.files[f].group))
    ensures Reached(env, t) && t == MoveTo(s, f, Asking(required))
  {
    ReachedReachable(env, s);
    t := Take(env, s, Ask(f, TrueCount(env, s, f)));
  }

  /** A request that is granted. */
  lemma Grant(env: Env, s: State, f: FileId, tear: Tear) returns (t: State)
    requires Sane(env) && Reached(env, s) && s.started && f < |s.files| && s.files[f].loc.Asking?
    requires GrantedNow(env, s, f) && (tear != MemoryBank.Whole ==> CanTear(env, s, f))
    ensures WellFormed(env, s) && Reached(env, t)
    ensures t == MoveTo(Commit(s, s.files[f].group, s.files[f].loc.required, tear), f, Granted)
  {
    t := Take(env, s, Decide(f, tear));
  }

  lemma PlanAndRegister(env: Env, s: State, f: FileId, g: GroupId, next: nat) returns (t: State)
    requires Sane(env) && Reached(env, s) && s.started && NobodyPushes(s)
    requires f < |s.files| == |env.files| && s.files[f].loc == Granted && s.files[f].group == g < |s.groups|
    requires !env.files[f].isSymlink && PlannedOffset(env, s.groups[g]) == next && s.groups[g].nextOffset in {0, next}
    ensures Reached(env, t) && |s.groups| == |s.bank.accounts|
    ensures t == s.(files := s.files[f := s.files[f].(loc := Ready)],
                    groups := s.groups[g :=
                                       s.groups[g].(nextOffset := next, inProgress := s.groups[g].inProgress + {f})])
  {
    Unlocked(env, s, g);
    var u := Take(env, s, Plan(f));
    Unlocked(env, u, g);
    t := Take(env, u, Register(f));
    assert s.files[f := s.files[f].(loc := Planned)][f := s.files[f].(loc := Ready)]
      == s.files[f := s.files[f].(loc := Ready)];
    var grp := s.groups[g].(nextOffset := next);
    var last := grp.(inProgress := grp.inProgress + {f});
    assert s.groups[g := grp][g := last] == s.groups[g := last];
  }

  /** A granted file is read. */
  lemma ReadGranted(env: Env, s: State, f: FileId, g: GroupId, next: nat) returns (t: State)
    requires Sane(env) && Reached(env, s) && s.started && NobodyPushes(s)
    requires f < |s.files| == |env.files| && s.files[f].loc == Granted && s.files[f].group == g < |s.groups|
    requires !env.files[f].isSymlink && PlannedOffset(env, s.groups[g]) == next && s.groups[g].nextOffset in {0, next}
    ensures Reached(env, t) && NobodyPushes(t)
    ensures t == s.(files := s.files[f := File(Hashed(true), g, next)],
                    groups := s.groups[g :=
                                       s.groups[g].(nextOffset := next, inProgress := s.groups[g].inProgress + {f})],
                    counters := t.counters)
  {
    var u := PlanAndRegister(env, s, f, g, next);
    u := Take(env, u, Size(f));
    t := Take(env, u, Read(f, true));
    assert t.groups == u.groups;
    assert t.files == s.files[f := File(Hashed(true), g, next)];
  }

  /** A further file of a committed group is made ready and read. */
  lemma ReadNext(env: Env, s: State, f: FileId, g: GroupId, next: nat) returns (t: State)
    requires Sane(env) && Reached(env, s) && s.started && NobodyPushes(s) && env.paranoid
    requires f < |s.files| == |env.files| && s.files[f].loc == Out && s.files[f].group == g < |s.groups|
    requires s.groups[g].status == Hashing
    requires !env.files[f].isSymlink && PlannedOffset(env, s.groups[g]) == next && s.groups[g].nextOffset in {0, next}
    ensures Reached(env, t) && NobodyPushes(t)
    ensures t == s.(files := s.files[f := File(Hashed(true), g, next)],
                    groups := s.groups[g :=
                                       s.groups[g].(nextOffset := next, inProgress := s.groups[g].inProgress + {f})],
                    counters := t.counters)
  {
    var u := AskCommitted(env, s, f);
    t := ReadGranted(env, u, f, g, next);
    assert u.files[f := File(Hashed(true), g, next)] == s.files[f := File(Hashed(true), g, next)];
  }

  /** The group after a file that opens child group `c` left it. */
  function WithChild(grp: Group, f: FileId, key: Digest, c: GroupId): Group {
    grp.(children := grp.children[key := c], numPending := grp.numPending - 1, inProgress := grp.inProgress - {f})
  }

  lemma FirstIsHeld(env: Env, s: State, f: FileId, g: GroupId, key: Digest, child: Group)
    requires WellFormed(env, s) && f < |s.files| && g < |s.groups| && s.files[f].group == g
      && s.files[f].loc == Hashed(true)
    requires KeyOf(env, f, s.groups[g]) == key && key !in s.groups[g].children
    requires child == CountedIn(env, NewGroup(env, s, f, Some(g), key), f) && child.status == Dormant
    ensures var c := |s.groups|;
      SiftStep(env, s, f, true) ==
      EndIfUnneeded(s.(files := s.files[f := s.files[f].(loc := Held, group := c)],
                       groups := s.groups[g := WithChild(s.groups[g], f, key, c)] + [child.(held := [f])],
                       bank := MemoryBank.Open(s.bank)), g)
    ensures NobodyPushes(s) ==> NobodyPushes(SiftStep(env, s, f, true))
  {
    var c := |s.groups|;
    var (v, _) := ChildFor(env, s, g, f);
    var empty := NewGroup(env, s, f, Some(g), key);
    assert v.groups[c] == empty;
    var u := Unpend(v, g, f);
    assert u.groups == s.groups[g := WithChild(s.groups[g], f, key, c)] + [empty];
    var none: seq<FileId> := [];
    assert [f] + none == [f];
    var t := Push(env, u, c, f);
    assert t.groups == s.groups[g := WithChild(s.groups[g], f, key, c)] + [child.(held := [f])];
    assert t.files == s.files[f := s.files[f].(loc := Held, group := c)];
  }

  /** A hashed file opens a child group, which holds it. */
  lemma SiftFirst(env: Env, s: State, f: FileId, g: GroupId, key: Digest, child: Group) returns (t: State)
    requires Sane(env) && Reached(env, s) && s.started && NobodyPushes(s)
    requires f < |s.files| == |env.files| && s.files[f].loc == Hashed(true) && s.files[f].group == g < |s.groups|
    requires KeyOf(env, f, s.groups[g]) == key && key !in s.groups[g].children
    requires child == CountedIn(env, NewGroup(env, s, f, Some(g), key), f) && child.status == Dormant
    ensures Reached(env, t) && NobodyPushes(t)
    ensures var c := |s.groups|;
      t == EndIfUnneeded(s.(files := s.files[f := s.files[f].(loc := Held, group := c)],
                            groups := s.groups[g := WithChild(s.groups[g], f, key, c)] + [child.(held := [f])],
                            bank := MemoryBank.Open(s.bank)), g)
  {
    ReachedReachable(env, s);
    Unlocked(env, s, g);
    FirstIsHeld(env, s, f, g, key, child);
    t := Take(env, s, Sift(f));
  }

  /** The state after file `f` found child group `c` with one held file, `h`. */
  function BothOut(s: State, h: FileId, f: FileId, c: GroupId, child: Group, loc: Loc): State
    requires h < |s.files| && f < |s.files| && c < |s.groups|
  {
    s.(files := s.files[h := s.files[h].(loc := Out)][f := s.files[f].(loc := loc)],
       groups := s.groups[c := child.(numPending := child.numPending + 1, held := [])])
  }

  lemma SecondReleases(env: Env, s: State, h: FileId, f: FileId, c: GroupId, child: Group)
    requires h < |s.files| && h != f && f < |s.files| == |env.files| && c < |s.groups|
    requires s.groups[c].held == [h] && child == CountedIn(env, s.groups[c], f)
    ensures BeginPush(env, s, c, f) == BothOut(s, h, f, c, child, Entering)
  {
    var u := ReleaseHeld(SetGroup(s, c, child), c);
    assert u.groups == s.groups[c := child.(numPending := child.numPending + 1, held := [])];
    assert u.files == s.files[h := s.files[h].(loc := Out)];
  }

  lemma SecondCounts(env: Env, s: State, u: State, h: FileId, f: FileId, g: GroupId, c: GroupId, key: Digest,
                     child: Group)
    requires WellFormed(env, u) && h < |s.files| && h != f && f < |s.files| == |env.files|
    requires s.files[f].group == g < c < |s.groups| && u == BothOut(s, h, f, c, child, Entering)
    requires KeyOf(env, f, s.groups[g]) == key && key in s.groups[g].children && s.groups[g].children[key] == c
    requires child.parent == Some(g) && s.groups[g].parent == None
    requires child.numPending >= 0 && s.groups[g].numPending > 0
    ensures f < |u.files| && u.files[f].loc == Entering && AskedFor(env, u, f) == c < |u.groups|
    ensures TrueCount(env, u, f) == child.numPending + s.groups[g].numPending
  {
    assert u.groups[g] == s.groups[g];
    assert PotentialFileCount(u, g) == s.groups[g].numPending;
    assert PotentialFileCount(u, c) == child.numPending + 1 + s.groups[g].numPending;
  }

  /**
   * A hashed file finds a child group with one held file, `h`; both go out, and the
   * child group asks for memory.
   */
  lemma SiftSecond(env: Env, s: State, h: FileId, f: FileId, g: GroupId, key: Digest, c: GroupId, child: Group,
                   required: int)
    returns (t: State)
    requires Sane(env) && Reached(env, s) && s.started && NobodyPushes(s) && env.paranoid
    requires h < |s.files| && h != f && f < |s.files| == |env.files| && s.files[f].loc == Hashed(true)
    requires s.files[f].group == g < c < |s.groups|
    requires KeyOf(env, f, s.groups[g]) == key && key in s.groups[g].children && s.groups[g].children[key] == c
    requires s.groups[c].held == [h] && child == CountedIn(env, s.groups[c], f) && child.status == StartHashing
    requires s.groups[c].parent == Some(g) && s.groups[g].parent == None
    requires child.numPending >= 0 && s.groups[g].numPending > 0
    requires required == Required(child, child.numPending + s.groups[g].numPending)
    ensures Reached(env, t) && t == BothOut(s, h, f, c, child, Pushing(required))
  {
    var u := SiftEnters(env, s, h, f, g, key, c, child);
    ReachedReachable(env, u);
    SecondCounts(env, s, u, h, f, g, c, key, child);
    t := Take(env, u, Ask(f, TrueCount(env, u, f)));
    StillBothOut(s, h, f, c, child, required);
  }

  lemma StillBothOut(s: State, h: FileId, f: FileId, c: GroupId, child: Group, required: int)
    requires h < |s.files| && h != f && f < |s.files| && c < |s.groups|
    ensures MoveTo(BothOut(s, h, f, c, child, Entering), f, Pushing(required))
         == BothOut(s, h, f, c, child, Pushing(required))
  {
    var u := BothOut(s, h, f, c, child, Entering);
    assert u.files[f := u.files[f].(loc := Pushing(required))] == BothOut(s, h, f, c, child, Pushing(required)).files;
  }

  lemma SiftEnters(env: Env, s: State, h: FileId, f: FileId, g: GroupId, key: Digest, c: GroupId, child: Group)
    returns (u: State)
    requires Sane(env) && Reached(env, s) && s.started && NobodyPushes(s) && env.paranoid
    requires h < |s.files| && h != f && f < |s.files| == |env.files| && s.files[f].loc == Hashed(true)
    requires s.files[f].group == g < c < |s.groups|
    requires KeyOf(env, f, s.groups[g]) == key && key in s.groups[g].children && s.groups[g].children[key] == c
    requires s.groups[c].held == [h] && child == CountedIn(env, s.groups[c], f) && child.status == StartHashing
    ensures Reached(env, u) && u == BothOut(s, h, f, c, child, Entering)
  {
    ReachedReachable(env, s);
    Unlocked(env, s, g);
    assert ChildFor(env, s, g, f) == (s, c);
    SecondReleases(env, s, h, f, c, child);
    u := Take(env, s, Sift(f));
  }

  /** The request for a file that is being pushed is decided, and the file is sent on. */
  lemma DecidePush(env: Env, s: State, f: FileId, g: GroupId, c: GroupId) returns (t: State)
    requires Sane(env) && Reached(env, s) && s.started
    requires f < |s.files| == |env.files| && s.files[f].loc.Pushing? && s.files[f].group == g
    requires c == AskedFor(env, s, f)
    ensures WellFormed(env, s) && g < |s.groups| && c < |s.groups| && Reached(env, t)
    ensures var u := if GrantedNow(env, s, f) then Commit(s, c, s.files[f].loc.required, MemoryBank.Whole) else s;
      t == SendDown(u, g, c, f)
  {
    t := Take(env, s, Decide(f, MemoryBank.Whole));
    assert OnCourse(env, s.groups, s.files[f], f) by { ReachedReachable(env, s); }
  }

  // ----- a size group of two files -----

  /** The criteria of a plain run, and two fresh files of one size. */
  ghost predicate Pair(env: Env, s: State, f: FileId, size: nat) {
    && env.cfg == Config(false, false, false, false)
    && f + 1 < |s.files| == |env.files| && s.files[f] == s.files[f + 1] == File(Fresh, 0, 0)
    && 0 < size == |env.files[f].content| == |env.files[f + 1].content|
    && env.files[f].tally == env.files[f + 1].tally == Tally(1, 0, 0, 0, 1, 1, 1)
  }

  /** A size group of `n` files. */
  function SizeGroup(size: nat, n: nat, pending: int, status: Status, held: seq<FileId>): Group {
    Group(None, None, 0, map[], size, 0, 0, 1, Tally(n, 0, 0, 0, n, n, n), pending, status, held, {}, Live, 0)
  }

  lemma PushOne(env: Env, u: State, f: FileId, size: nat, g: GroupId)
    requires f < |u.files| == |env.files| && u.files[f] == File(Moving, g, 0) && size > 0
    requires env.cfg == Config(false, false, false, false) && env.files[f].tally == Tally(1, 0, 0, 0, 1, 1, 1)
    requires g < |u.groups| == |u.bank.accounts| && u.groups[g] == SizeGroup(size, 0, 0, Dormant, [])
    ensures Push(env, u, g, f)
         == u.(files := u.files[f := File(Held, g, 0)], groups := u.groups[g := SizeGroup(size, 1, 0, Dormant, [f])])
  {
    var none: seq<FileId> := [];
    assert [f] + none == [f];
    var counted := SizeGroup(size, 1, 0, Dormant, []);
    assert CountedIn(env, u.groups[g], f) == counted;
    assert u.groups[g := counted][g := counted.(held := [f])] == u.groups[g := counted.(held := [f])];
  }

  lemma PushTwo(env: Env, u: State, f: FileId, size: nat, g: GroupId)
    requires 0 < f < |u.files| == |env.files| && u.files[f] == File(Moving, g, 0) && u.files[f - 1] == File(Held, g, 0)
    requires env.cfg == Config(false, false, false, false) && env.files[f].tally == Tally(1, 0, 0, 0, 1, 1, 1)
      && size > 0
    requires g < |u.groups| == |u.bank.accounts| && u.groups[g] == SizeGroup(size, 1, 0, Dormant, [f - 1])
    ensures Push(env, u, g, f)
         == u.(files := u.files[f - 1 := File(Out, g, 0)][f := File(Out, g, 0)],
               groups := u.groups[g := SizeGroup(size, 2, 2, StartHashing, [])])
  {
    var counted := SizeGroup(size, 2, 0, StartHashing, [f - 1]);
    assert CountedIn(env, u.groups[g], f) == counted;
    var released := ReleaseHeld(SetGroup(u, g, counted), g);
    assert released.files == u.files[f - 1 := File(Out, g, 0)];
    var out := SizeGroup(size, 2, 1, StartHashing, []);
    assert released.groups == u.groups[g := out];
    assert released.groups[g := out.(numPending := 2)] == u.groups[g := SizeGroup(size, 2, 2, StartHashing, [])];
  }

  lemma AdmitOne(env: Env, s: State, f: FileId, size: nat) returns (t: State)
    requires Sane(env) && Reached(env, s) && !s.started && s.open == None && Pair(env, s, f, size)
    ensures WellFormed(env, s) && Reached(env, t)
    ensures var g := |s.groups|;
      t == s.(files := s.files[f := File(Held, g, 0)], groups := s.groups + [SizeGroup(size, 1, 0, Dormant, [f])],
              bank := MemoryBank.Open(s.bank), open := Some(g), counters := t.counters)
  {
    ReachedReachable(env, s);
    var g := |s.groups|;
    t := Take(env, s, Admit(f));
    var grp := SizeGroup(size, 0, 0, Dormant, []);
    assert NewGroup(env, s, f, None, 0) == grp;
    var u := Enter(env, AppendGroup(s, grp).(open := Some(g)), f, g);
    PushOne(env, u, f, size, g);
    assert (s.groups + [grp])[g := SizeGroup(size, 1, 0, Dormant, [f])] == s.groups
      + [SizeGroup(size, 1, 0, Dormant, [f])];
    assert s.files[f := File(Moving, g, 0)][f := File(Held, g, 0)] == s.files[f := File(Held, g, 0)];
  }

  /** A size group of two files, which wait for the scheduler. */
  lemma AdmitPair(env: Env, s: State, f: FileId, size: nat) returns (t: State)
    requires Sane(env) && Reached(env, s) && !s.started && s.open == None && Pair(env, s, f, size)
    ensures Reached(env, t)
    ensures var g := |s.groups|;
      t == s.(files := s.files[f := File(Out, g, 0)][f + 1 := File(Out, g, 0)],
              groups := s.groups + [SizeGroup(size, 2, 2, StartHashing, [])],
              bank := MemoryBank.Open(s.bank), counters := t.counters)
  {
    var g := |s.groups|;
    var one := AdmitOne(env, s, f, size);
    t := Take(env, one, Admit(f + 1));
    var u := Enter(env, one, f + 1, g);
    PushTwo(env, u, f + 1, size, g);
    assert one.groups[g := SizeGroup(size, 2, 2, StartHashing, [])]
        == s.groups + [SizeGroup(size, 2, 2, StartHashing, [])];
    assert u.files[f := File(Out, g, 0)][f + 1 := File(Out, g, 0)]
        == s.files[f := File(Out, g, 0)][f + 1 := File(Out, g, 0)];
    t := Take(env, t, Close);
  }
}
