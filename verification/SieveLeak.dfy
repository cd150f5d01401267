/**
 * A run that creates memory out of nothing, and one that makes an amount negative:
 * five files of 13 pages, and a bank of 39 pages for a paranoid digest.
 */
module SieveLeak {
  import opened Common
  import opened SieveState
  import opened SieveInvariant
  import opened SieveReach
  import MemoryBank

  const PAGE: nat := 4096
  const SIZE: nat := 13 * PAGE
  const FIRST: nat := 4 * PAGE

  const DIGEST: seq<seq<Byte>> -> Digest :=
    (b: seq<seq<Byte>>) => if b == [] || b[0] == [] || b[0][0] == 0 then 0 else 1

  function Filler(f: FileId): Byte {
    if f in {2, 3} then 1 else 0
  }

  function Content(f: FileId): seq<Byte> {
    seq(SIZE, _ => Filler(f))
  }

  function InfoOf(f: FileId): Info {
    Info(Content(f), Tally(1, 0, 0, 0, 1, 1, 1), false)
  }

  /** Every increment arrives in one buffer. */
  function Buffers(f: FileId, from: nat, to: nat): seq<seq<Byte>> {
    if from <= to <= SIZE then [Content(f)[from..to]] else []
  }

  /** Files 0, 1 and 4 are alike, and so are files 2 and 3. */
  function Example(): Env {
    Env(Config(false, false, false, false), PAGE, true, DIGEST, Buffers,
        [InfoOf(0), InfoOf(1), InfoOf(2), InfoOf(3), InfoOf(4)], 39 * PAGE)
  }

  lemma ExampleSane()
    ensures Sane(Example())
  {
    var env := Example();
    forall f: FileId, from: nat, to: nat | f < 5 && from <= to <= |env.files[f].content|
      ensures Flatten(env.buffers(f, from, to)) == env.files[f].content[from..to]
    {
      FlattenOne(Content(f)[from..to]);
    }
  }

  lemma FileFacts(f: FileId)
    requires f < 5
    ensures Example().files[f] == InfoOf(f) && |Example().files[f].content| == SIZE
  {}

  /** The size group, after `n` files were pushed into it. */
  function Root(n: nat, pending: int, status: Status): Group {
    Group(None, None, 0, map[], SIZE, 0, 0, 1, Tally(n, 0, 0, 0, n, n, n), pending, status, [], {}, Live, 0)
  }

  /** The size group while its increment of four pages is being hashed. */
  function Hashing0(pending: int, children: map<Digest, GroupId>): Group {
    Root(5, pending, Hashing).(nextOffset := FIRST, children := children)
  }

  /** A group of the second generation. */
  function Child(key: Digest, n: nat, pending: int, status: Status, held: seq<FileId>): Group {
    Group(Some(0), Some(0), key, map[], SIZE, FIRST, 0, 8, Tally(n, 0, 0, 0, n, n, n), pending, status, held, {}, Live,
          0)
  }

  const OUT := File(Out, 0, 0)
  const FRESH := File(Fresh, 0, 0)
  const READ := File(Hashed(true), 0, FIRST)

  function InChild(loc: Loc, c: GroupId): File {
    File(loc, c, FIRST)
  }

  const NONE := MemoryBank.Account(false, 0)

  function Active(pages: int): MemoryBank.Account {
    MemoryBank.Account(true, pages * PAGE)
  }

  /** The books, in pages: `n` accounts, of which the third is empty. */
  ghost predicate Books(b: MemoryBank.Bank, n: nat, available: int, active: int,
                        first: MemoryBank.Account, second: MemoryBank.Account) {
    && |b.accounts| == n && b.available == available * PAGE && b.activeGroups == active && b.leaked == 0
       && b.phantoms == 0
    && (n > 0 ==> b.accounts[0] == first)
    && (n > 1 ==> b.accounts[1] == second)
    && (n > 2 ==> b.accounts[2] == NONE)
  }

  /** A state that can be reached, up to its books and counters. */
  ghost predicate At(s: State, files: seq<File>, groups: seq<Group>, open: Option<GroupId>, started: bool) {
    Reached(Example(), s) && s == State(files, groups, s.bank, open, started, s.counters)
  }

  // ----- the five files enter -----

  function Admitted(n: nat): seq<File> {
    seq(5, i => if i < n then OUT else FRESH)
  }

  lemma Nothing() returns (s: State)
    ensures At(s, [FRESH, FRESH, FRESH, FRESH, FRESH], [], None, false) && Books(s.bank, 0, 39, 0, NONE, NONE)
  {
    s := Initial(Example());
    ReachedInitial(Example());
  }

  lemma FirstGroup(u: State)
    requires |u.files| == 5 && u.files[0] == File(Moving, 0, 0) && u.groups == [Root(0, 0, Dormant)]
      && |u.bank.accounts| == 1
    ensures Push(Example(), u, 0, 0)
         == u.(files := u.files[0 := File(Held, 0, 0)], groups := [Root(1, 0, Dormant).(held := [0])])
  {
    FileFacts(0);
    var none: seq<FileId> := [];
    assert [0] + none == [0];
    var groups := [Root(1, 0, Dormant).(held := [0])];
    assert u.groups[0 := Root(1, 0, Dormant)][0 := groups[0]] == groups;
  }

  lemma Admit0() returns (t: State)
    ensures At(t, [File(Held, 0, 0), FRESH, FRESH, FRESH, FRESH], [Root(1, 0, Dormant).(held := [0])], Some(0), false)
    ensures Books(t.bank, 1, 39, 0, NONE, NONE)
  {
    var env := Example();
    ExampleSane();
    var s := Nothing();
    t := Take(env, s, Admit(0));
    FileFacts(0);
    var grp := NewGroup(env, s, 0, None, 0);
    assert grp == Root(0, 0, Dormant);
    var u := Enter(env, AppendGroup(s, grp).(open := Some(0)), 0, 0);
    assert u.groups == [grp];
    FirstGroup(u);
    assert t == Push(env, u, 0, 0);
    assert u.files[0 := File(Held, 0, 0)] == [File(Held, 0, 0), FRESH, FRESH, FRESH, FRESH];
  }

  lemma SecondInGroup(u: State)
    requires |u.files| == 5 && u.files[0] == File(Held, 0, 0) && |u.bank.accounts| == 1
    requires u.groups == [Root(1, 0, Dormant).(held := [0])]
    ensures Push(Example(), u, 0, 1)
         == u.(files := u.files[0 := OUT][1 := u.files[1].(loc := Out, group := 0)], groups :=
               [Root(2, 2, StartHashing)])
  {
    FileFacts(1);
    var counted := SetGroup(u, 0, Root(2, 0, StartHashing).(held := [0]));
    assert CountedIn(Example(), u.groups[0], 1) == Root(2, 0, StartHashing).(held := [0]);
    assert ReleaseHeld(counted, 0).files == u.files[0 := OUT];
    assert ReleaseHeld(counted, 0).groups == [Root(2, 1, StartHashing)];
  }

  lemma TwoOut(files: seq<File>)
    requires files == [File(Held, 0, 0), File(Moving, 0, 0), FRESH, FRESH, FRESH]
    ensures files[0 := OUT][1 := files[1].(loc := Out, group := 0)] == Admitted(2)
  {
    assert files[0 := OUT][1 := OUT] == [OUT, OUT, FRESH, FRESH, FRESH] == Admitted(2);
  }

  lemma Admit1() returns (t: State)
    ensures At(t, Admitted(2), [Root(2, 2, StartHashing)], Some(0), false)
    ensures Books(t.bank, 1, 39, 0, NONE, NONE)
  {
    ExampleSane();
    var s := Admit0();
    FileFacts(1);
    var u := Enter(Example(), s, 1, 0);
    assert u.files == [File(Held, 0, 0), File(Moving, 0, 0), FRESH, FRESH, FRESH];
    SecondInGroup(u);
    t := Take(Example(), s, Admit(1));
    TwoOut(u.files);
  }

  lemma NextInGroup(u: State, f: FileId, n: nat)
    requires f < |u.files| == 5 && u.groups == [Root(n, n, StartHashing)] && |u.bank.accounts| == 1
    ensures Push(Example(), u, 0, f)
         == u.(files := u.files[f := u.files[f].(loc := Out, group := 0)], groups := [Root(n + 1, n + 1, StartHashing)])
  {
    FileFacts(f);
    var counted := SetGroup(u, 0, Root(n + 1, n, StartHashing));
    assert ReleaseHeld(counted, 0).files == u.files;
  }

  lemma AdmitNext(n: nat) returns (t: State)
    requires 2 <= n <= 5
    ensures At(t, Admitted(n), [Root(n, n, StartHashing)], Some(0), false)
    ensures Books(t.bank, 1, 39, 0, NONE, NONE)
  {
    if n == 2 {
      t := Admit1();
    } else {
      ExampleSane();
      var s := AdmitNext(n - 1);
      FileFacts(n - 1);
      t := Take(Example(), s, Admit(n - 1));
      NextInGroup(Enter(Example(), s, n - 1, 0), n - 1, n - 1);
      assert t.files == Admitted(n);
    }
  }

  lemma Begin() returns (t: State)
    ensures At(t, [OUT, OUT, OUT, OUT, OUT], [Root(5, 5, StartHashing)], None, true)
      && Books(t.bank, 1, 39, 0, NONE, NONE)
  {
    ExampleSane();
    var s := AdmitNext(5);
    t := Take(Example(), s, Close);
    t := Take(Example(), t, Launch);
    assert t.files == [OUT, OUT, OUT, OUT, OUT];
  }

  // ----- the first increment -----

  lemma Plans(grp: Group)
    requires grp.hashOffset == 0 && grp.offsetFactor == 1 && grp.fileSize == SIZE
    ensures PlannedOffset(Example(), grp) == FIRST
  {}

  lemma Keys(f: FileId, g: Group)
    requires f < 5 && g.hashOffset == 0 && g.nextOffset == FIRST
    ensures KeyOf(Example(), f, g) == if f in {2, 3} then 1 else 0
  {
    FileFacts(f);
    var b := Content(f)[0..FIRST];
    assert b[0] == Filler(f);
    assert HashedBuffers(Example(), f, g) == [b];
  }

  /** The first request brings the size group all the memory. */
  lemma AcquireFirst() returns (t: State)
    ensures At(t, [File(Granted, 0, 0), OUT, OUT, OUT, OUT], [Root(5, 5, Hashing)], None, true)
    ensures Books(t.bank, 1, 0, 1, Active(39), NONE)
  {
    var env := Example();
    ExampleSane();
    var s := Begin();
    assert PotentialFileCount(s, 0) == 5;
    t := AskFor(env, s, 0, 39 * PAGE);
    assert GrantedNow(env, t, 0);
    t := Grant(env, t, 0, MemoryBank.Whole);
    assert t.files == [File(Granted, 0, 0), OUT, OUT, OUT, OUT];
    assert t.groups == [Root(5, 5, Hashing)];
  }

  lemma Hold0() returns (t: State)
    ensures At(t, [InChild(Held, 1), OUT, OUT, OUT, OUT], [Hashing0(4, map[0 := 1]), Child(0, 1, 0, Dormant, [0])],
               None, true)
    ensures Books(t.bank, 2, 0, 1, Active(39), NONE)
  {
    var env := Example();
    ExampleSane();
    FileFacts(0);
    t := AcquireFirst();
    Plans(t.groups[0]);
    t := ReadGranted(env, t, 0, 0, FIRST);
    assert {} + {0} == {0};
    assert t.groups == [Hashing0(5, map[]).(inProgress := {0})];
    t := OpenChild(t, 0, 0, 5, map[]);
    assert map[][0 := 1] == map[0 := 1];
    assert t.files == [InChild(Held, 1), OUT, OUT, OUT, OUT];
    assert t.groups == [Hashing0(4, map[0 := 1]), Child(0, 1, 0, Dormant, [0])];
  }

  /** A file without a twin so far opens a child group. */
  lemma OpenChild(s: State, f: FileId, key: Digest, pending: int, children: map<Digest, GroupId>) returns (t: State)
    requires Reached(Example(), s) && s.started && NobodyPushes(s)
    requires f < |s.files| == 5 && s.files[f] == READ && pending > 1 && s.groups != []
    requires s.groups[0] == Hashing0(pending, children).(inProgress := {f})
    requires key == (if f in {2, 3} then 1 else 0) && key !in children
    ensures Reached(Example(), t) && NobodyPushes(t)
    ensures var c := |s.groups|;
      t == s.(files := s.files[f := InChild(Held, c)],
              groups := s.groups[0 := Hashing0(pending - 1, children[key := c])] + [Child(key, 1, 0, Dormant, [f])],
              bank := MemoryBank.Open(s.bank))
  {
    ExampleSane();
    FileFacts(f);
    Keys(f, s.groups[0]);
    ChildOpened(s, f, key);
    Left(s.groups[0], f, key, |s.groups|, pending, children);
    t := SiftFirst(Example(), s, f, 0, key, Child(key, 1, 0, Dormant, []));
  }

  lemma ChildOpened(s: State, f: FileId, key: Digest)
    requires f < |s.files| == 5 && s.files[f] == READ && s.groups != [] && s.groups[0].offsetFactor == 1
    ensures CountedIn(Example(), NewGroup(Example(), s, f, Some(0), key), f) == Child(key, 1, 0, Dormant, [])
  {
    FileFacts(f);
  }

  lemma Left(grp: Group, f: FileId, key: Digest, c: GroupId, pending: int, children: map<Digest, GroupId>)
    requires grp == Hashing0(pending, children).(inProgress := {f})
    ensures WithChild(grp, f, key, c) == Hashing0(pending - 1, children[key := c])
  {
    assert {f} - {f} == {};
  }

  /** A further file of the size group is made ready and read. */
  lemma ReadMore(s: State, f: FileId, pending: int, children: map<Digest, GroupId>) returns (t: State)
    requires Reached(Example(), s) && s.started && NobodyPushes(s)
    requires f < |s.files| == 5 && s.files[f] == OUT && s.groups != [] && s.groups[0] == Hashing0(pending, children)
    ensures Reached(Example(), t) && NobodyPushes(t)
    ensures t == s.(files := s.files[f := READ], groups := s.groups[0 := s.groups[0].(inProgress := {f})],
                    counters := t.counters)
  {
    ExampleSane();
    FileFacts(f);
    Plans(s.groups[0]);
    t := ReadNext(Example(), s, f, 0, FIRST);
    assert {} + {f} == {f};
  }

  /** A file finds its twin held; both go out, and the child group asks. */
  lemma FindTwin(s: State, h: FileId, f: FileId, key: Digest, c: GroupId, pending: int, children: map<Digest, GroupId>,
                 required: int) returns (t: State)
    requires Reached(Example(), s) && s.started && NobodyPushes(s)
    requires f < |s.files| == 5 && s.files[f] == READ && h < 5 && h != f && pending > 1
    requires 0 < c < |s.groups| && s.groups[0] == Hashing0(pending, children).(inProgress := {f})
    requires key == (if f in {2, 3} then 1 else 0) && key in children && children[key] == c
    requires s.groups[c] == Child(key, 1, 0, Dormant, [h])
    requires required == (pending / 2 + 1) * 9 * PAGE
    ensures Reached(Example(), t)
    ensures t == BothOut(s, h, f, c, Child(key, 2, 0, StartHashing, [h]), Pushing(required))
  {
    ExampleSane();
    FileFacts(f);
    Keys(f, s.groups[0]);
    t := SiftSecond(Example(), s, h, f, 0, key, c, Child(key, 2, 0, StartHashing, [h]), required);
  }

  /** The first child group is about to ask for 27 pages. */
  lemma Push1() returns (t: State)
    ensures At(t, [InChild(Out, 1), READ.(loc := Pushing(27 * PAGE)), OUT, OUT, OUT],
               [Hashing0(4, map[0 := 1]).(inProgress := {1}), Child(0, 2, 1, StartHashing, [])], None, true)
    ensures Books(t.bank, 2, 0, 1, Active(39), NONE)
  {
    var s := Hold0();
    s := ReadMore(s, 1, 4, map[0 := 1]);
    t := FindTwin(s, 0, 1, 0, 1, 4, map[0 := 1], 27 * PAGE);
    assert t.files == [InChild(Out, 1), READ.(loc := Pushing(27 * PAGE)), OUT, OUT, OUT];
    assert t.groups == [Hashing0(4, map[0 := 1]).(inProgress := {1}), Child(0, 2, 1, StartHashing, [])];
  }

  lemma Asked(s: State, f: FileId, key: Digest, c: GroupId)
    requires f < |s.files| == 5 && s.files[f].loc.Pushing? && s.files[f].group == 0 && 0 < c < |s.groups|
    requires s.groups[0].hashOffset == 0 && s.groups[0].nextOffset == FIRST
    requires key == (if f in {2, 3} then 1 else 0) && key in s.groups[0].children && s.groups[0].children[key] == c
    ensures AskedFor(Example(), s, f) == c
  {
    Keys(f, s.groups[0]);
  }

  /** It takes them from the size group. */
  lemma Sift1() returns (t: State)
    ensures At(t, [InChild(Out, 1), InChild(Out, 1), OUT, OUT, OUT],
               [Hashing0(3, map[0 := 1]), Child(0, 2, 2, Hashing, [])], None, true)
    ensures Books(t.bank, 2, 0, 2, Active(12), Active(27))
  {
    var env := Example();
    ExampleSane();
    FileFacts(1);
    var s := Push1();
    Asked(s, 1, 0, 1);
    t := DecidePush(env, s, 1, 0, 1);
    assert GrantedNow(env, s, 1);
    assert {1} - {1} == {};
    assert t.files == [InChild(Out, 1), InChild(Out, 1), OUT, OUT, OUT];
    assert t.groups == [Hashing0(3, map[0 := 1]), Child(0, 2, 2, Hashing, [])];
  }

  const BOTH: map<Digest, GroupId> := map[0 := 1, 1 := 2]

  lemma Hold2() returns (t: State)
    ensures At(t, [InChild(Out, 1), InChild(Out, 1), InChild(Held, 2), OUT, OUT],
               [Hashing0(2, BOTH), Child(0, 2, 2, Hashing, []), Child(1, 1, 0, Dormant, [2])], None, true)
    ensures Books(t.bank, 3, 0, 2, Active(12), Active(27))
  {
    var s := Sift1();
    s := ReadMore(s, 2, 3, map[0 := 1]);
    t := OpenChild(s, 2, 1, 3, map[0 := 1]);
    assert map[0 := 1][1 := 2] == BOTH;
    assert t.files == [InChild(Out, 1), InChild(Out, 1), InChild(Held, 2), OUT, OUT];
    assert t.groups == [Hashing0(2, BOTH), Child(0, 2, 2, Hashing, []), Child(1, 1, 0, Dormant, [2])];
  }

  lemma Push3() returns (t: State)
    ensures At(t, [InChild(Out, 1), InChild(Out, 1), InChild(Out, 2), READ.(loc := Pushing(18 * PAGE)), OUT],
               [Hashing0(2, BOTH).(inProgress := {3}), Child(0, 2, 2, Hashing, []), Child(1, 2, 1, StartHashing, [])],
               None, true)
    ensures Books(t.bank, 3, 0, 2, Active(12), Active(27))
  {
    var s := Hold2();
    s := ReadMore(s, 3, 2, BOTH);
    t := FindTwin(s, 2, 3, 1, 2, 2, BOTH, 18 * PAGE);
    assert t.files == [InChild(Out, 1), InChild(Out, 1), InChild(Out, 2), READ.(loc := Pushing(18 * PAGE)), OUT];
    assert t.groups
      == [Hashing0(2, BOTH).(inProgress := {3}), Child(0, 2, 2, Hashing, []), Child(1, 2, 1, StartHashing, [])];
  }

  /** The second child group asks for 18 pages, finds 12 and two active groups, and is refused. */
  lemma Sift3() returns (t: State)
    ensures At(t, [InChild(Out, 1), InChild(Out, 1), InChild(Out, 2), InChild(Out, 2), OUT],
               [Hashing0(1, BOTH), Child(0, 2, 2, Hashing, []), Child(1, 2, 2, StartHashing, [])], None, true)
    ensures Books(t.bank, 3, 0, 2, Active(12), Active(27))
  {
    var env := Example();
    ExampleSane();
    FileFacts(3);
    var s := Push3();
    Asked(s, 3, 1, 2);
    t := DecidePush(env, s, 3, 0, 2);
    assert !GrantedNow(env, s, 3);
    assert {3} - {3} == {};
    assert t.files == [InChild(Out, 1), InChild(Out, 1), InChild(Out, 2), InChild(Out, 2), OUT];
    assert t.groups == [Hashing0(1, BOTH), Child(0, 2, 2, Hashing, []), Child(1, 2, 2, StartHashing, [])];
  }

  // ----- the window -----

  /** The size group after its last file was given up: nobody needs it any more. */
  function Leftover(stage: Stage): Group {
    Hashing0(0, BOTH).(stage := stage, finalised := 1)
  }

  const IGNORED := File(Ignored, 0, 0)

  lemma Abort4() returns (t: State)
    ensures At(t, [InChild(Out, 1), InChild(Out, 1), InChild(Out, 2), InChild(Out, 2), IGNORED],
               [Leftover(Finalising), Child(0, 2, 2, Hashing, []), Child(1, 2, 2, StartHashing, [])], None, true)
    ensures Books(t.bank, 3, 0, 2, Active(12), Active(27))
  {
    var env := Example();
    ExampleSane();
    var s := Sift3();
    Unlocked(env, s, 0);
    t := Take(env, s, Abort(4));
    assert {} - {4} == {};
    assert t.groups[0] == Leftover(Finalising);
    assert t.groups == [Leftover(Finalising), Child(0, 2, 2, Hashing, []), Child(1, 2, 2, StartHashing, [])];
    assert t.files == [InChild(Out, 1), InChild(Out, 1), InChild(Out, 2), InChild(Out, 2), IGNORED];
  }

  /** In the window: the size group's 12 pages are credited to the bank, and its account still shows them. */
  lemma Credited() returns (t: State)
    ensures At(t, [InChild(Out, 1), InChild(Out, 1), InChild(Out, 2), InChild(Out, 2), IGNORED],
               [Leftover(Returned), Child(0, 2, 2, Hashing, []), Child(1, 2, 2, StartHashing, [])], None, true)
    ensures Books(t.bank, 3, 12, 1, Active(12).(isActive := false), Active(27))
  {
    ExampleSane();
    var s := Abort4();
    t := Take(Example(), s, ReturnMemory(0));
    assert t.groups == [Leftover(Returned), Child(0, 2, 2, Hashing, []), Child(1, 2, 2, StartHashing, [])];
  }

  /** The second child group asks for 18 pages. */
  lemma ToWindow() returns (t: State)
    ensures At(t, [InChild(Out, 1), InChild(Out, 1), InChild(Asking(18 * PAGE), 2), InChild(Out, 2), IGNORED],
               [Leftover(Returned), Child(0, 2, 2, Hashing, []), Child(1, 2, 2, StartHashing, [])], None, true)
    ensures Books(t.bank, 3, 12, 1, Active(12).(isActive := false), Active(27))
    ensures CanTear(Example(), t, 2)
  {
    ExampleSane();
    var s := Credited();
    assert PotentialFileCount(s, 0) == 0 && PotentialFileCount(s, 2) == 2;
    t := AskFor(Example(), s, 2, 18 * PAGE);
    assert t.files == [InChild(Out, 1), InChild(Out, 1), InChild(Asking(18 * PAGE), 2), InChild(Out, 2), IGNORED];
  }

  lemma ThreeAccounts(a: seq<MemoryBank.Account>)
    requires |a| == 3
    ensures MemoryBank.Allocated(a)
         == (if a[0].isActive then a[0].allocation else 0) + (if a[1].isActive then a[1].allocation else 0)
            + (if a[2].isActive then a[2].allocation else 0)
  {
    var b := a[..2];
    assert MemoryBank.Allocated(b[..1][..0]) == 0;
    assert MemoryBank.Allocated(b[..1]) == if a[0].isActive then a[0].allocation else 0;
    assert MemoryBank.Allocated(b) == MemoryBank.Allocated(b[..1]) + if a[1].isActive then a[1].allocation else 0;
  }

  /**
   * The bank is not always conserved: starting from 39 pages, this run ends with 6
   * in the bank and 27 and 18 with the two active groups.
   */
  lemma MemoryOutOfNothing() returns (s: State)
    ensures Sane(Example()) && Reached(Example(), s)
    ensures s.bank.available + MemoryBank.Allocated(s.bank.accounts) == 51 * PAGE > Example().memory
  {
    ExampleSane();
    var t := ToWindow();
    s := Grant(Example(), t, 2, MemoryBank.Whole);
    ThreeAccounts(s.bank.accounts);
  }

  /**
   * Amounts do not always stay above zero: zeroed between the reading and the debit,
   * the size group's account ends 12 pages below.
   */
  lemma NegativeAmount() returns (s: State)
    ensures Sane(Example()) && Reached(Example(), s)
    ensures |s.bank.accounts| == 3 && s.bank.accounts[0].allocation == -12 * PAGE
  {
    ExampleSane();
    var t := ToWindow();
    s := Grant(Example(), t, 2, MemoryBank.BeforeDebit);
  }
}
