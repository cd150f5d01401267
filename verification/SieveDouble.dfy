/**
 * A run in which a group is charged twice, and what comes of it: two files of one
 * page, two files of three pages, and a bank of four pages for a paranoid digest.
 */
module SieveDouble {
  import opened Common
  import opened SieveState
  import opened SieveInvariant
  import opened SieveReach
  import opened SieveStarving
  import opened SieveEnding
  import MemoryBank

  const PAGE: nat := 4096

  function InfoOf(pages: nat): Info {
    Info(seq(pages * PAGE, _ => 0), Tally(1, 0, 0, 0, 1, 1, 1), false)
  }

  /** Every increment arrives in one buffer. */
  function Buffers(f: FileId, from: nat, to: nat): seq<seq<Byte>> {
    [seq(if from <= to then to - from else 0, _ => 0)]
  }

  function Example(): Env {
    Env(Config(false, false, false, false), PAGE, true, _ => 0, Buffers, [InfoOf(1), InfoOf(1), InfoOf(3), InfoOf(3)],
        4 * PAGE)
  }

  lemma ExampleSane()
    ensures Sane(Example())
  {
    var env := Example();
    forall f: FileId, from: nat, to: nat | f < 4 && from <= to <= |env.files[f].content|
      ensures Flatten(env.buffers(f, from, to)) == env.files[f].content[from..to]
    {
      FlattenOne(seq(to - from, _ => 0));
      assert seq(to - from, _ => 0 as Byte) == env.files[f].content[from..to];
    }
  }

  const FRESH := File(Fresh, 0, 0)

  function Small(loc: Loc): File { File(loc, 0, 0) }

  function Large(loc: Loc): File { File(loc, 1, 0) }

  lemma SmallAdmitted() returns (t: State)
    ensures Reached(Example(), t) && !t.started && t.open == None
    ensures t.files == [Small(Out), Small(Out), FRESH, FRESH]
    ensures t.groups == [SizeGroup(PAGE, 2, 2, StartHashing, [])]
    ensures t.bank == MemoryBank.Bank(4 * PAGE, 0, [MemoryBank.Account(false, 0)], 0, 0)
  {
    var env := Example();
    ExampleSane();
    ReachedInitial(env);
    var s := Initial(env);
    assert s.files == [FRESH, FRESH, FRESH, FRESH];
    t := AdmitPair(env, s, 0, PAGE);
    assert t.files == [Small(Out), Small(Out), FRESH, FRESH];
  }

  /** Both size groups wait for the scheduler. */
  lemma Begin() returns (t: State)
    ensures Reached(Example(), t) && t.started && t.open == None
    ensures t.files == [Small(Out), Small(Out), Large(Out), Large(Out)]
    ensures t.groups == [SizeGroup(PAGE, 2, 2, StartHashing, []), SizeGroup(3 * PAGE, 2, 2, StartHashing, [])]
    ensures t.bank == MemoryBank.Bank(4 * PAGE, 0, [MemoryBank.Account(false, 0), MemoryBank.Account(false, 0)], 0, 0)
  {
    ExampleSane();
    var s := SmallAdmitted();
    s := AdmitPair(Example(), s, 2, 3 * PAGE);
    assert s.files == [Small(Out), Small(Out), Large(Out), Large(Out)];
    t := Take(Example(), s, Launch);
  }

  /** Two workers find the first group without its memory, and both ask for two pages. */
  lemma BothAsk() returns (t: State)
    ensures Reached(Example(), t) && t.started && t.open == None
    ensures t.files == [Small(Asking(2 * PAGE)), Small(Asking(2 * PAGE)), Large(Out), Large(Out)]
    ensures t.groups == [SizeGroup(PAGE, 2, 2, StartHashing, []), SizeGroup(3 * PAGE, 2, 2, StartHashing, [])]
    ensures t.bank == MemoryBank.Bank(4 * PAGE, 0, [MemoryBank.Account(false, 0), MemoryBank.Account(false, 0)], 0, 0)
  {
    ExampleSane();
    var s := Begin();
    assert PotentialFileCount(s, 0) == 2;
    s := AskFor(Example(), s, 0, 2 * PAGE);
    assert PotentialFileCount(s, 0) == 2;
    t := AskFor(Example(), s, 1, 2 * PAGE);
    assert t.files == [Small(Asking(2 * PAGE)), Small(Asking(2 * PAGE)), Large(Out), Large(Out)];
  }

  lemma FirstGranted() returns (t: State)
    ensures Reached(Example(), t) && t.started && t.open == None
    ensures t.files == [Small(Granted), Small(Asking(2 * PAGE)), Large(Out), Large(Out)]
    ensures t.groups == [SizeGroup(PAGE, 2, 2, Hashing, []), SizeGroup(3 * PAGE, 2, 2, StartHashing, [])]
    ensures t.bank
         == MemoryBank.Bank(2 * PAGE, 1, [MemoryBank.Account(true, 2 * PAGE), MemoryBank.Account(false, 0)], 0, 0)
  {
    ExampleSane();
    var s := BothAsk();
    t := Grant(Example(), s, 0, MemoryBank.Whole);
    assert t.files == [Small(Granted), Small(Asking(2 * PAGE)), Large(Out), Large(Out)];
    assert t.groups == [SizeGroup(PAGE, 2, 2, Hashing, []), SizeGroup(3 * PAGE, 2, 2, StartHashing, [])];
    assert t.bank.accounts == [MemoryBank.Account(true, 2 * PAGE), MemoryBank.Account(false, 0)];
  }

  lemma SecondGranted() returns (t: State)
    ensures Reached(Example(), t) && t.started
    ensures t.files == [Small(Granted), Small(Granted), Large(Out), Large(Out)]
    ensures t.groups == [SizeGroup(PAGE, 2, 2, Hashing, []), SizeGroup(3 * PAGE, 2, 2, StartHashing, [])]
    ensures t.bank == MemoryBank.Bank(0, 2, [MemoryBank.Account(true, 4 * PAGE), MemoryBank.Account(false, 0)], 0, 1)
  {
    ExampleSane();
    var s := FirstGranted();
    t := Grant(Example(), s, 1, MemoryBank.Whole);
    assert t.files == [Small(Granted), Small(Granted), Large(Out), Large(Out)];
    assert t.groups == [SizeGroup(PAGE, 2, 2, Hashing, []), SizeGroup(3 * PAGE, 2, 2, StartHashing, [])];
    assert t.bank.accounts == [MemoryBank.Account(true, 4 * PAGE), MemoryBank.Account(false, 0)];
  }

  lemma OneActive(a: seq<MemoryBank.Account>)
    requires |a| == 2 && a[0].isActive && !a[1].isActive
    ensures MemoryBank.ActiveCount(a) == 1
  {
    assert MemoryBank.ActiveCount(a[..1][..0]) == 0;
    assert MemoryBank.ActiveCount(a[..1]) == 1;
  }

  lemma LargeStarves(s: State)
    requires s.started && s.files == [Small(Granted), Small(Granted), Large(Out), Large(Out)]
    requires s.groups == [SizeGroup(PAGE, 2, 2, Hashing, []), SizeGroup(3 * PAGE, 2, 2, StartHashing, [])]
    ensures Starving(Example(), s, 1)
  {}

  /**
   * Both requests are granted: one active group is counted as two, and the group of
   * the large files, which needs six pages, starves.  The sieve cannot come to its end.
   */
  lemma ChargedTwice() returns (s: State)
    ensures Sane(Example()) && Reached(Example(), s)
    ensures s.bank.activeGroups == 2 && MemoryBank.ActiveCount(s.bank.accounts) == 1
    ensures s.bank.accounts[0].allocation == 4 * PAGE && s.bank.available == 0
    ensures Doomed(Example(), s, 1) && !CanEnd(Example(), s)
  {
    ExampleSane();
    s := SecondGranted();
    OneActive(s.bank.accounts);
    LargeStarves(s);
    ReachedReachable(Example(), s);
    StarvingCannotEnd(Example(), s, 1);
  }
}
