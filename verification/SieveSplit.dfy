/**
 * Two files of one page with equal content, of which the second arrives in two
 * buffers because of a short read: the paranoid digest keeps them apart.
 */
module SieveSplit {
  import opened Common
  import opened SieveState
  import opened SieveInvariant
  import opened SieveReach
  import MemoryBank

  const PAGE: nat := 4096

  function Content(): seq<Byte> {
    seq(PAGE, _ => 0)
  }

  /** The second file's first read brings one byte only. */
  function Buffers(f: FileId, from: nat, to: nat): seq<seq<Byte>> {
    if !(from <= to <= PAGE) then []
    else if f == 1 && from + 1 < to then [Content()[from..from + 1], Content()[from + 1..to]]
    else [Content()[from..to]]
  }

  function Example(digest: seq<seq<Byte>> -> Digest): Env {
    var info := Info(Content(), Tally(1, 0, 0, 0, 1, 1, 1), false);
    Env(Config(false, false, false, false), PAGE, true, digest, Buffers, [info, info], 4 * PAGE)
  }

  lemma ExampleSane(digest: seq<seq<Byte>> -> Digest)
    ensures Sane(Example(digest))
  {
    var env := Example(digest);
    forall f: FileId, from: nat, to: nat | f < 2 && from <= to <= |env.files[f].content|
      ensures Flatten(env.buffers(f, from, to)) == env.files[f].content[from..to]
    {
      if f == 1 && from + 1 < to {
        FlattenAppend([Content()[from..from + 1]], Content()[from + 1..to]);
        FlattenOne(Content()[from..from + 1]);
        assert [Content()[from..from + 1]] + [Content()[from + 1..to]] == Buffers(f, from, to);
        assert Content()[from..from + 1] + Content()[from + 1..to] == Content()[from..to];
      } else {
        FlattenOne(Content()[from..to]);
      }
    }
  }

  function Whole(): seq<seq<Byte>> { Buffers(0, 0, PAGE) }

  function Cut(): seq<seq<Byte>> { Buffers(1, 0, PAGE) }

  /** The size group while its only increment is being hashed. */
  function Top(pending: int, children: map<Digest, GroupId>): Group {
    SizeGroup(PAGE, 2, pending, Hashing, []).(nextOffset := PAGE, children := children)
  }

  function Child(key: Digest, f: FileId): Group {
    Group(Some(0), Some(0), key, map[], PAGE, PAGE, 0, 8, Tally(1, 0, 0, 0, 1, 1, 1), 0, Dormant, [f], {}, Live, 0)
  }

  lemma Plans(env: Env, grp: Group)
    requires env.pageSize == PAGE && grp.hashOffset == 0 && grp.offsetFactor == 1 && grp.fileSize == PAGE
    ensures PlannedOffset(env, grp) == PAGE
  {}

  lemma Committed(digest: seq<seq<Byte>> -> Digest) returns (t: State)
    ensures Reached(Example(digest), t) && t.started && t.open == None
    ensures t.files == [File(Granted, 0, 0), File(Out, 0, 0)]
    ensures t.groups == [SizeGroup(PAGE, 2, 2, Hashing, [])] && |t.bank.accounts| == 1
  {
    var env := Example(digest);
    ExampleSane(digest);
    ReachedInitial(env);
    var s := Initial(env);
    assert s.files == [File(Fresh, 0, 0), File(Fresh, 0, 0)];
    s := AdmitPair(env, s, 0, PAGE);
    s := Take(env, s, Launch);
    assert s.files == [File(Out, 0, 0), File(Out, 0, 0)];
    assert s.groups == [SizeGroup(PAGE, 2, 2, StartHashing, [])];
    assert PotentialFileCount(s, 0) == 2;
    s := AskFor(env, s, 0, 2 * PAGE);
    t := Grant(env, s, 0, MemoryBank.Whole);
    assert t.files == [File(Granted, 0, 0), File(Out, 0, 0)];
    assert t.groups == [SizeGroup(PAGE, 2, 2, Hashing, [])];
  }

  lemma FirstHeld(digest: seq<seq<Byte>> -> Digest) returns (t: State)
    ensures Reached(Example(digest), t) && t.started && t.open == None
    ensures t.files == [File(Held, 1, PAGE), File(Out, 0, 0)]
    ensures t.groups == [Top(1, map[digest(Whole()) := 1]), Child(digest(Whole()), 0)] && |t.bank.accounts| == 2
  {
    var env := Example(digest);
    ExampleSane(digest);
    var s := Committed(digest);
    Plans(env, s.groups[0]);
    s := ReadGranted(env, s, 0, 0, PAGE);
    assert {} + {0} == {0};
    assert s.groups == [Top(2, map[]).(inProgress := {0})];
    var key := digest(Whole());
    t := SiftFirst(env, s, 0, 0, key, Child(key, 0).(held := []));
    assert {0} - {0} == {};
    assert map[][key := 1] == map[key := 1];
    assert t.groups == [Top(1, map[key := 1]), Child(key, 0)];
    assert t.files == [File(Held, 1, PAGE), File(Out, 0, 0)];
  }

  /**
   * Equal files that were read without failure end in different groups, each on its
   * own: the digests are equal only if the buffers were cut alike.
   */
  lemma SplitByShortRead(digest: seq<seq<Byte>> -> Digest) returns (t: State)
    requires digest(Whole()) != digest(Cut())
    ensures var env := Example(digest);
      && Sane(env) && Reached(env, t)
      && env.files[0].content == env.files[1].content
      && t.files == [File(Held, 1, PAGE), File(Held, 2, PAGE)]
      && |t.groups| == 3 && t.groups[1].origin == t.groups[2].origin == Some(0)
  {
    var env := Example(digest);
    ExampleSane(digest);
    var s := FirstHeld(digest);
    Plans(env, s.groups[0]);
    s := ReadNext(env, s, 1, 0, PAGE);
    var whole, cut := digest(Whole()), digest(Cut());
    assert {} + {1} == {1};
    assert s.groups == [Top(1, map[whole := 1]).(inProgress := {1}), Child(whole, 0)];
    t := SiftFirst(env, s, 1, 0, cut, Child(cut, 1).(held := []));
    assert t.files == [File(Held, 1, PAGE), File(Held, 2, PAGE)];
  }
}
