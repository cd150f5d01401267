/**
 * Completeness for files of equal content: with the paranoid type it is a question
 * of where their increments were cut, which reads without short counts decide alike.
 */
module SieveReading {
  import opened Common
  import opened SieveState
  import opened SieveInvariant
  import opened SieveSteps
  import opened SieveTheorems
  import Paranoid
  import ReadLoop
  import SieveRun

  /** On the way to group `g` the increments of both files were cut in the same places. */
  ghost predicate CutAlike(env: Env, gs: seq<Group>, a: FileId, b: FileId, g: GroupId)
    requires a < |env.files| && b < |env.files|
    decreases g
  {
    g < |gs| &&
    match gs[g].origin
    case None => true
    case Some(p) =>
      p < g && p < |gs| && Paranoid.SameCuts(HashedBuffers(env, a, gs[p]), HashedBuffers(env, b, gs[p]))
      && CutAlike(env, gs, a, b, p)
  }

  /** The increments of a group that has children lie inside the file. */
  lemma IncrementInside(env: Env, gs: seq<Group>, g: GroupId, p: GroupId)
    requires env.pageSize > 0 && g < |gs| && p < |gs| && Shape(env, gs) && gs[g].origin == Some(p)
    ensures p < g && gs[p].hashOffset <= gs[p].nextOffset <= gs[p].fileSize == gs[g].fileSize
  {
    assert GroupShape(env, gs, g) && GroupShape(env, gs, p);
    OffsetAdvances(env.pageSize, env.paranoid, gs[p].fileSize, gs[p].hashOffset, gs[p].offsetFactor);
  }

  /** Files of equal content are hashed alike if and only if they were cut alike. */
  lemma {:induction false} HashedAlikeIffCutAlike(env: Env, gs: seq<Group>, a: FileId, b: FileId, g: GroupId)
    requires a < |env.files| && b < |env.files| && g < |gs| && Sane(env)
    requires env.files[a].content == env.files[b].content && |env.files[a].content| == gs[g].fileSize
    requires Shape(env, gs)
    ensures HashedAlike(env, gs, a, b, g) <==> CutAlike(env, gs, a, b, g)
    decreases g
  {
    assert GroupShape(env, gs, g);
    if gs[g].origin.Some? {
      var p := gs[g].origin.value;
      IncrementInside(env, gs, g, p);
      HashedAlikeIffCutAlike(env, gs, a, b, p);
      var x, y := HashedBuffers(env, a, gs[p]), HashedBuffers(env, b, gs[p]);
      if env.paranoid {
        var from, to := gs[p].hashOffset, gs[p].nextOffset;
        assert Flatten(env.buffers(a, from, to)) == env.files[a].content[from..to];
        assert Flatten(env.buffers(b, from, to)) == env.files[b].content[from..to];
      }
      Paranoid.CutsDecide(x, y);
    }
  }

  /**
   * Completeness for equal content: two such files from one size group that are at
   * rest or reported are in the same group if and only if they were cut alike.
   */
  lemma EqualFilesTogether(env: Env, s: State, a: FileId, b: FileId)
    requires WellFormed(env, s) && a < |s.files| && b < |s.files|
    requires s.files[a].loc in {Held, Done} && s.files[b].loc in {Held, Done}
    requires env.files[a].content == env.files[b].content
    requires Root(s.groups, s.files[a].group) == Root(s.groups, s.files[b].group)
    requires Sane(env) && Reachable(env, s) && Injective(env.digest)
    ensures s.files[a].group == s.files[b].group <==> CutAlike(env, s.groups, a, b, s.files[a].group)
  {
    SieveRun.ReachableInv(env, s);
    assert Place(env, s.files[a], env.files[a], a, s.groups);
    Completeness(env, s, a, b);
    HashedAlikeIffCutAlike(env, s.groups, a, b, s.files[a].group);
  }

  // ----- reads without short counts -----

  /** Data cut into pieces of given lengths. */
  function Pieces(data: seq<Byte>, cuts: seq<nat>): seq<seq<Byte>>
    decreases |cuts|
  {
    if cuts == [] || cuts[0] > |data| then [] else [data[..cuts[0]]] + Pieces(data[cuts[0]..], cuts[1..])
  }

  /** Bytes `from` to `to` of a file arrived as the read loop sends them, and no call brought less than it could. */
  ghost predicate SentBy(env: Env, size: nat, f: FileId, from: nat, to: nat, script: ReadLoop.Script)
    requires f < |env.files| && from <= to <= |env.files[f].content| && size > 0
  {
    && ReadLoop.NeverShort(script, ReadLoop.Slots(to - from, size) * size)
    && env.buffers(f, from, to)
       == Pieces(env.files[f].content[from..to],
                 ReadLoop.ReadCuts(env.files[f].content, from, to - from, size, script))
  }

  ghost predicate ReadInFull(env: Env, size: nat, f: FileId, from: nat, to: nat)
    requires f < |env.files| && from <= to <= |env.files[f].content| && size > 0
  {
    exists script :: SentBy(env, size, f, from, to, script)
  }

  lemma InFullIsChopped(env: Env, size: nat, f: FileId, from: nat, to: nat)
    requires f < |env.files| && from <= to <= |env.files[f].content| && size > 0
    requires ReadInFull(env, size, f, from, to)
    ensures env.buffers(f, from, to) == Pieces(env.files[f].content[from..to], ReadLoop.Chop(to - from, size))
  {
    var script :| SentBy(env, size, f, from, to, script);
    if to > from { ReadLoop.CeilBounds(to - from, size); }
    ReadLoop.FullReads(env.files[f].content, from, to - from, ReadLoop.Slots(to - from, size), size, script, 0);
  }

  lemma {:induction false} InFullHashedAlike(env: Env, gs: seq<Group>, a: FileId, b: FileId, g: GroupId, size: nat)
    requires a < |env.files| && b < |env.files| && g < |gs| && env.pageSize > 0 && size > 0
    requires env.files[a].content == env.files[b].content && |env.files[a].content| == gs[g].fileSize
    requires forall from, to :: 0 <= from <= to <= |env.files[a].content| ==>
      ReadInFull(env, size, a, from, to) && ReadInFull(env, size, b, from, to)
    requires Shape(env, gs)
    ensures HashedAlike(env, gs, a, b, g)
    decreases g
  {
    assert GroupShape(env, gs, g);
    if gs[g].origin.Some? {
      var p := gs[g].origin.value;
      IncrementInside(env, gs, g, p);
      InFullHashedAlike(env, gs, a, b, p, size);
      InFullIsChopped(env, size, a, gs[p].hashOffset, gs[p].nextOffset);
      InFullIsChopped(env, size, b, gs[p].hashOffset, gs[p].nextOffset);
    }
  }

  /** Files of equal content from one size group that are read without short counts are never split. */
  lemma InFullTogether(env: Env, s: State, a: FileId, b: FileId, size: nat)
    requires WellFormed(env, s) && a < |s.files| && b < |s.files| && size > 0
    requires s.files[a].loc in {Held, Done} && s.files[b].loc in {Held, Done}
    requires env.files[a].content == env.files[b].content
    requires forall from, to :: 0 <= from <= to <= |env.files[a].content| ==>
      ReadInFull(env, size, a, from, to) && ReadInFull(env, size, b, from, to)
    requires Root(s.groups, s.files[a].group) == Root(s.groups, s.files[b].group)
    requires Sane(env) && Reachable(env, s)
    ensures s.files[a].group == s.files[b].group
  {
    SieveRun.ReachableInv(env, s);
    assert Place(env, s.files[a], env.files[a], a, s.groups);
    InFullHashedAlike(env, s.groups, a, b, s.files[a].group, size);
    AlikeTogether(env, s, a, b);
  }
}
