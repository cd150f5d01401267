/**
 * The paranoid digest (lib/checksum.c:643-767, 982-1027): all data is kept in
 * buffers, and while they arrive they are compared with those of a completed
 * twin candidate.
 */
module Paranoid {
  import opened Common

  type Buffer = seq<Byte>

  /** The reader sends no empty buffers. */
  predicate Loaded(buffers: seq<Buffer>) {
    forall i :: 0 <= i < |buffers| ==> buffers[i] != []
  }

  /** Buffers in front of others hold fewer bytes, unless there are no others. */
  lemma {:induction false} PrefixBytes(a: seq<Buffer>, b: seq<Buffer>)
    requires Loaded(b) && a <= b
    ensures |Flatten(a)| <= |Flatten(b)|
    ensures |Flatten(a)| == |Flatten(b)| ==> a == b
  {
    if a == [] {
      if b != [] { assert b[0] != []; }
    } else {
      assert b[0] == a[0] && a[1..] <= b[1..];
      PrefixBytes(a[1..], b[1..]);
      assert a == [a[0]] + a[1..] && b == [b[0]] + b[1..];
    }
  }

  /** While bytes are missing from a prefix of a candidate's buffers, the candidate has a next buffer. */
  lemma NextExists(a: seq<Buffer>, next: nat, b: seq<Buffer>)
    requires Loaded(a) && next < |a| && next <= |b| && a[..next] == b[..next]
    requires |Flatten(a)| <= |Flatten(b)|
    ensures next < |b|
  {
    if next == |b| {
      assert b == a[..next] && a[..next] <= a;
      PrefixBytes(a[..next], a);
    }
  }

  lemma ShorterPrefix(a: seq<Buffer>, buffer: Buffer, b: seq<Buffer>)
    requires a + [buffer] <= b
    ensures a <= b
  {
    assert (a + [buffer])[..|a|] == a;
  }

  lemma PrefixGrows(a: seq<Buffer>, buffer: Buffer, b: seq<Buffer>)
    requires a <= b && |a| < |b|
    ensures a + [buffer] <= b <==> b[|a|] == buffer
  {
    assert b[..|a| + 1] == a + [b[|a|]];
  }

  class RmParanoid {
    /** The buffers received so far; none after they were released. */
    var buffers: seq<Buffer>
    /** All data fed to the shadow hash. */
    var shadowed: seq<Byte>
    const hasShadowHash: bool
    var twinCandidate: RmParanoid?
    /** Index in the twin's buffers of the one to compare next. */
    var cursor: nat
    var rejects: seq<RmParanoid>
    var incoming: seq<RmParanoid>
    /** How many bytes the increment has. */
    ghost const total: nat

    /** All bytes have arrived and are kept. */
    ghost predicate Complete()
      reads this
    {
      Loaded(buffers) && |Flatten(buffers)| == total
    }

    ghost predicate IsCandidate(c: RmParanoid)
      reads c
    {
      c != this && c.Complete() && c.total == total
    }

    ghost predicate AllCandidates(cs: seq<RmParanoid>)
      reads cs
    {
      forall c :: c in cs ==> IsCandidate(c)
    }

    ghost predicate Valid()
      reads this, twinCandidate, rejects, incoming
    {
      && Loaded(buffers) && |Flatten(buffers)| <= total
      && shadowed == Flatten(buffers)
      && (twinCandidate != null ==>
            IsCandidate(twinCandidate) && cursor == |buffers| && buffers <= twinCandidate.buffers)
      && AllCandidates(incoming)
      && (forall r :: r in rejects ==> IsCandidate(r) && !(buffers <= r.buffers))
    }

    constructor (ghost total: nat, hasShadowHash: bool)
      ensures Valid() && buffers == [] && incoming == [] && twinCandidate == null && rejects == []
      ensures this.total == total && this.hasShadowHash == hasShadowHash
    {
      this.total, this.hasShadowHash := total, hasShadowHash;
      buffers, shadowed := [], [];
      twinCandidate, cursor, rejects, incoming := null, 0, [], [];
    }

    /** `rm_digest_send_match_candidate`: may happen between any two updates. */
    method SendMatchCandidate(candidate: RmParanoid)
      requires Valid() && IsCandidate(candidate)
      modifies this`incoming
      ensures Valid() && incoming == old(incoming) + [candidate]
    {
      incoming := incoming + [candidate];
    }

    /** Compares this digest's buffers with the first buffers of a candidate. */
    method ComparePrefix(candidate: RmParanoid) returns (matches: bool, next: nat)
      requires IsCandidate(candidate) && Loaded(buffers) && |Flatten(buffers)| <= total
      ensures matches <==> buffers <= candidate.buffers
      ensures matches ==> next == |buffers|
    {
      matches, next := true, 0;
      while matches && next < |buffers|
        invariant next <= |buffers| && next <= |candidate.buffers|
        invariant matches ==> buffers[..next] == candidate.buffers[..next]
        invariant !matches ==> 0 < next && buffers[next - 1] != candidate.buffers[next - 1]
        decreases |buffers| - next
      {
        NextExists(buffers, next, candidate.buffers);
        matches := candidate.buffers[next] == buffers[next];
        next := next + 1;
      }
      assert matches ==> buffers[..next] == buffers;
    }

    /** The twin's next buffer is the one that this digest's next buffer has to match. */
    lemma TwinGoesOn(buffer: Buffer)
      requires Valid() && twinCandidate != null && buffer != [] && |Flatten(buffers)| + |buffer| <= total
      ensures |buffers| < |twinCandidate.buffers|
    {
      FlattenAppend(buffers, buffer);
      assert (buffers + [buffer])[..|buffers|] == buffers == twinCandidate.buffers[..|buffers|];
      NextExists(buffers + [buffer], |buffers|, twinCandidate.buffers);
    }

    /**
     * `rm_digest_paranoid_buffered_update`.  A twin that no longer matches is
     * dropped; then the queued candidates are tried in turn.
     */
    method BufferedUpdate(buffer: Buffer)
      requires Valid() && buffer != [] && |Flatten(buffers)| + |buffer| <= total
      modifies this
      ensures Valid() && buffers == old(buffers) + [buffer]
      ensures old(twinCandidate) != null && buffers <= old(twinCandidate).buffers ==>
        twinCandidate == old(twinCandidate) && incoming == old(incoming)
      ensures !(old(twinCandidate) != null && buffers <= old(twinCandidate).buffers) ==>
        if twinCandidate == null then
          incoming == [] && forall c :: c in old(incoming) ==> !(buffers <= c.buffers)
        else
          exists i ::
            0 <= i < |old(incoming)| && twinCandidate == old(incoming)[i] && incoming == old(incoming)[i + 1..]
                      && forall j :: 0 <= j < i ==> !(buffers <= old(incoming)[j].buffers)
    {
      Receive(buffer);
      TryCandidates();
    }

    /** The first part: the buffer is kept, and the twin has to match it. */
    method Receive(buffer: Buffer)
      requires Valid() && buffer != [] && |Flatten(buffers)| + |buffer| <= total
      modifies this`buffers, this`shadowed, this`twinCandidate, this`cursor
      ensures Valid() && buffers == old(buffers) + [buffer]
      ensures twinCandidate
           == if old(twinCandidate) != null && buffers <= old(twinCandidate).buffers then old(twinCandidate) else null
    {
      if twinCandidate != null { TwinGoesOn(buffer); }
      FlattenAppend(buffers, buffer);
      shadowed := shadowed + buffer;
      buffers := buffers + [buffer];
      forall r | r in rejects ensures !(buffers <= r.buffers) {
        if buffers <= r.buffers { ShorterPrefix(old(buffers), buffer, r.buffers); }
      }
      if twinCandidate != null {
        PrefixGrows(old(buffers), buffer, twinCandidate.buffers);
        if buffer == twinCandidate.buffers[cursor] {
          cursor := cursor + 1;
        } else {
          twinCandidate, cursor := null, 0;
        }
      }
    }

    /** The loop over the incoming candidates. */
    method TryCandidates()
      requires Valid()
      modifies this`twinCandidate, this`cursor, this`rejects, this`incoming
      ensures Valid()
      ensures old(twinCandidate) != null ==> twinCandidate == old(twinCandidate) && incoming == old(incoming)
      ensures old(twinCandidate) == null ==>
        if twinCandidate == null then
          incoming == [] && forall c :: c in old(incoming) ==> !(buffers <= c.buffers)
        else
          exists i ::
            0 <= i < |old(incoming)| && twinCandidate == old(incoming)[i] && incoming == old(incoming)[i + 1..]
                      && forall j :: 0 <= j < i ==> !(buffers <= old(incoming)[j].buffers)
    {
      ghost var tried := 0;
      while twinCandidate == null && incoming != []
        invariant Valid() && tried <= |old(incoming)| && incoming == old(incoming)[tried..]
        invariant old(twinCandidate) != null ==> twinCandidate == old(twinCandidate) && tried == 0
        invariant old(twinCandidate) == null && twinCandidate == null ==>
          forall j :: 0 <= j < tried ==> !(buffers <= old(incoming)[j].buffers)
        invariant old(twinCandidate) == null && twinCandidate != null ==>
          && 0 < tried && twinCandidate == old(incoming)[tried - 1]
          && forall j :: 0 <= j < tried - 1 ==> !(buffers <= old(incoming)[j].buffers)
        decreases |incoming|
      {
        var candidate := incoming[0];
        FirstCandidate(incoming);
        incoming := incoming[1..];
        tried := tried + 1;
        TryCandidate(candidate);
      }
    }

    lemma FirstCandidate(cs: seq<RmParanoid>)
      requires cs != [] && AllCandidates(cs)
      ensures IsCandidate(cs[0]) && AllCandidates(cs[1..])
    {
      forall c | c in cs[1..] ensures c in cs {}
    }

    /** One candidate is accepted or rejected. */
    method TryCandidate(candidate: RmParanoid)
      requires Valid() && twinCandidate == null && IsCandidate(candidate)
      modifies this`twinCandidate, this`cursor, this`rejects
      ensures Valid() && twinCandidate == if buffers <= candidate.buffers then candidate else null
    {
      var matches, next := ComparePrefix(candidate);
      if matches {
        twinCandidate, cursor := candidate, next;
      } else if !hasShadowHash {
        rejects := [candidate] + rejects;
      }
    }

    /** `rm_digest_release_buffers` */
    method ReleaseBuffers()
      modifies this`buffers
      ensures buffers == []
    {
      buffers := [];
    }
  }

  /**
   * `rm_digest_equal` on two paranoid digests.  `hash` is the shadow hash; it
   * only decides when the first digest's buffers are gone.
   */
  method DigestEqual(a: RmParanoid, b: RmParanoid, hash: seq<Byte> -> int) returns (equal: bool)
    requires a.buffers != [] ==> a.Valid() && b.Valid() && a.Complete() && b.Complete()
    ensures a.buffers != [] ==> (equal <==> a.buffers == b.buffers)
    ensures a.buffers == [] ==> (equal <==> hash(a.shadowed) == hash(b.shadowed))
  {
    if a.buffers == [] {
      return hash(a.shadowed) == hash(b.shadowed);
    }
    if a.twinCandidate == b || b.twinCandidate == a {
      if a.twinCandidate == b {
        PrefixBytes(a.buffers, b.buffers);
      } else {
        PrefixBytes(b.buffers, a.buffers);
      }
      return true;
    }
    if b in a.rejects || a in b.rejects {
      return false;
    }
    var i := 0;
    while i < |a.buffers| && i < |b.buffers|
      invariant i <= |a.buffers| && i <= |b.buffers|
      invariant a.buffers[..i] == b.buffers[..i]
    {
      if a.buffers[i] != b.buffers[i] {
        return false;
      }
      i := i + 1;
    }
    assert a.buffers[..|a.buffers|] == a.buffers && b.buffers[..|b.buffers|] == b.buffers;
    return i == |a.buffers| && i == |b.buffers|;
  }

  // ----- what comparing buffers means for the data -----

  ghost predicate SameCuts(a: seq<Buffer>, b: seq<Buffer>) {
    |a| == |b| && forall i :: 0 <= i < |a| ==> |a[i]| == |b[i]|
  }

  /** Digests of the same data are equal if and only if the data were cut alike. */
  lemma {:induction false} CutsDecide(a: seq<Buffer>, b: seq<Buffer>)
    requires Flatten(a) == Flatten(b)
    ensures a == b <==> SameCuts(a, b)
  {
    if SameCuts(a, b) { BuffersDecideData(a, b); }
  }

  /** Equally cut digests have equal buffers exactly if they hold the same data. */
  lemma {:induction false} BuffersDecideData(a: seq<Buffer>, b: seq<Buffer>)
    requires SameCuts(a, b)
    ensures a == b <==> Flatten(a) == Flatten(b)
    ensures |Flatten(a)| == |Flatten(b)|
  {
    if a != [] {
      BuffersDecideData(a[1..], b[1..]);
      assert a == [a[0]] + a[1..] && b == [b[0]] + b[1..];
      if Flatten(a) == Flatten(b) {
        var m := |a[0]|;
        assert Flatten(a)[..m] == a[0] && Flatten(b)[..m] == b[0];
        assert Flatten(a)[m..] == Flatten(a[1..]) && Flatten(b)[m..] == Flatten(b[1..]);
      }
    }
  }
}
