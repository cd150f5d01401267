/**
 * Hashing a byte stream block by block.
 *
 * One block is mixed into the state by an arbitrary function, so what is proved
 * here holds whatever the arithmetic inside a block is.
 */
module BlockStream {
  import opened Common

  type Mix<!S> = (S, seq<Byte>) -> S

  /** The state after all whole blocks of `data`. */
  function Absorb<S>(mix: Mix<S>, block: nat, s: S, data: seq<Byte>): S
    requires block > 0
    decreases |data|
  {
    if |data| < block then s else Absorb(mix, block, mix(s, data[..block]), data[block..])
  }

  /** What is left of `data` after its whole blocks. */
  function Rest(block: nat, data: seq<Byte>): (rest: seq<Byte>)
    requires block > 0
    ensures |rest| < block
    decreases |data|
  {
    if |data| < block then data else Rest(block, data[block..])
  }

  lemma ModStep(n: nat, block: nat)
    requires 0 < block <= n
    ensures n % block == (n - block) % block
  {
    var q, r := (n - block) / block, (n - block) % block;
    assert (q + 1) * block == q * block + block;
    DivModUnique(n, block, q + 1, r);
  }

  lemma {:induction false} RestLength(block: nat, data: seq<Byte>)
    requires block > 0
    ensures |Rest(block, data)| == |data| % block
    decreases |data|
  {
    if |data| >= block {
      RestLength(block, data[block..]);
      assert |data[block..]| == |data| - block;
      ModStep(|data|, block);
    } else {
      DivModUnique(|data|, block, 0, |data|);
    }
  }

  /** One more block from position `i` on. */
  lemma AbsorbAt<S>(mix: Mix<S>, block: nat, s: S, data: seq<Byte>, i: nat)
    requires block > 0 && i + block <= |data|
    ensures Absorb(mix, block, s, data[i..])
            == Absorb(mix, block, mix(s, data[i..i + block]), data[i + block..])
    ensures Rest(block, data[i..]) == Rest(block, data[i + block..])
  {
    assert data[i..][..block] == data[i..i + block];
    assert data[i..][block..] == data[i + block..];
  }

  /** Feeding `a` and then `b`, with the bytes left over in between, is feeding both at once. */
  lemma {:induction false} Streaming<S>(mix: Mix<S>, block: nat, s: S, a: seq<Byte>, b: seq<Byte>)
    requires block > 0
    ensures Absorb(mix, block, s, a + b) == Absorb(mix, block, Absorb(mix, block, s, a), Rest(block, a) + b)
    ensures Rest(block, a + b) == Rest(block, Rest(block, a) + b)
    decreases |a|
  {
    if |a| >= block {
      assert (a + b)[..block] == a[..block] && (a + b)[block..] == a[block..] + b;
      Streaming(mix, block, mix(s, a[..block]), a[block..], b);
    }
  }

  /** A state and its left-over bytes stand for everything fed since `start`. */
  ghost predicate StandsFor<S>(mix: Mix<S>, block: nat, start: S, fed: seq<Byte>, s: S, rest: seq<Byte>)
    requires block > 0
  {
    s == Absorb(mix, block, start, fed) && rest == Rest(block, fed)
  }

  lemma FeedMore<S>(mix: Mix<S>, block: nat, start: S, fed: seq<Byte>, s: S, rest: seq<Byte>, more: seq<Byte>)
    requires block > 0 && StandsFor(mix, block, start, fed, s, rest)
    ensures StandsFor(mix, block, start, fed + more, Absorb(mix, block, s, rest + more), Rest(block, rest + more))
  {
    Streaming(mix, block, start, fed, more);
  }

  // ----- no byte is lost -----

  /** Mixing that only notes down the block. */
  const NOTE: Mix<seq<seq<Byte>>> := (s, b) => s + [b]

  ghost predicate AllOfSize(blocks: seq<seq<Byte>>, size: nat) {
    forall i :: 0 <= i < |blocks| ==> |blocks[i]| == size
  }

  /** The whole blocks are mixed in one by one, in order. */
  lemma {:induction false} BlocksNoted(block: nat, s: seq<seq<Byte>>, data: seq<Byte>)
    requires block > 0
    ensures var t := Absorb(NOTE, block, s, data);
      Flatten(t) + Rest(block, data) == Flatten(s) + data && (AllOfSize(s, block) ==> AllOfSize(t, block))
    decreases |data|
  {
    if |data| >= block {
      BlocksNoted(block, s + [data[..block]], data[block..]);
      FlattenAppend(s, data[..block]);
      assert data == data[..block] + data[block..];
      ConcatAssociative(Flatten(s), data[..block], data[block..]);
    }
  }

  /** Mixing keeps different states different, and different blocks take a state to different states. */
  ghost predicate Reversible<S(!new)>(mix: Mix<S>) {
    && (forall s, t, b {:trigger mix(s, b), mix(t, b)} :: mix(s, b) == mix(t, b) ==> s == t)
    && (forall s, b, c {:trigger mix(s, b), mix(s, c)} :: |b| == |c| && mix(s, b) == mix(s, c) ==> b == c)
  }

  lemma {:induction false} AbsorbKeeps<S(!new)>(mix: Mix<S>, block: nat, s: S, t: S, data: seq<Byte>)
    requires block > 0 && Reversible(mix) && s != t
    ensures Absorb(mix, block, s, data) != Absorb(mix, block, t, data)
    decreases |data|
  {
    if |data| >= block { AbsorbKeeps(mix, block, mix(s, data[..block]), mix(t, data[..block]), data[block..]); }
  }

  /** The two differ in the byte at `i` and in no other. */
  ghost predicate OneByte(a: seq<Byte>, b: seq<Byte>, i: nat) {
    i < |a| == |b| && a[i] != b[i] && forall j :: 0 <= j < |a| && j != i ==> a[j] == b[j]
  }

  /** A byte that differs makes the states differ, or the bytes left over do, in just that byte. */
  lemma {:induction false} ByteDecides<S(!new)>(mix: Mix<S>, block: nat, s: S, a: seq<Byte>, b: seq<Byte>, i: nat)
    requires block > 0 && Reversible(mix) && OneByte(a, b, i)
    ensures var n := |a| - |Rest(block, a)|;
      if i < n then Absorb(mix, block, s, a) != Absorb(mix, block, s, b) && Rest(block, a) == Rest(block, b)
      else Absorb(mix, block, s, a) == Absorb(mix, block, s, b) && OneByte(Rest(block, a), Rest(block, b), i - n)
    ensures |Rest(block, b)| == |Rest(block, a)| <= |a|
    decreases |a|
  {
    if |a| >= block {
      var x, y := a[..block], b[..block];
      if i < block {
        assert x[i] != y[i];
        assert a[block..] == b[block..];
        RestIsShorter(block, a[block..]);
        BlockDecides(mix, block, s, x, y, a[block..]);
      } else {
        assert x == y;
        assert OneByte(a[block..], b[block..], i - block);
        ByteDecides(mix, block, mix(s, x), a[block..], b[block..], i - block);
      }
    }
  }

  lemma BlockDecides<S(!new)>(mix: Mix<S>, block: nat, s: S, x: seq<Byte>, y: seq<Byte>, data: seq<Byte>)
    requires block > 0 && Reversible(mix) && |x| == |y| && x != y
    ensures Absorb(mix, block, mix(s, x), data) != Absorb(mix, block, mix(s, y), data)
  {
    assert mix(s, x) != mix(s, y);
    AbsorbKeeps(mix, block, mix(s, x), mix(s, y), data);
  }

  lemma {:induction false} RestIsShorter(block: nat, data: seq<Byte>)
    requires block > 0
    ensures |Rest(block, data)| <= |data|
    decreases |data|
  {
    if |data| >= block { RestIsShorter(block, data[block..]); }
  }
}
