/**
 * The arithmetic of HighwayHash (lib/checksums/highwayhash.c:16-130): what one
 * packet does to the state, and that inputs which differ in one packet stay apart
 * until the state is summed up to the digest.
 *
 * The steps are written over any words and operations; the proofs only use that
 * loading, rotating, adding and exclusive or can be undone, so they do not depend
 * on what the multiplication or the zipper do.
 */
module HighwayRounds {
  import opened Common
  import opened BlockStream
  import Cumulative
  import HighwayHash

  /**
   * The operations on words: sum, exclusive or, product, the two zipper merges, a
   * swap of the halves, a rotation of both halves, a word twice the number of
   * remaining bytes, and a word from eight bytes.
   */
  datatype Ops<!W> = Ops(add: (W, W) -> W, xor: (W, W) -> W, mul: (W, W) -> W,
                         zipLow: (W, W) -> W, zipHigh: (W, W) -> W, swap: W -> W,
                         rotate: (W, nat) -> W, size: nat -> W, load: seq<Byte> -> W)

  const WORD: nat := 8

  /** Element `i` of each of the four state arrays. */
  datatype Lane<W> = Lane(v0: W, v1: W, mul0: W, mul1: W)

  datatype State<W> = State(a: Lane<W>, b: Lane<W>, c: Lane<W>, d: Lane<W>)

  datatype Words<W> = Words(a: W, b: W, c: W, d: W)

  ghost predicate Cancels<W(!new)>(op: (W, W) -> W) {
    forall x, y, z {:trigger op(x, z), op(y, z)} :: op(x, z) == op(y, z) ==> x == y
  }

  ghost predicate CancelsLeft<W(!new)>(op: (W, W) -> W) {
    forall x, y, z {:trigger op(z, x), op(z, y)} :: op(z, x) == op(z, y) ==> x == y
  }

  ghost predicate Turns<W(!new)>(rotate: (W, nat) -> W) {
    forall x, y, n {:trigger rotate(x, n), rotate(y, n)} ::
      0 < n < HighwayHash.PACKET && rotate(x, n) == rotate(y, n) ==> x == y
  }

  ghost predicate Loads<W(!new)>(load: seq<Byte> -> W) {
    forall x, y {:trigger load(x), load(y)} :: |x| == |y| == WORD && load(x) == load(y) ==> x == y
  }

  ghost predicate Reversible<W(!new)>(o: Ops<W>) {
    Cancels(o.add) && CancelsLeft(o.add) && Cancels(o.xor) && Turns(o.rotate) && Loads(o.load)
  }

  // ----- one packet -----

  /** The loop body of `Update` for one lane. */
  function Round<W>(o: Ops<W>, s: Lane<W>, x: W): Lane<W> {
    var v1 := o.add(s.v1, o.add(s.mul0, x));
    var mul0 := o.xor(s.mul0, o.mul(v1, s.v0));
    var v0 := o.add(s.v0, s.mul1);
    Lane(v0, v1, mul0, o.xor(s.mul1, o.mul(v0, v1)))
  }

  function Rounds<W>(o: Ops<W>, s: State<W>, x: Words<W>): State<W> {
    State(Round(o, s.a, x.a), Round(o, s.b, x.b), Round(o, s.c, x.c), Round(o, s.d, x.d))
  }

  /** The zipper merges of two neighbouring lanes: first from v1 into v0, then back. */
  function MergePair<W>(o: Ops<W>, low: Lane<W>, high: Lane<W>): (Lane<W>, Lane<W>) {
    var l0 := o.add(low.v0, o.zipLow(high.v1, low.v1));
    var h0 := o.add(high.v0, o.zipHigh(high.v1, low.v1));
    (low.(v0 := l0, v1 := o.add(low.v1, o.zipLow(h0, l0))),
     high.(v0 := h0, v1 := o.add(high.v1, o.zipHigh(h0, l0))))
  }

  function Merge<W>(o: Ops<W>, s: State<W>): State<W> {
    var (a, b) := MergePair(o, s.a, s.b);
    var (c, d) := MergePair(o, s.c, s.d);
    State(a, b, c, d)
  }

  /** `Update` */
  function Update<W>(o: Ops<W>, s: State<W>, x: Words<W>): State<W> {
    Merge(o, Rounds(o, s, x))
  }

  // ----- nothing is lost in an update -----

  /** A round can be undone. */
  lemma RoundInjective<W(!new)>(o: Ops<W>, s: Lane<W>, t: Lane<W>, x: W)
    requires Reversible(o) && Round(o, s, x) == Round(o, t, x)
    ensures s == t
  {
    assert s.mul1 == t.mul1;
    assert s.v0 == t.v0;
    assert s.mul0 == t.mul0;
  }

  lemma MergePairInjective<W(!new)>(o: Ops<W>, low: Lane<W>, high: Lane<W>, low': Lane<W>, high': Lane<W>)
    requires Reversible(o) && MergePair(o, low, high) == MergePair(o, low', high')
    ensures low == low' && high == high'
  {
    assert low.v1 == low'.v1 && high.v1 == high'.v1;
  }

  lemma MergeInjective<W(!new)>(o: Ops<W>, s: State<W>, t: State<W>)
    requires Reversible(o) && Merge(o, s) == Merge(o, t)
    ensures s == t
  {
    MergePairInjective(o, s.a, s.b, t.a, t.b);
    MergePairInjective(o, s.c, s.d, t.c, t.d);
  }

  /** Two states that the same words make equal were equal. */
  lemma UpdateInjective<W(!new)>(o: Ops<W>, s: State<W>, t: State<W>, x: Words<W>)
    requires Reversible(o) && Update(o, s, x) == Update(o, t, x)
    ensures s == t
  {
    MergeInjective(o, Rounds(o, s, x), Rounds(o, t, x));
    RoundInjective(o, s.a, t.a, x.a);
    RoundInjective(o, s.b, t.b, x.b);
    RoundInjective(o, s.c, t.c, x.c);
    RoundInjective(o, s.d, t.d, x.d);
  }

  lemma RoundTakesAll<W(!new)>(o: Ops<W>, s: Lane<W>, x: W, y: W)
    requires Reversible(o) && Round(o, s, x) == Round(o, s, y)
    ensures x == y
  {
    assert o.add(s.mul0, x) == o.add(s.mul0, y);
  }

  /** A state that two inputs leave equal got the same input twice. */
  lemma UpdateTakesAll<W(!new)>(o: Ops<W>, s: State<W>, x: Words<W>, y: Words<W>)
    requires Reversible(o) && Update(o, s, x) == Update(o, s, y)
    ensures x == y
  {
    MergeInjective(o, Rounds(o, s, x), Rounds(o, s, y));
    RoundTakesAll(o, s.a, x.a, y.a);
    RoundTakesAll(o, s.b, x.b, y.b);
    RoundTakesAll(o, s.c, x.c, y.c);
    RoundTakesAll(o, s.d, x.d, y.d);
  }

  // ----- the whole hash, up to the sums that make the digest -----

  /** The words of a packet. */
  function Lanes<W>(o: Ops<W>, packet: seq<Byte>): Words<W> {
    if |packet| != HighwayHash.PACKET then Words(o.load([]), o.load([]), o.load([]), o.load([]))
    else Words(o.load(packet[..8]), o.load(packet[8..16]), o.load(packet[16..24]), o.load(packet[24..]))
  }

  lemma LanesInjective<W(!new)>(o: Ops<W>, p: seq<Byte>, q: seq<Byte>)
    requires Reversible(o) && |p| == |q| == HighwayHash.PACKET && Lanes(o, p) == Lanes(o, q)
    ensures p == q
  {
    assert p == p[..8] + p[8..16] + p[16..24] + p[24..];
    assert q == q[..8] + q[8..16] + q[16..24] + q[24..];
  }

  /** `HighwayHashUpdatePacket` */
  function UpdatePacket<W>(o: Ops<W>, s: State<W>, packet: seq<Byte>): State<W> {
    Update(o, s, Lanes(o, packet))
  }

  function StirLane<W>(o: Ops<W>, s: Lane<W>, n: nat): Lane<W> {
    s.(v0 := o.add(s.v0, o.size(n)), v1 := o.rotate(s.v1, n))
  }

  /** The first lines of `HighwayHashUpdateRemainder`. */
  function Stir<W>(o: Ops<W>, s: State<W>, n: nat): State<W> {
    State(StirLane(o, s.a, n), StirLane(o, s.b, n), StirLane(o, s.c, n), StirLane(o, s.d, n))
  }

  lemma StirInjective<W(!new)>(o: Ops<W>, s: State<W>, t: State<W>, n: nat)
    requires Reversible(o) && 0 < n < HighwayHash.PACKET && Stir(o, s, n) == Stir(o, t, n)
    ensures s == t
  {
    assert s.a == t.a && s.b == t.b && s.c == t.c && s.d == t.d;
  }

  /** `PermuteAndUpdate` */
  function PermuteAndUpdate<W>(o: Ops<W>, s: State<W>): State<W> {
    Update(o, s, Words(o.swap(s.c.v0), o.swap(s.d.v0), o.swap(s.a.v0), o.swap(s.b.v0)))
  }

  /** A round leaves enough behind to tell `mul1` and `v0` before the words are known. */
  lemma RoundKeeps<W(!new)>(o: Ops<W>, s: Lane<W>, t: Lane<W>, x: W, y: W)
    requires Reversible(o) && Round(o, s, x) == Round(o, t, y)
    ensures s.mul1 == t.mul1 && s.v0 == t.v0
  {}

  /** The words come from the state itself here, and the step can be undone all the same. */
  lemma PermuteInjective<W(!new)>(o: Ops<W>, s: State<W>, t: State<W>)
    requires Reversible(o) && PermuteAndUpdate(o, s) == PermuteAndUpdate(o, t)
    ensures s == t
  {
    var x := Words(o.swap(s.c.v0), o.swap(s.d.v0), o.swap(s.a.v0), o.swap(s.b.v0));
    var y := Words(o.swap(t.c.v0), o.swap(t.d.v0), o.swap(t.a.v0), o.swap(t.b.v0));
    MergeInjective(o, Rounds(o, s, x), Rounds(o, t, y));
    RoundKeeps(o, s.a, t.a, x.a, y.a);
    RoundKeeps(o, s.b, t.b, x.b, y.b);
    RoundKeeps(o, s.c, t.c, x.c, y.c);
    RoundKeeps(o, s.d, t.d, x.d, y.d);
    UpdateInjective(o, s, t, x);
  }

  /** `FinalPermutes` */
  function FinalPermutes<W>(o: Ops<W>, s: State<W>): State<W> {
    PermuteAndUpdate(o, PermuteAndUpdate(o, PermuteAndUpdate(o, PermuteAndUpdate(o, s))))
  }

  lemma FinalInjective<W(!new)>(o: Ops<W>, s: State<W>, t: State<W>)
    requires Reversible(o) && FinalPermutes(o, s) == FinalPermutes(o, t)
    ensures s == t
  {
    var s1, t1 := PermuteAndUpdate(o, s), PermuteAndUpdate(o, t);
    var s2, t2 := PermuteAndUpdate(o, s1), PermuteAndUpdate(o, t1);
    PermuteInjective(o, PermuteAndUpdate(o, s2), PermuteAndUpdate(o, t2));
    PermuteInjective(o, s2, t2);
    PermuteInjective(o, s1, t1);
    PermuteInjective(o, s, t);
  }

  function Packets<W>(o: Ops<W>): Mix<State<W>> {
    (s, p) => UpdatePacket(o, s, p)
  }

  /** The hash whose result is the state that the three digests are sums of. */
  function Kernel<W>(o: Ops<W>, start: State<W>): HighwayHash.Rounds<State<W>, State<W>> {
    HighwayHash.Rounds(start, Packets(o), (s, n) => Stir(o, s, n), s => FinalPermutes(o, s))
  }

  /** States that differ stay apart while the same bytes are absorbed. */
  lemma {:induction false} AbsorbInjective<W(!new)>(o: Ops<W>, s: State<W>, t: State<W>, data: seq<Byte>)
    requires Reversible(o)
    requires Absorb(Packets(o), HighwayHash.PACKET, s, data) == Absorb(Packets(o), HighwayHash.PACKET, t, data)
    ensures s == t
    decreases |data|
  {
    var n := HighwayHash.PACKET;
    if |data| >= n {
      AbsorbInjective(o, UpdatePacket(o, s, data[..n]), UpdatePacket(o, t, data[..n]), data[n..]);
      UpdateInjective(o, s, t, Lanes(o, data[..n]));
    }
  }

  lemma RemainderInjective<W(!new)>(o: Ops<W>, start: State<W>, start': State<W>, s: State<W>, t: State<W>,
                                    rest: seq<Byte>)
    requires Reversible(o) && |rest| < HighwayHash.PACKET
    requires HighwayHash.Remainder(Kernel(o, start), s, rest) == HighwayHash.Remainder(Kernel(o, start'), t, rest)
    ensures s == t
  {
    if rest != [] {
      UpdateInjective(o, Stir(o, s, |rest|), Stir(o, t, |rest|), Lanes(o, HighwayHash.Padded(rest)));
      StirInjective(o, s, t, |rest|);
    }
  }

  /** Remaining bytes that differ make the state differ. */
  lemma RemainderTakesAll<W(!new)>(o: Ops<W>, start: State<W>, s: State<W>, p: seq<Byte>, q: seq<Byte>)
    requires Reversible(o) && |p| == |q| < HighwayHash.PACKET
    requires HighwayHash.Remainder(Kernel(o, start), s, p) == HighwayHash.Remainder(Kernel(o, start), s, q)
    ensures p == q
  {
    if p != [] {
      UpdateTakesAll(o, Stir(o, s, |p|), Lanes(o, HighwayHash.Padded(p)), Lanes(o, HighwayHash.Padded(q)));
      LanesInjective(o, HighwayHash.Padded(p), HighwayHash.Padded(q));
      HighwayHash.PaddedInjective(p, q);
    }
  }

  /** Absorbing whole packets first. */
  lemma {:induction false} AbsorbAfter<S>(mix: Mix<S>, block: nat, s: S, pre: seq<Byte>, data: seq<Byte>)
    requires block > 0 && Rest(block, pre) == []
    ensures Absorb(mix, block, s, pre + data) == Absorb(mix, block, Absorb(mix, block, s, pre), data)
    ensures Rest(block, pre + data) == Rest(block, data)
  {
    Streaming(mix, block, s, pre, data);
    assert [] + data == data;
  }

  /**
   * Two inputs that differ inside one packet, or only in the remaining bytes, have
   * different states up to the end: everything the digest can depend on is kept.
   */
  lemma OnePacketDecides<W(!new)>(o: Ops<W>, start: State<W>, pre: seq<Byte>, p: seq<Byte>, q: seq<Byte>,
                                  post: seq<Byte>)
    requires Reversible(o) && Rest(HighwayHash.PACKET, pre) == []
    requires |p| == |q| == HighwayHash.PACKET || (|p| == |q| < HighwayHash.PACKET && post == [])
    requires p != q
    ensures HighwayHash.Hash(Kernel(o, start), pre + (p + post)) != HighwayHash.Hash(Kernel(o, start), pre + (q + post))
  {
    var k, n := Kernel(o, start), HighwayHash.PACKET;
    var s := Absorb(k.update, n, start, pre);
    AbsorbAfter(k.update, n, start, pre, p + post);
    AbsorbAfter(k.update, n, start, pre, q + post);
    var x, y := Absorb(k.update, n, s, p + post), Absorb(k.update, n, s, q + post);
    var u, v := Rest(n, p + post), Rest(n, q + post);
    if HighwayHash.Hash(k, pre + (p + post)) == HighwayHash.Hash(k, pre + (q + post)) {
      FinalInjective(o, HighwayHash.Remainder(k, x, u), HighwayHash.Remainder(k, y, v));
      if |p| == n {
        assert (p + post)[..n] == p && (p + post)[n..] == post;
        assert (q + post)[..n] == q && (q + post)[n..] == post;
        RemainderInjective(o, start, start, x, y, u);
        AbsorbInjective(o, UpdatePacket(o, s, p), UpdatePacket(o, s, q), post);
        UpdateTakesAll(o, s, Lanes(o, p), Lanes(o, q));
        LanesInjective(o, p, q);
      } else {
        assert p + post == p && q + post == q;
        RemainderTakesAll(o, start, s, p, q);
      }
    }
  }

  /** No two starting states lead to the same end, whatever the input. */
  lemma StartDecides<W(!new)>(o: Ops<W>, start: State<W>, start': State<W>, data: seq<Byte>)
    requires Reversible(o) && start != start'
    ensures HighwayHash.Hash(Kernel(o, start), data) != HighwayHash.Hash(Kernel(o, start'), data)
  {
    var k, k', n := Kernel(o, start), Kernel(o, start'), HighwayHash.PACKET;
    var x, y := Absorb(Packets(o), n, start, data), Absorb(Packets(o), n, start', data);
    if HighwayHash.Hash(k, data) == HighwayHash.Hash(k', data) {
      var u := Rest(n, data);
      FinalInjective(o, HighwayHash.Remainder(k, x, u), HighwayHash.Remainder(k', y, u));
      RemainderInjective(o, start, start', x, y, u);
      AbsorbInjective(o, start, start', data);
    }
  }

  // ----- in place -----

  /** The state as the four arrays that the hash works on. */
  class HighwayHashState<W> {
    const o: Ops<W>
    const v0: array<W>
    const v1: array<W>
    const mul0: array<W>
    const mul1: array<W>

    ghost predicate Shape() {
      && v0.Length == v1.Length == mul0.Length == mul1.Length == 4
      && v0 != v1 && v0 != mul0 && v0 != mul1 && v1 != mul0 && v1 != mul1 && mul0 != mul1
    }

    ghost function At(i: nat): Lane<W>
      requires Shape() && i < 4
      reads v0, v1, mul0, mul1
    {
      Lane(v0[i], v1[i], mul0[i], mul1[i])
    }

    ghost function Value(): State<W>
      requires Shape()
      reads v0, v1, mul0, mul1
    {
      State(At(0), At(1), At(2), At(3))
    }

    constructor (o: Ops<W>, start: State<W>)
      ensures Shape() && Value() == start && this.o == o
      ensures fresh(v0) && fresh(v1) && fresh(mul0) && fresh(mul1)
    {
      this.o := o;
      v0 := new W[4] [start.a.v0, start.b.v0, start.c.v0, start.d.v0];
      v1 := new W[4] [start.a.v1, start.b.v1, start.c.v1, start.d.v1];
      mul0 := new W[4] [start.a.mul0, start.b.mul0, start.c.mul0, start.d.mul0];
      mul1 := new W[4] [start.a.mul1, start.b.mul1, start.c.mul1, start.d.mul1];
    }

    method ZipperMergeAndAdd(from: array<W>, to: array<W>, low: nat)
      requires from != to && from.Length == to.Length == 4 && low < 3
      modifies to
      ensures to[low] == o.add(old(to[low]), o.zipLow(from[low + 1], from[low]))
      ensures to[low + 1] == o.add(old(to[low + 1]), o.zipHigh(from[low + 1], from[low]))
      ensures forall j :: 0 <= j < 4 && j != low && j != low + 1 ==> to[j] == old(to[j])
    {
      to[low] := o.add(to[low], o.zipLow(from[low + 1], from[low]));
      to[low + 1] := o.add(to[low + 1], o.zipHigh(from[low + 1], from[low]));
    }

    /** The loop of `Update`. */
    method AddLanes(lanes: seq<W>)
      requires Shape() && |lanes| == 4
      modifies v0, v1, mul0, mul1
      ensures Value() == Rounds(o, old(Value()), Words(lanes[0], lanes[1], lanes[2], lanes[3]))
    {
      for i := 0 to 4
        invariant forall j :: 0 <= j < i ==> At(j) == Round(o, old(At(j)), lanes[j])
        invariant forall j :: i <= j < 4 ==> At(j) == old(At(j))
      {
        AddLane(i, lanes[i]);
      }
    }

    method AddLane(i: nat, x: W)
      requires Shape() && i < 4
      modifies v0, v1, mul0, mul1
      ensures At(i) == Round(o, old(At(i)), x)
      ensures forall j :: 0 <= j < 4 && j != i ==> At(j) == old(At(j))
    {
      v1[i] := o.add(v1[i], o.add(mul0[i], x));
      mul0[i] := o.xor(mul0[i], o.mul(v1[i], v0[i]));
      v0[i] := o.add(v0[i], mul1[i]);
      mul1[i] := o.xor(mul1[i], o.mul(v0[i], v1[i]));
    }

    /** `Update` */
    method UpdateLanes(lanes: seq<W>)
      requires Shape() && |lanes| == 4
      modifies v0, v1, mul0, mul1
      ensures Value() == Update(o, old(Value()), Words(lanes[0], lanes[1], lanes[2], lanes[3]))
    {
      AddLanes(lanes);
      ZipperMergeAndAdd(v1, v0, 0);
      ZipperMergeAndAdd(v1, v0, 2);
      ZipperMergeAndAdd(v0, v1, 0);
      ZipperMergeAndAdd(v0, v1, 2);
    }

    /** `HighwayHashUpdatePacket` */
    method TakePacket(packet: seq<Byte>)
      requires Shape() && |packet| == HighwayHash.PACKET
      modifies v0, v1, mul0, mul1
      ensures Value() == UpdatePacket(o, old(Value()), packet)
    {
      UpdateLanes([o.load(packet[..8]), o.load(packet[8..16]), o.load(packet[16..24]), o.load(packet[24..])]);
    }

    /** `HighwayHashUpdateRemainder` */
    method TakeRemainder(bytes: seq<Byte>, size: nat)
      requires Shape() && 0 < size < HighwayHash.PACKET && size <= |bytes|
      modifies v0, v1, mul0, mul1
      ensures Value() == UpdatePacket(o, Stir(o, old(Value()), size), HighwayHash.Padded(bytes[..size]))
    {
      for i := 0 to 4
        invariant forall j :: 0 <= j < i ==> At(j) == StirLane(o, old(At(j)), size)
        invariant forall j :: i <= j < 4 ==> At(j) == old(At(j))
      {
        v0[i] := o.add(v0[i], o.size(size));
        v1[i] := o.rotate(v1[i], size);
      }
      var packet := HighwayHash.LastPacket(bytes, size);
      TakePacket(packet);
    }

    /** `FinalPermutes` */
    method PermuteFourTimes()
      requires Shape()
      modifies v0, v1, mul0, mul1
      ensures Value() == FinalPermutes(o, old(Value()))
    {
      UpdateLanes([o.swap(v0[2]), o.swap(v0[3]), o.swap(v0[0]), o.swap(v0[1])]);
      UpdateLanes([o.swap(v0[2]), o.swap(v0[3]), o.swap(v0[0]), o.swap(v0[1])]);
      UpdateLanes([o.swap(v0[2]), o.swap(v0[3]), o.swap(v0[0]), o.swap(v0[1])]);
      UpdateLanes([o.swap(v0[2]), o.swap(v0[3]), o.swap(v0[0]), o.swap(v0[1])]);
    }

    /** The loop of `ProcessAll`. */
    method TakePackets(data: seq<Byte>) returns (rest: seq<Byte>)
      requires Shape()
      modifies v0, v1, mul0, mul1
      ensures Value() == Absorb(Packets(o), HighwayHash.PACKET, old(Value()), data)
      ensures rest == Rest(HighwayHash.PACKET, data)
    {
      var n := HighwayHash.PACKET;
      rest := data;
      while |rest| >= n
        invariant Absorb(Packets(o), n, old(Value()), data) == Absorb(Packets(o), n, Value(), rest)
        invariant Rest(n, data) == Rest(n, rest)
        decreases |rest|
      {
        TakePacket(rest[..n]);
        rest := rest[n..];
      }
    }

    /** `ProcessAll` and `FinalPermutes`: the arrays end as what the digests are sums of. */
    method Process(data: seq<Byte>)
      requires Shape()
      modifies v0, v1, mul0, mul1
      ensures Value() == HighwayHash.Hash(Kernel(o, old(Value())), data)
    {
      ghost var start := Value();
      var rest := TakePackets(data);
      ghost var s := Value();
      if rest != [] {
        TakeRemainder(rest, |rest|);
        assert rest[..|rest|] == rest;
      }
      assert Value() == HighwayHash.Remainder(Kernel(o, start), s, rest);
      PermuteFourTimes();
    }
  }

  // ----- the operations of the hash -----

  type Word = bv64

  function Plus(x: Word, y: Word): Word { x + y }

  function Xor(x: Word, y: Word): Word { x ^ y }

  /** The product of the low half of `x` and the high half of `y`. */
  function Product(x: Word, y: Word): Word {
    (x & 0xffff_ffff) * (y >> 32)
  }

  /** What `ZipperMergeAndAdd` adds to its last argument. */
  function ZipLow(v1: Word, v0: Word): Word {
    (((v0 & 0xff000000) | (v1 & 0xff00000000)) >> 24)
    | (((v0 & 0xff0000000000) | (v1 & 0xff000000000000)) >> 16)
    | (v0 & 0xff0000) | ((v0 & 0xff00) << 32)
    | ((v1 & 0xff00000000000000) >> 8) | (v0 << 56)
  }

  /** What `ZipperMergeAndAdd` adds to its last but one argument. */
  function ZipHigh(v1: Word, v0: Word): Word {
    (((v1 & 0xff000000) | (v0 & 0xff00000000)) >> 24)
    | (v1 & 0xff0000) | ((v1 & 0xff0000000000) >> 16)
    | ((v1 & 0xff00) << 24) | ((v0 & 0xff000000000000) >> 8)
    | ((v1 & 0xff) << 48) | (v0 & 0xff00000000000000)
  }

  function SwapHalves(x: Word): Word {
    (x >> 32) | (x << 32)
  }

  /** A half rotated left by a count from 1 to 31. */
  function Turn(half: bv32, count: bv6): bv32
    requires 0 < count < 32
  {
    (half << count) | (half >> (32 - count))
  }

  lemma TurnInjective(x: bv32, y: bv32, count: bv6)
    requires 0 < count < 32 && Turn(x, count) == Turn(y, count)
    ensures x == y
  {}

  function Low(x: Word): bv32 { (x & 0xffff_ffff) as bv32 }

  function High(x: Word): bv32 { (x >> 32) as bv32 }

  function Join(half0: bv32, half1: bv32): (x: Word)
    ensures Low(x) == half0 && High(x) == half1
  {
    (half0 as Word) | ((half1 as Word) << 32)
  }

  lemma HalvesDecide(x: Word, y: Word)
    requires Low(x) == Low(y) && High(x) == High(y)
    ensures x == y
  {}

  /** `Rotate32By` for one word. */
  function Rotate(x: Word, n: nat): Word {
    if 0 < n < 32 then Join(Turn(Low(x), Count(n)), Turn(High(x), Count(n))) else x
  }

  lemma RotateInjective(x: Word, y: Word, n: nat)
    requires 0 < n < 32 && Rotate(x, n) == Rotate(y, n)
    ensures x == y
  {
    TurnInjective(Low(x), Low(y), Count(n));
    TurnInjective(High(x), High(y), Count(n));
    HalvesDecide(x, y);
  }

  function Count(n: nat): (c: bv6)
    requires n < 32
    ensures n > 0 ==> 0 < c < 32
  {
    n as bv6
  }

  function Size(n: nat): Word {
    if n < 32 then ((Count(n) as Word) << 32) + (Count(n) as Word) else 0
  }

  function Load(b: seq<Byte>): Word {
    if |b| == WORD then Cumulative.Load(b, 0) else 0
  }

  /** No byte is lost in the zipper: its two sums determine both words. */
  lemma ZipperInjective(v1: Word, v0: Word, w1: Word, w0: Word)
    requires ZipLow(v1, v0) == ZipLow(w1, w0) && ZipHigh(v1, v0) == ZipHigh(w1, w0)
    ensures v1 == w1 && v0 == w0
  {}

  function Minus(x: Word, y: Word): Word { x - y }

  lemma PlusMinus(x: Word, z: Word)
    ensures Minus(Plus(x, z), z) == x
  {
    assert Minus(x + z, z) == x;
  }

  lemma PlusMinusLeft(x: Word, z: Word)
    ensures Minus(Plus(z, x), z) == x
  {
    assert Minus(z + x, z) == x;
  }

  lemma XorCancels(x: Word, y: Word, z: Word)
    requires x ^ z == y ^ z
    ensures x == y
  {}

  lemma LoadInjective(x: seq<Byte>, y: seq<Byte>)
    requires |x| == |y| == WORD && Load(x) == Load(y)
    ensures x == y
  {
    Cumulative.PackedBytes(x[0], x[1], x[2], x[3], x[4], x[5], x[6], x[7]);
    Cumulative.PackedBytes(y[0], y[1], y[2], y[3], y[4], y[5], y[6], y[7]);
  }

  lemma PlusReversible()
    ensures Cancels(Plus)
  {
    forall x, y, z | Plus(x, z) == Plus(y, z) ensures x == y {
      PlusMinus(x, z);
      PlusMinus(y, z);
    }
  }

  lemma PlusReversibleLeft()
    ensures CancelsLeft(Plus)
  {
    forall x, y, z | Plus(z, x) == Plus(z, y) ensures x == y {
      PlusMinusLeft(x, z);
      PlusMinusLeft(y, z);
    }
  }

  lemma XorReversible()
    ensures Cancels(Xor)
  {
    forall x, y, z | Xor(x, z) == Xor(y, z) ensures x == y { XorCancels(x, y, z); }
  }

  lemma RotateReversible()
    ensures Turns(Rotate)
  {
    forall x, y, n | 0 < n < HighwayHash.PACKET && Rotate(x, n) == Rotate(y, n)
      ensures x == y { RotateInjective(x, y, n); }
  }

  lemma LoadReversible()
    ensures Loads(Load)
  {
    forall x, y | |x| == |y| == WORD && Load(x) == Load(y) ensures x == y { LoadInjective(x, y); }
  }

  const OPS: Ops<Word> := Ops(Plus, Xor, Product, ZipLow, ZipHigh, SwapHalves, Rotate, Size, Load)

  lemma OpsReversible()
    ensures Reversible(OPS)
  {
    PlusReversible();
    PlusReversibleLeft();
    XorReversible();
    RotateReversible();
    LoadReversible();
  }

  // ----- keys -----

  function Fresh(key: Word, mul0: Word, mul1: Word): Lane<Word> {
    Lane(Xor(key, mul0), Xor(SwapHalves(key), mul1), mul0, mul1)
  }

  /** `HighwayHashReset` */
  function Reset(key: Words<Word>): State<Word> {
    State(Fresh(key.a, 0xdbe6d5d5fe4cce2f, 0x3bd39e10cb0ef593),
          Fresh(key.b, 0xa4093822299f31d0, 0xc0acf169b5f18a8c),
          Fresh(key.c, 0x13198a2e03707344, 0xbe5466cf34e90c6c),
          Fresh(key.d, 0x243f6a8885a308d3, 0x452821e638d01377))
  }

  lemma FreshInjective(k: Word, l: Word, mul0: Word, mul1: Word)
    requires Fresh(k, mul0, mul1) == Fresh(l, mul0, mul1)
    ensures k == l
  {
    XorCancels(k, l, mul0);
  }

  lemma ResetInjective(key: Words<Word>, key': Words<Word>)
    requires Reset(key) == Reset(key')
    ensures key == key'
  {
    FreshInjective(key.a, key'.a, 0xdbe6d5d5fe4cce2f, 0x3bd39e10cb0ef593);
    FreshInjective(key.b, key'.b, 0xa4093822299f31d0, 0xc0acf169b5f18a8c);
    FreshInjective(key.c, key'.c, 0x13198a2e03707344, 0xbe5466cf34e90c6c);
    FreshInjective(key.d, key'.d, 0x243f6a8885a308d3, 0x452821e638d01377);
  }

  /** Different keys end in different states, whatever the input. */
  lemma KeyDecides(key: Words<Word>, key': Words<Word>, data: seq<Byte>)
    requires key != key'
    ensures HighwayHash.Hash(Kernel(OPS, Reset(key)), data) != HighwayHash.Hash(Kernel(OPS, Reset(key')), data)
  {
    if Reset(key) == Reset(key') {
      ResetInjective(key, key');
    } else {
      OpsReversible();
      StartDecides(OPS, Reset(key), Reset(key'), data);
    }
  }

  /** Inputs that differ in one packet or in the remaining bytes end in different states, under any key. */
  lemma DataDecides(key: Words<Word>, pre: seq<Byte>, p: seq<Byte>, q: seq<Byte>, post: seq<Byte>)
    requires |p| == |q| == HighwayHash.PACKET || (|p| == |q| < HighwayHash.PACKET && post == [])
    requires |pre| % HighwayHash.PACKET == 0
    requires p != q
    ensures HighwayHash.Hash(Kernel(OPS, Reset(key)), pre + (p + post))
         != HighwayHash.Hash(Kernel(OPS, Reset(key)), pre + (q + post))
  {
    OpsReversible();
    RestLength(HighwayHash.PACKET, pre);
    OnePacketDecides(OPS, Reset(key), pre, p, q, post);
  }
}
