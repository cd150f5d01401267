/**
 * The incremental Metro (lib/checksums/metrohash128.c) and Murmur3
 * (lib/checksums/murmur3.c) hashes, whose states keep a partial block in `xs`.
 */
module StreamHashes {
  import opened Common
  import opened BlockStream

  const INT_MAX: nat := 0x7fff_ffff
  const SIZE_RANGE: nat := 0x1_0000_0000_0000_0000

  lemma CountMore(a: nat, b: nat)
    ensures (a % SIZE_RANGE + b) % SIZE_RANGE == (a + b) % SIZE_RANGE
  {}

  /** What both families have in common: the running state and the unhashed bytes. */
  class BlockState<S> {
    const mix: Mix<S>
    const start: S
    const block: nat
    const xs: array<Byte>
    var xsLen: nat
    var v: S
    /** Only the Murmur states count the bytes, in a 64-bit counter. */
    var len: nat
    ghost var fed: seq<Byte>

    ghost predicate Buffered()
      reads this`xsLen
    {
      0 < block <= 32 && xs.Length == block && xsLen <= block
    }

    ghost predicate Valid()
      reads this, xs
    {
      && Buffered() && xsLen < block
      && StandsFor(mix, block, start, fed, v, xs[..xsLen])
    }

    constructor (mix: Mix<S>, start: S, block: nat)
      requires 0 < block <= 32
      ensures Valid() && fed == [] && len == 0 && fresh(xs)
      ensures this.mix == mix && this.start == start && this.block == block
    {
      this.mix, this.start, this.block := mix, start, block;
      xs := new Byte[block];
      xsLen, v, len, fed := 0, start, 0, [];
    }

    /** The bytes still to be mixed in amount to this. */
    ghost function Ahead(s: S, data: seq<Byte>): (S, seq<Byte>)
      requires block > 0
    {
      (Absorb(mix, block, s, data), Rest(block, data))
    }

    /** `METRO_FILL_XS` and `MURMUR_FILL_XS`; the lengths are compared as signed 32-bit integers. */
    method FillXs(key: seq<Byte>) returns (data: seq<Byte>)
      requires Buffered() && |key| + block <= INT_MAX
      modifies this`xsLen, xs
      ensures Buffered() && (xsLen == block || data == [])
      ensures xs[..xsLen] + data == old(xs[..xsLen]) + key
    {
      ghost var before := xs[..xsLen];
      var bytes := if |key| + xsLen > block then block - xsLen else |key|;
      for i := 0 to bytes
        invariant xsLen == |before| && xs[..xsLen + i] == before + key[..i]
      {
        xs[xsLen + i] := key[i];
      }
      xsLen := xsLen + bytes;
      data := key[bytes..];
    }

    /** The loop over whole blocks and the store of what remains. */
    method Drain(key: seq<Byte>)
      requires Buffered() && (0 < xsLen < block ==> key == [])
      modifies this`xsLen, this`v, xs
      ensures xsLen < block && Buffered()
      ensures (v, xs[..xsLen]) == old(Ahead(v, xs[..xsLen] + key))
    {
      var data := key;
      while xsLen == block || |data| >= block
        invariant Buffered() && (0 < xsLen < block ==> data == [])
        invariant Ahead(v, xs[..xsLen] + data) == old(Ahead(v, xs[..xsLen] + key))
        decreases |data| + xsLen
      {
        ghost var all := xs[..xsLen] + data;
        var d;
        if xsLen == block {
          d := xs[..];
          xsLen := 0;
        } else {
          d := data[..block];
          data := data[block..];
        }
        assert all[..block] == d && all[block..] == data == xs[..xsLen] + data;
        v := mix(v, d);
      }
      assert xs[..xsLen] + data == if xsLen == 0 then data else xs[..xsLen];
      if xsLen == 0 && data != [] {
        StoreRest(data);
      }
    }

    /** The copy of the excess bytes into the state. */
    method StoreRest(data: seq<Byte>)
      requires Buffered() && 0 < |data| < block
      modifies this`xsLen, xs
      ensures Buffered() && xsLen == |data| && xs[..xsLen] == data
    {
      xsLen := |data|;
      for i := 0 to |data|
        invariant xsLen == |data| && xs[..i] == data[..i]
      {
        xs[i] := data[i];
      }
    }

    /** `metrohash128_1_update`, `metrohash128_2_update`: the buffer is always filled first. */
    method MetroUpdate(key: seq<Byte>)
      requires Valid() && |key| + block <= INT_MAX
      modifies this, xs
      ensures Valid() && fed == old(fed) + key && len == old(len)
    {
      FeedMore(mix, block, start, fed, v, xs[..xsLen], key);
      var data := FillXs(key);
      Drain(data);
      fed := fed + key;
    }

    /** The three `MurmurHash3_*_update`: an empty buffer is not filled first. */
    method MurmurUpdate(key: seq<Byte>)
      requires Valid() && (xsLen > 0 ==> |key| + block <= INT_MAX)
      requires len == |fed| % SIZE_RANGE
      modifies this, xs
      ensures Valid() && fed == old(fed) + key && len == |fed| % SIZE_RANGE
    {
      FeedMore(mix, block, start, fed, v, xs[..xsLen], key);
      CountMore(|fed|, |key|);
      len := (len + |key|) % SIZE_RANGE;
      var data := key;
      if xsLen > 0 {
        data := FillXs(key);
      }
      Drain(data);
      fed := fed + key;
    }

    /** `metrohash128_1_steal` and its siblings; the state can be fed on afterwards. */
    method MetroSteal<H>(ops: MetroOps<S, H>) returns (out: H)
      requires Valid() && block == 32
      ensures out == MetroHash(mix, start, ops, fed)
    {
      var w, ptr := ops.open(v), 0;
      w, ptr := TailPiece(ops, w, ptr, 16);
      w, ptr := TailPiece(ops, w, ptr, 8);
      w, ptr := TailPiece(ops, w, ptr, 4);
      w, ptr := TailPiece(ops, w, ptr, 2);
      w, ptr := TailPiece(ops, w, ptr, 1);
      out := ops.finish(w);
    }

    /** `MurmurHash3_x86_32_steal` */
    method StealX86Narrow<H>(ops: MurmurOps<S, H>) returns (out: H)
      requires Valid() && block == 4 && len == |fed| % SIZE_RANGE
      ensures out == MurmurHash(mix, start, ops, 4, 1, fed)
    {
      var h := LaneStep(ops, v, xsLen, 4, 1);
      out := ops.finish(h, len);
    }

    /** `MurmurHash3_x86_128_steal`, which goes by the low bits of the length. */
    method StealX86Wide<H>(ops: MurmurOps<S, H>) returns (out: H)
      requires Valid() && block == 16 && len == |fed| % SIZE_RANGE
      ensures out == MurmurHash(mix, start, ops, 16, 4, fed)
    {
      RestLength(16, fed);
      var n := len % 16;
      assert n == xsLen by { LowBits(|fed|); }
      var h := LaneStep(ops, v, n, 4, 4);
      h := LaneStep(ops, h, n, 4, 3);
      h := LaneStep(ops, h, n, 4, 2);
      h := LaneStep(ops, h, n, 4, 1);
      out := ops.finish(h, len);
    }

    /** `MurmurHash3_x64_128_steal` */
    method StealX64<H>(ops: MurmurOps<S, H>) returns (out: H)
      requires Valid() && block == 16 && len == |fed| % SIZE_RANGE
      ensures out == MurmurHash(mix, start, ops, 16, 2, fed)
    {
      var h := LaneStep(ops, v, xsLen, 8, 2);
      h := LaneStep(ops, h, xsLen, 8, 1);
      out := ops.finish(h, len);
    }

    /** The cases of a steal's switch that belong to lane `k`, entered with `n` bytes left over. */
    method LaneStep<H>(ops: MurmurOps<S, H>, h: S, n: nat, width: nat, k: nat) returns (h': S)
      requires Buffered() && n == xsLen && k > 0 && width > 0
      ensures LaneFold(ops, h', xs[..xsLen], width, k - 1) == LaneFold(ops, h, xs[..xsLen], width, k)
    {
      var first, last := (k - 1) * width, k * width;
      assert last == first + width;
      h' := h;
      assert Lane(xs[..xsLen], width, k) == xs[Min(n, first)..Min(n, last)];
      if n > first {
        h' := ops.lane(h, k, xs[first..Min(n, last)]);
      }
    }

    /** One of the five steps: a piece of `size` bytes, if that many are left. */
    method TailPiece<H>(ops: MetroOps<S, H>, w: S, ptr: nat, size: nat) returns (w': S, ptr': nat)
      requires Buffered() && ptr <= xsLen && size > 0
      ensures ptr' <= xsLen
      ensures MetroTail(ops, w', xs[ptr'..xsLen], size / 2) == MetroTail(ops, w, xs[ptr..xsLen], size)
    {
      TailStep(ops, w, xs[ptr..xsLen], size);
      w', ptr' := w, ptr;
      if xsLen - ptr >= size {
        assert xs[ptr..xsLen][..size] == xs[ptr..ptr + size];
        assert xs[ptr..xsLen][size..] == xs[ptr + size..xsLen];
        w' := ops.tail(w, xs[ptr..ptr + size]);
        ptr' := ptr + size;
      }
    }
  }

  // ----- Murmur3: the last block -----

  lemma LowBits(n: nat)
    ensures n % SIZE_RANGE % 16 == n % 16
  {}

  /** Mixing the bytes of one lane into the state, and the final mix with the length. */
  datatype MurmurOps<!S, !H> = MurmurOps(lane: (S, nat, seq<Byte>) -> S, finish: (S, nat) -> H)

  /** Lane `k` of a last block, counted from 1. */
  function Lane(rest: seq<Byte>, width: nat, k: nat): seq<Byte>
    requires k > 0
  {
    rest[Min(|rest|, (k - 1) * width)..Min(|rest|, k * width)]
  }

  /** Lanes `k` down to 1 of a last block; lanes without bytes are skipped. */
  function LaneFold<S, H>(ops: MurmurOps<S, H>, s: S, rest: seq<Byte>, width: nat, k: nat): S {
    if k == 0 then s
    else LaneFold(ops, if Lane(rest, width, k) != [] then ops.lane(s, k, Lane(rest, width, k)) else s,
                  rest, width, k - 1)
  }

  /** The first `k` lanes, in order. */
  function Lanes(rest: seq<Byte>, width: nat, k: nat): seq<Byte> {
    if k == 0 then [] else Lanes(rest, width, k - 1) + Lane(rest, width, k)
  }

  /** No byte of the last block is left out. */
  lemma {:induction false} LanesCover(rest: seq<Byte>, width: nat, k: nat)
    ensures Lanes(rest, width, k) == rest[..Min(|rest|, k * width)]
  {
    if k > 0 {
      LanesCover(rest, width, k - 1);
      MulLe(k - 1, k, width);
    }
  }

  /** The Murmur3 hash of all bytes fed, for `lanes` lanes of `block / lanes` bytes. */
  function MurmurHash<S, H>(mix: Mix<S>, start: S, ops: MurmurOps<S, H>, block: nat, lanes: nat, data: seq<Byte>): H
    requires block > 0 && lanes > 0
  {
    ops.finish(LaneFold(ops, Absorb(mix, block, start, data), Rest(block, data), block / lanes, lanes),
               |data| % SIZE_RANGE)
  }

  /** What a hash would see that only notes down what it is given: the blocks, and then the lanes by number. */
  datatype Notes = Notes(blocks: seq<seq<Byte>>, lanes: seq<(nat, seq<Byte>)>)

  const NOTE_BLOCK: Mix<Notes> := (s: Notes, b) => s.(blocks := s.blocks + [b])

  const NOTE_LANES: MurmurOps<Notes, (Notes, nat)> :=
    MurmurOps((s: Notes, k, b) => s.(lanes := s.lanes + [(k, b)]), (s, n) => (s, n))

  lemma {:induction false} NotedBlocks(block: nat, s: Notes, data: seq<Byte>)
    requires block > 0
    ensures Absorb(NOTE_BLOCK, block, s, data) == s.(blocks := Absorb(NOTE, block, s.blocks, data))
    decreases |data|
  {
    if |data| >= block { NotedBlocks(block, NOTE_BLOCK(s, data[..block]), data[block..]); }
  }

  /** An entry for lane `k`, with its bytes of the rest, of which there are some. */
  ghost predicate IsLane(note: (nat, seq<Byte>), rest: seq<Byte>, width: nat, k: int) {
    && note.0 == k && 0 < k && (k - 1) * width < |rest|
    && note.1 == rest[(k - 1) * width..Min(|rest|, k * width)]
  }

  /** Lanes from the last one down to the first. */
  ghost predicate AreLanes(notes: seq<(nat, seq<Byte>)>, rest: seq<Byte>, width: nat) {
    forall i :: 0 <= i < |notes| ==> IsLane(notes[i], rest, width, |notes| - i)
  }

  lemma {:induction false} LanesDown(s: Notes, rest: seq<Byte>, width: nat, k: nat)
    returns (notes: seq<(nat, seq<Byte>)>)
    requires width > 0 && (k > 0 ==> (k - 1) * width < |rest|)
    ensures LaneFold(NOTE_LANES, s, rest, width, k) == s.(lanes := s.lanes + notes)
    ensures |notes| == k && AreLanes(notes, rest, width)
    decreases k
  {
    notes := [];
    if k > 0 {
      var lane := Lane(rest, width, k);
      assert k * width == (k - 1) * width + width;
      MulLe(k - 2, k - 1, width);
      var more := LanesDown(s.(lanes := s.lanes + [(k, lane)]), rest, width, k - 1);
      notes := [(k, lane)] + more;
      assert s.lanes + [(k, lane)] + more == s.lanes + notes;
      forall i | 0 <= i < |notes| ensures IsLane(notes[i], rest, width, |notes| - i) {
        if i > 0 { assert IsLane(more[i - 1], rest, width, |more| - (i - 1)); }
      }
    }
  }

  lemma {:induction false} NotedLanes(s: Notes, rest: seq<Byte>, width: nat, k: nat)
    returns (notes: seq<(nat, seq<Byte>)>)
    requires width > 0 && |rest| <= k * width
    ensures LaneFold(NOTE_LANES, s, rest, width, k) == s.(lanes := s.lanes + notes)
    ensures AreLanes(notes, rest, width) && |rest| <= |notes| * width
    decreases k
  {
    if k > 0 && |rest| <= (k - 1) * width {
      MulLe(k - 1, k, width);
      notes := NotedLanes(s, rest, width, k - 1);
    } else {
      notes := LanesDown(s, rest, width, k);
    }
  }

  /**
   * All data is hashed: the hash is given all whole blocks in order, then the rest, lane by lane from the last
   * one down, every byte of it in the lane it belongs to, and then the length.
   */
  lemma MurmurTakesAll(block: nat, lanes: nat, data: seq<Byte>)
    requires (block, lanes) in {(4, 1), (16, 4), (16, 2)}
    ensures var (t, n) := MurmurHash(NOTE_BLOCK, Notes([], []), NOTE_LANES, block, lanes, data);
      exists rest :: data == Flatten(t.blocks) + rest && |rest| < block && AllOfSize(t.blocks, block)
        && AreLanes(t.lanes, rest, block / lanes) && |rest| <= |t.lanes| * (block / lanes)
        && n == |data| % SIZE_RANGE
  {
    var start, rest := Notes([], []), Rest(block, data);
    NotedBlocks(block, start, data);
    BlocksNoted(block, [], data);
    var s := Absorb(NOTE_BLOCK, block, start, data);
    var notes := NotedLanes(s, rest, block / lanes, lanes);
    assert s.lanes + notes == notes;
  }

  /** `MurmurHash3_x64_128_equal` holds for states that were fed the same bytes in any pieces. */
  method MurmurEqual<S(==)>(a: BlockState<S>, b: BlockState<S>) returns (equal: bool)
    requires a.Valid() && b.Valid()
    ensures equal <==> a.v == b.v && a.len == b.len && a.xs[..a.xsLen] == b.xs[..b.xsLen]
    ensures (a.mix, a.start, a.block, a.fed, a.len) == (b.mix, b.start, b.block, b.fed, b.len) ==> equal
  {
    if a.v != b.v || a.xsLen != b.xsLen || a.len != b.len {
      assert |a.xs[..a.xsLen]| == a.xsLen && |b.xs[..b.xsLen]| == b.xsLen;
      return false;
    }
    equal := a.xsLen == 0 || a.xs[..a.xsLen] == b.xs[..b.xsLen];
  }

  /** A Murmur3 hash of 4-byte blocks (1 lane) or 16-byte blocks (4 or 2 lanes), cut in any way. */
  method MurmurPieces<S, H>(mix: Mix<S>, start: S, ops: MurmurOps<S, H>, block: nat, lanes: nat,
                            pieces: seq<seq<Byte>>)
    returns (out: H)
    requires (block, lanes) in {(4, 1), (16, 4), (16, 2)}
    requires forall i :: 0 <= i < |pieces| && |Flatten(pieces[..i])| % block != 0 ==> |pieces[i]| + block <= INT_MAX
    ensures out == MurmurHash(mix, start, ops, block, lanes, Flatten(pieces))
  {
    var state := new BlockState(mix, start, block);
    for i := 0 to |pieces|
      invariant fresh(state) && fresh(state.xs) && state.Valid() && state.block == block
      invariant state.mix == mix && state.start == start && state.fed == Flatten(pieces[..i])
      invariant state.len == |state.fed| % SIZE_RANGE
    {
      FlattenAppend(pieces[..i], pieces[i]);
      assert pieces[..i + 1] == pieces[..i] + [pieces[i]];
      RestLength(block, state.fed);
      state.MurmurUpdate(pieces[i]);
    }
    assert pieces[..|pieces|] == pieces;
    if lanes == 1 {
      out := state.StealX86Narrow(ops);
    } else if lanes == 4 {
      out := state.StealX86Wide(ops);
    } else {
      out := state.StealX64(ops);
    }
  }

  // ----- Metro: the last block -----

  /** Opening the final mix, mixing in 16, 8, 4, 2 or 1 bytes, and closing it. */
  datatype MetroOps<!S, !H> = MetroOps(open: S -> S, tail: Mix<S>, finish: S -> H)

  /** The pieces of a last block: at most one of each size from `size` down. */
  function Pieces(rest: seq<Byte>, size: nat): seq<seq<Byte>> {
    if size == 0 then []
    else if |rest| >= size then [rest[..size]] + Pieces(rest[size..], size / 2)
    else Pieces(rest, size / 2)
  }

  /** No byte of the last block is left out. */
  lemma {:induction false} PiecesCover(rest: seq<Byte>, size: nat)
    requires size in {0, 1, 2, 4, 8, 16} && |rest| < if size == 0 then 1 else 2 * size
    ensures Flatten(Pieces(rest, size)) == rest
    ensures forall p :: p in Pieces(rest, size) ==> |p| in {1, 2, 4, 8, 16}
  {
    if size > 0 && |rest| >= size {
      PiecesCover(rest[size..], size / 2);
      assert ([rest[..size]] + Pieces(rest[size..], size / 2))[1..] == Pieces(rest[size..], size / 2);
    } else if size > 0 {
      PiecesCover(rest, size / 2);
    }
  }

  function MixAll<S>(mix: Mix<S>, s: S, pieces: seq<seq<Byte>>): S {
    if pieces == [] then s else MixAll(mix, mix(s, pieces[0]), pieces[1..])
  }

  function MetroTail<S, H>(ops: MetroOps<S, H>, s: S, rest: seq<Byte>, size: nat): S {
    MixAll(ops.tail, s, Pieces(rest, size))
  }

  lemma TailStep<S, H>(ops: MetroOps<S, H>, s: S, rest: seq<Byte>, size: nat)
    requires size > 0
    ensures MetroTail(ops, s, rest, size)
            == if |rest| >= size then MetroTail(ops, ops.tail(s, rest[..size]), rest[size..], size / 2)
               else MetroTail(ops, s, rest, size / 2)
  {
    if |rest| >= size {
      assert Pieces(rest, size)[1..] == Pieces(rest[size..], size / 2);
    }
  }

  /** The Metro hash of all bytes fed. */
  function MetroHash<S, H>(mix: Mix<S>, start: S, ops: MetroOps<S, H>, data: seq<Byte>): H {
    ops.finish(MetroTail(ops, ops.open(Absorb(mix, 32, start, data)), Rest(32, data), 16))
  }

  /** A hash that only notes down what it is given. */
  const NOTE_TAIL: MetroOps<seq<seq<Byte>>, seq<seq<Byte>>> := MetroOps(s => s, NOTE, s => s)

  lemma {:induction false} NotedPieces(s: seq<seq<Byte>>, pieces: seq<seq<Byte>>)
    ensures MixAll(NOTE, s, pieces) == s + pieces
    decreases |pieces|
  {
    if pieces != [] {
      NotedPieces(s + [pieces[0]], pieces[1..]);
      assert s + [pieces[0]] + pieces[1..] == s + pieces;
    }
  }

  lemma {:induction false} PiecesShrink(rest: seq<Byte>, size: nat)
    requires size in {0, 1, 2, 4, 8, 16}
    ensures forall i :: 0 <= i < |Pieces(rest, size)| ==> 0 < |Pieces(rest, size)[i]| <= size
    ensures forall i, j :: 0 <= i < j < |Pieces(rest, size)| ==> |Pieces(rest, size)[j]| < |Pieces(rest, size)[i]|
  {
    if size > 0 { PiecesShrink(if |rest| >= size then rest[size..] else rest, size / 2); }
  }

  lemma {:induction false} FlattenConcat(a: seq<seq<Byte>>, b: seq<seq<Byte>>)
    ensures Flatten(a + b) == Flatten(a) + Flatten(b)
  {
    if b == [] {
      assert a + b == a;
    } else {
      var n := |b| - 1;
      FlattenConcat(a, b[..n]);
      FlattenAppend(a + b[..n], b[n]);
      FlattenAppend(b[..n], b[n]);
      assert a + b == a + b[..n] + [b[n]] && b == b[..n] + [b[n]];
    }
  }

  /**
   * All data is hashed: the hash is given all of it in order, in blocks of 32 bytes and at most one piece of
   * 16, 8, 4, 2 and 1 bytes each.
   */
  lemma MetroTakesAll(data: seq<Byte>)
    ensures var pieces := MetroHash(NOTE, [], NOTE_TAIL, data);
      && Flatten(pieces) == data
      && (forall i :: 0 <= i < |pieces| ==> |pieces[i]| in {32, 16, 8, 4, 2, 1})
      && (forall i, j :: 0 <= i < j < |pieces| ==> |pieces[j]| < |pieces[i]| || |pieces[i]| == |pieces[j]| == 32)
  {
    var blocks, rest := Absorb(NOTE, 32, [], data), Rest(32, data);
    BlocksNoted(32, [], data);
    NotedPieces(blocks, Pieces(rest, 16));
    PiecesCover(rest, 16);
    PiecesShrink(rest, 16);
    FlattenConcat(blocks, Pieces(rest, 16));
  }

  lemma {:induction false} MixAllKeeps<S(!new)>(mix: Mix<S>, s: S, t: S, pieces: seq<seq<Byte>>)
    requires Reversible(mix) && s != t
    ensures MixAll(mix, s, pieces) != MixAll(mix, t, pieces)
  {
    if pieces != [] { MixAllKeeps(mix, mix(s, pieces[0]), mix(t, pieces[0]), pieces[1..]); }
  }

  lemma PieceDecides<S(!new)>(mix: Mix<S>, s: S, x: seq<Byte>, y: seq<Byte>, pieces: seq<seq<Byte>>)
    requires Reversible(mix) && |x| == |y| && x != y
    ensures MixAll(mix, mix(s, x), pieces) != MixAll(mix, mix(s, y), pieces)
  {
    assert mix(s, x) != mix(s, y);
    MixAllKeeps(mix, mix(s, x), mix(s, y), pieces);
  }

  lemma PiecesStep(rest: seq<Byte>, size: nat)
    requires 0 < size <= |rest|
    ensures Pieces(rest, size)[0] == rest[..size] && Pieces(rest, size)[1..] == Pieces(rest[size..], size / 2)
  {}

  /** A byte of the last block that differs makes the states differ. */
  lemma {:induction false} TailDecides<S(!new)>(mix: Mix<S>, s: S, a: seq<Byte>, b: seq<Byte>, i: nat, size: nat)
    requires Reversible(mix) && OneByte(a, b, i)
    requires size in {0, 1, 2, 4, 8, 16} && |a| < if size == 0 then 1 else 2 * size
    ensures MixAll(mix, s, Pieces(a, size)) != MixAll(mix, s, Pieces(b, size))
  {
    if |a| < size {
      TailDecides(mix, s, a, b, i, size / 2);
    } else {
      PiecesStep(a, size);
      PiecesStep(b, size);
      var x, y := a[..size], b[..size];
      if i < size {
        assert x[i] != y[i];
        assert a[size..] == b[size..];
        PieceDecides(mix, s, x, y, Pieces(a[size..], size / 2));
      } else {
        assert x == y;
        TailDecides(mix, mix(s, x), a[size..], b[size..], i - size, size / 2);
      }
    }
  }

  /**
   * If the steps of a block, of a piece and of opening the final mix can be undone, inputs that differ in one
   * byte reach different states before the final mix is closed.
   */
  lemma MetroByteDecides<S(!new)>(mix: Mix<S>, start: S, ops: MetroOps<S, S>, a: seq<Byte>, b: seq<Byte>, i: nat)
    requires Reversible(mix) && Reversible(ops.tail) && OneByte(a, b, i)
    requires (forall s, t :: ops.open(s) == ops.open(t) ==> s == t) && forall s :: ops.finish(s) == s
    ensures MetroHash(mix, start, ops, a) != MetroHash(mix, start, ops, b)
  {
    ByteDecides(mix, 32, start, a, b, i);
    var n := |a| - |Rest(32, a)|;
    var s, t := ops.open(Absorb(mix, 32, start, a)), ops.open(Absorb(mix, 32, start, b));
    if i < n {
      MixAllKeeps(ops.tail, s, t, Pieces(Rest(32, a), 16));
    } else {
      TailDecides(ops.tail, s, Rest(32, a), Rest(32, b), i - n, 16);
    }
  }

  /** `metrohash128_1` and `metrohash128_2`, with the key cut in any way. */
  method MetroPieces<S, H>(mix: Mix<S>, start: S, ops: MetroOps<S, H>, seed: seq<Byte>, pieces: seq<seq<Byte>>)
    returns (out: H)
    requires |seed| == 4 && forall i :: 0 <= i < |pieces| ==> |pieces[i]| + 32 <= INT_MAX
    ensures out == MetroHash(mix, start, ops, seed + Flatten(pieces))
  {
    var state := new BlockState(mix, start, 32);
    state.MetroUpdate(seed);
    for i := 0 to |pieces|
      invariant fresh(state) && fresh(state.xs) && state.Valid() && state.block == 32
      invariant state.mix == mix && state.start == start && state.fed == seed + Flatten(pieces[..i])
    {
      FlattenAppend(pieces[..i], pieces[i]);
      assert pieces[..i + 1] == pieces[..i] + [pieces[i]];
      state.MetroUpdate(pieces[i]);
      assert seed + Flatten(pieces[..i]) + pieces[i] == seed + Flatten(pieces[..i + 1]);
    }
    assert pieces[..|pieces|] == pieces;
    out := state.MetroSteal(ops);
  }
}
