/**
 * The cumulative digest (lib/checksum.c:275-365): a byte vector into which
 * inputs are folded by exclusive or, eight bytes at a time.
 */
module Cumulative {
  import opened Common

  const ALIGN: nat := 8
  const MAX_BYTES: nat := 64

  type Word = bv64

  /** The digest length that the first update chooses. */
  function InitialLength(size: nat): nat {
    ALIGN * Max(1, Min(size / ALIGN, MAX_BYTES / ALIGN))
  }

  /** Folds `input` into `data`: element `i` goes to position `i` modulo the length. */
  function FoldInto<T>(op: (T, T) -> T, data: seq<T>, input: seq<T>): (r: seq<T>)
    requires data != []
    ensures |r| == |data|
  {
    if input == [] then data
    else
      var n := |input| - 1;
      var r := FoldInto(op, data, input[..n]);
      r[n % |data| := op(r[n % |data|], input[n])]
  }

  const XOR: (Byte, Byte) -> Byte := (a, b) => a ^ b

  /** The byte-wise fold. */
  function XorInto(data: seq<Byte>, input: seq<Byte>): (r: seq<Byte>)
    requires data != []
    ensures |r| == |data|
  {
    FoldInto(XOR, data, input)
  }

  /** One update; an empty sequence stands for the digest before its first update. */
  function Absorb(data: seq<Byte>, input: seq<Byte>): seq<Byte> {
    XorInto(if data == [] then seq(InitialLength(|input|), _ => 0) else data, input)
  }

  // ----- words -----

  function Pack(b0: Byte, b1: Byte, b2: Byte, b3: Byte, b4: Byte, b5: Byte, b6: Byte, b7: Byte): Word {
    (b0 as Word)
    | ((b1 as Word) << 8) | ((b2 as Word) << 16) | ((b3 as Word) << 24)
    | ((b4 as Word) << 32) | ((b5 as Word) << 40) | ((b6 as Word) << 48)
    | ((b7 as Word) << 56)
  }

  /** The 64-bit word in eight bytes of memory, lowest byte first. */
  function Load(b: seq<Byte>, at: nat): Word
    requires at + ALIGN <= |b|
  {
    Pack(b[at], b[at + 1], b[at + 2], b[at + 3], b[at + 4], b[at + 5], b[at + 6], b[at + 7])
  }

  function Unpack(w: Word): (b: seq<Byte>)
    ensures |b| == ALIGN
  {
    [(w & 0xff) as Byte, ((w >> 8) & 0xff) as Byte, ((w >> 16) & 0xff) as Byte, ((w >> 24) & 0xff) as Byte,
     ((w >> 32) & 0xff) as Byte, ((w >> 40) & 0xff) as Byte, ((w >> 48) & 0xff) as Byte, ((w >> 56) & 0xff) as Byte]
  }

  lemma PackedBytes(b0: Byte, b1: Byte, b2: Byte, b3: Byte, b4: Byte, b5: Byte, b6: Byte, b7: Byte)
    ensures (Pack(b0, b1, b2, b3, b4, b5, b6, b7) & 0xff) as Byte == b0
    ensures ((Pack(b0, b1, b2, b3, b4, b5, b6, b7) >> 8) & 0xff) as Byte == b1
    ensures ((Pack(b0, b1, b2, b3, b4, b5, b6, b7) >> 16) & 0xff) as Byte == b2
    ensures ((Pack(b0, b1, b2, b3, b4, b5, b6, b7) >> 24) & 0xff) as Byte == b3
    ensures ((Pack(b0, b1, b2, b3, b4, b5, b6, b7) >> 32) & 0xff) as Byte == b4
    ensures ((Pack(b0, b1, b2, b3, b4, b5, b6, b7) >> 40) & 0xff) as Byte == b5
    ensures ((Pack(b0, b1, b2, b3, b4, b5, b6, b7) >> 48) & 0xff) as Byte == b6
    ensures ((Pack(b0, b1, b2, b3, b4, b5, b6, b7) >> 56) & 0xff) as Byte == b7
  {}

  lemma XoredBytes(x: Word, y: Word)
    ensures ((x ^ y) & 0xff) as Byte == ((x & 0xff) as Byte) ^ ((y & 0xff) as Byte)
    ensures (((x ^ y) >> 8) & 0xff) as Byte == (((x >> 8) & 0xff) as Byte) ^ (((y >> 8) & 0xff) as Byte)
    ensures (((x ^ y) >> 16) & 0xff) as Byte == (((x >> 16) & 0xff) as Byte) ^ (((y >> 16) & 0xff) as Byte)
    ensures (((x ^ y) >> 24) & 0xff) as Byte == (((x >> 24) & 0xff) as Byte) ^ (((y >> 24) & 0xff) as Byte)
    ensures (((x ^ y) >> 32) & 0xff) as Byte == (((x >> 32) & 0xff) as Byte) ^ (((y >> 32) & 0xff) as Byte)
    ensures (((x ^ y) >> 40) & 0xff) as Byte == (((x >> 40) & 0xff) as Byte) ^ (((y >> 40) & 0xff) as Byte)
    ensures (((x ^ y) >> 48) & 0xff) as Byte == (((x >> 48) & 0xff) as Byte) ^ (((y >> 48) & 0xff) as Byte)
    ensures (((x ^ y) >> 56) & 0xff) as Byte == (((x >> 56) & 0xff) as Byte) ^ (((y >> 56) & 0xff) as Byte)
  {}

  /** Exclusive or of words is exclusive or of their bytes. */
  lemma XorByBytes(a: seq<Byte>, i: nat, b: seq<Byte>, j: nat)
    requires i + ALIGN <= |a| && j + ALIGN <= |b|
    ensures var r := Unpack(Load(a, i) ^ Load(b, j));
      && r[0] == a[i] ^ b[j] && r[1] == a[i + 1] ^ b[j + 1] && r[2] == a[i + 2] ^ b[j + 2]
      && r[3] == a[i + 3] ^ b[j + 3]
      && r[4] == a[i + 4] ^ b[j + 4] && r[5] == a[i + 5] ^ b[j + 5] && r[6] == a[i + 6] ^ b[j + 6]
      && r[7] == a[i + 7] ^ b[j + 7]
  {
    PackedBytes(a[i], a[i + 1], a[i + 2], a[i + 3], a[i + 4], a[i + 5], a[i + 6], a[i + 7]);
    PackedBytes(b[j], b[j + 1], b[j + 2], b[j + 3], b[j + 4], b[j + 5], b[j + 6], b[j + 7]);
    XoredBytes(Load(a, i), Load(b, j));
  }

  // ----- the update -----

  method Store(a: array<Byte>, at: nat, bytes: seq<Byte>)
    requires at + ALIGN <= a.Length && |bytes| == ALIGN
    modifies a
    ensures forall j :: at <= j < at + ALIGN ==> a[j] == bytes[j - at]
    ensures forall j :: 0 <= j < a.Length && !(at <= j < at + ALIGN) ==> a[j] == old(a[j])
  {
    for k := 0 to ALIGN
      invariant forall j :: at <= j < at + k ==> a[j] == bytes[j - at]
      invariant forall j :: 0 <= j < a.Length && !(at <= j < at + ALIGN) ==> a[j] == old(a[j])
    {
      a[at + k] := bytes[k];
    }
  }

  lemma {:induction false} XorSplit(data: seq<Byte>, input: seq<Byte>, n: nat)
    requires data != [] && n < |input|
    ensures XorInto(data, input[..n + 1]) ==
      var r := XorInto(data, input[..n]); r[n % |data| := r[n % |data|] ^ input[n]]
  {
    assert input[..n + 1][..n] == input[..n];
  }

  lemma ModStep(i: nat, n: nat, pos: nat, k: nat)
    requires n > 0 && pos == i % n && pos + k < n
    ensures (i + k) % n == pos + k
  {
    DivModUnique(i + k, n, i / n, pos + k);
  }

  /** Eight single-byte steps inside the vector, none of them wrapping around. */
  lemma {:induction false} XorWord(data: seq<Byte>, input: seq<Byte>, i: nat, pos: nat, k: nat)
    requires data != [] && i + k <= |input| && pos == i % |data| && pos + k <= |data|
    ensures var r := XorInto(data, input[..i]); var t := XorInto(data, input[..i + k]);
      && (forall j :: pos <= j < pos + k ==> t[j] == r[j] ^ input[i + j - pos])
      && (forall j :: 0 <= j < |data| && !(pos <= j < pos + k) ==> t[j] == r[j])
    decreases k
  {
    if k > 0 {
      XorWord(data, input, i, pos, k - 1);
      XorSplit(data, input, i + k - 1);
      ModStep(i, |data|, pos, k - 1);
    }
  }

  class RmDigestCumulative {
    var data: array<Byte>

    /** The digest's bytes; none before the first update. */
    ghost function Bytes(): seq<Byte>
      reads this, data
    {
      data[..]
    }

    ghost predicate Valid()
      reads this
    {
      data.Length % ALIGN == 0
    }

    constructor ()
      ensures Valid() && Bytes() == [] && fresh(data)
    {
      data := new Byte[0];
    }

    /** `rm_digest_cumulative_update` */
    method Update(input: seq<Byte>)
      requires Valid()
      modifies this, data
      ensures Valid() && (data == old(data) || fresh(data))
      ensures Bytes() == Absorb(old(Bytes()), input)
    {
      if data.Length == 0 {
        data := new Byte[InitialLength(|input|)](_ => 0);
      }
      var a := data;
      ghost var start := a[..];
      assert start == if old(Bytes()) == [] then seq(InitialLength(|input|), _ => 0) else old(Bytes());
      var n := a.Length;
      var i, pos := UpdateWords(a, start, input);
      while i < |input|
        invariant data == a && i <= |input| && pos == i % n
        invariant a[..] == XorInto(start, input[..i])
      {
        XorSplit(start, input, i);
        a[pos] := a[pos] ^ input[i];
        Advance(i, n, pos, 1);
        i := i + 1;
        pos := pos + 1;
        if pos == n {
          pos := 0;
        }
      }
      assert input[..i] == input;
    }
  }

  /** The fast loop of the update; stops where less than a word is left. */
  method UpdateWords(a: array<Byte>, ghost start: seq<Byte>, input: seq<Byte>) returns (i: nat, pos: nat)
    requires a.Length > 0 && a.Length % ALIGN == 0 && a[..] == start
    modifies a
    ensures i <= |input| < i + ALIGN && pos == i % a.Length
    ensures a[..] == XorInto(start, input[..i])
  {
    i, pos := 0, 0;
    while i + ALIGN <= |input|
      invariant i <= |input| && pos == i % a.Length && pos % ALIGN == 0
      invariant a[..] == XorInto(start, input[..i])
    {
      WordFits(pos, a.Length);
      UpdateWord(a, start, input, i, pos);
      Advance(i, a.Length, pos, ALIGN);
      i := i + ALIGN;
      pos := pos + ALIGN;
      if pos == a.Length {
        pos := 0;
      }
    }
  }

  method XorWords(a: seq<Byte>, i: nat, b: seq<Byte>, j: nat) returns (r: seq<Byte>)
    requires i + ALIGN <= |a| && j + ALIGN <= |b|
    ensures |r| == ALIGN
    ensures r[0] == a[i] ^ b[j] && r[1] == a[i + 1] ^ b[j + 1] && r[2] == a[i + 2] ^ b[j + 2]
      && r[3] == a[i + 3] ^ b[j + 3]
    ensures r[4] == a[i + 4] ^ b[j + 4] && r[5] == a[i + 5] ^ b[j + 5] && r[6] == a[i + 6] ^ b[j + 6]
      && r[7] == a[i + 7] ^ b[j + 7]
  {
    XorByBytes(a, i, b, j);
    r := Unpack(Load(a, i) ^ Load(b, j));
  }

  /** The word-sized exclusive or of the fast loop. */
  method XorStore(a: array<Byte>, at: nat, input: seq<Byte>, i: nat)
    requires at + ALIGN <= a.Length && i + ALIGN <= |input|
    modifies a
    ensures forall j :: at <= j < at + ALIGN ==> a[j] == old(a[j]) ^ input[i + j - at]
    ensures forall j :: 0 <= j < a.Length && !(at <= j < at + ALIGN) ==> a[j] == old(a[j])
  {
    var bytes := XorWords(a[..], at, input, i);
    Store(a, at, bytes);
    forall j | at <= j < at + ALIGN ensures a[j] == old(a[j]) ^ input[i + j - at] {
      assert j - at in {0, 1, 2, 3, 4, 5, 6, 7};
    }
  }

  /** One word of the fast loop is eight steps of the byte-wise fold. */
  method UpdateWord(a: array<Byte>, ghost start: seq<Byte>, input: seq<Byte>, i: nat, pos: nat)
    requires |start| == a.Length > 0 && i + ALIGN <= |input| && pos == i % a.Length && pos + ALIGN <= a.Length
    requires a[..] == XorInto(start, input[..i])
    modifies a
    ensures a[..] == XorInto(start, input[..i + ALIGN])
  {
    XorWord(start, input, i, pos, ALIGN);
    XorStore(a, pos, input, i);
  }

  /** Where the cursor stands after `k` more bytes that fit before the end of the vector. */
  lemma Advance(i: nat, n: nat, pos: nat, k: nat)
    requires n > 0 && pos == i % n && pos + k <= n && k > 0
    ensures (i + k) % n == if pos + k == n then 0 else pos + k
  {
    var q := i / n;
    assert i == q * n + pos;
    if pos + k == n {
      assert i + k == (q + 1) * n;
      DivModUnique(i + k, n, q + 1, 0);
    } else {
      DivModUnique(i + k, n, q, pos + k);
    }
  }

  lemma WordFits(pos: nat, n: nat)
    requires pos < n && pos % ALIGN == 0 && n % ALIGN == 0
    ensures pos + ALIGN <= n
  {}

  // ----- order does not matter -----

  /** `d` combined with the elements of `input` that are folded into position `j`. */
  function Column<T>(op: (T, T) -> T, d: T, input: seq<T>, n: nat, j: nat): T
    requires n > 0
  {
    if input == [] then d
    else
      var m := |input| - 1;
      var c := Column(op, d, input[..m], n, j);
      if m % n == j then op(c, input[m]) else c
  }

  /** The fold, one position at a time. */
  lemma {:induction false} FoldColumn<T>(op: (T, T) -> T, data: seq<T>, input: seq<T>, j: nat)
    requires j < |data|
    ensures FoldInto(op, data, input)[j] == Column(op, data[j], input, |data|, j)
  {
    if input != [] { FoldColumn(op, data, input[..|input| - 1], j); }
  }

  ghost predicate Swaps<T(!new)>(op: (T, T) -> T) {
    forall a, b, c :: op(op(a, b), c) == op(op(a, c), b)
  }

  lemma XorSwaps()
    ensures Swaps(XOR)
  {}

  lemma {:induction false} ColumnShift<T(!new)>(op: (T, T) -> T, d: T, b: T, x: seq<T>, n: nat, j: nat)
    requires n > 0 && Swaps(op)
    ensures Column(op, op(d, b), x, n, j) == op(Column(op, d, x, n, j), b)
  {
    if x != [] { ColumnShift(op, d, b, x[..|x| - 1], n, j); }
  }

  lemma {:induction false} ColumnSwap<T(!new)>(op: (T, T) -> T, d: T, x: seq<T>, y: seq<T>, n: nat, j: nat)
    requires n > 0 && Swaps(op)
    ensures Column(op, Column(op, d, x, n, j), y, n, j) == Column(op, Column(op, d, y, n, j), x, n, j)
  {
    if y != [] {
      var m := |y| - 1;
      ColumnSwap(op, d, x, y[..m], n, j);
      if m % n == j { ColumnShift(op, Column(op, d, y[..m], n, j), y[m], x, n, j); }
    }
  }

  lemma FoldSwap<T(!new)>(op: (T, T) -> T, data: seq<T>, x: seq<T>, y: seq<T>)
    requires data != [] && Swaps(op)
    ensures FoldInto(op, FoldInto(op, data, x), y) == FoldInto(op, FoldInto(op, data, y), x)
  {
    var xy, yx := FoldInto(op, FoldInto(op, data, x), y), FoldInto(op, FoldInto(op, data, y), x);
    forall j | 0 <= j < |data| ensures xy[j] == yx[j] {
      FoldColumn(op, data, x, j);
      FoldColumn(op, data, y, j);
      FoldColumn(op, FoldInto(op, data, x), y, j);
      FoldColumn(op, FoldInto(op, data, y), x, j);
      ColumnSwap(op, data[j], x, y, |data|, j);
    }
  }

  /** Two updates can be exchanged. */
  lemma Commutes(data: seq<Byte>, x: seq<Byte>, y: seq<Byte>)
    requires data != []
    ensures XorInto(XorInto(data, x), y) == XorInto(XorInto(data, y), x)
  {
    XorSwaps();
    FoldSwap(XOR, data, x, y);
  }

  /** All inputs of a list, one update after the other. */
  function AbsorbAll(data: seq<Byte>, inputs: seq<seq<Byte>>): seq<Byte>
    decreases |inputs|
  {
    if inputs == [] then data else AbsorbAll(Absorb(data, inputs[0]), inputs[1..])
  }

  lemma AbsorbFirst(data: seq<Byte>, x: seq<Byte>, rest: seq<seq<Byte>>)
    ensures AbsorbAll(data, [x] + rest) == AbsorbAll(Absorb(data, x), rest)
  {
    assert ([x] + rest)[1..] == rest;
  }

  function Without(inputs: seq<seq<Byte>>, k: nat): seq<seq<Byte>>
    requires k < |inputs|
  {
    inputs[..k] + inputs[k + 1..]
  }

  /** Pulling one input to the front changes nothing. */
  lemma {:induction false} PullFront(data: seq<Byte>, inputs: seq<seq<Byte>>, k: nat)
    requires data != [] && k < |inputs|
    ensures AbsorbAll(data, inputs) == AbsorbAll(Absorb(data, inputs[k]), Without(inputs, k))
    decreases k
  {
    if k == 0 {
      assert Without(inputs, 0) == inputs[1..];
    } else {
      var x, y := inputs[0], inputs[k];
      var rest := Without(inputs[1..], k - 1);
      PullFront(Absorb(data, x), inputs[1..], k - 1);
      Commutes(data, x, y);
      assert Without(inputs, k) == [x] + rest;
      AbsorbFirst(Absorb(data, y), x, rest);
    }
  }

  lemma WithoutMultiset(inputs: seq<seq<Byte>>, k: nat)
    requires k < |inputs|
    ensures multiset(Without(inputs, k)) == multiset(inputs) - multiset{inputs[k]}
  {
    assert inputs == inputs[..k] + [inputs[k]] + inputs[k + 1..];
  }

  /**
   * Feeding any permutation of the inputs gives the same digest, once a first
   * update has fixed the length.
   */
  lemma {:induction false} PermutationStarted(data: seq<Byte>, a: seq<seq<Byte>>, b: seq<seq<Byte>>)
    requires data != [] && multiset(a) == multiset(b)
    ensures AbsorbAll(data, a) == AbsorbAll(data, b)
    decreases |a|
  {
    if a == [] {
      assert |b| == |multiset(b)| == 0;
    } else {
      assert a[0] in multiset(b);
      var k :| 0 <= k < |b| && b[k] == a[0];
      PullFront(data, b, k);
      WithoutMultiset(a, 0);
      WithoutMultiset(b, k);
      assert Without(a, 0) == a[1..];
      PermutationStarted(Absorb(data, a[0]), a[1..], Without(b, k));
    }
  }

  lemma {:induction false} LengthStays(data: seq<Byte>, inputs: seq<seq<Byte>>)
    requires data != []
    ensures |AbsorbAll(data, inputs)| == |data|
    decreases |inputs|
  {
    if inputs != [] { LengthStays(Absorb(data, inputs[0]), inputs[1..]); }
  }

  /** Of a fresh digest the first input chooses the length. */
  lemma FirstChooses(a: seq<seq<Byte>>)
    requires a != []
    ensures var zeros := seq(InitialLength(|a[0]|), _ => 0 as Byte);
      zeros != [] && AbsorbAll([], a) == AbsorbAll(zeros, a)
    ensures |AbsorbAll([], a)| == InitialLength(|a[0]|)
  {
    var zeros := seq(InitialLength(|a[0]|), _ => 0 as Byte);
    assert Absorb([], a[0]) == Absorb(zeros, a[0]);
    LengthStays(zeros, a);
  }

  /**
   * Of a fresh digest, two orders of the same inputs give the same state if and only
   * if their first inputs choose the same length.
   */
  lemma Permutation(a: seq<seq<Byte>>, b: seq<seq<Byte>>)
    requires multiset(a) == multiset(b)
    ensures |a| == |b|
    ensures AbsorbAll([], a) == AbsorbAll([], b) <==> a == [] || InitialLength(|a[0]|) == InitialLength(|b[0]|)
  {
    assert |b| == |multiset(b)| == |multiset(a)| == |a|;
    if a != [] {
      FirstChooses(a);
      FirstChooses(b);
      if InitialLength(|a[0]|) == InitialLength(|b[0]|) {
        PermutationStarted(seq(InitialLength(|a[0]|), _ => 0 as Byte), a, b);
      }
    }
  }

  /** With inputs that choose different lengths the order does matter. */
  lemma LengthsMatter()
    ensures |AbsorbAll([], [seq(8, _ => 0), seq(16, _ => 0)])| == 8
    ensures |AbsorbAll([], [seq(16, _ => 0), seq(8, _ => 0)])| == 16
  {
    var x: seq<Byte>, y: seq<Byte> := seq(8, _ => 0), seq(16, _ => 0);
    assert [x, y][1..] == [y] && [y, x][1..] == [x];
    assert [y][1..] == [] && [x][1..] == [];
    assert AbsorbAll([], [x, y]) == AbsorbAll(Absorb([], x), [y]) == AbsorbAll(Absorb(Absorb([], x), y), []);
    assert AbsorbAll([], [y, x]) == AbsorbAll(Absorb([], y), [x]) == AbsorbAll(Absorb(Absorb([], y), x), []);
  }

  /** A single input of a multiple of eight bytes that is not too long is its own digest. */
  lemma OwnDigest(x: seq<Byte>)
    requires 0 < |x| <= MAX_BYTES && |x| % ALIGN == 0
    ensures Absorb([], x) == x
  {
    forall j | 0 <= j < |x| ensures Absorb([], x)[j] == x[j] {
      AbsorbByte([], x, |x|, j);
      ShortColumn(x, |x|, j);
      ZeroXor(x[j]);
    }
  }

  /** The first input chooses the largest multiple of 8 that it fills, from 8 up to 64. */
  lemma LengthChosen(x: seq<Byte>)
    ensures var n := |Absorb([], x)|;
      && n % 8 == 0 && 8 <= n <= 64
      && (|x| >= 8 ==> n <= |x|) && (n < 64 ==> |x| < n + 8)
  {}

  /** A digest's length is the one that it would choose itself. */
  lemma LengthChosenAgain(size: nat)
    ensures InitialLength(InitialLength(size)) == InitialLength(size)
  {}

  // ----- inputs in no particular order -----

  /** What an input adds to position `j` of a digest of length `n`. */
  function SumByte(x: seq<Byte>, n: nat, j: nat): Byte
    requires n > 0
  {
    Column(XOR, 0, x, n, j)
  }

  function ByteAt(data: seq<Byte>, j: nat): Byte
    requires data == [] || j < |data|
  {
    if data == [] then 0 else data[j]
  }

  lemma FoldByte<T(!new)>(op: (T, T) -> T, z: T, data: seq<T>, x: seq<T>, j: nat)
    requires j < |data| && Swaps(op) && op(z, data[j]) == data[j]
    ensures FoldInto(op, data, x)[j] == op(Column(op, z, x, |data|, j), data[j])
  {
    FoldColumn(op, data, x, j);
    ColumnShift(op, z, data[j], x, |data|, j);
  }

  lemma ZeroXor(b: Byte)
    ensures XOR(0, b) == b == XOR(b, 0)
  {}

  /** One update, one position at a time. */
  lemma AbsorbByte(data: seq<Byte>, x: seq<Byte>, n: nat, j: nat)
    requires j < n && n == if data == [] then InitialLength(|x|) else |data|
    ensures |Absorb(data, x)| == n && Absorb(data, x)[j] == XOR(SumByte(x, n, j), ByteAt(data, j))
  {
    var start := if data == [] then seq(n, _ => 0) else data;
    XorSwaps();
    ZeroXor(start[j]);
    FoldByte(XOR, 0, start, x, j);
  }

  /** An input that fits is folded into place. */
  lemma {:induction false} ShortColumn(x: seq<Byte>, n: nat, j: nat)
    requires |x| <= n && j < n
    ensures SumByte(x, n, j) == if j < |x| then x[j] else 0
  {
    if x != [] {
      var m := |x| - 1;
      ShortColumn(x[..m], n, j);
      DivModUnique(m, n, 0, m);
      ZeroXor(x[m]);
    }
  }

  /** The values of a set combined in no particular order. */
  ghost function Gather<K, T>(op: (T, T) -> T, z: T, keys: set<K>, val: K -> T): T {
    if keys == {} then z else var k :| k in keys; op(Gather(op, z, keys - {k}, val), val(k))
  }

  lemma {:induction false} GatherAdd<K, T(!new)>(op: (T, T) -> T, z: T, keys: set<K>, val: K -> T, k: K)
    requires k !in keys && Swaps(op)
    ensures Gather(op, z, keys + {k}, val) == op(Gather(op, z, keys, val), val(k))
    decreases |keys|
  {
    var all := keys + {k};
    var q :| q in all && Gather(op, z, all, val) == op(Gather(op, z, all - {q}, val), val(q));
    if q == k {
      assert all - {q} == keys;
    } else {
      var rest := keys - {q};
      assert all - {q} == rest + {k} && keys == rest + {q};
      GatherAdd(op, z, rest, val, k);
      GatherAdd(op, z, rest, val, q);
    }
  }

  lemma {:induction false} GatherShift<K, T(!new)>(op: (T, T) -> T, z: T, d: T, keys: set<K>, val: K -> T)
    requires Swaps(op)
    ensures Gather(op, op(z, d), keys, val) == op(Gather(op, z, keys, val), d)
    decreases |keys|
  {
    if keys != {} {
      var k :| k in keys && Gather(op, z, keys, val) == op(Gather(op, z, keys - {k}, val), val(k));
      assert keys - {k} + {k} == keys;
      GatherAdd(op, op(z, d), keys - {k}, val, k);
      GatherShift(op, z, d, keys - {k}, val);
    }
  }

  lemma {:induction false} GatherOn<K, T(!new)>(op: (T, T) -> T, z: T, a: set<K>, b: set<K>, val: K -> T)
    requires a !! b && Swaps(op)
    ensures Gather(op, z, a + b, val) == Gather(op, Gather(op, z, a, val), b, val)
    decreases |b|
  {
    if b == {} {
      assert a + b == a;
    } else {
      var k :| k in b;
      var rest := b - {k};
      assert a + b == (a + rest) + {k} && b == rest + {k};
      GatherAdd(op, z, a + rest, val, k);
      GatherAdd(op, Gather(op, z, a, val), rest, val, k);
      GatherOn(op, z, a, rest, val);
    }
  }

  /** Two sets whose elements correspond, with the same values. */
  lemma {:induction false} GatherSame<K, L, T(!new)>(op: (T, T) -> T, z: T, a: set<K>, b: set<L>, v: K -> T, w: L -> T,
                                                    f: K -> L)
    requires b == (set k | k in a :: f(k)) && Swaps(op)
    requires forall k, l :: k in a && l in a && f(k) == f(l) ==> k == l
    requires forall k :: k in a ==> v(k) == w(f(k))
    ensures Gather(op, z, a, v) == Gather(op, z, b, w)
    decreases |a|
  {
    if a == {} {
      assert b == {};
    } else {
      var k :| k in a;
      var rest := a - {k};
      var image := set l | l in rest :: f(l);
      assert f(k) in b;
      assert b == image + {f(k)} && a == rest + {k};
      GatherSame(op, z, rest, image, v, w, f);
      GatherAdd(op, z, rest, v, k);
      GatherAdd(op, z, image, w, f(k));
    }
  }

  /** The exclusive or of all values of a set. */
  ghost function XorAll<K>(keys: set<K>, val: K -> Byte): Byte {
    Gather(XOR, 0, keys, val)
  }

  lemma XorAllAdd<K>(keys: set<K>, val: K -> Byte, k: K)
    requires k !in keys
    ensures XorAll(keys + {k}, val) == XOR(XorAll(keys, val), val(k))
  {
    XorSwaps();
    GatherAdd(XOR, 0, keys, val, k);
  }

  lemma XorAllUnion<K>(a: set<K>, b: set<K>, val: K -> Byte)
    requires a !! b
    ensures XorAll(a + b, val) == XOR(XorAll(b, val), XorAll(a, val))
  {
    XorSwaps();
    GatherOn(XOR, 0, a, b, val);
    ZeroXor(XorAll(a, val));
    GatherShift(XOR, 0, XorAll(a, val), b, val);
  }

  lemma XorAllSame<K, L>(a: set<K>, b: set<L>, v: K -> Byte, w: L -> Byte, f: K -> L)
    requires b == set k | k in a :: f(k)
    requires forall k, l :: k in a && l in a && f(k) == f(l) ==> k == l
    requires forall k :: k in a ==> v(k) == w(f(k))
    ensures XorAll(a, v) == XorAll(b, w)
  {
    XorSwaps();
    GatherSame(XOR, 0, a, b, v, w, f);
  }
}
