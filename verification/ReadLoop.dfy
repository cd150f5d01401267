/**
 * Reading a file and handing it to the hashing thread (lib/hasher.c:97-125, 237-344, 512-529).
 *
 * The file is its bytes; how much each preadv call delivers is decided by a script
 * that is any function of the call's number, and how far the hashing thread gets
 * meanwhile by a pace that is any function of the length of its queue.
 */
module ReadLoop {
  import opened Common

  const N_PREADV_BUFFERS: nat := 4
  const INT32_MAX: nat := 0x7fff_ffff

  /** A buffer in a hashing thread's queue: data, or the mark that an increment is complete. */
  datatype Buffer = Data(bytes: seq<Byte>) | Finisher

  /** A negative entry makes that preadv call fail; the other ones ask for that many bytes. */
  type Script = nat -> int

  /** How many buffers the hashing thread handles when its queue has so many. */
  type Pace = nat -> nat

  /** A digest: the bytes it was fed, and the lengths of the buffers they came in. */
  datatype Digest = Digest(bytes: seq<Byte>, cuts: seq<nat>)

  function Clamp(x: int, lo: int, hi: int): int
    requires lo <= hi
  {
    if x > hi then hi else if x < lo then lo else x
  }

  function DivideCeil(n: nat, m: nat): nat
    requires m > 0
  {
    n / m + if n % m != 0 then 1 else 0
  }

  lemma CeilBounds(n: nat, m: nat)
    requires n > 0 && m > 0
    ensures DivideCeil(n, m) >= 1 && (DivideCeil(n, m) - 1) * m < n <= DivideCeil(n, m) * m
  {
    var q, r := n / m, n % m;
    assert n == q * m + r;
    if r != 0 {
      assert (q + 1) * m == q * m + m;
    } else {
      assert (q - 1) * m == q * m - m;
    }
  }

  /** How many of `k` bytes are in buffer `i`. */
  function Filled(k: nat, i: nat, size: nat): nat {
    Clamp(k - i * size, 0, size)
  }

  function DataOf(pipe: seq<Buffer>): seq<Byte> {
    if pipe == [] then [] else (if pipe[0].Data? then pipe[0].bytes else []) + DataOf(pipe[1..])
  }

  lemma {:induction false} DataOfConcat(a: seq<Buffer>, b: seq<Buffer>)
    ensures DataOf(a + b) == DataOf(a) + DataOf(b)
  {
    if a == [] {
      assert a + b == b;
    } else {
      DataOfConcat(a[1..], b);
      assert (a + b)[1..] == a[1..] + b;
    }
  }

  /** The head of the queue can move behind what was hashed. */
  lemma HeadData(hashed: seq<Byte>, pipe: seq<Buffer>)
    requires pipe != []
    ensures hashed + DataOf(pipe)
         == (if pipe[0].Data? then hashed + pipe[0].bytes else hashed) + DataOf(pipe[1..])
  {
    var first := if pipe[0].Data? then pipe[0].bytes else [];
    assert hashed + (first + DataOf(pipe[1..])) == hashed + first + DataOf(pipe[1..]);
    assert hashed + [] == hashed;
  }

  // ----- cuts -----

  /** The lengths of buffers of `size` bytes for `k` bytes: all full but the last one. */
  function Chop(k: nat, size: nat): seq<nat>
    requires size > 0
    decreases k
  {
    if k == 0 then [] else if k <= size then [k] else [size] + Chop(k - size, size)
  }

  /** One more full buffer. */
  lemma ChopFull(k: nat, size: nat)
    requires size > 0
    ensures Chop(k + size, size) == [size] + Chop(k, size)
  {
    if k == 0 { ConcatEmpty([size]); }
  }

  /** After full buffers the next ones are cut as if they were the first. */
  lemma {:induction false} ChopSplit(n: nat, b: nat, size: nat)
    requires size > 0
    ensures Chop(n * size + b, size) == Chop(n * size, size) + Chop(b, size)
    decreases n
  {
    if n == 0 {
      assert 0 * size == 0 && [] + Chop(b, size) == Chop(b, size);
    } else {
      var a := (n - 1) * size;
      assert n * size == a + size;
      MulLe(0, n - 1, size);
      ChopSplit(n - 1, b, size);
      ChopFull(a, size);
      ChopFull(a + b, size);
      ConcatAssociative([size], Chop(a, size), Chop(b, size));
    }
  }

  lemma ChopNext(i: nat, size: nat, at: nat, len: nat)
    requires size > 0 && at == i * size && 0 < len <= size
    ensures Chop(at + len, size) == Chop(at, size) + [len]
  {
    ChopSplit(i, len, size);
  }

  /** What a preadv call brings of a file. */
  function Brought(content: seq<Byte>, start: nat, remaining: nat, perCall: nat, want: nat): (k: nat)
    ensures k <= remaining && (k > 0 ==> start + k <= |content|)
  {
    Min(Min(want, Min(perCall, Max(0, |content| - start))), remaining)
  }

  /** The lengths of the buffers that the read loop sends, from a given call on. */
  function Cuts(content: seq<Byte>, start: nat, remaining: nat, perCall: nat, size: nat, script: Script,
                call: nat): seq<nat>
    requires size > 0
    decreases remaining
  {
    if script(call) < 0 then []
    else
      var k := Brought(content, start, remaining, perCall, script(call));
      Chop(k, size)
      + if k == remaining || k == 0 then []
        else Cuts(content, start + k, remaining - k, perCall, size, script, call + 1)
  }

  /** No call brings less than it has room for, or than there is. */
  ghost predicate NeverShort(script: Script, perCall: nat) {
    forall i: nat :: script(i) >= perCall
  }

  /**
   * Without short counts the cuts depend on the request and the buffer size alone:
   * all buffers are full but the last one.
   */
  lemma {:induction false} FullReads(content: seq<Byte>, start: nat, remaining: nat, n: nat, size: nat, script: Script,
                                     call: nat)
    requires size > 0 && n > 0 && NeverShort(script, n * size) && start + remaining <= |content|
    ensures Cuts(content, start, remaining, n * size, size, script, call) == Chop(remaining, size)
    decreases remaining
  {
    MulLe(1, n, size);
    assert script(call) >= n * size;
    var k := Brought(content, start, remaining, n * size, script(call));
    if k < remaining {
      FullReads(content, start + k, remaining - k, n, size, script, call + 1);
      ChopSplit(n, remaining - k, size);
    } else {
      assert Chop(k, size) + [] == Chop(k, size);
    }
  }

  /** A short count cuts the same data differently; the read succeeds all the same. */
  lemma ShortReadCuts(x: Byte, y: Byte)
    ensures var full, short := (i: nat) => 8, (i: nat) => 1;
      Cuts([x, y], 0, 2, 8, 8, full, 0) == [2] && Cuts([x, y], 0, 2, 8, 8, short, 0) == [1, 1]
  {
    var short := (i: nat) => 1;
    assert Cuts([x, y], 1, 1, 8, 8, short, 1) == [1];
  }

  /** Data of 1 to `size` bytes. */
  predicate Loaded(buffer: Buffer, size: nat) {
    buffer.Data? && 0 < |buffer.bytes| <= size
  }

  lemma DataOfPush(hashed: seq<Byte>, pipe: seq<Buffer>, last: Buffer)
    ensures hashed + DataOf(pipe + [last]) == hashed + DataOf(pipe) + if last.Data? then last.bytes else []
  {
    DataOfConcat(pipe, [last]);
    assert [last][1..] == [];
    assert DataOf([last]) == (if last.Data? then last.bytes else []) + DataOf([]);
  }

  /** The bytes of buffer `i` follow those of the buffers before it. */
  lemma FilledNext(k: nat, i: nat, size: nat)
    ensures Min(k, i * size) + Filled(k, i, size) == Min(k, (i + 1) * size)
    ensures Filled(k, i, size) > 0 ==> i * size < k
  {
    assert (i + 1) * size == i * size + size;
  }

  /** What all hashing threads report to. */
  class RmHasher {
    var reported: seq<Digest>
    var activeTasks: nat

    constructor ()
      ensures reported == [] && activeTasks == 0
    {
      reported, activeTasks := [], 0;
    }
  }

  /** A hashing thread, its queue, and the digest of the task it is working on. */
  class HashPipe {
    const hasher: RmHasher
    const bufSize: nat
    /** Whether the digest keeps its buffers, like the paranoid one, or gives them back. */
    const keeps: bool
    /** Buffers taken from the semaphore and given back to it. */
    var acquired: nat
    var freed: nat
    /** The queue of the hashing thread. */
    var pipe: seq<Buffer>
    /** What the hashing thread has put into the digest of the task, and how it was cut. */
    var hashed: seq<Byte>
    var done: seq<nat>
    /** All bytes ever put into the queue, the lengths of their buffers, and those still in the queue. */
    ghost var sent: seq<Byte>
    ghost var cuts: seq<nat>
    ghost var waiting: seq<nat>

    /** Buffers that have been acquired and are not freed are in the queue, or kept by the digest. */
    predicate Accounted()
      reads this
    {
      acquired == freed + |pipe| + Kept()
    }

    function Kept(): nat
      reads this`done
    {
      if keeps then |done| else 0
    }

    /** The cuts, too: every buffer in the queue has its length on record. */
    ghost predicate CutsInOrder()
      reads this`cuts, this`done, this`waiting, this`pipe
    {
      && cuts == done + waiting && |waiting| <= |pipe|
      && (forall i :: 0 <= i < |waiting| ==> pipe[i].Data? && |pipe[i].bytes| == waiting[i])
      && (forall i :: |waiting| <= i < |pipe| ==> pipe[i].Finisher?)
    }

    /** Nothing is lost or reordered: the bytes sent are those hashed and those in the queue. */
    ghost predicate InOrder()
      reads this`sent, this`hashed, this`pipe
    {
      sent == hashed + DataOf(pipe)
    }

    /** All of it, while an increment is being read. */
    ghost predicate Sound()
      reads this
    {
      Accounted() && InOrder() && CutsInOrder() && DataOnly()
    }

    /** Everything in the queue is data, and no buffer is empty. */
    ghost predicate DataOnly()
      reads this`pipe, this`waiting
    {
      |waiting| == |pipe| && forall i {:trigger Loaded(pipe[i], bufSize)} :: 0 <= i < |pipe| ==>
        Loaded(pipe[i], bufSize)
    }

    constructor (hasher: RmHasher, bufSize: nat, keeps: bool)
      ensures this.hasher == hasher && this.bufSize == bufSize && this.keeps == keeps
      ensures Accounted() && InOrder() && CutsInOrder() && pipe == [] && hashed == [] && done == []
    {
      this.hasher, this.bufSize, this.keeps := hasher, bufSize, keeps;
      acquired, freed, pipe, hashed, sent := 0, 0, [], [], [];
      done, cuts, waiting := [], [], [];
    }

    /** `rm_sys_preadv`: fills the buffers in order, as far as the script and the file allow. */
    method Preadv(content: seq<Byte>, offset: nat, buffers: array<seq<Byte>>, n: nat, want: int)
      returns (k: int)
      requires n <= buffers.Length
      requires forall i :: 0 <= i < n ==> |buffers[i]| == bufSize
      modifies buffers
      ensures k >= -1 && (k == -1 <==> want < 0)
      ensures want >= 0 ==> k == Min(want, Min(n * bufSize, Max(0, |content| - offset)))
      ensures forall i :: 0 <= i < n ==> |buffers[i]| == bufSize
      ensures k >= 0 ==> forall i {:trigger Holds(content, offset, k, i, buffers[i])} ::
        0 <= i < n ==> Holds(content, offset, k, i, buffers[i])
    {
      if want < 0 {
        return -1;
      }
      k := Min(want, Min(n * bufSize, Max(0, |content| - offset)));
      for i := 0 to n
        invariant forall j :: 0 <= j < n ==> |buffers[j]| == bufSize
        invariant forall j :: 0 <= j < i ==> Holds(content, offset, k, j, buffers[j])
      {
        FilledNext(k, i, bufSize);
        var from, count := offset + Min(k, i * bufSize), Filled(k, i, bufSize);
        if count > 0 {
          buffers[i] := content[from..from + count] + buffers[i][count..];
        }
      }
    }

    /** Buffer `i` starts with its share of the `k` bytes read at `offset`. */
    ghost predicate Holds(content: seq<Byte>, offset: nat, k: nat, i: nat, buffer: seq<Byte>) {
      var count := Filled(k, i, bufSize);
      count > 0 ==>
        && count <= |buffer| && offset + i * bufSize + count <= |content|
        && buffer[..count] == content[offset + i * bufSize..offset + i * bufSize + count]
    }

    /**
     * The loop that sends the first `k` bytes on and releases the buffers without any,
     * while the hashing thread is at work.
     */
    method SendBuffers(buffers: array<seq<Byte>>, n: nat, k: nat, pace: Pace, ghost content: seq<Byte>,
                       ghost offset: nat)
      requires bufSize > 0 && n <= buffers.Length && acquired == freed + |pipe| + Kept() + n && k <= n * bufSize
      requires InOrder() && CutsInOrder() && DataOnly() && (k > 0 ==> offset + k <= |content|)
      requires forall i {:trigger Holds(content, offset, k, i, buffers[i])} ::
        0 <= i < n ==> Holds(content, offset, k, i, buffers[i])
      modifies this
      ensures acquired == old(acquired)
      ensures Sound()
      ensures sent == old(sent) + Window(content, offset, k)
      ensures cuts == old(cuts) + Chop(k, bufSize)
    {
      ghost var at := 0;
      for i := 0 to n
        invariant acquired == old(acquired)
        invariant acquired == freed + |pipe| + Kept() + (n - i) && at == Min(k, i * bufSize)
        invariant InOrder() && CutsInOrder() && DataOnly()
        invariant Sent(old(sent), content, offset, at)
        invariant cuts == old(cuts) + Chop(at, bufSize)
      {
        at := SendBuffer(buffers, n, k, pace, content, offset, i, at, old(sent), old(cuts));
      }
    }

    /** One turn of that loop. */
    method SendBuffer(buffers: array<seq<Byte>>, n: nat, k: nat, pace: Pace, ghost content: seq<Byte>,
                      ghost offset: nat,
                      i: nat, ghost at: nat, ghost before: seq<Byte>, ghost beforeCuts: seq<nat>)
                        returns (ghost next: nat)
      requires bufSize > 0 && i < n <= buffers.Length && acquired == freed + |pipe| + Kept() + (n - i)
      requires at == Min(k, i * bufSize)
      requires InOrder() && CutsInOrder() && DataOnly() && (k > 0 ==> offset + k <= |content|)
      requires Holds(content, offset, k, i, buffers[i])
      requires Sent(before, content, offset, at) && cuts == beforeCuts + Chop(at, bufSize)
      modifies this
      ensures acquired == old(acquired)
      ensures acquired == freed + |pipe| + Kept() + (n - i - 1) && next == Min(k, (i + 1) * bufSize)
      ensures InOrder() && CutsInOrder() && DataOnly()
      ensures Sent(before, content, offset, next) && cuts == beforeCuts + Chop(next, bufSize)
    {
      var len := Clamp(k - i * bufSize, 0, bufSize);
      Share(content, offset, k, i, buffers[i], at, len);
      next := at + len;
      if len > 0 {
        SendNext(content, offset, i, at, len, before, beforeCuts, buffers[i]);
        HashSome(pace(|pipe|), n - i - 1);
      } else {
        freed := freed + 1;
      }
    }

    /** The share of buffer `i`, in terms of the bytes before it. */
    lemma Share(content: seq<Byte>, offset: nat, k: nat, i: nat, buffer: seq<Byte>, at: nat, len: nat)
      requires bufSize > 0 && Holds(content, offset, k, i, buffer) && at == Min(k, i * bufSize)
        && len == Filled(k, i, bufSize)
      ensures at + len == Min(k, (i + 1) * bufSize)
      ensures len > 0 ==>
        && at == i * bufSize && len <= bufSize && len <= |buffer| && offset + at + len <= |content|
        && buffer[..len] == content[offset + at..offset + at + len]
    {
      FilledNext(k, i, bufSize);
    }

    /** The next buffer follows those sent before. */
    method SendNext(ghost content: seq<Byte>, ghost offset: nat, ghost i: nat, ghost at: nat, len: nat,
                    ghost before: seq<Byte>, ghost beforeCuts: seq<nat>, buffer: seq<Byte>)
      requires 0 < len <= bufSize && len <= |buffer| && at == i * bufSize && offset + at + len <= |content|
      requires buffer[..len] == content[offset + at..offset + at + len]
      requires InOrder() && CutsInOrder() && DataOnly()
      requires Sent(before, content, offset, at) && cuts == beforeCuts + Chop(at, bufSize)
      modifies this`pipe, this`sent, this`cuts, this`waiting
      ensures InOrder() && CutsInOrder() && DataOnly() && |pipe| == |old(pipe)| + 1
      ensures Sent(before, content, offset, at + len) && cuts == beforeCuts + Chop(at + len, bufSize)
    {
      WindowNext(content, offset, at, len, before);
      ChopNext(i, bufSize, at, len);
      assert (beforeCuts + Chop(at, bufSize)) + [len] == beforeCuts + (Chop(at, bufSize) + [len]);
      Send(buffer, len);
    }

    /** Puts the first `len` bytes of a buffer into the queue. */
    method Send(buffer: seq<Byte>, len: nat)
      requires 0 < len <= bufSize && len <= |buffer| && InOrder() && CutsInOrder() && DataOnly()
      modifies this`pipe, this`sent, this`cuts, this`waiting
      ensures InOrder() && CutsInOrder() && DataOnly()
      ensures pipe == old(pipe) + [Data(buffer[..len])] && sent == old(sent) + buffer[..len]
        && cuts == old(cuts) + [len]
    {
      var data := Data(buffer[..len]);
      DataOfPush(hashed, pipe, data);
      pipe := pipe + [data];
      sent := sent + buffer[..len];
      cuts, waiting := cuts + [len], waiting + [len];
      forall i | 0 <= i < |pipe| ensures Loaded(pipe[i], bufSize) {
        if i < |pipe| - 1 { assert Loaded(old(pipe)[i], bufSize); }
      }
    }

    /** The hashing thread handles up to `count` buffers; `inHand` are with the reading thread. */
    method HashSome(count: nat, ghost inHand: nat)
      requires InOrder() && CutsInOrder() && DataOnly() && acquired == freed + |pipe| + Kept() + inHand
      modifies this`pipe, this`freed, this`hashed, this`done, this`waiting
      ensures InOrder() && CutsInOrder() && DataOnly() && acquired == freed + |pipe| + Kept() + inHand
    {
      var i := 0;
      while i < count && pipe != []
        invariant InOrder() && CutsInOrder() && DataOnly() && acquired == freed + |pipe| + Kept() + inHand
        decreases count - i
      {
        assert Loaded(pipe[0], bufSize);
        ghost var before := pipe;
        HashBuffer();
        forall j | 0 <= j < |pipe| ensures Loaded(pipe[j], bufSize) { assert Loaded(before[j + 1], bufSize); }
        i := i + 1;
      }
    }

    /** `rm_digest_buffered_update` of the buffer at the head of the queue. */
    method HashBuffer()
      requires InOrder() && CutsInOrder() && pipe != [] && pipe[0].Data?
      modifies this`pipe, this`freed, this`hashed, this`done, this`waiting
      ensures InOrder() && CutsInOrder() && pipe == old(pipe)[1..]
      ensures hashed == old(hashed) + old(pipe)[0].bytes && done == old(done) + [|old(pipe)[0].bytes|]
      ensures freed + Kept() == old(freed) + old(Kept()) + 1 && (keeps ==> freed == old(freed))
      ensures |waiting| == |old(waiting)| - 1
    {
      var bytes := pipe[0].bytes;
      HeadData(hashed, pipe);
      assert waiting != [] && waiting == [|bytes|] + waiting[1..];
      pipe := pipe[1..];
      hashed := hashed + bytes;
      done := done + [|bytes|];
      waiting := waiting[1..];
      if !keeps {
        freed := freed + 1;
      }
    }

    /** `rm_hasher_unbuffered_read`; `canOpen` says whether the file could be opened. */
    method UnbufferedRead(content: seq<Byte>, canOpen: bool, start: nat, bytesToRead: nat, script: Script, pace: Pace)
      returns (success: bool, bytesActuallyRead: nat)
      requires bufSize > 0 && N_PREADV_BUFFERS * bufSize <= INT32_MAX
      requires Sound()
      modifies this
      ensures Sound() && bytesActuallyRead <= bytesToRead
      ensures bytesActuallyRead > 0 ==> start + bytesActuallyRead <= |content|
      ensures sent == old(sent) + Window(content, start, bytesActuallyRead)
      ensures cuts == old(cuts) + if canOpen then ReadCuts(content, start, bytesToRead, bufSize, script) else []
      ensures success <==> canOpen && bytesActuallyRead == bytesToRead && (bytesToRead > 0 || script(0) >= 0)
      ensures canOpen && (forall i: nat :: script(i) > 0)
              ==> bytesActuallyRead == Min(bytesToRead, Max(0, |content| - start))
    {
      success, bytesActuallyRead := false, 0;
      if !canOpen {
        return;
      }
      var n := BufferCount(bytesToRead);
      var buffers := new seq<Byte>[n];
      success, bytesActuallyRead := ReadAll(content, start, bytesToRead, buffers, script, pace);
    }

    /** The first `k` bytes from an offset of the file are what was sent after `before`. */
    ghost predicate Sent(before: seq<Byte>, content: seq<Byte>, offset: nat, k: nat)
      reads this`sent
    {
      (k > 0 ==> offset + k <= |content|) && sent == before + Window(content, offset, k)
    }

    /** The cuts that a read still makes from some round on. */
    ghost predicate ToCome(rest: seq<nat>, content: seq<Byte>, offset: nat, remaining: nat, perCall: nat,
                           script: Script, call: nat)
      requires bufSize > 0
    {
      rest == Cuts(content, offset, remaining, perCall, bufSize, script, call)
    }

    /** The loop of the read. */
    method ReadAll(content: seq<Byte>, start: nat, bytesToRead: nat, buffers: array<seq<Byte>>, script: Script,
                   pace: Pace)
      returns (success: bool, bytesActuallyRead: nat)
      requires bufSize > 0 && buffers.Length > 0
      requires Sound()
      modifies this, buffers
      ensures Sound() && bytesActuallyRead <= bytesToRead
      ensures bytesActuallyRead > 0 ==> start + bytesActuallyRead <= |content|
      ensures sent == old(sent) + Window(content, start, bytesActuallyRead)
      ensures cuts == old(cuts) + Cuts(content, start, bytesToRead, buffers.Length * bufSize, bufSize, script, 0)
      ensures success <==> bytesActuallyRead == bytesToRead && (bytesToRead > 0 || script(0) >= 0)
      ensures (forall i: nat :: script(i) > 0) ==> bytesActuallyRead == Min(bytesToRead, Max(0, |content| - start))
    {
      success, bytesActuallyRead := false, 0;
      var fileOffset: nat, bytesRemaining: nat, calls: nat := start, bytesToRead, 0;
      ghost var before, perCall := sent, buffers.Length * bufSize;
      ghost var rest := Cuts(content, start, bytesToRead, perCall, bufSize, script, 0);
      ghost var allCuts := cuts + rest;
      while true
        invariant bytesActuallyRead + bytesRemaining == bytesToRead && fileOffset == start + bytesActuallyRead
        invariant Sound() && (bytesActuallyRead > 0 ==> fileOffset <= |content|)
        invariant Sent(before, content, start, bytesActuallyRead)
        invariant ToCome(rest, content, fileOffset, bytesRemaining, perCall, script, calls)
        invariant cuts + rest == allCuts
        invariant !success && (bytesRemaining == 0 ==> bytesToRead == 0 && calls == 0)
        decreases bytesRemaining
      {
        var bytesRead;
        bytesRead, fileOffset, bytesRemaining, rest :=
          Round(content, start, bytesActuallyRead, fileOffset, buffers, perCall, bytesRemaining, script, calls, pace,
                before, rest, allCuts);
        if bytesRead == -1 {
          break;
        }
        bytesActuallyRead := bytesActuallyRead + bytesRead;
        calls := calls + 1;
        success := bytesRemaining == 0;
        if success || bytesRead == 0 {
          break;
        }
      }
    }

    /** One round of the loop, and how far it brings the read; `rest` are the cuts that are still to come. */
    method Round(content: seq<Byte>, ghost start: nat, ghost n: nat, offset: nat, buffers: array<seq<Byte>>,
                 ghost perCall: nat, remaining: nat, script: Script, call: nat, pace: Pace,
                 ghost before: seq<Byte>, ghost rest: seq<nat>, ghost all: seq<nat>)
      returns (bytesRead: int, offset': nat, remaining': nat, ghost rest': seq<nat>)
      requires bufSize > 0 && buffers.Length > 0 && perCall == buffers.Length * bufSize && Sound()
      requires offset == start + n && Sent(before, content, start, n)
      requires ToCome(rest, content, offset, remaining, perCall, script, call) && cuts + rest == all
      modifies this, buffers
      ensures Sound() && -1 <= bytesRead <= remaining
      ensures offset' == offset + Max(bytesRead, 0) && remaining' == remaining - Max(bytesRead, 0)
      ensures bytesRead == -1 <==> script(call) < 0
      ensures bytesRead > 0 ==> offset + bytesRead <= |content|
      ensures Sent(before, content, start, n + Max(bytesRead, 0))
      ensures if 0 < bytesRead < remaining
              then cuts + rest' == all && ToCome(rest', content, offset', remaining', perCall, script, call + 1)
              else cuts == all
      ensures script(call) > 0 && offset < |content| && remaining > 0 ==> bytesRead > 0
    {
      ghost var mid, midCuts := sent, cuts;
      offset', remaining' := offset, remaining;
      bytesRead := ReadOnce(content, offset, buffers, remaining, script(call), pace, perCall);
      if bytesRead == -1 {
        rest' := [];
        ConcatEmpty(cuts);
      } else {
        offset', remaining' := offset + bytesRead, remaining - bytesRead;
        BytesJoin(content, start, n, offset, bytesRead, before, mid, sent);
        rest' := CutsGoOn(content, offset, remaining, perCall, script, call, bytesRead, midCuts, cuts, rest, all);
      }
    }

    lemma CutsGoOn(content: seq<Byte>, offset: nat, remaining: nat, perCall: nat, script: Script, call: nat, k: nat,
                   before: seq<nat>, after: seq<nat>, rest: seq<nat>, all: seq<nat>)
      returns (rest': seq<nat>)
      requires bufSize > 0 && script(call) >= 0 && k == Brought(content, offset, remaining, perCall, script(call))
      requires ToCome(rest, content, offset, remaining, perCall, script, call) && before + rest == all
      requires after == before + Chop(k, bufSize)
      ensures if 0 < k < remaining
              then after + rest' == all && ToCome(rest', content, offset + k, remaining - k, perCall, script, call + 1)
              else after == all
    {
      rest' := CutsJoin(content, offset, remaining, perCall, bufSize, script, call, k, before);
    }

    /** How many buffers a preadv call gets: no more than the request can fill. */
    method BufferCount(bytesToRead: nat) returns (n: nat)
      requires bufSize > 0
      ensures n == Slots(bytesToRead, bufSize) && 1 <= n <= N_PREADV_BUFFERS
    {
      n := N_PREADV_BUFFERS;
      if bytesToRead > 0 {
        n := Min(n, DivideCeil(bytesToRead, bufSize));
        CeilBounds(bytesToRead, bufSize);
      }
    }

    /** One round of the loop: fresh buffers, a preadv call, and the buffers sent or released. */
    method ReadOnce(content: seq<Byte>, offset: nat, buffers: array<seq<Byte>>, remaining: nat, want: int, pace: Pace,
                    ghost perCall: nat)
      returns (bytesRead: int)
      requires bufSize > 0 && buffers.Length > 0 && perCall == buffers.Length * bufSize
      requires Sound()
      modifies this, buffers
      ensures Sound()
      ensures want < 0 ==> bytesRead == -1 && sent == old(sent) && cuts == old(cuts)
      ensures want >= 0 ==> bytesRead == Brought(content, offset, remaining, perCall, want)
      ensures want >= 0 ==>
        sent == old(sent) + Window(content, offset, bytesRead) && cuts == old(cuts) + Chop(bytesRead, bufSize)
      ensures want > 0 && offset < |content| && remaining > 0 ==> bytesRead > 0
    {
      bytesRead := Fetch(content, offset, buffers, remaining, want);
      if bytesRead != -1 {
        SendBuffers(buffers, buffers.Length, bytesRead, pace, content, offset);
      }
    }

    /** The first half of a round: fresh buffers and a preadv call, whose over-read is ignored. */
    method Fetch(content: seq<Byte>, offset: nat, buffers: array<seq<Byte>>, remaining: nat, want: int)
      returns (bytesRead: int)
      requires bufSize > 0 && buffers.Length > 0
      modifies this`acquired, this`freed, buffers
      ensures want < 0 ==> bytesRead == -1
      ensures want >= 0 ==> bytesRead == Brought(content, offset, remaining, buffers.Length * bufSize, want)
      ensures acquired == old(acquired) + buffers.Length
      ensures freed == old(freed) + if bytesRead == -1 then buffers.Length else 0
      ensures bytesRead >= 0 ==> bytesRead <= buffers.Length * bufSize
      ensures bytesRead >= 0 ==>
        forall i {:trigger Holds(content, offset, bytesRead, i, buffers[i])} ::
          0 <= i < buffers.Length ==> Holds(content, offset, bytesRead, i, buffers[i])
      ensures want > 0 && offset < |content| && remaining > 0 ==> bytesRead > 0
    {
      var n := buffers.Length;
      AllocateBuffers(buffers);
      var got := Preadv(content, offset, buffers, n, want);
      if got == -1 {
        freed := freed + n;
        return -1;
      }
      bytesRead := Min(got, remaining);
      forall i | 0 <= i < n ensures Holds(content, offset, bytesRead, i, buffers[i]) {
        HoldsLess(content, offset, got, bytesRead, i, buffers[i]);
      }
      MulLe(1, n, bufSize);
    }

    /** `rm_hasher_task_finish`, without the wait for the result. */
    method TaskFinish()
      requires Accounted() && InOrder() && CutsInOrder()
      modifies this`acquired, this`pipe
      ensures Accounted() && InOrder() && CutsInOrder() && pipe == old(pipe) + [Finisher]
    {
      DataOfPush(hashed, pipe, Finisher);
      acquired := acquired + 1;
      pipe := pipe + [Finisher];
    }

    /** `rm_hasher_hashpipe_worker` on the buffer at the head of the queue. */
    method Work()
      requires Accounted() && InOrder() && CutsInOrder() && pipe != [] && (pipe[0].Finisher? ==> hasher.activeTasks > 0)
      modifies this`pipe, this`hashed, this`done, this`waiting, this`freed, hasher
      ensures Accounted() && InOrder() && CutsInOrder() && pipe == old(pipe)[1..]
      ensures if old(pipe)[0].Finisher?
              then && hasher.reported == old(hasher.reported) + [Digest(hashed, done)] && hashed == old(hashed)
                   && done == old(done)
                   && hasher.activeTasks == old(hasher.activeTasks) - 1 && freed == old(freed) + 1
              else && hasher.reported == old(hasher.reported) && hashed == old(hashed) + old(pipe)[0].bytes
                   && done == old(done) + [|old(pipe)[0].bytes|] && hasher.activeTasks == old(hasher.activeTasks)
                   && (keeps ==> freed == old(freed))
    {
      if pipe[0].Data? {
        HashBuffer();
      } else {
        HeadData(hashed, pipe);
        assert waiting == [];
        pipe := pipe[1..];
        hasher.reported := hasher.reported + [Digest(hashed, done)];
        hasher.activeTasks := hasher.activeTasks - 1;
        freed := freed + 1;
      }
    }

    /**
     * One increment of a file, from task creation until the queue is empty: the digest is
     * reported once, after exactly the bytes that were read, cut as they were read, and
     * every buffer is given back or kept by the digest.
     */
    method HashIncrement(content: seq<Byte>, canOpen: bool, start: nat, bytesToRead: nat, script: Script, pace: Pace)
      returns (success: bool, bytesActuallyRead: nat)
      requires bufSize > 0 && N_PREADV_BUFFERS * bufSize <= INT32_MAX
      requires Accounted() && InOrder() && CutsInOrder() && pipe == []
      modifies this, hasher
      ensures Accounted() && InOrder() && pipe == [] && hasher.activeTasks == old(hasher.activeTasks)
      ensures bytesActuallyRead <= bytesToRead
      ensures success <==> canOpen && bytesActuallyRead == bytesToRead && (bytesToRead > 0 || script(0) >= 0)
      ensures canOpen && (forall i: nat :: script(i) > 0)
              ==> bytesActuallyRead == Min(bytesToRead, Max(0, |content| - start))
      ensures bytesActuallyRead > 0 ==> start + bytesActuallyRead <= |content|
      ensures hashed == old(hashed) + Window(content, start, bytesActuallyRead)
      ensures canOpen ==> done == old(done) + ReadCuts(content, start, bytesToRead, bufSize, script)
      ensures hasher.reported == old(hasher.reported) + [Digest(hashed, done)]
    {
      assert hashed + DataOf([]) == hashed && waiting == [] && done + [] == done;
      hasher.activeTasks := hasher.activeTasks + 1;
      success, bytesActuallyRead := UnbufferedRead(content, canOpen, start, bytesToRead, script, pace);
      forall i | 0 <= i < |pipe| ensures pipe[i].Data? { assert Loaded(pipe[i], bufSize); }
      TaskFinish();
      ghost var all, allCuts := sent, cuts;
      while pipe != []
        invariant Accounted() && InOrder() && CutsInOrder() && sent == all && cuts == allCuts
        invariant pipe == [] ==>
          && hasher.reported == old(hasher.reported) + [Digest(hashed, done)]
          && hasher.activeTasks == old(hasher.activeTasks)
        invariant pipe != [] ==>
          && EndsWithMark(pipe) && hasher.reported == old(hasher.reported)
          && hasher.activeTasks == old(hasher.activeTasks) + 1
        decreases |pipe|
      {
        Work();
      }
      assert hashed + DataOf(pipe) == hashed && waiting == [] && done + [] == done;
    }

    /** Takes a buffer from the semaphore for each slot. */
    method AllocateBuffers(buffers: array<seq<Byte>>)
      modifies this`acquired, buffers
      ensures acquired == old(acquired) + buffers.Length
      ensures forall i :: 0 <= i < buffers.Length ==> |buffers[i]| == bufSize
    {
      for i := 0 to buffers.Length
        invariant acquired == old(acquired) + i
        invariant forall j :: 0 <= j < i ==> |buffers[j]| == bufSize
      {
        acquired := acquired + 1;
        buffers[i] := seq(bufSize, _ => 0);
      }
    }

    /** Ignoring an over-read leaves the shares of the first bytes in place. */
    lemma HoldsLess(content: seq<Byte>, offset: nat, more: nat, k: nat, i: nat, buffer: seq<Byte>)
      requires k <= more && Holds(content, offset, more, i, buffer)
      ensures Holds(content, offset, k, i, buffer)
    {
      var count, all := Filled(k, i, bufSize), Filled(more, i, bufSize);
      assert count <= all;
      if count > 0 {
        assert buffer[..count] == buffer[..all][..count];
        var at := offset + i * bufSize;
        assert content[at..at + count] == content[at..at + all][..count];
      }
    }
  }

  /** How many buffers a preadv call gets. */
  function Slots(bytesToRead: nat, size: nat): nat
    requires size > 0
  {
    if bytesToRead > 0 then Min(N_PREADV_BUFFERS, DivideCeil(bytesToRead, size)) else N_PREADV_BUFFERS
  }

  /** A call has room for all of a request that four buffers can take, and no buffer too many. */
  lemma SlotsFit(bytesToRead: nat, size: nat)
    requires size > 0 && bytesToRead > 0
    ensures var n := Slots(bytesToRead, size);
      && 1 <= n <= 4 && (bytesToRead <= 4 * size ==> bytesToRead <= n * size)
      && (n - 1) * size < bytesToRead && (bytesToRead > 4 * size ==> n == 4)
  {
    var n := DivideCeil(bytesToRead, size);
    CeilBounds(bytesToRead, size);
    if n > 4 { MulLe(4, n - 1, size); } else { MulLe(n, 4, size); }
    MulLe(Min(4, n) - 1, n - 1, size);
  }

  /** The lengths of all buffers that a read sends. */
  function ReadCuts(content: seq<Byte>, start: nat, bytesToRead: nat, size: nat, script: Script): seq<nat>
    requires size > 0
  {
    Cuts(content, start, bytesToRead, Slots(bytesToRead, size) * size, size, script, 0)
  }

  /** One call's cuts are on record, the others' are to come. */
  lemma CutsJoin(content: seq<Byte>, start: nat, remaining: nat, perCall: nat, size: nat, script: Script, call: nat,
                 k: nat, before: seq<nat>) returns (rest: seq<nat>)
    requires size > 0 && script(call) >= 0 && k == Brought(content, start, remaining, perCall, script(call))
    ensures before + Cuts(content, start, remaining, perCall, size, script, call) == (before + Chop(k, size)) + rest
    ensures if 0 < k < remaining
            then rest == Cuts(content, start + k, remaining - k, perCall, size, script, call + 1)
            else (before + Chop(k, size)) + rest == before + Chop(k, size)
  {
    rest := if k == remaining || k == 0 then []
      else Cuts(content, start + k, remaining - k, perCall, size, script, call + 1);
    ConcatAssociative(before, Chop(k, size), rest);
    ConcatEmpty(before + Chop(k, size));
  }

  /** Exactly one mark, at the end. */
  predicate EndsWithMark(pipe: seq<Buffer>) {
    pipe != [] && pipe[|pipe| - 1].Finisher? && forall i :: 0 <= i < |pipe| - 1 ==> pipe[i].Data?
  }

  /** `k` bytes of the file from `start` on. */
  function Window(content: seq<Byte>, start: nat, k: nat): seq<Byte>
    requires k > 0 ==> start + k <= |content|
  {
    if k == 0 then [] else content[start..start + k]
  }

  lemma WindowNext(content: seq<Byte>, offset: nat, at: nat, len: nat, before: seq<Byte>)
    requires len > 0 && offset + at + len <= |content|
    ensures before + Window(content, offset, at + len)
            == before + Window(content, offset, at) + content[offset + at..offset + at + len]
  {}

  /** Two consecutive reads. */
  lemma WindowJoin(content: seq<Byte>, start: nat, a: nat, b: nat)
    requires a + b > 0 ==> start + a + b <= |content|
    ensures Window(content, start, a + b) == Window(content, start, a) + Window(content, start + a, b)
  {}

  lemma BytesJoin(content: seq<Byte>, start: nat, n: nat, offset: nat, k: nat, before: seq<Byte>, mid: seq<Byte>,
                  after: seq<Byte>)
    requires offset == start + n && (n > 0 ==> offset <= |content|) && (k > 0 ==> offset + k <= |content|)
    requires mid == before + Window(content, start, n) && after == mid + Window(content, offset, k)
    ensures after == before + Window(content, start, n + k)
  {
    WindowJoin(content, start, n, k);
    ConcatAssociative(before, Window(content, start, n), Window(content, offset, k));
  }
}
