/**
 * The two interfaces of HighwayHash (lib/checksums/highwayhash.c): one call on all
 * data, and appending in any number of calls.
 */
module HighwayHash {
  import opened Common
  import opened BlockStream

  const PACKET: nat := 32

  /**
   * The arithmetic of the hash: the state for a key, mixing in a packet, stirring in
   * the number of remaining bytes, and one of the three finalisations.
   */
  datatype Rounds<!S, !H> = Rounds(reset: S, update: Mix<S>, stir: (S, nat) -> S, finalise: S -> H)

  /** The packet made of 1 to 31 remaining bytes. */
  function Padded(rest: seq<Byte>): (packet: seq<Byte>)
    requires 0 < |rest| < PACKET
    ensures |packet| == PACKET
  {
    var n := |rest|;
    var whole := n - n % 4;
    seq(PACKET, i requires 0 <= i < PACKET =>
      if i < whole then rest[i]
      else if n >= 16 then if i >= 28 then rest[n - 32 + i] else 0
      else if n % 4 == 0 then 0
      else if i == 16 then rest[whole]
      else if i == 17 then rest[whole + n % 4 / 2]
      else if i == 18 then rest[n - 1]
      else 0)
  }

  /** No remaining byte is lost in the packet. */
  lemma PaddedInjective(a: seq<Byte>, b: seq<Byte>)
    requires 0 < |a| == |b| < PACKET && Padded(a) == Padded(b)
    ensures a == b
  {
    var n, p, q := |a|, Padded(a), Padded(b);
    var whole := n - n % 4;
    forall i | 0 <= i < n ensures a[i] == b[i] {
      var at := if i < whole then i
                else if n >= 16 then i + 32 - n
                else if i == whole then 16
                else if i == n - 1 then 18
                else 17;
      assert p[at] == a[i] && q[at] == b[i];
    }
  }

  function Remainder<S, H>(r: Rounds<S, H>, s: S, rest: seq<Byte>): S
    requires |rest| < PACKET
  {
    if rest == [] then s else r.update(r.stir(s, |rest|), Padded(rest))
  }

  /** The hash of `data`. */
  function Hash<S, H>(r: Rounds<S, H>, data: seq<Byte>): H {
    r.finalise(Remainder(r, Absorb(r.update, PACKET, r.reset, data), Rest(PACKET, data)))
  }

  /** `HighwayHashUpdateRemainder`; bytes past the first `size` are never looked at. */
  method UpdateRemainder<S, H>(r: Rounds<S, H>, bytes: seq<Byte>, size: nat, s: S) returns (after: S)
    requires 0 < size < PACKET && size <= |bytes|
    ensures after == Remainder(r, s, bytes[..size])
  {
    var packet := LastPacket(bytes, size);
    after := r.update(r.stir(s, size), packet);
  }

  lemma LongPacket(p: seq<Byte>, rest: seq<Byte>, whole: nat)
    requires 16 <= |rest| < PACKET == |p| && whole == |rest| - |rest| % 4 <= 28
    requires forall j :: 0 <= j < 28 ==> p[j] == if j < whole then rest[j] else 0
    requires forall j :: 28 <= j < PACKET ==> p[j] == rest[|rest| - 32 + j]
    ensures p == Padded(rest)
  {
    forall j | 0 <= j < PACKET ensures p[j] == Padded(rest)[j] {}
  }

  lemma ShortPacket(p: seq<Byte>, rest: seq<Byte>, whole: nat, mod4: nat)
    requires 0 < |rest| < 16 && |p| == PACKET && mod4 == |rest| % 4 && whole == |rest| - mod4 <= 12
    requires forall j :: 0 <= j < PACKET && (j < 16 || 18 < j) ==> p[j] == if j < whole then rest[j] else 0
    requires mod4 == 0 ==> p[16] == p[17] == p[18] == 0
    requires mod4 != 0 ==> p[16] == rest[whole] && p[17] == rest[whole + mod4 / 2] && p[18] == rest[|rest| - 1]
    ensures p == Padded(rest)
  {
    forall j | 0 <= j < PACKET ensures p[j] == Padded(rest)[j] {}
  }

  method CopyLastFour(packet: array<Byte>, bytes: seq<Byte>, from: nat)
    requires packet.Length == PACKET && from + 4 <= |bytes|
    modifies packet
    ensures forall j :: 0 <= j < 28 ==> packet[j] == old(packet[j])
    ensures forall j :: 28 <= j < PACKET ==> packet[j] == bytes[from - 28 + j]
  {
    for i := 0 to 4
      invariant forall j :: 0 <= j < 28 ==> packet[j] == old(packet[j])
      invariant forall j :: 28 <= j < 28 + i ==> packet[j] == bytes[from - 28 + j]
    {
      packet[28 + i] := bytes[from + i];
    }
  }

  /** The packet that `HighwayHashUpdateRemainder` builds. */
  method LastPacket(bytes: seq<Byte>, size: nat) returns (filled: seq<Byte>)
    requires 0 < size < PACKET && size <= |bytes|
    ensures filled == Padded(bytes[..size])
  {
    var mod4 := size % 4;
    var remainder := size - mod4;
    assert remainder <= 28 && (size < 16 ==> remainder <= 12);
    var packet := new Byte[PACKET](_ => 0);
    var i := 0;
    while i < remainder
      invariant 0 <= i <= remainder
      invariant forall j :: 0 <= j < PACKET ==> packet[j] == if j < i then bytes[j] else 0
    {
      packet[i] := bytes[i];
      i := i + 1;
    }
    if size >= 16 {
      CopyLastFour(packet, bytes, remainder + mod4 - 4);
    } else if mod4 != 0 {
      packet[16] := bytes[remainder];
      packet[17] := bytes[remainder + mod4 / 2];
      packet[18] := bytes[remainder + mod4 - 1];
    }
    filled := packet[..];
    if size >= 16 {
      LongPacket(filled, bytes[..size], remainder);
    } else {
      ShortPacket(filled, bytes[..size], remainder, mod4);
    }
  }

  /** `HighwayHash64`, `HighwayHash128` and `HighwayHash256`, over `ProcessAll`. */
  method HashAll<S, H>(r: Rounds<S, H>, data: seq<Byte>) returns (hash: H)
    ensures hash == Hash(r, data)
  {
    var state := r.reset;
    var i := 0;
    ghost var k: nat := 0;
    while i + PACKET <= |data|
      invariant 0 <= i <= |data| && i == k * PACKET
      invariant Absorb(r.update, PACKET, r.reset, data) == Absorb(r.update, PACKET, state, data[i..])
      invariant Rest(PACKET, data) == Rest(PACKET, data[i..])
    {
      AbsorbAt(r.update, PACKET, state, data, i);
      state := r.update(state, data[i..i + PACKET]);
      i, k := i + PACKET, k + 1;
    }
    DivModUnique(|data|, PACKET, k, |data| - i);
    if |data| % PACKET != 0 {
      state := UpdateRemainder(r, data[i..], |data| % PACKET, state);
      assert data[i..][..|data[i..]|] == data[i..];
    }
    hash := r.finalise(state);
  }

  /** The appending interface; `packet` holds `num` bytes that wait for more. */
  class HighwayHashCat<S, H> {
    const rounds: Rounds<S, H>
    const packet: array<Byte>
    var state: S
    var num: nat
    /** Everything appended so far. */
    ghost var fed: seq<Byte>

    ghost predicate Valid()
      reads this, packet
    {
      && packet.Length == PACKET && num < PACKET
      && StandsFor(rounds.update, PACKET, rounds.reset, fed, state, packet[..num])
    }

    /** `HighwayHashCatStart` */
    constructor (rounds: Rounds<S, H>)
      ensures Valid() && fed == [] && this.rounds == rounds && fresh(packet)
    {
      this.rounds := rounds;
      packet := new Byte[PACKET];
      state, num, fed := rounds.reset, 0, [];
    }

    /** `HighwayHashCatAppend` */
    method Append(bytes: seq<Byte>)
      requires Valid()
      modifies this, packet
      ensures Valid() && fed == old(fed) + bytes
    {
      FeedMore(rounds.update, PACKET, rounds.reset, fed, state, packet[..num], bytes);
      fed := fed + bytes;
      var data := FillPacket(bytes);
      data := WholePackets(data);
      KeepRest(data);
    }

    /** The first part of `HighwayHashCatAppend`: tops the packet up. */
    method FillPacket(bytes: seq<Byte>) returns (data: seq<Byte>)
      requires packet.Length == PACKET && num < PACKET
      modifies this`state, this`num, packet
      ensures num < PACKET && (num == 0 || data == [])
      ensures Ahead(state, packet[..num] + data) == old(Ahead(state, packet[..num] + bytes))
    {
      data := bytes;
      if num != 0 {
        ghost var before := packet[..num];
        var add := if |bytes| > PACKET - num then PACKET - num else |bytes|;
        for i := 0 to add
          invariant num == |before| && state == old(state) && packet[..num + i] == before + bytes[..i]
        {
          packet[num + i] := bytes[i];
        }
        num := num + add;
        data := bytes[add..];
        assert before + bytes == packet[..num] + data;
        if num == PACKET {
          assert packet[..num] == packet[..];
          assert (packet[..] + data)[..PACKET] == packet[..] && (packet[..] + data)[PACKET..] == data;
          state := rounds.update(state, packet[..]);
          num := 0;
          assert packet[..0] + data == data;
        }
      }
    }

    /** What a state and the bytes still to come will amount to. */
    ghost function Ahead(s: S, data: seq<Byte>): (S, seq<Byte>) {
      (Absorb(rounds.update, PACKET, s, data), Rest(PACKET, data))
    }

    /** The second part: whole packets straight from the input. */
    method WholePackets(bytes: seq<Byte>) returns (data: seq<Byte>)
      requires packet.Length == PACKET && num < PACKET && (num == 0 || bytes == [])
      modifies this`state
      ensures |data| < PACKET && (num == 0 || data == [])
      ensures Ahead(state, packet[..num] + data) == old(Ahead(state, packet[..num] + bytes))
    {
      data := bytes;
      while |data| >= PACKET
        invariant num == 0 || data == bytes == []
        invariant Ahead(state, packet[..num] + data) == old(Ahead(state, packet[..num] + bytes))
      {
        assert packet[..num] + data == data && packet[..num] + data[PACKET..] == data[PACKET..];
        state := rounds.update(state, data[..PACKET]);
        data := data[PACKET..];
      }
    }

    /** The last part: what does not fill a packet is kept for later. */
    method KeepRest(data: seq<Byte>)
      requires packet.Length == PACKET && num < PACKET && |data| < PACKET && (num == 0 || data == [])
      modifies this`num, packet
      ensures num < PACKET && packet[..num] == old(packet[..num]) + data
    {
      ghost var before := packet[..num];
      for i := 0 to |data|
        invariant num == |before| + i && packet[..num] == before + data[..i]
      {
        packet[num] := data[i];
        num := num + 1;
      }
    }

    /** `HighwayHashCatFinish64`, `128` and `256`; more can be appended afterwards. */
    method Finish() returns (hash: H)
      requires Valid()
      ensures hash == Hash(rounds, fed)
    {
      var copy := state;
      if num != 0 {
        copy := UpdateRemainder(rounds, packet[..], num, copy);
        assert packet[..][..num] == packet[..num];
      }
      hash := rounds.finalise(copy);
    }
  }

  /** However the input is cut, appending the pieces hashes the whole. */
  method HashPieces<S, H>(r: Rounds<S, H>, pieces: seq<seq<Byte>>) returns (hash: H)
    ensures hash == Hash(r, Flatten(pieces))
  {
    var cat := new HighwayHashCat(r);
    for i := 0 to |pieces|
      invariant fresh(cat) && fresh(cat.packet) && cat.Valid() && cat.rounds == r
      invariant cat.fed == Flatten(pieces[..i])
    {
      FlattenAppend(pieces[..i], pieces[i]);
      assert pieces[..i + 1] == pieces[..i] + [pieces[i]];
      cat.Append(pieces[i]);
    }
    assert pieces[..|pieces|] == pieces;
    hash := cat.Finish();
  }

  /** What a hash sees that only notes down the packets and the number of remaining bytes. */
  datatype Notes = Notes(packets: seq<seq<Byte>>, remaining: nat)

  const NOTE_ALL: Rounds<Notes, Notes> :=
    Rounds(Notes([], 0), (s: Notes, p) => s.(packets := s.packets + [p]), (s: Notes, n) => s.(remaining := n), s => s)

  lemma {:induction false} NotedPackets(s: Notes, data: seq<Byte>)
    ensures Absorb(NOTE_ALL.update, PACKET, s, data) == s.(packets := Absorb(NOTE, PACKET, s.packets, data))
    decreases |data|
  {
    if |data| >= PACKET { NotedPackets(NOTE_ALL.update(s, data[..PACKET]), data[PACKET..]); }
  }

  /** The whole packets and the bytes left over are all of the data. */
  lemma NotedHash(data: seq<Byte>)
    ensures var notes, packets, rest := Hash(NOTE_ALL, data), Absorb(NOTE, PACKET, [], data), Rest(PACKET, data);
      && Flatten(packets) + rest == data && AllOfSize(packets, PACKET) && notes.remaining == |rest|
      && notes.packets == packets + if rest == [] then [] else [Padded(rest)]
  {
    NotedPackets(NOTE_ALL.reset, data);
    BlocksNoted(PACKET, [], data);
  }

  /** All data is hashed: no two inputs, of whatever lengths, are the same packets and number of remaining bytes. */
  lemma HashTakesAll(a: seq<Byte>, b: seq<Byte>)
    requires Hash(NOTE_ALL, a) == Hash(NOTE_ALL, b)
    ensures a == b
  {
    NotedHash(a);
    NotedHash(b);
    var p, q := Absorb(NOTE, PACKET, [], a), Absorb(NOTE, PACKET, [], b);
    var x, y := Rest(PACKET, a), Rest(PACKET, b);
    if x != [] {
      assert p == (p + [Padded(x)])[..|p|] && q == (q + [Padded(y)])[..|q|];
      assert Padded(x) == (p + [Padded(x)])[|p|] && Padded(y) == (q + [Padded(y)])[|q|];
      PaddedInjective(x, y);
    } else {
      assert y == [] && p + [] == p && q + [] == q;
    }
  }
}
