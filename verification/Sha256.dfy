// The streaming hasher: a 64-byte buffer, the intermediate hash value and a
// saturating byte count.  `message` is the ghost history of the bytes fed so far.
module Sha256Stream {
  import opened Bytes
  import opened Fips180

  const U64_MAX: nat := 0xFFFF_FFFF_FFFF_FFFF

  function Saturate(n: nat): nat { if n > U64_MAX then U64_MAX else n }

  // The code adds the schedule terms in another order than the standard.
  lemma SumReordered(a: Word, b: Word, c: Word, d: Word)
    ensures Add(Add(Add(a, b), c), d) == Add(Add(Add(d, c), b), a)
  {
    hide Wrap;
    WrapAdd(a + b, c);
    WrapAdd(a + b + c, d);
    WrapAdd(d + c, b);
    WrapAdd(d + c + b, a);
  }

  lemma WrapAdd(n: nat, x: nat)
    ensures Wrap(Wrap(n) + x) == Wrap(n + x)
  {}

  // `compress`: the schedule loop, the round loop and the final additions.
  method CompressBlock(state: array<Word>, block: seq<Byte>)
    requires state.Length == 8 && |block| == 64
    modifies state
    ensures state[..] == Compress(old(state[..]), block)
  {
    hide Add, Rounds;
    ghost var start := state[..];
    var schedule := FillSchedule(block);
    var v := RunRounds(block, schedule, Working(state[0], state[1], state[2], state[3], state[4], state[5], state[6],
      state[7]));
    var added := [v.a, v.b, v.c, v.d, v.e, v.f, v.g, v.h];
    for i := 0 to 8
      invariant forall k :: 0 <= k < i ==> state[k] == Add(start[k], added[k])
      invariant forall k :: i <= k < 8 ==> state[k] == start[k]
    {
      state[i] := Add(state[i], added[i]);
    }
    assert state[..] == Compress(start, block);
  }

  method FillSchedule(block: seq<Byte>) returns (schedule: array<Word>)
    requires |block| == 64
    ensures fresh(schedule) && schedule.Length == 64
    ensures forall t :: 0 <= t < 64 ==> schedule[t] == Schedule(block, t)
  {
    hide ScheduleWord;
    schedule := new Word[64](i => 0);
    for t := 0 to 16
      invariant forall k :: 0 <= k < t ==> schedule[k] == Schedule(block, k)
    {
      Widths();
      assert block[4 * t..4 * t + 4] == [block[4 * t], block[4 * t + 1], block[4 * t + 2], block[4 * t + 3]];
      schedule[t] := FromBe([block[4 * t], block[4 * t + 1], block[4 * t + 2], block[4 * t + 3]]);
    }
    for t := 16 to 64
      invariant forall k :: 0 <= k < t ==> schedule[k] == Schedule(block, k)
    {
      schedule[t] := NextWord(schedule[t - 16], schedule[t - 15], schedule[t - 7], schedule[t - 2]);
    }
  }

  method NextWord(w16: Word, w15: Word, w7: Word, w2: Word) returns (w: Word)
    ensures w == ScheduleWord(w2, w7, w15, w16)
  {
    hide Add, Rotr, Xor, And, Not, Shr;
    var s0 := Xor(Xor(Rotr(7, w15), Rotr(18, w15)), Shr(3, w15));
    var s1 := Xor(Xor(Rotr(17, w2), Rotr(19, w2)), Shr(10, w2));
    w := Add(Add(Add(w16, s0), w7), s1);
    SumReordered(w16, s0, w7, s1);
  }

  method RunRounds(block: seq<Byte>, schedule: array<Word>, start: Working) returns (v: Working)
    requires |block| == 64 && schedule.Length == 64
    requires forall t :: 0 <= t < 64 ==> schedule[t] == Schedule(block, t)
    ensures v == Rounds(block, 64, start)
  {
    hide Round, Schedule, RoundConstants;
    var constants := RoundConstants();
    v := start;
    for t := 0 to 64
      invariant v == Rounds(block, t, start)
    {
      v := OneRound(v, constants[t], schedule[t]);
    }
  }

  method OneRound(v: Working, constant: Word, word: Word) returns (r: Working)
    ensures r == Round(v, constant, word)
  {
    hide Add, Rotr, Xor, And, Not, Shr;
    var Working(a, b, c, d, e, f, g, h) := v;
    var sum1 := Xor(Xor(Rotr(6, e), Rotr(11, e)), Rotr(25, e));
    var choice := Xor(And(e, f), And(Not(e), g));
    var temporary1 := Add(Add(Add(Add(h, sum1), choice), constant), word);
    var sum0 := Xor(Xor(Rotr(2, a), Rotr(13, a)), Rotr(22, a));
    var majority := Xor(Xor(And(a, b), And(a, c)), And(b, c));
    var temporary2 := Add(sum0, majority);
    h := g;
    g := f;
    f := e;
    e := Add(d, temporary1);
    d := c;
    c := b;
    b := a;
    a := Add(temporary1, temporary2);
    r := Working(a, b, c, d, e, f, g, h);
  }

  lemma AbsorbNothing(h: seq<Word>)
    requires |h| == 8
    ensures Absorb(h, []) == h
  {}

  class Sha256Hasher {
    const state: array<Word>
    const buffer: array<Byte>
    var bufferLen: nat
    var lengthBytes: nat
    ghost var message: seq<Byte>

    ghost predicate Shape()
      reads this
    {
      state.Length == 8 && buffer.Length == 64 && (state as object) != (buffer as object)
    }

    // `whole` is compressed up to its last whole block; the rest waits in the buffer.
    ghost predicate Holds(whole: seq<Byte>)
      reads this, state, buffer
    {
      && Shape() && bufferLen < 64 && bufferLen <= |whole| && (|whole| - bufferLen) % 64 == 0
      && state[..] == Absorb(InitialHash(), whole[..|whole| - bufferLen])
      && buffer[..bufferLen] == whole[|whole| - bufferLen..]
    }

    ghost predicate Valid()
      reads this, state, buffer
    {
      Holds(message) && lengthBytes == Saturate(|message|)
    }

    constructor ()
      ensures Valid() && message == [] && fresh(state) && fresh(buffer)
    {
      hide InitialHash, Absorb, Zeros;
      var iv := InitialHash();
      state := new Word[8](i requires 0 <= i < 8 => iv[i]);
      buffer := new Byte[64](i => 0);
      bufferLen := 0;
      lengthBytes := 0;
      message := [];
      new;
      assert state[..] == iv;
      AbsorbNothing(iv);
      assert message[..0] == [];
    }

    // Copies bytes into the buffer at an offset.
    method CopyInto(offset: nat, bytes: seq<Byte>)
      requires Shape() && offset + |bytes| <= 64
      modifies buffer
      ensures buffer[..] == old(buffer[..])[..offset] + bytes + old(buffer[..])[offset + |bytes|..]
    {
      for i := 0 to |bytes|
        invariant forall k :: 0 <= k < 64 ==>
          buffer[k] == if offset <= k < offset + i then bytes[k - offset] else old(buffer[k])
      {
        buffer[offset + i] := bytes[i];
      }
    }

    // Moves bytes into the buffer until it is full or the input ends.
    method FillBuffer(input: seq<Byte>) returns (count: nat)
      requires Shape() && bufferLen <= 64
      modifies this`bufferLen, buffer
      ensures Shape() && count <= |input| && bufferLen == old(bufferLen) + count && bufferLen <= 64
      ensures bufferLen < 64 ==> count == |input|
      ensures buffer[..bufferLen] == old(buffer[..bufferLen]) + input[..count]
    {
      var needed := 64 - bufferLen;
      count := if needed < |input| then needed else |input|;
      CopyInto(bufferLen, input[..count]);
      bufferLen := bufferLen + count;
    }

    method Update(bytes: seq<Byte>)
      requires Valid()
      modifies this, state, buffer
      ensures Valid() && message == old(message) + bytes
    {
      hide Absorb, InitialHash, Compress;
      lengthBytes := Saturate(lengthBytes + Saturate(|bytes|));
      var input := bytes;
      ghost var held := |message| - bufferLen;
      ghost var whole := message + bytes;
      Extended(message, bytes, held);
      message := whole;
      if bufferLen > 0 {
        var count := FillBuffer(input);
        Filled(old(message), bytes, held, count);
        if bufferLen < 64 { return; }
        var block := buffer[..64];
        AbsorbSlice(whole, held);
        CompressBlock(state, block);
        bufferLen := 0;
        held := held + 64;
        input := input[count..];
      }
      AbsorbBlocks(input, whole, held);
    }

    // The whole blocks of `input`, then the remainder into the empty buffer.
    method AbsorbBlocks(bytes: seq<Byte>, ghost whole: seq<Byte>, ghost from: nat)
      requires Shape() && from % 64 == 0 && from + |bytes| == |whole| && bytes == whole[from..]
      requires state[..] == Absorb(InitialHash(), whole[..from])
      modifies this`bufferLen, state, buffer
      ensures Holds(whole)
    {
      hide Absorb, InitialHash, Compress;
      var input := bytes;
      ghost var held := from;
      while |input| >= 64
        invariant Shape() && held % 64 == 0 && held + |input| == |whole| && input == whole[held..]
        invariant state[..] == Absorb(InitialHash(), whole[..held])
      {
        var block := input[..64];
        assert block == whole[held..held + 64];
        AbsorbSlice(whole, held);
        CompressBlock(state, block);
        input := input[64..];
        held := held + 64;
      }
      bufferLen := 0;
      var _ := FillBuffer(input);
      assert input[..|input|] == input;
    }

    // Section 5.1.1 in the buffer: the bit `1`, zeros and the length, over one
    // block or two.
    method AbsorbPadding(bitLength: nat)
      requires Valid()
      modifies this`bufferLen, state, buffer
      ensures Shape() && state[..] == Absorb(InitialHash(), Pad(message, bitLength))
    {
      hide Compress, Absorb, InitialHash, Pad, Be, Zeros;
      ghost var held := |message| - bufferLen;
      ghost var padded := Pad(message, bitLength);
      ghost var tail := buffer[..bufferLen];
      PadLayout(message, bitLength, bufferLen);
      CopyInto(bufferLen, [0x80]);
      bufferLen := bufferLen + 1;
      ghost var marked := buffer[..];
      if bufferLen > 56 {
        CopyInto(bufferLen, Zeros(64 - bufferLen));
        var block := buffer[..];
        FirstOfTwo(padded, held, tail, marked, block);
        AbsorbSlice(padded, held);
        CompressBlock(state, block);
        CopyInto(0, Zeros(64));
        held := held + 64;
        ZeroPart(padded, held, buffer[..]);
      } else {
        CopyInto(bufferLen, Zeros(56 - bufferLen));
        OnlyOne(padded, held, tail, marked, buffer[..]);
      }
      ghost var prepared := buffer[..];
      CopyInto(56, Be(bitLength, 8));
      var block := buffer[..];
      LastBlock(padded, held, prepared, block, Be(bitLength, 8));
      AbsorbSlice(padded, held);
      CompressBlock(state, block);
      assert padded[..held + 64] == padded;
    }

    method Finalize() returns (digest: seq<Byte>)
      requires Valid()
      modifies this, state, buffer
      ensures digest == HashWithLength(old(message), Saturate(8 * |old(message)|))
      ensures 8 * |old(message)| <= U64_MAX ==> digest == Sha256(old(message))
    {
      hide Pad, Absorb, InitialHash, WordBytes;
      AbsorbPadding(Saturate(lengthBytes * 8));
      digest := [];
      for i := 0 to 8
        invariant digest == Concatenate(state[..i])
      {
        assert state[..i + 1][..i] == state[..i];
        digest := digest + WordBytes(state[i]);
      }
      assert state[..8] == state[..];
    }
  }

  // Sequence facts of `Update`.
  lemma Extended(message: seq<Byte>, bytes: seq<Byte>, held: nat)
    requires held <= |message|
    ensures var whole := message + bytes;
      && whole[..held] == message[..held] && whole[held..] == message[held..] + bytes
      && (held == |message| ==> bytes == whole[held..])
  {}

  lemma Filled(message: seq<Byte>, bytes: seq<Byte>, held: nat, count: nat)
    requires held <= |message| && count <= |bytes|
    ensures var whole := message + bytes;
      var end := |message| + count;
      && message[held..] + bytes[..count] == whole[held..end] && bytes[count..] == whole[end..]
      && (count == |bytes| ==> whole[held..end] == whole[held..])
  {}

  lemma AbsorbSlice(whole: seq<Byte>, held: nat)
    requires held % 64 == 0 && held + 64 <= |whole|
    ensures Absorb(InitialHash(), whole[..held + 64])
      == Compress(Absorb(InitialHash(), whole[..held]), whole[held..held + 64])
  {
    hide Compress, InitialHash;
    AbsorbBlock(InitialHash(), whole[..held], whole[held..held + 64]);
    assert whole[..held + 64] == whole[..held] + whole[held..held + 64];
  }

  // The buffer contents during the padding, against the padded message.
  lemma FirstOfTwo(padded: seq<Byte>, held: nat, tail: seq<Byte>, marked: seq<Byte>, block: seq<Byte>)
    requires |padded| == held + 128 && 56 <= |tail| < 64 && |marked| == 64
    requires padded[held..held + |tail|] == tail && padded[held + |tail|] == 0x80
    requires forall k :: held + |tail| < k < held + 120 ==> padded[k] == 0
    requires marked[..|tail| + 1] == tail + [0x80]
    requires block == marked[..|tail| + 1] + Zeros(63 - |tail|) + marked[64..]
    ensures |block| == 64 && padded[held..held + 64] == block
  {
    forall k | 0 <= k < 64 ensures padded[held + k] == block[k] {
      if k < |tail| { assert tail[k] == padded[held..held + |tail|][k]; }
    }
  }

  lemma OnlyOne(padded: seq<Byte>, held: nat, tail: seq<Byte>, marked: seq<Byte>, block: seq<Byte>)
    requires |padded| == held + 64 && |tail| < 56 && |marked| == 64
    requires padded[held..held + |tail|] == tail && padded[held + |tail|] == 0x80
    requires forall k :: held + |tail| < k < held + 56 ==> padded[k] == 0
    requires marked[..|tail| + 1] == tail + [0x80]
    requires block == marked[..|tail| + 1] + Zeros(55 - |tail|) + marked[56..]
    ensures |block| == 64 && block[..56] == padded[held..held + 56]
  {
    forall k | 0 <= k < 56 ensures padded[held + k] == block[..56][k] {
      if k < |tail| { assert tail[k] == padded[held..held + |tail|][k]; }
    }
  }

  lemma ZeroPart(padded: seq<Byte>, held: nat, block: seq<Byte>)
    requires |padded| == held + 64 && |block| == 64 && block[..64] == Zeros(64)
    requires forall k :: held <= k < held + 56 ==> padded[k] == 0
    ensures block[..56] == padded[held..held + 56]
  {
    assert forall k :: 0 <= k < 56 ==> block[k] == block[..64][k];
  }

  lemma LastBlock(padded: seq<Byte>, held: nat, prepared: seq<Byte>, block: seq<Byte>, length: seq<Byte>)
    requires |padded| == held + 64 && |prepared| == 64 && |length| == 8 && padded[held + 56..] == length
    requires prepared[..56] == padded[held..held + 56] && block == prepared[..56] + length + prepared[64..]
    ensures |block| == 64 && padded[held..held + 64] == block
  {
    assert padded[held..held + 64] == padded[held..held + 56] + padded[held + 56..];
    assert block == prepared[..56] + length;
  }

  // Where the pieces of the padding fall relative to the last partial block.
  lemma PadLayout(message: seq<Byte>, bitLength: nat, tail: nat)
    requires tail < 64 && tail <= |message| && (|message| - tail) % 64 == 0
    ensures var held := |message| - tail;
      var padded := Pad(message, bitLength);
      var last := if tail + 1 > 56 then held + 64 else held;
      && |padded| == last + 64
      && padded[..held] == message[..held] && padded[held..|message|] == message[held..] && padded[|message|] == 0x80
      && (forall k :: |message| < k < last + 56 ==> padded[k] == 0)
      && padded[last + 56..] == Be(bitLength, 8)
  {
    var held := |message| - tail;
    assert |message| % 64 == tail by { assert |message| == 64 * (held / 64) + tail; }
    var padded := Pad(message, bitLength);
    assert |padded| == |message| + 1 + ZeroBytes(|message|) + 8;
    assert padded[|message| + 1 + ZeroBytes(|message|)..] == Be(bitLength, 8);
  }

  function Flatten(chunks: seq<seq<Byte>>): seq<Byte>
  {
    if chunks == [] then [] else Flatten(chunks[..|chunks| - 1]) + chunks[|chunks| - 1]
  }

  // However a message is cut into chunks, feeding them gives its SHA-256.
  method HashChunks(chunks: seq<seq<Byte>>) returns (digest: seq<Byte>)
    ensures |Flatten(chunks)| < 0x2000_0000_0000_0000 ==> digest == Sha256(Flatten(chunks))
  {
    var hasher := new Sha256Hasher();
    for i := 0 to |chunks|
      invariant hasher.Valid() && hasher.message == Flatten(chunks[..i])
      invariant fresh(hasher) && fresh(hasher.state) && fresh(hasher.buffer)
    {
      assert chunks[..i + 1][..i] == chunks[..i];
      hasher.Update(chunks[i]);
    }
    assert chunks[..|chunks|] == chunks;
    digest := hasher.Finalize();
  }
}
