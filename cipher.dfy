/** The cipher and the inverse cipher of FIPS 197 sections 5.1 and 5.3 for
    ten rounds, over any 176-byte key schedule, in the order in which the
    source's `ak_aes128_encrypt` and `ak_aes128_decrypt` apply the round
    transformations. */
module Cipher {
  import opened Transforms

  /** One of rounds 1 .. 9 of the cipher: SubBytes, ShiftRows, MixColumns,
      then the round key of that round. */
  function Round(s: seq<bv8>, ks: seq<bv8>, round: int): (r: seq<bv8>)
    requires |s| == BlockSize && |ks| == ScheduleSize && 1 <= round < Rounds
    ensures |r| == BlockSize
  {
    AddRoundKey(MixColumns(ShiftRows(SubBytes(s))), ks, round)
  }

  /** The state of the cipher after the first round key and rounds
      1 .. n: the state the source holds at the end of loop pass n. */
  function Forward(input: seq<bv8>, ks: seq<bv8>, n: int): (r: seq<bv8>)
    requires |input| == BlockSize && |ks| == ScheduleSize && 0 <= n < Rounds
    ensures |r| == BlockSize
    decreases n
  {
    if n == 0 then AddRoundKey(input, ks, 0)
    else Round(Forward(input, ks, n - 1), ks, n)
  }

  /** The cipher: round key 0, nine full rounds, and a last round without
      MixColumns that adds round key 10. */
  function Encrypt(input: seq<bv8>, ks: seq<bv8>): (r: seq<bv8>)
    requires |input| == BlockSize && |ks| == ScheduleSize
    ensures |r| == BlockSize
  {
    AddRoundKey(ShiftRows(SubBytes(Forward(input, ks, Rounds - 1))), ks, Rounds)
  }

  /** One of rounds 9 .. 1 of the inverse cipher: InvShiftRows,
      InvSubBytes, the round key of that round, then InvMixColumns. */
  function InvRound(s: seq<bv8>, ks: seq<bv8>, round: int): (r: seq<bv8>)
    requires |s| == BlockSize && |ks| == ScheduleSize && 1 <= round < Rounds
    ensures |r| == BlockSize
  {
    InvMixColumns(AddRoundKey(InvSubBytes(InvShiftRows(s)), ks, round))
  }

  /** The state of the inverse cipher after round key 10 and the inverse
      rounds 9 .. n + 1: the state the source holds when its loop counter
      is n. */
  function Backward(input: seq<bv8>, ks: seq<bv8>, n: int): (r: seq<bv8>)
    requires |input| == BlockSize && |ks| == ScheduleSize && 0 <= n < Rounds
    ensures |r| == BlockSize
    decreases Rounds - n
  {
    if n == Rounds - 1 then AddRoundKey(input, ks, Rounds)
    else InvRound(Backward(input, ks, n + 1), ks, n + 1)
  }

  /** The inverse cipher: round key 10, the inverse rounds 9 .. 1, and a
      last inverse round without InvMixColumns that adds round key 0. */
  function Decrypt(input: seq<bv8>, ks: seq<bv8>): (r: seq<bv8>)
    requires |input| == BlockSize && |ks| == ScheduleSize
    ensures |r| == BlockSize
  {
    AddRoundKey(InvSubBytes(InvShiftRows(Backward(input, ks, 0))), ks, 0)
  }

  /** InvShiftRows then InvSubBytes undo SubBytes then ShiftRows. */
  lemma UndoSubShift(s: seq<bv8>)
    requires |s| == BlockSize
    ensures InvSubBytes(InvShiftRows(ShiftRows(SubBytes(s)))) == s
    ensures ShiftRows(SubBytes(InvSubBytes(InvShiftRows(s)))) == s
  {
    ShiftRowsInverse(SubBytes(s));
    SubBytesInverse(s);
    SubBytesInverse(InvShiftRows(s));
    ShiftRowsInverse(s);
  }

  /** An inverse round undoes a round, up to the SubBytes and ShiftRows
      that open the round: the two loops are out of step by half a round. */
  lemma InvRoundUndoesRound(s: seq<bv8>, ks: seq<bv8>, round: int)
    requires |s| == BlockSize && |ks| == ScheduleSize && 1 <= round < Rounds
    ensures InvRound(ShiftRows(SubBytes(Round(s, ks, round))), ks, round) == ShiftRows(SubBytes(s))
  {
    var f := ShiftRows(SubBytes(s));
    var m := MixColumns(f);
    UndoSubShift(Round(s, ks, round));
    AddRoundKeyInvolution(m, ks, round);
    MixColumnsInverse(f);
  }

  /** A round undoes an inverse round, up to the InvShiftRows and
      InvSubBytes that open the inverse round. */
  lemma RoundUndoesInvRound(s: seq<bv8>, ks: seq<bv8>, round: int)
    requires |s| == BlockSize && |ks| == ScheduleSize && 1 <= round < Rounds
    ensures Round(InvSubBytes(InvShiftRows(InvRound(s, ks, round))), ks, round) == InvSubBytes(InvShiftRows(s))
  {
    var b := InvSubBytes(InvShiftRows(s));
    var a := AddRoundKey(b, ks, round);
    UndoSubShift(InvMixColumns(a));
    MixColumnsInverse(a);
    AddRoundKeyInvolution(b, ks, round);
  }

  /** Round key 10 of the inverse cipher undoes round key 10 of the cipher. */
  lemma LastRoundUndone(p: seq<bv8>, ks: seq<bv8>)
    requires |p| == BlockSize && |ks| == ScheduleSize
    ensures Backward(Encrypt(p, ks), ks, Rounds - 1) == ShiftRows(SubBytes(Forward(p, ks, Rounds - 1)))
  {
    AddRoundKeyInvolution(ShiftRows(SubBytes(Forward(p, ks, Rounds - 1))), ks, Rounds);
  }

  /** One pass of the inverse cipher's loop undoes one round of the cipher. */
  lemma BackwardStep(c: seq<bv8>, ks: seq<bv8>, n: int, f: seq<bv8>)
    requires |c| == BlockSize && |ks| == ScheduleSize && 0 <= n < Rounds - 1 && |f| == BlockSize
    requires Backward(c, ks, n + 1) == ShiftRows(SubBytes(Round(f, ks, n + 1)))
    ensures Backward(c, ks, n) == ShiftRows(SubBytes(f))
  {
    InvRoundUndoesRound(f, ks, n + 1);
  }

  /** Decrypting an encrypted block: while the inverse cipher's loop runs
      down from 9, its state is the cipher's state of the same pass with
      SubBytes and ShiftRows applied. */
  lemma {:induction false} BackwardAfterEncrypt(p: seq<bv8>, ks: seq<bv8>, n: int)
    requires |p| == BlockSize && |ks| == ScheduleSize && 0 <= n < Rounds
    ensures Backward(Encrypt(p, ks), ks, n) == ShiftRows(SubBytes(Forward(p, ks, n)))
    decreases Rounds - n
  {
    if n == Rounds - 1 {
      LastRoundUndone(p, ks);
    } else {
      BackwardAfterEncrypt(p, ks, n + 1);
      assert Forward(p, ks, n + 1) == Round(Forward(p, ks, n), ks, n + 1);
      BackwardStep(Encrypt(p, ks), ks, n, Forward(p, ks, n));
    }
  }

  /** Encrypting a decrypted block: while the cipher's loop runs up from
      1, its state is the inverse cipher's state of the same pass with
      InvShiftRows and InvSubBytes applied. */
  lemma {:induction false} ForwardAfterDecrypt(c: seq<bv8>, ks: seq<bv8>, n: int)
    requires |c| == BlockSize && |ks| == ScheduleSize && 0 <= n < Rounds
    ensures Forward(Decrypt(c, ks), ks, n) == InvSubBytes(InvShiftRows(Backward(c, ks, n)))
    decreases n
  {
    if n == 0 {
      AddRoundKeyInvolution(InvSubBytes(InvShiftRows(Backward(c, ks, 0))), ks, 0);
    } else {
      ForwardAfterDecrypt(c, ks, n - 1);
      RoundUndoesInvRound(Backward(c, ks, n), ks, n);
      assert Backward(c, ks, n - 1) == InvRound(Backward(c, ks, n), ks, n);
      assert Forward(Decrypt(c, ks), ks, n) == Round(Forward(Decrypt(c, ks), ks, n - 1), ks, n);
    }
  }

  /** The inverse cipher undoes the cipher under any 176-byte schedule. */
  lemma DecryptEncrypt(p: seq<bv8>, ks: seq<bv8>)
    requires |p| == BlockSize && |ks| == ScheduleSize
    ensures Decrypt(Encrypt(p, ks), ks) == p
  {
    BackwardAfterEncrypt(p, ks, 0);
    UndoSubShift(Forward(p, ks, 0));
    AddRoundKeyInvolution(p, ks, 0);
  }

  /** The cipher undoes the inverse cipher under any 176-byte schedule. */
  lemma EncryptDecrypt(c: seq<bv8>, ks: seq<bv8>)
    requires |c| == BlockSize && |ks| == ScheduleSize
    ensures Encrypt(Decrypt(c, ks), ks) == c
  {
    ForwardAfterDecrypt(c, ks, Rounds - 1);
    UndoSubShift(Backward(c, ks, Rounds - 1));
    AddRoundKeyInvolution(c, ks, Rounds);
  }
}
