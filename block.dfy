/** `ak_aes128_encrypt` and `ak_aes128_decrypt`: one 16-byte block through
    the cipher or the inverse cipher, on a local state buffer, with the
    in-place round transformations. The key schedule is the key's `data`
    buffer, passed here as `ks`. */
module Block {
  import opened Transforms
  import opened InPlace
  import Cipher

  /** Copies the input block into a fresh state buffer, row by row as the
      source's `state[i][j] = input[j + 4 * i]` does. */
  method LoadState(input: array<bv8>) returns (state: array<bv8>)
    requires input.Length == BlockSize
    ensures fresh(state)
    ensures state[..] == input[..]
  {
    state := new bv8[BlockSize];
    for i := 0 to 4
      invariant forall k :: 0 <= k < 4 * i ==> state[k] == input[k]
    {
      for j := 0 to 4
        invariant forall k :: 0 <= k < 4 * i + j ==> state[k] == input[k]
      {
        state[j + 4 * i] := input[j + 4 * i];
      }
    }
  }

  /** Copies the state buffer to the output block; the source's
      `state[i / 4][i % 4]` is byte i of the flattened state. */
  method StoreState(state: array<bv8>, output: array<bv8>)
    requires state.Length == BlockSize && output.Length == BlockSize && state != output
    modifies output
    ensures output[..] == state[..]
  {
    for i := 0 to BlockSize
      invariant forall k :: 0 <= k < i ==> output[k] == state[k]
    {
      output[i] := state[i];
    }
  }

  /** The body of the loop of `ak_aes128_encrypt`: one full round. */
  method RoundInPlace(state: array<bv8>, ks: array<bv8>, round: int)
    requires state.Length == BlockSize && ks.Length == ScheduleSize && 1 <= round < Rounds
    modifies state
    ensures state[..] == Cipher.Round(old(state[..]), ks[..], round)
  {
    SubBytesInPlace(state);
    ShiftRowsInPlace(state);
    MixColumnsInPlace(state);
    AddRoundKeyInPlace(state, ks, round);
  }

  /** The body of the loop of `ak_aes128_decrypt`: one full inverse round. */
  method InvRoundInPlace(state: array<bv8>, ks: array<bv8>, round: int)
    requires state.Length == BlockSize && ks.Length == ScheduleSize && 1 <= round < Rounds
    modifies state
    ensures state[..] == Cipher.InvRound(old(state[..]), ks[..], round)
  {
    InvShiftRowsInPlace(state);
    InvSubBytesInPlace(state);
    AddRoundKeyInPlace(state, ks, round);
    InvMixColumnsInPlace(state);
  }

  /** The steps of `ak_aes128_encrypt` after its loop: the last round,
      without MixColumns, with round key 10. */
  method FinalRoundInPlace(state: array<bv8>, ks: array<bv8>)
    requires state.Length == BlockSize && ks.Length == ScheduleSize
    modifies state
    ensures state[..] == AddRoundKey(ShiftRows(SubBytes(old(state[..]))), ks[..], Rounds)
  {
    SubBytesInPlace(state);
    ShiftRowsInPlace(state);
    AddRoundKeyInPlace(state, ks, Rounds);
  }

  /** The steps of `ak_aes128_decrypt` after its loop: the last inverse
      round, without InvMixColumns, with round key 0. */
  method InvFinalRoundInPlace(state: array<bv8>, ks: array<bv8>)
    requires state.Length == BlockSize && ks.Length == ScheduleSize
    modifies state
    ensures state[..] == AddRoundKey(InvSubBytes(InvShiftRows(old(state[..]))), ks[..], 0)
  {
    InvShiftRowsInPlace(state);
    InvSubBytesInPlace(state);
    AddRoundKeyInPlace(state, ks, 0);
  }

  /** `ak_aes128_encrypt`: the block is the cipher of the input under the
      key schedule. Input and output may be the same buffer. */
  method EncryptBlock(ks: array<bv8>, input: array<bv8>, output: array<bv8>)
    requires ks.Length == ScheduleSize && input.Length == BlockSize && output.Length == BlockSize
    modifies output
    ensures output[..] == Cipher.Encrypt(old(input[..]), ks[..])
  {
    assert output != ks;  // the two buffers differ in length
    ghost var p := input[..];
    ghost var key := ks[..];
    var state := LoadState(input);
    assert state != ks;  // a fresh buffer
    AddRoundKeyInPlace(state, ks, 0);
    for round := 1 to Rounds
      invariant ks[..] == key
      invariant state[..] == Cipher.Forward(p, key, round - 1)
    {
      RoundInPlace(state, ks, round);
    }
    // the source's round counter is 10 here
    assert state[..] == Cipher.Forward(p, key, Rounds - 1);
    FinalRoundInPlace(state, ks);
    StoreState(state, output);
  }

  /** `ak_aes128_decrypt`: the block is the inverse cipher of the input
      under the key schedule. Input and output may be the same buffer. */
  method DecryptBlock(ks: array<bv8>, input: array<bv8>, output: array<bv8>)
    requires ks.Length == ScheduleSize && input.Length == BlockSize && output.Length == BlockSize
    modifies output
    ensures output[..] == Cipher.Decrypt(old(input[..]), ks[..])
  {
    assert output != ks;  // the two buffers differ in length
    ghost var c := input[..];
    ghost var key := ks[..];
    var state := LoadState(input);
    assert state != ks;  // a fresh buffer
    AddRoundKeyInPlace(state, ks, Rounds);
    for round := Rounds downto 1
      invariant ks[..] == key
      invariant state[..] == Cipher.Backward(c, key, round - 1)
    {
      InvRoundInPlace(state, ks, round);
    }
    // the source's round counter is 0 here
    assert state[..] == Cipher.Backward(c, key, 0);
    InvFinalRoundInPlace(state, ks);
    StoreState(state, output);
  }
}
