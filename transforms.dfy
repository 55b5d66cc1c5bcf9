/** The four round transformations of FIPS 197 section 5 and their
    inverses, as functions on the 16-byte state. The state is kept as the
    source keeps it: byte 4 * c + r is row r of column c, so the input
    block is copied in unchanged (section 3.4). */
module Transforms {
  import opened Field
  import opened Tables

  /** Number of bytes in a block and in the state. */
  const BlockSize := 16

  /** Number of rounds of AES-128. */
  const Rounds := 10

  /** Bytes in the expanded key: 4 * (Rounds + 1) words of 4 bytes. */
  const ScheduleSize := 176

  /** `ak_aes128_add_round_key`: XOR with the round key, the 16 schedule
      bytes that start at 16 * round. */
  function AddRoundKey(s: seq<bv8>, ks: seq<bv8>, round: int): (r: seq<bv8>)
    requires |s| == BlockSize && |ks| == ScheduleSize && 0 <= round <= Rounds
    ensures |r| == BlockSize
  {
    seq(BlockSize, k requires 0 <= k < BlockSize => Add(s[k], ks[16 * round + k]))
  }

  /** `ak_aes128_sub_bytes`: the S-box applied to every byte. */
  function SubBytes(s: seq<bv8>): (r: seq<bv8>)
    requires |s| == BlockSize
    ensures |r| == BlockSize
  {
    seq(BlockSize, k requires 0 <= k < BlockSize => Sub(s[k]))
  }

  /** `ak_aes128_inv_sub_bytes`: the inverse S-box applied to every byte. */
  function InvSubBytes(s: seq<bv8>): (r: seq<bv8>)
    requires |s| == BlockSize
    ensures |r| == BlockSize
  {
    seq(BlockSize, k requires 0 <= k < BlockSize => InvSub(s[k]))
  }

  /** The position of row r of column c. */
  function At(c: int, r: int): (k: int)
  {
    4 * c + r
  }

  /** Where each byte of the state comes from under ShiftRows: row r is
      rotated r places to the left. `ShiftRowsMoves` gives the rule. */
  const ShiftSource: seq<int> := [0, 5, 10, 15, 4, 9, 14, 3, 8, 13, 2, 7, 12, 1, 6, 11]

  /** Where each byte comes from under InvShiftRows: row r is rotated r
      places to the right. */
  const InvShiftSource: seq<int> := [0, 13, 10, 7, 4, 1, 14, 11, 8, 5, 2, 15, 12, 9, 6, 3]

  /** `ak_aes128_shift_rows`. */
  function ShiftRows(s: seq<bv8>): (r: seq<bv8>)
    requires |s| == BlockSize
    ensures |r| == BlockSize
  {
    seq(BlockSize, k requires 0 <= k < BlockSize => s[ShiftSource[k]])
  }

  /** `ak_aes128_inv_shift_rows`. */
  function InvShiftRows(s: seq<bv8>): (r: seq<bv8>)
    requires |s| == BlockSize
    ensures |r| == BlockSize
  {
    seq(BlockSize, k requires 0 <= k < BlockSize => s[InvShiftSource[k]])
  }

  /** One column of the state, top to bottom. */
  datatype Column = Column(b0: bv8, b1: bv8, b2: bv8, b3: bv8)

  /** Row r of a column. */
  function Row(w: Column, r: int): (b: bv8)
  {
    if r == 0 then w.b0 else if r == 1 then w.b1 else if r == 2 then w.b2 else w.b3
  }

  /** Column c of the state. */
  function ColumnOf(s: seq<bv8>, c: int): (w: Column)
    requires |s| == BlockSize && 0 <= c < 4
    ensures forall r :: 0 <= r < 4 ==> Row(w, r) == s[At(c, r)]
  {
    Column(s[At(c, 0)], s[At(c, 1)], s[At(c, 2)], s[At(c, 3)])
  }

  /** The column transformation of `ak_aes128_mix_columns`: multiplication
      by the circulant matrix with first row {02} {03} {01} {01}. */
  function MixColumn(w: Column): (r: Column)
  {
    Column(Sum4(Mul02(w.b0), Mul03(w.b1), w.b2, w.b3),
           Sum4(w.b0, Mul02(w.b1), Mul03(w.b2), w.b3),
           Sum4(w.b0, w.b1, Mul02(w.b2), Mul03(w.b3)),
           Sum4(Mul03(w.b0), w.b1, w.b2, Mul02(w.b3)))
  }

  /** The column transformation of `ak_aes128_inv_mix_columns`: the
      circulant matrix with first row {0e} {0b} {0d} {09}. */
  function InvMixColumn(w: Column): (r: Column)
  {
    Column(Sum4(Mul0E(w.b0), Mul0B(w.b1), Mul0D(w.b2), Mul09(w.b3)),
           Sum4(Mul09(w.b0), Mul0E(w.b1), Mul0B(w.b2), Mul0D(w.b3)),
           Sum4(Mul0D(w.b0), Mul09(w.b1), Mul0E(w.b2), Mul0B(w.b3)),
           Sum4(Mul0B(w.b0), Mul0D(w.b1), Mul09(w.b2), Mul0E(w.b3)))
  }

  /** `ak_aes128_mix_columns`: every column mixed independently. */
  function MixColumns(s: seq<bv8>): (r: seq<bv8>)
    requires |s| == BlockSize
    ensures |r| == BlockSize
  {
    seq(BlockSize, k requires 0 <= k < BlockSize => Row(MixColumn(ColumnOf(s, k / 4)), k % 4))
  }

  /** `ak_aes128_inv_mix_columns`. */
  function InvMixColumns(s: seq<bv8>): (r: seq<bv8>)
    requires |s| == BlockSize
    ensures |r| == BlockSize
  {
    seq(BlockSize, k requires 0 <= k < BlockSize => Row(InvMixColumn(ColumnOf(s, k / 4)), k % 4))
  }

  // Inverses. Each transformation is undone by its inverse, in both orders.

  /** AddRoundKey is its own inverse: XOR with the same round key twice
      restores the state. */
  lemma AddRoundKeyInvolution(s: seq<bv8>, ks: seq<bv8>, round: int)
    requires |s| == BlockSize && |ks| == ScheduleSize && 0 <= round <= Rounds
    ensures AddRoundKey(AddRoundKey(s, ks, round), ks, round) == s
  {
  }

  /** AddRoundKey reads only the 16 schedule bytes of its round. */
  lemma AddRoundKeyReadsOneRound(s: seq<bv8>, ks: seq<bv8>, ks': seq<bv8>, round: int)
    requires |s| == BlockSize && |ks| == ScheduleSize && |ks'| == ScheduleSize && 0 <= round <= Rounds
    requires ks[16 * round .. 16 * round + 16] == ks'[16 * round .. 16 * round + 16]
    ensures AddRoundKey(s, ks, round) == AddRoundKey(s, ks', round)
  {
    forall j | 16 * round <= j < 16 * round + 16
      ensures ks[j] == ks'[j]
    {
      assert ks[j] == ks[16 * round .. 16 * round + 16][j - 16 * round];
    }
  }

  /** InvSubBytes undoes SubBytes and SubBytes undoes InvSubBytes. */
  lemma SubBytesInverse(s: seq<bv8>)
    requires |s| == BlockSize
    ensures InvSubBytes(SubBytes(s)) == s
    ensures SubBytes(InvSubBytes(s)) == s
  {
    forall k | 0 <= k < BlockSize
      ensures InvSub(Sub(s[k])) == s[k] && Sub(InvSub(s[k])) == s[k]
    {
      SBoxInverse(s[k]);
    }
  }

  /** The byte at position k sits in column k / 4 and row k % 4. */
  lemma Position(k: int)
    requires 0 <= k < BlockSize
    ensures 0 <= k / 4 < 4 && 0 <= k % 4 < 4 && At(k / 4, k % 4) == k
  {
  }

  /** Column and row of a position are recovered from it. */
  lemma Coordinates(c: int, r: int)
    requires 0 <= c < 4 && 0 <= r < 4
    ensures 0 <= At(c, r) < BlockSize && At(c, r) / 4 == c && At(c, r) % 4 == r
  {
  }

  /** The byte of row r in column c comes, after ShiftRows, from column
      c + r and, after InvShiftRows, from column c - r, both wrapping
      around the four columns. */
  lemma ShiftRowsMoves(s: seq<bv8>, c: int, r: int)
    requires |s| == BlockSize && 0 <= c < 4 && 0 <= r < 4
    ensures ShiftRows(s)[At(c, r)] == s[At(if c + r < 4 then c + r else c + r - 4, r)]
    ensures InvShiftRows(s)[At(c, r)] == s[At(if r <= c then c - r else c - r + 4, r)]
  {
    assert c == 0 || c == 1 || c == 2 || c == 3;
    assert r == 0 || r == 1 || r == 2 || r == 3;
  }

  /** InvShiftRows undoes ShiftRows and ShiftRows undoes InvShiftRows. */
  lemma ShiftRowsInverse(s: seq<bv8>)
    requires |s| == BlockSize
    ensures InvShiftRows(ShiftRows(s)) == s
    ensures ShiftRows(InvShiftRows(s)) == s
  {
    forall k | 0 <= k < BlockSize
      ensures InvShiftRows(ShiftRows(s))[k] == s[k] && ShiftRows(InvShiftRows(s))[k] == s[k]
    {
      assert ShiftSource[InvShiftSource[k]] == k && InvShiftSource[ShiftSource[k]] == k;
    }
  }

  /** Columns of the mixed state are the mixed columns. */
  lemma ColumnsOfMixColumns(s: seq<bv8>, c: int)
    requires |s| == BlockSize && 0 <= c < 4
    ensures ColumnOf(MixColumns(s), c) == MixColumn(ColumnOf(s, c))
    ensures ColumnOf(InvMixColumns(s), c) == InvMixColumn(ColumnOf(s, c))
  {
    Coordinates(c, 0);
    Coordinates(c, 1);
    Coordinates(c, 2);
    Coordinates(c, 3);
  }

  /** InvMixColumn undoes MixColumn on every column. */
  lemma InvMixColumnUndoesMix(w: Column)
    ensures InvMixColumn(MixColumn(w)) == w
  {
    InvMixAfterMixByte0(w);
    InvMixAfterMixByte1(w);
    InvMixAfterMixByte2(w);
    InvMixAfterMixByte3(w);
  }

  /** MixColumn undoes InvMixColumn on every column. */
  lemma MixColumnUndoesInvMix(w: Column)
    ensures MixColumn(InvMixColumn(w)) == w
  {
    MixAfterInvMixByte0(w);
    MixAfterInvMixByte1(w);
    MixAfterInvMixByte2(w);
    MixAfterInvMixByte3(w);
  }

  /** InvMixColumns undoes MixColumns and MixColumns undoes InvMixColumns. */
  lemma MixColumnsInverse(s: seq<bv8>)
    requires |s| == BlockSize
    ensures InvMixColumns(MixColumns(s)) == s
    ensures MixColumns(InvMixColumns(s)) == s
  {
    forall k | 0 <= k < BlockSize
      ensures InvMixColumns(MixColumns(s))[k] == s[k] && MixColumns(InvMixColumns(s))[k] == s[k]
    {
      Position(k);
      var w := ColumnOf(s, k / 4);
      ColumnsOfMixColumns(s, k / 4);
      ColumnsOfMixColumns(MixColumns(s), k / 4);
      ColumnsOfMixColumns(InvMixColumns(s), k / 4);
      InvMixColumnUndoesMix(w);
      MixColumnUndoesInvMix(w);
    }
  }

  // Each output byte of the two column compositions: spread every
  // multiplier over its four-term argument, then collect the sixteen
  // products by input byte, whose coefficients cancel to 1 or 0.

  lemma InvMixAfterMixByte0(w: Column)
    ensures InvMixColumn(MixColumn(w)).b0 == w.b0
  {
    Mul0ESpread(Mul02(w.b0), Mul03(w.b1), w.b2, w.b3);
    Mul0BSpread(w.b0, Mul02(w.b1), Mul03(w.b2), w.b3);
    Mul0DSpread(w.b0, w.b1, Mul02(w.b2), Mul03(w.b3));
    Mul09Spread(Mul03(w.b0), w.b1, w.b2, Mul02(w.b3));
    InvMixAfterMixRow0(w.b0);
    InvMixAfterMixRow0(w.b1);
    InvMixAfterMixRow0(w.b2);
    InvMixAfterMixRow0(w.b3);
    Collect(InvMixColumn(MixColumn(w)).b0, Mul0E(Sum4(Mul02(w.b0), Mul03(w.b1), w.b2, w.b3)), Mul0B(Sum4(w.b0, Mul02(w.b1), Mul03(w.b2), w.b3)), Mul0D(Sum4(w.b0, w.b1, Mul02(w.b2), Mul03(w.b3))), Mul09(Sum4(Mul03(w.b0), w.b1, w.b2, Mul02(w.b3))),
      Mul0E(Mul02(w.b0)), Mul0E(Mul03(w.b1)), Mul0E(w.b2), Mul0E(w.b3), Mul0B(w.b0), Mul0B(Mul02(w.b1)), Mul0B(Mul03(w.b2)), Mul0B(w.b3), Mul0D(w.b0), Mul0D(w.b1), Mul0D(Mul02(w.b2)), Mul0D(Mul03(w.b3)), Mul09(Mul03(w.b0)), Mul09(w.b1), Mul09(w.b2), Mul09(Mul02(w.b3)),
      w.b0, 0, 0, 0);
  }

  lemma InvMixAfterMixByte1(w: Column)
    ensures InvMixColumn(MixColumn(w)).b1 == w.b1
  {
    Mul09Spread(Mul02(w.b0), Mul03(w.b1), w.b2, w.b3);
    Mul0ESpread(w.b0, Mul02(w.b1), Mul03(w.b2), w.b3);
    Mul0BSpread(w.b0, w.b1, Mul02(w.b2), Mul03(w.b3));
    Mul0DSpread(Mul03(w.b0), w.b1, w.b2, Mul02(w.b3));
    InvMixAfterMixRow1(w.b0);
    InvMixAfterMixRow1(w.b1);
    InvMixAfterMixRow1(w.b2);
    InvMixAfterMixRow1(w.b3);
    Collect(InvMixColumn(MixColumn(w)).b1, Mul09(Sum4(Mul02(w.b0), Mul03(w.b1), w.b2, w.b3)), Mul0E(Sum4(w.b0, Mul02(w.b1), Mul03(w.b2), w.b3)), Mul0B(Sum4(w.b0, w.b1, Mul02(w.b2), Mul03(w.b3))), Mul0D(Sum4(Mul03(w.b0), w.b1, w.b2, Mul02(w.b3))),
      Mul09(Mul02(w.b0)), Mul09(Mul03(w.b1)), Mul09(w.b2), Mul09(w.b3), Mul0E(w.b0), Mul0E(Mul02(w.b1)), Mul0E(Mul03(w.b2)), Mul0E(w.b3), Mul0B(w.b0), Mul0B(w.b1), Mul0B(Mul02(w.b2)), Mul0B(Mul03(w.b3)), Mul0D(Mul03(w.b0)), Mul0D(w.b1), Mul0D(w.b2), Mul0D(Mul02(w.b3)),
      0, w.b1, 0, 0);
  }

  lemma InvMixAfterMixByte2(w: Column)
    ensures InvMixColumn(MixColumn(w)).b2 == w.b2
  {
    Mul0DSpread(Mul02(w.b0), Mul03(w.b1), w.b2, w.b3);
    Mul09Spread(w.b0, Mul02(w.b1), Mul03(w.b2), w.b3);
    Mul0ESpread(w.b0, w.b1, Mul02(w.b2), Mul03(w.b3));
    Mul0BSpread(Mul03(w.b0), w.b1, w.b2, Mul02(w.b3));
    InvMixAfterMixRow2(w.b0);
    InvMixAfterMixRow2(w.b1);
    InvMixAfterMixRow2(w.b2);
    InvMixAfterMixRow2(w.b3);
    Collect(InvMixColumn(MixColumn(w)).b2, Mul0D(Sum4(Mul02(w.b0), Mul03(w.b1), w.b2, w.b3)), Mul09(Sum4(w.b0, Mul02(w.b1), Mul03(w.b2), w.b3)), Mul0E(Sum4(w.b0, w.b1, Mul02(w.b2), Mul03(w.b3))), Mul0B(Sum4(Mul03(w.b0), w.b1, w.b2, Mul02(w.b3))),
      Mul0D(Mul02(w.b0)), Mul0D(Mul03(w.b1)), Mul0D(w.b2), Mul0D(w.b3), Mul09(w.b0), Mul09(Mul02(w.b1)), Mul09(Mul03(w.b2)), Mul09(w.b3), Mul0E(w.b0), Mul0E(w.b1), Mul0E(Mul02(w.b2)), Mul0E(Mul03(w.b3)), Mul0B(Mul03(w.b0)), Mul0B(w.b1), Mul0B(w.b2), Mul0B(Mul02(w.b3)),
      0, 0, w.b2, 0);
  }

  lemma InvMixAfterMixByte3(w: Column)
    ensures InvMixColumn(MixColumn(w)).b3 == w.b3
  {
    Mul0BSpread(Mul02(w.b0), Mul03(w.b1), w.b2, w.b3);
    Mul0DSpread(w.b0, Mul02(w.b1), Mul03(w.b2), w.b3);
    Mul09Spread(w.b0, w.b1, Mul02(w.b2), Mul03(w.b3));
    Mul0ESpread(Mul03(w.b0), w.b1, w.b2, Mul02(w.b3));
    InvMixAfterMixRow3(w.b0);
    InvMixAfterMixRow3(w.b1);
    InvMixAfterMixRow3(w.b2);
    InvMixAfterMixRow3(w.b3);
    Collect(InvMixColumn(MixColumn(w)).b3, Mul0B(Sum4(Mul02(w.b0), Mul03(w.b1), w.b2, w.b3)), Mul0D(Sum4(w.b0, Mul02(w.b1), Mul03(w.b2), w.b3)), Mul09(Sum4(w.b0, w.b1, Mul02(w.b2), Mul03(w.b3))), Mul0E(Sum4(Mul03(w.b0), w.b1, w.b2, Mul02(w.b3))),
      Mul0B(Mul02(w.b0)), Mul0B(Mul03(w.b1)), Mul0B(w.b2), Mul0B(w.b3), Mul0D(w.b0), Mul0D(Mul02(w.b1)), Mul0D(Mul03(w.b2)), Mul0D(w.b3), Mul09(w.b0), Mul09(w.b1), Mul09(Mul02(w.b2)), Mul09(Mul03(w.b3)), Mul0E(Mul03(w.b0)), Mul0E(w.b1), Mul0E(w.b2), Mul0E(Mul02(w.b3)),
      0, 0, 0, w.b3);
  }

  lemma MixAfterInvMixByte0(w: Column)
    ensures MixColumn(InvMixColumn(w)).b0 == w.b0
  {
    Mul02Spread(Mul0E(w.b0), Mul0B(w.b1), Mul0D(w.b2), Mul09(w.b3));
    Mul03Spread(Mul09(w.b0), Mul0E(w.b1), Mul0B(w.b2), Mul0D(w.b3));
    MixAfterInvMixRow0(w.b0);
    MixAfterInvMixRow0(w.b1);
    MixAfterInvMixRow0(w.b2);
    MixAfterInvMixRow0(w.b3);
    Collect(MixColumn(InvMixColumn(w)).b0, Mul02(Sum4(Mul0E(w.b0), Mul0B(w.b1), Mul0D(w.b2), Mul09(w.b3))), Mul03(Sum4(Mul09(w.b0), Mul0E(w.b1), Mul0B(w.b2), Mul0D(w.b3))), Sum4(Mul0D(w.b0), Mul09(w.b1), Mul0E(w.b2), Mul0B(w.b3)), Sum4(Mul0B(w.b0), Mul0D(w.b1), Mul09(w.b2), Mul0E(w.b3)),
      Mul02(Mul0E(w.b0)), Mul02(Mul0B(w.b1)), Mul02(Mul0D(w.b2)), Mul02(Mul09(w.b3)), Mul03(Mul09(w.b0)), Mul03(Mul0E(w.b1)), Mul03(Mul0B(w.b2)), Mul03(Mul0D(w.b3)), Mul0D(w.b0), Mul09(w.b1), Mul0E(w.b2), Mul0B(w.b3), Mul0B(w.b0), Mul0D(w.b1), Mul09(w.b2), Mul0E(w.b3),
      w.b0, 0, 0, 0);
  }

  lemma MixAfterInvMixByte1(w: Column)
    ensures MixColumn(InvMixColumn(w)).b1 == w.b1
  {
    Mul02Spread(Mul09(w.b0), Mul0E(w.b1), Mul0B(w.b2), Mul0D(w.b3));
    Mul03Spread(Mul0D(w.b0), Mul09(w.b1), Mul0E(w.b2), Mul0B(w.b3));
    MixAfterInvMixRow1(w.b0);
    MixAfterInvMixRow1(w.b1);
    MixAfterInvMixRow1(w.b2);
    MixAfterInvMixRow1(w.b3);
    Collect(MixColumn(InvMixColumn(w)).b1, Sum4(Mul0E(w.b0), Mul0B(w.b1), Mul0D(w.b2), Mul09(w.b3)), Mul02(Sum4(Mul09(w.b0), Mul0E(w.b1), Mul0B(w.b2), Mul0D(w.b3))), Mul03(Sum4(Mul0D(w.b0), Mul09(w.b1), Mul0E(w.b2), Mul0B(w.b3))), Sum4(Mul0B(w.b0), Mul0D(w.b1), Mul09(w.b2), Mul0E(w.b3)),
      Mul0E(w.b0), Mul0B(w.b1), Mul0D(w.b2), Mul09(w.b3), Mul02(Mul09(w.b0)), Mul02(Mul0E(w.b1)), Mul02(Mul0B(w.b2)), Mul02(Mul0D(w.b3)), Mul03(Mul0D(w.b0)), Mul03(Mul09(w.b1)), Mul03(Mul0E(w.b2)), Mul03(Mul0B(w.b3)), Mul0B(w.b0), Mul0D(w.b1), Mul09(w.b2), Mul0E(w.b3),
      0, w.b1, 0, 0);
  }

  lemma MixAfterInvMixByte2(w: Column)
    ensures MixColumn(InvMixColumn(w)).b2 == w.b2
  {
    Mul02Spread(Mul0D(w.b0), Mul09(w.b1), Mul0E(w.b2), Mul0B(w.b3));
    Mul03Spread(Mul0B(w.b0), Mul0D(w.b1), Mul09(w.b2), Mul0E(w.b3));
    MixAfterInvMixRow2(w.b0);
    MixAfterInvMixRow2(w.b1);
    MixAfterInvMixRow2(w.b2);
    MixAfterInvMixRow2(w.b3);
    Collect(MixColumn(InvMixColumn(w)).b2, Sum4(Mul0E(w.b0), Mul0B(w.b1), Mul0D(w.b2), Mul09(w.b3)), Sum4(Mul09(w.b0), Mul0E(w.b1), Mul0B(w.b2), Mul0D(w.b3)), Mul02(Sum4(Mul0D(w.b0), Mul09(w.b1), Mul0E(w.b2), Mul0B(w.b3))), Mul03(Sum4(Mul0B(w.b0), Mul0D(w.b1), Mul09(w.b2), Mul0E(w.b3))),
      Mul0E(w.b0), Mul0B(w.b1), Mul0D(w.b2), Mul09(w.b3), Mul09(w.b0), Mul0E(w.b1), Mul0B(w.b2), Mul0D(w.b3), Mul02(Mul0D(w.b0)), Mul02(Mul09(w.b1)), Mul02(Mul0E(w.b2)), Mul02(Mul0B(w.b3)), Mul03(Mul0B(w.b0)), Mul03(Mul0D(w.b1)), Mul03(Mul09(w.b2)), Mul03(Mul0E(w.b3)),
      0, 0, w.b2, 0);
  }

  lemma MixAfterInvMixByte3(w: Column)
    ensures MixColumn(InvMixColumn(w)).b3 == w.b3
  {
    Mul03Spread(Mul0E(w.b0), Mul0B(w.b1), Mul0D(w.b2), Mul09(w.b3));
    Mul02Spread(Mul0B(w.b0), Mul0D(w.b1), Mul09(w.b2), Mul0E(w.b3));
    MixAfterInvMixRow3(w.b0);
    MixAfterInvMixRow3(w.b1);
    MixAfterInvMixRow3(w.b2);
    MixAfterInvMixRow3(w.b3);
    Collect(MixColumn(InvMixColumn(w)).b3, Mul03(Sum4(Mul0E(w.b0), Mul0B(w.b1), Mul0D(w.b2), Mul09(w.b3))), Sum4(Mul09(w.b0), Mul0E(w.b1), Mul0B(w.b2), Mul0D(w.b3)), Sum4(Mul0D(w.b0), Mul09(w.b1), Mul0E(w.b2), Mul0B(w.b3)), Mul02(Sum4(Mul0B(w.b0), Mul0D(w.b1), Mul09(w.b2), Mul0E(w.b3))),
      Mul03(Mul0E(w.b0)), Mul03(Mul0B(w.b1)), Mul03(Mul0D(w.b2)), Mul03(Mul09(w.b3)), Mul09(w.b0), Mul0E(w.b1), Mul0B(w.b2), Mul0D(w.b3), Mul0D(w.b0), Mul09(w.b1), Mul0E(w.b2), Mul0B(w.b3), Mul02(Mul0B(w.b0)), Mul02(Mul0D(w.b1)), Mul02(Mul09(w.b2)), Mul02(Mul0E(w.b3)),
      0, 0, 0, w.b3);
  }
}
