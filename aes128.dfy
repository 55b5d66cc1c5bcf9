/** The in-place round transformations of `source/ak_aes128.c`: each works
    on the 16-byte state buffer with the source's own loops and is proved
    to compute the transformation of the same name in `Transforms`. */
module InPlace {
  import opened Field
  import opened Tables
  import opened Transforms

  /** `ak_aes128_add_round_key`: column by column, XOR the four bytes of
      column col with schedule bytes `(4 * round + col) * 4 ..`. */
  method AddRoundKeyInPlace(state: array<bv8>, ks: array<bv8>, round: int)
    requires state.Length == BlockSize && ks.Length == ScheduleSize && 0 <= round <= Rounds
    modifies state
    ensures state[..] == AddRoundKey(old(state[..]), ks[..], round)
  {
    ghost var s0 := state[..];
    for col := 0 to 4
      invariant forall k :: 0 <= k < BlockSize ==> state[k] == if k < 4 * col then Add(s0[k], ks[16 * round + k]) else s0[k]
    {
      for j := 0 to 4
        invariant forall k :: 0 <= k < BlockSize ==> state[k] == if k < 4 * col + j then Add(s0[k], ks[16 * round + k]) else s0[k]
      {
        assert j + (4 * round + col) * 4 == 16 * round + (j + col * 4);
        state[j + col * 4] := Add(state[j + col * 4], ks[j + (4 * round + col) * 4]);
      }
    }
  }

  /** `ak_aes128_sub_bytes`: every byte replaced by its `SBOX` entry. */
  method SubBytesInPlace(state: array<bv8>)
    requires state.Length == BlockSize
    modifies state
    ensures state[..] == SubBytes(old(state[..]))
  {
    ghost var s0 := state[..];
    for i := 0 to 4
      invariant forall k :: 0 <= k < BlockSize ==> state[k] == if k < 4 * i then Sub(s0[k]) else s0[k]
    {
      for j := 0 to 4
        invariant forall k :: 0 <= k < BlockSize ==> state[k] == if k < 4 * i + j then Sub(s0[k]) else s0[k]
      {
        var x := state[i * 4 + j];
        var index: bv8 := 16 * (x / 0x10) + x % 0x10;
        TableIndex(x);
        state[i * 4 + j] := Sub(index);
      }
    }
  }

  /** `ak_aes128_inv_sub_bytes`: every byte replaced by its `INV_SBOX`
      entry. */
  method InvSubBytesInPlace(state: array<bv8>)
    requires state.Length == BlockSize
    modifies state
    ensures state[..] == InvSubBytes(old(state[..]))
  {
    ghost var s0 := state[..];
    for i := 0 to 4
      invariant forall k :: 0 <= k < BlockSize ==> state[k] == if k < 4 * i then InvSub(s0[k]) else s0[k]
    {
      for j := 0 to 4
        invariant forall k :: 0 <= k < BlockSize ==> state[k] == if k < 4 * i + j then InvSub(s0[k]) else s0[k]
      {
        var x := state[i * 4 + j];
        var index: bv8 := 16 * (x / 0x10) + x % 0x10;
        TableIndex(x);
        state[i * 4 + j] := InvSub(index);
      }
    }
  }

  // ShiftRows as the source performs it: row `count` is rotated by one
  // place `count` times, each rotation going through a four-byte buffer.

  /** The column a byte of column c comes from after t < 4 rotations of
      its row: t places on to the left, or t places back to the right,
      wrapping around. */
  function SourceColumn(c: int, t: int, left: bool): (s: int)
    requires 0 <= c < 4 && 0 <= t < 4
    ensures 0 <= s < 4
  {
    if left then (if c + t < 4 then c + t else c + t - 4)
    else (if t <= c then c - t else c - t + 4)
  }

  /** A rotation followed by t more is t + 1 rotations. */
  lemma SourceColumnStep(c: int, t: int, left: bool)
    requires 0 <= c < 4 && 0 <= t < 3
    ensures SourceColumn(SourceColumn(c, 1, left), t, left) == SourceColumn(c, t + 1, left)
  {
  }

  /** How many times row q has been rotated once rows 1 .. n - 1 are done
      and row n has been rotated t times. */
  function Rotations(q: int, n: int, t: int): (k: int)
    requires 0 <= q < 4 && 0 <= t < 4
    ensures 0 <= k < 4
  {
    if q < n then q else if q == n then t else 0
  }

  /** The byte in row q of column c. */
  ghost function Cell(st: seq<bv8>, c: int, q: int): (r: bv8)
    requires |st| == BlockSize && 0 <= c < 4 && 0 <= q < 4
  {
    st[At(c, q)]
  }

  /** st is s0 with rows 1 .. n - 1 rotated by their number of places and
      row n rotated t places. */
  ghost predicate RowsRotated(st: seq<bv8>, s0: seq<bv8>, n: int, t: int, left: bool)
    requires |st| == BlockSize && |s0| == BlockSize && 0 <= t < 4
  {
    forall c, q {:trigger Cell(st, c, q)} :: 0 <= c < 4 && 0 <= q < 4 ==>
      Cell(st, c, q) == s0[4 * SourceColumn(c, Rotations(q, n, t), left) + q]
  }

  /** st' is st with row r rotated one place: to the left, so column c
      receives the byte of column c + 1, or to the right. */
  ghost predicate RotatedOnce(st': seq<bv8>, st: seq<bv8>, r: int, left: bool)
    requires |st'| == BlockSize && |st| == BlockSize && 0 <= r < 4
  {
    (forall c {:trigger Cell(st', c, r)} :: 0 <= c < 4 ==>
      Cell(st', c, r) == Cell(st, SourceColumn(c, 1, left), r)) &&
    (forall c, q {:trigger Cell(st', c, q)} :: 0 <= c < 4 && 0 <= q < 4 && q != r ==> Cell(st', c, q) == Cell(st, c, q))
  }

  /** Nothing is rotated at the start. */
  lemma RowsRotatedStart(s0: seq<bv8>, left: bool)
    requires |s0| == BlockSize
    ensures RowsRotated(s0, s0, 1, 0, left)
  {
    forall c, q | 0 <= c < 4 && 0 <= q < 4
      ensures Cell(s0, c, q) == s0[4 * SourceColumn(c, Rotations(q, 1, 0), left) + q]
    {
      assert SourceColumn(c, Rotations(q, 1, 0), left) == c;
    }
  }

  /** One more rotation of row n. */
  lemma RowsRotatedStep(st': seq<bv8>, st: seq<bv8>, s0: seq<bv8>, n: int, t: int, left: bool)
    requires |st'| == BlockSize && |st| == BlockSize && |s0| == BlockSize && 1 <= n < 4 && 0 <= t < n
    requires RowsRotated(st, s0, n, t, left) && RotatedOnce(st', st, n, left)
    ensures RowsRotated(st', s0, n, t + 1, left)
  {
    forall c, q | 0 <= c < 4 && 0 <= q < 4
      ensures Cell(st', c, q) == s0[4 * SourceColumn(c, Rotations(q, n, t + 1), left) + q]
    {
      RowsRotatedCell(st', st, s0, n, t, left, c, q);
    }
  }

  /** RowsRotatedStep for the byte in row q of column c. */
  lemma RowsRotatedCell(st': seq<bv8>, st: seq<bv8>, s0: seq<bv8>, n: int, t: int, left: bool, c: int, q: int)
    requires |st'| == BlockSize && |st| == BlockSize && |s0| == BlockSize && 1 <= n < 4 && 0 <= t < n
    requires 0 <= c < 4 && 0 <= q < 4
    requires RowsRotated(st, s0, n, t, left) && RotatedOnce(st', st, n, left)
    ensures Cell(st', c, q) == s0[4 * SourceColumn(c, Rotations(q, n, t + 1), left) + q]
  {
    if q == n {
      var c' := SourceColumn(c, 1, left);
      assert Cell(st', c, n) == Cell(st, c', n);
      assert Cell(st, c', n) == s0[4 * SourceColumn(c', t, left) + n];
      SourceColumnStep(c, t, left);
    } else {
      assert Cell(st', c, q) == Cell(st, c, q);
      assert Rotations(q, n, t + 1) == Rotations(q, n, t);
    }
  }

  /** Row n rotated n places: row n is done. */
  lemma RowsRotatedNext(st: seq<bv8>, s0: seq<bv8>, n: int, left: bool)
    requires |st| == BlockSize && |s0| == BlockSize && 1 <= n < 4
    requires RowsRotated(st, s0, n, n, left)
    ensures RowsRotated(st, s0, n + 1, 0, left)
  {
    forall c, q | 0 <= c < 4 && 0 <= q < 4
      ensures Cell(st, c, q) == s0[4 * SourceColumn(c, Rotations(q, n + 1, 0), left) + q]
    {
      assert Rotations(q, n + 1, 0) == Rotations(q, n, n);
    }
  }

  /** Rotating row r by r places for every row is ShiftRows (to the left)
      and InvShiftRows (to the right). */
  lemma RowsRotatedDone(st: seq<bv8>, s0: seq<bv8>, left: bool)
    requires |st| == BlockSize && |s0| == BlockSize
    requires RowsRotated(st, s0, 4, 0, left)
    ensures st == if left then ShiftRows(s0) else InvShiftRows(s0)
  {
    var u := if left then ShiftRows(s0) else InvShiftRows(s0);
    forall c, q | 0 <= c < 4 && 0 <= q < 4
      ensures st[At(c, q)] == u[At(c, q)]
    {
      RowsRotatedDoneCell(st, s0, left, c, q);
    }
    forall k | 0 <= k < BlockSize
      ensures st[k] == u[k]
    {
      Position(k);
    }
  }

  /** RowsRotatedDone for the byte in row q of column c. */
  lemma RowsRotatedDoneCell(st: seq<bv8>, s0: seq<bv8>, left: bool, c: int, q: int)
    requires |st| == BlockSize && |s0| == BlockSize && 0 <= c < 4 && 0 <= q < 4
    requires RowsRotated(st, s0, 4, 0, left)
    ensures st[At(c, q)] == (if left then ShiftRows(s0) else InvShiftRows(s0))[At(c, q)]
  {
    ShiftRowsMoves(s0, c, q);
    assert Cell(st, c, q) == s0[4 * SourceColumn(c, q, left) + q];
  }

  /** s with the first n bytes of row r replaced by those of t. */
  ghost function RowWritten(s: seq<bv8>, r: int, t: seq<bv8>, n: int): (u: seq<bv8>)
    requires |s| == BlockSize && 0 <= r < 4 && |t| == 4 && 0 <= n <= 4
    ensures |u| == BlockSize
  {
    if n == 0 then s else RowWritten(s, r, t, n - 1)[At(n - 1, r) := t[n - 1]]
  }

  /** Writing back a buffer that holds row r shifted by one place rotates
      the row. */
  lemma RowWrittenRotates(s: seq<bv8>, r: int, t: seq<bv8>, left: bool)
    requires |s| == BlockSize && 0 <= r < 4 && |t| == 4
    requires forall j :: 0 <= j < 4 ==> t[j] == s[At(SourceColumn(j, 1, left), r)]
    ensures RotatedOnce(RowWritten(s, r, t, 4), s, r, left)
  {
    var u := RowWritten(s, r, t, 4);
    assert RowWritten(s, r, t, 1) == s[At(0, r) := t[0]];
    assert RowWritten(s, r, t, 2) == RowWritten(s, r, t, 1)[At(1, r) := t[1]];
    assert RowWritten(s, r, t, 3) == RowWritten(s, r, t, 2)[At(2, r) := t[2]];
    assert u == RowWritten(s, r, t, 3)[At(3, r) := t[3]];
    forall c | 0 <= c < 4
      ensures Cell(u, c, r) == Cell(s, SourceColumn(c, 1, left), r)
    {
      assert c == 0 || c == 1 || c == 2 || c == 3;
    }
    forall c, q | 0 <= c < 4 && 0 <= q < 4 && q != r
      ensures Cell(u, c, q) == Cell(s, c, q)
    {
      assert At(c, q) != At(0, r) && At(c, q) != At(1, r) && At(c, q) != At(2, r) && At(c, q) != At(3, r);
    }
  }

  /** `ak_aes128_shift_rows`: for row count = 1, 2, 3, count times
      rotate the row one place to the left. */
  method ShiftRowsInPlace(state: array<bv8>)
    requires state.Length == BlockSize
    modifies state
    ensures state[..] == ShiftRows(old(state[..]))
  {
    ghost var s0 := state[..];
    var tmp := new bv8[4];
    RowsRotatedStart(s0, true);
    for count := 1 to 4
      invariant RowsRotated(state[..], s0, count, 0, true)
    {
      // count passes; the counter runs from 0 rather than 1, unused either way
      for c := 0 to count
        invariant RowsRotated(state[..], s0, count, c, true)
      {
        ghost var before := state[..];
        RotateRowLeft(state, tmp, count);
        RowsRotatedStep(state[..], before, s0, count, c, true);
      }
      RowsRotatedNext(state[..], s0, count, true);
    }
    RowsRotatedDone(state[..], s0, true);
  }

  /** One pass of the inner loop of `ak_aes128_shift_rows`: copy row
      `row` into the buffer one place to the left, then back. */
  method RotateRowLeft(state: array<bv8>, tmp: array<bv8>, row: int)
    requires state.Length == BlockSize && tmp.Length == 4 && 0 <= row < 4
    modifies state, tmp
    ensures RotatedOnce(state[..], old(state[..]), row, true)
  {
    for i := 0 to 4
      modifies tmp
      invariant forall j :: 1 <= j < i ==> tmp[j - 1] == state[At(j, row)]
      invariant 0 < i ==> tmp[3] == state[At(0, row)]
    {
      if i - 1 >= 0 {
        tmp[i - 1] := state[At(i, row)];
      } else {
        tmp[3] := state[At(i, row)];
      }
    }
    ghost var before := state[..];
    assert before == old(state[..]);
    for i := 0 to 4
      modifies state
      invariant state[..] == RowWritten(before, row, tmp[..], i)
    {
      state[At(i, row)] := tmp[i];
    }
    RowWrittenRotates(before, row, tmp[..], true);
  }

  /** `ak_aes128_inv_shift_rows`: for row count = 1, 2, 3, count times
      rotate the row one place to the right. */
  method InvShiftRowsInPlace(state: array<bv8>)
    requires state.Length == BlockSize
    modifies state
    ensures state[..] == InvShiftRows(old(state[..]))
  {
    ghost var s0 := state[..];
    var tmp := new bv8[4];
    RowsRotatedStart(s0, false);
    for count := 1 to 4
      invariant RowsRotated(state[..], s0, count, 0, false)
    {
      // count passes; the counter runs from 0 rather than 1, unused either way
      for c := 0 to count
        invariant RowsRotated(state[..], s0, count, c, false)
      {
        ghost var before := state[..];
        RotateRowRight(state, tmp, count);
        RowsRotatedStep(state[..], before, s0, count, c, false);
      }
      RowsRotatedNext(state[..], s0, count, false);
    }
    RowsRotatedDone(state[..], s0, false);
  }

  /** One pass of the inner loop of `ak_aes128_inv_shift_rows`: copy row
      `row` into the buffer one place to the right, then back. */
  method RotateRowRight(state: array<bv8>, tmp: array<bv8>, row: int)
    requires state.Length == BlockSize && tmp.Length == 4 && 0 <= row < 4
    modifies state, tmp
    ensures RotatedOnce(state[..], old(state[..]), row, false)
  {
    for i := 0 to 4
      modifies tmp
      invariant forall j :: 0 <= j < i && j < 3 ==> tmp[j + 1] == state[At(j, row)]
      invariant i == 4 ==> tmp[0] == state[At(3, row)]
    {
      if i + 1 < 4 {
        tmp[i + 1] := state[At(i, row)];
      } else {
        tmp[0] := state[At(i, row)];
      }
    }
    ghost var before := state[..];
    assert before == old(state[..]);
    for i := 0 to 4
      modifies state
      invariant state[..] == RowWritten(before, row, tmp[..], i)
    {
      state[At(i, row)] := tmp[i];
    }
    RowWrittenRotates(before, row, tmp[..], false);
  }

  /** The state whose first n columns are those of `full` and whose other
      columns are those of s0: the state after n passes of a loop that
      rewrites s0 column by column into `full`. */
  ghost function ColumnsDone(s0: seq<bv8>, full: seq<bv8>, n: int): (st: seq<bv8>)
    requires |s0| == BlockSize && |full| == BlockSize && 0 <= n <= 4
    ensures |st| == BlockSize
  {
    seq(BlockSize, k requires 0 <= k < BlockSize => if k < 4 * n then full[k] else s0[k])
  }

  /** Pass n reads column n as it was in s0 and writes column n of `full`. */
  lemma ColumnsDoneStep(s0: seq<bv8>, full: seq<bv8>, n: int)
    requires |s0| == BlockSize && |full| == BlockSize && 0 <= n < 4
    ensures ColumnOf(ColumnsDone(s0, full, n), n) == ColumnOf(s0, n)
    ensures ColumnsDone(s0, full, n + 1)
      == ColumnsDone(s0, full, n)[At(n, 0) := full[At(n, 0)]][At(n, 1) := full[At(n, 1)]]
                                 [At(n, 2) := full[At(n, 2)]][At(n, 3) := full[At(n, 3)]]
  {
  }

  /** `ak_aes128_mix_columns`: each column replaced by its product with
      the MixColumns matrix, the four new bytes computed before any is
      written. */
  method MixColumnsInPlace(state: array<bv8>)
    requires state.Length == BlockSize
    modifies state
    ensures state[..] == MixColumns(old(state[..]))
  {
    ghost var init := state[..];
    ghost var full := MixColumns(init);
    assert ColumnsDone(init, full, 0) == init;
    for i := 0 to 4
      invariant state[..] == ColumnsDone(init, full, i)
    {
      ColumnsDoneStep(init, full, i);
      ColumnsOfMixColumns(init, i);
      var mixed := MixColumn(Column(state[0 + i * 4], state[1 + i * 4], state[2 + i * 4], state[3 + i * 4]));
      assert mixed == ColumnOf(full, i);
      state[0 + i * 4] := mixed.b0;
      state[1 + i * 4] := mixed.b1;
      state[2 + i * 4] := mixed.b2;
      state[3 + i * 4] := mixed.b3;
    }
    assert ColumnsDone(init, full, 4) == full;
  }

  /** `ak_aes128_inv_mix_columns`: each column replaced by its product
      with the InvMixColumns matrix. */
  method InvMixColumnsInPlace(state: array<bv8>)
    requires state.Length == BlockSize
    modifies state
    ensures state[..] == InvMixColumns(old(state[..]))
  {
    ghost var init := state[..];
    ghost var full := InvMixColumns(init);
    assert ColumnsDone(init, full, 0) == init;
    for i := 0 to 4
      invariant state[..] == ColumnsDone(init, full, i)
    {
      ColumnsDoneStep(init, full, i);
      ColumnsOfMixColumns(init, i);
      var mixed := InvMixColumn(Column(state[0 + i * 4], state[1 + i * 4], state[2 + i * 4], state[3 + i * 4]));
      assert mixed == ColumnOf(full, i);
      state[0 + i * 4] := mixed.b0;
      state[1 + i * 4] := mixed.b1;
      state[2 + i * 4] := mixed.b2;
      state[3 + i * 4] := mixed.b3;
    }
    assert ColumnsDone(init, full, 4) == full;
  }
}
