/** Key expansion of FIPS 197 section 5.2 for a 16-byte key, as the
    source computes it: 44 four-byte words, the first four of which are the
    key and each later one derived from the word four places back and the
    word just before it. The source stores word i at bytes 4 * i .. 4 * i + 3
    of the 176-byte schedule. */
module KeySchedule {
  import opened Field
  import opened Tables

  /** Bytes in an AES-128 key. */
  const KeySize := 16

  /** Words in the expanded key: 4 * (10 + 1). */
  const ScheduleWords := 44

  /** Bytes in the expanded key, `sizeof(ak_aes128_expanded_keys)`. */
  const ScheduleBytes := 176

  /** A four-byte word, first byte first. */
  datatype Word = Word(b0: bv8, b1: bv8, b2: bv8, b3: bv8)

  /** Byte j of a word. */
  function Byte(w: Word, j: int): (r: bv8)
  {
    if j == 0 then w.b0 else if j == 1 then w.b1 else if j == 2 then w.b2 else w.b3
  }

  /** RotWord: a cyclic left rotation of the four bytes. */
  function RotWord(w: Word): (r: Word)
  {
    Word(w.b1, w.b2, w.b3, w.b0)
  }

  /** SubWord: the S-box applied to each byte. */
  function SubWord(w: Word): (r: Word)
  {
    Word(Sub(w.b0), Sub(w.b1), Sub(w.b2), Sub(w.b3))
  }

  /** Column r of `RCON`, the round-constant word of round r + 1. */
  function RconWord(r: int): (w: Word)
    requires 0 <= r < 10
  {
    Word(Rcon(0, r), Rcon(1, r), Rcon(2, r), Rcon(3, r))
  }

  /** Bytewise XOR of two words. */
  function XorWord(u: Word, v: Word): (r: Word)
  {
    Word(Add(u.b0, v.b0), Add(u.b1, v.b1), Add(u.b2, v.b2), Add(u.b3, v.b3))
  }

  /** Word i of the schedule from word i - 4 (`back`) and word i - 1
      (`prev`): every fourth word is back XOR SubWord(RotWord(prev)) XOR
      the round constant `RCON[.][i / 4 - 1]`, the others back XOR prev. */
  function NextWord(back: Word, prev: Word, i: int): (r: Word)
    requires 4 <= i < ScheduleWords
  {
    if i % 4 == 0 then XorWord(XorWord(back, SubWord(RotWord(prev))), RconWord(i / 4 - 1))
    else XorWord(back, prev)
  }

  /** Word i of a byte sequence: bytes 4 * i .. 4 * i + 3. */
  function WordAt(ks: seq<bv8>, i: int): (r: Word)
    requires 0 <= i && 4 * i + 4 <= |ks|
  {
    Word(ks[4 * i], ks[4 * i + 1], ks[4 * i + 2], ks[4 * i + 3])
  }

  /** Word i of the schedule of `key`: a word of the key for i < 4, and
      the recurrence step after that. */
  function ScheduleWord(key: seq<bv8>, i: int): (r: Word)
    requires |key| == KeySize && 0 <= i < ScheduleWords
    decreases i, 1
  {
    if i < 4 then WordAt(key, i) else ScheduleStep(key, i)
  }

  /** Word i >= 4 of the schedule of `key`, from words i - 4 and i - 1. */
  function ScheduleStep(key: seq<bv8>, i: int): (r: Word)
    requires |key| == KeySize && 4 <= i < ScheduleWords
    decreases i, 0
  {
    NextWord(ScheduleWord(key, i - 4), ScheduleWord(key, i - 1), i)
  }

  /** The expanded key as the source lays it out: byte 4 * i + j is byte j
      of word i. */
  function KeyExpansion(key: seq<bv8>): (ks: seq<bv8>)
    requires |key| == KeySize
    ensures |ks| == ScheduleBytes
  {
    seq(ScheduleBytes, k requires 0 <= k < ScheduleBytes => Byte(ScheduleWord(key, k / 4), k % 4))
  }

  /** Word i of a byte sequence follows from the words four places and
      one place back. */
  ghost predicate Follows(ks: seq<bv8>, i: int)
    requires 4 <= i < ScheduleWords && 4 * i + 4 <= |ks|
  {
    WordAt(ks, i) == NextWord(WordAt(ks, i - 4), WordAt(ks, i - 1), i)
  }

  /** A 176-byte sequence starts with `key` and its words 4 .. n - 1
      follow the recurrence. */
  ghost predicate SchedulePrefix(key: seq<bv8>, ks: seq<bv8>, n: int)
    requires |key| == KeySize && 4 <= n <= ScheduleWords
  {
    && |ks| == ScheduleBytes
    && ks[..KeySize] == key
    && forall i :: 4 <= i < n ==> Follows(ks, i)
  }

  /** A 176-byte sequence is the schedule of `key` in the sense of section
      5.2: it starts with the key and every later word follows from the
      words four places and one place back. */
  ghost predicate IsSchedule(key: seq<bv8>, ks: seq<bv8>)
    requires |key| == KeySize
  {
    SchedulePrefix(key, ks, ScheduleWords)
  }

  /** Word i of the expanded key is the schedule word i. */
  lemma WordOfExpansion(key: seq<bv8>, i: int)
    requires |key| == KeySize && 0 <= i < ScheduleWords
    ensures WordAt(KeyExpansion(key), i) == ScheduleWord(key, i)
  {
    var ks, w := KeyExpansion(key), ScheduleWord(key, i);
    ByteIndex(i, 0);
    ByteIndex(i, 1);
    ByteIndex(i, 2);
    ByteIndex(i, 3);
    assert ks[4 * i + 0] == w.b0 && ks[4 * i + 1] == w.b1 && ks[4 * i + 2] == w.b2 && ks[4 * i + 3] == w.b3;
  }

  /** Byte 4 * i + j lies in word i at position j. */
  lemma ByteIndex(i: int, j: int)
    requires 0 <= j < 4
    ensures (4 * i + j) / 4 == i && (4 * i + j) % 4 == j
  {
  }

  /** A sequence that follows the recurrence from the key has the schedule
      words up to word n. */
  lemma {:induction false} ScheduleWordsAgree(key: seq<bv8>, ks: seq<bv8>, n: int)
    requires |key| == KeySize && IsSchedule(key, ks) && 0 <= n < ScheduleWords
    ensures forall i :: 0 <= i <= n ==> WordAt(ks, i) == ScheduleWord(key, i)
    decreases n
  {
    if n < 4 {
      forall i | 0 <= i <= n
        ensures WordAt(ks, i) == ScheduleWord(key, i)
      {
        assert ks[4 * i .. 4 * i + 4] == key[4 * i .. 4 * i + 4] by {
          assert ks[..KeySize][4 * i .. 4 * i + 4] == ks[4 * i .. 4 * i + 4];
        }
        assert ks[4 * i .. 4 * i + 4][0] == ks[4 * i];
      }
    } else {
      ScheduleWordsAgree(key, ks, n - 1);
      assert Follows(ks, n);
    }
  }

  /** The first four schedule words are the key. */
  lemma KeyWords(key: seq<bv8>, i: int)
    requires |key| == KeySize && 0 <= i < 4
    ensures WordAt(KeyExpansion(key), i) == WordAt(key, i)
  {
    WordOfExpansion(key, i);
  }

  /** The expanded key starts with the key. */
  lemma ExpansionStartsWithKey(key: seq<bv8>)
    requires |key| == KeySize
    ensures KeyExpansion(key)[..KeySize] == key
  {
    var e := KeyExpansion(key);
    forall i | 0 <= i < 4
      ensures WordAt(e, i) == WordAt(key, i)
    {
      KeyWords(key, i);
    }
    SameWords(e, key, 4);
  }

  /** The expanded key follows the recurrence of section 5.2. */
  lemma ExpansionFollowsRecurrence(key: seq<bv8>, i: int)
    requires |key| == KeySize && 4 <= i < ScheduleWords
    ensures var e := KeyExpansion(key);
      WordAt(e, i) == NextWord(WordAt(e, i - 4), WordAt(e, i - 1), i)
  {
    WordOfExpansion(key, i);
    WordOfExpansion(key, i - 4);
    WordOfExpansion(key, i - 1);
  }

  /** Two byte sequences whose first n words agree agree on their first
      4 * n bytes. */
  lemma SameWords(a: seq<bv8>, b: seq<bv8>, n: int)
    requires 0 <= n && 4 * n <= |a| && 4 * n <= |b|
    requires forall i :: 0 <= i < n ==> WordAt(a, i) == WordAt(b, i)
    ensures a[..4 * n] == b[..4 * n]
  {
    forall k | 0 <= k < 4 * n
      ensures a[k] == b[k]
    {
      var i := k / 4;
      assert WordAt(a, i) == WordAt(b, i);
      assert k == 4 * i + k % 4;
    }
  }

  /** The expanded key is 176 bytes long, starts with the key and follows
      the recurrence of section 5.2. */
  lemma ExpansionIsSchedule(key: seq<bv8>)
    requires |key| == KeySize
    ensures IsSchedule(key, KeyExpansion(key))
  {
    var e := KeyExpansion(key);
    ExpansionStartsWithKey(key);
    forall i | 4 <= i < ScheduleWords
      ensures Follows(e, i)
    {
      ExpansionFollowsRecurrence(key, i);
    }
  }

  /** The expanded key is the only byte sequence that starts with the key
      and follows the recurrence, so it depends on the key bytes alone. */
  lemma ScheduleUnique(key: seq<bv8>, ks: seq<bv8>)
    requires |key| == KeySize && IsSchedule(key, ks)
    ensures ks == KeyExpansion(key)
  {
    var e := KeyExpansion(key);
    ScheduleWordsAgree(key, ks, ScheduleWords - 1);
    forall i | 0 <= i < ScheduleWords
      ensures WordAt(ks, i) == WordAt(e, i)
    {
      WordOfExpansion(key, i);
    }
    SameWords(ks, e, ScheduleWords);
    assert ks == ks[..ScheduleBytes] && e == e[..ScheduleBytes];
  }

  /** Two byte sequences with the same first n words agree on each of
      those words. */
  lemma PrefixWord(a: seq<bv8>, b: seq<bv8>, n: int, w: int)
    requires 0 <= w < n && 4 * n <= |a| && 4 * n <= |b| && a[..4 * n] == b[..4 * n]
    ensures WordAt(a, w) == WordAt(b, w)
  {
    assert a[4 * w] == a[..4 * n][4 * w] && b[4 * w] == b[..4 * n][4 * w];
    assert a[4 * w + 1] == a[..4 * n][4 * w + 1] && b[4 * w + 1] == b[..4 * n][4 * w + 1];
    assert a[4 * w + 2] == a[..4 * n][4 * w + 2] && b[4 * w + 2] == b[..4 * n][4 * w + 2];
    assert a[4 * w + 3] == a[..4 * n][4 * w + 3] && b[4 * w + 3] == b[..4 * n][4 * w + 3];
  }

  /** Agreement on the first n words and on word n is agreement on the
      first n + 1 words. */
  lemma ExtendPrefix(a: seq<bv8>, b: seq<bv8>, n: int)
    requires 0 <= n && 4 * n + 4 <= |a| && 4 * n + 4 <= |b|
    requires a[..4 * n] == b[..4 * n] && WordAt(a, n) == WordAt(b, n)
    ensures a[..4 * n + 4] == b[..4 * n + 4]
  {
    forall k | 0 <= k < 4 * n + 4
      ensures a[k] == b[k]
    {
      if k < 4 * n {
        assert a[k] == a[..4 * n][k] && b[k] == b[..4 * n][k];
      }
    }
  }

  /** A word whose four bytes are bytes 4 * i .. 4 * i + 3 of a sequence
      is word i of it. */
  lemma WordOfBytes(ks: seq<bv8>, i: int, w: Word)
    requires 0 <= i && 4 * i + 4 <= |ks|
    requires forall j :: 0 <= j < 4 ==> ks[4 * i + j] == Byte(w, j)
    ensures WordAt(ks, i) == w
  {
    assert ks[4 * i + 0] == Byte(w, 0);
    assert ks[4 * i + 1] == Byte(w, 1);
    assert ks[4 * i + 2] == Byte(w, 2);
    assert ks[4 * i + 3] == Byte(w, 3);
  }

  /** The recurrence on the first n words depends on those words alone. */
  lemma FollowsPrefix(a: seq<bv8>, b: seq<bv8>, n: int)
    requires 4 <= n <= ScheduleWords && 4 * n <= |a| && 4 * n <= |b| && a[..4 * n] == b[..4 * n]
    requires forall w :: 4 <= w < n ==> Follows(a, w)
    ensures forall w :: 4 <= w < n ==> Follows(b, w)
  {
    forall w | 4 <= w < n
      ensures Follows(b, w)
    {
      assert Follows(a, w);
      PrefixWord(a, b, n, w);
      PrefixWord(a, b, n, w - 4);
      PrefixWord(a, b, n, w - 1);
    }
  }

  /** Writing word n by the recurrence, and leaving the words before it
      alone, extends a schedule prefix by one word. */
  lemma ExtendSchedule(key: seq<bv8>, a: seq<bv8>, b: seq<bv8>, n: int)
    requires |key| == KeySize && 4 <= n < ScheduleWords && SchedulePrefix(key, a, n)
    requires |b| == ScheduleBytes && b[..4 * n] == a[..4 * n]
    requires WordAt(b, n) == NextWord(WordAt(a, n - 4), WordAt(a, n - 1), n)
    ensures SchedulePrefix(key, b, n + 1)
  {
    PrefixWord(a, b, n, n - 4);
    PrefixWord(a, b, n, n - 1);
    assert Follows(b, n);
    FollowsPrefix(a, b, n);
    assert b[..KeySize] == b[..4 * n][..KeySize];
  }

  /** Byte j of a XOR of words is the XOR of the bytes j. */
  lemma XorWordBytes(u: Word, v: Word, j: int)
    requires 0 <= j < 4
    ensures Byte(XorWord(u, v), j) == Add(Byte(u, j), Byte(v, j))
  {
  }

  /** Byte j of the round-constant word of round r + 1 is `RCON[j][r]`. */
  lemma RconWordBytes(r: int, j: int)
    requires 0 <= r < 10 && 0 <= j < 4
    ensures Byte(RconWord(r), j) == Rcon(j, r)
  {
  }

  /** Byte j of word i of a byte sequence is byte 4 * i + j. */
  lemma WordAtBytes(ks: seq<bv8>, i: int, j: int)
    requires 0 <= i && 4 * i + 4 <= |ks| && 0 <= j < 4
    ensures Byte(WordAt(ks, i), j) == ks[4 * i + j]
  {
  }

  /** Byte j of word i of the expanded key is byte j of schedule word i. */
  lemma ExpansionByte(key: seq<bv8>, i: int, j: int)
    requires |key| == KeySize && 0 <= i < ScheduleWords && 0 <= j < 4
    ensures KeyExpansion(key)[4 * i + j] == Byte(ScheduleWord(key, i), j)
  {
    WordOfExpansion(key, i);
    WordAtBytes(KeyExpansion(key), i, j);
  }

  /** Byte j of back XOR sub XOR the round-constant word of round r + 1
      is the bytewise sum with `RCON[j][r]`. */
  lemma RconStepByte(back: Word, sub: Word, r: int, j: int)
    requires 0 <= r < 10 && 0 <= j < 4
    ensures Byte(XorWord(XorWord(back, sub), RconWord(r)), j) == Add(Add(Byte(back, j), Byte(sub, j)), Rcon(j, r))
  {
    XorWordBytes(XorWord(back, sub), RconWord(r), j);
    XorWordBytes(back, sub, j);
    RconWordBytes(r, j);
  }
}
