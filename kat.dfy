/** The known-answer test of the library's self-test: the key, plaintext and
    ciphertext of FIPS 197 appendix C.1, with the round keys of appendix A.1
    and the round-by-round states of appendix C.1 as intermediate values. */
module Kat {
  import opened Field
  import opened Tables
  import opened Transforms
  import opened KeySchedule
  import opened Cipher

  /** The self-test's key `00 01 .. 0f`. */
  const KatKey: seq<bv8> := seq(KeySize, i requires 0 <= i < KeySize => i as bv8)

  /** The self-test's plaintext. */
  const KatPlain: seq<bv8> := [0x00, 0x11, 0x22, 0x33, 0x44, 0x55, 0x66, 0x77, 0x88, 0x99, 0xaa, 0xbb, 0xcc, 0xdd, 0xee, 0xff]

  /** The ciphertext the self-test prints for them. */
  const KatCipher: seq<bv8> := [0x69, 0xc4, 0xe0, 0xd8, 0x6a, 0x7b, 0x04, 0x30, 0xd8, 0xcd, 0xb7, 0x80, 0x70, 0xb4, 0xc5, 0x5a]

  /** The state after round r of the cipher on KatPlain (FIPS 197 appendix C.1). */
  function KatState(r: int): (s: seq<bv8>)
    requires 0 <= r < Rounds
    ensures |s| == BlockSize
  {
    if r == 0 then [0x00, 0x10, 0x20, 0x30, 0x40, 0x50, 0x60, 0x70, 0x80, 0x90, 0xa0, 0xb0, 0xc0, 0xd0, 0xe0, 0xf0]
    else if r == 1 then [0x89, 0xd8, 0x10, 0xe8, 0x85, 0x5a, 0xce, 0x68, 0x2d, 0x18, 0x43, 0xd8, 0xcb, 0x12, 0x8f, 0xe4]
    else if r == 2 then [0x49, 0x15, 0x59, 0x8f, 0x55, 0xe5, 0xd7, 0xa0, 0xda, 0xca, 0x94, 0xfa, 0x1f, 0x0a, 0x63, 0xf7]
    else if r == 3 then [0xfa, 0x63, 0x6a, 0x28, 0x25, 0xb3, 0x39, 0xc9, 0x40, 0x66, 0x8a, 0x31, 0x57, 0x24, 0x4d, 0x17]
    else if r == 4 then [0x24, 0x72, 0x40, 0x23, 0x69, 0x66, 0xb3, 0xfa, 0x6e, 0xd2, 0x75, 0x32, 0x88, 0x42, 0x5b, 0x6c]
    else if r == 5 then [0xc8, 0x16, 0x77, 0xbc, 0x9b, 0x7a, 0xc9, 0x3b, 0x25, 0x02, 0x79, 0x92, 0xb0, 0x26, 0x19, 0x96]
    else if r == 6 then [0xc6, 0x2f, 0xe1, 0x09, 0xf7, 0x5e, 0xed, 0xc3, 0xcc, 0x79, 0x39, 0x5d, 0x84, 0xf9, 0xcf, 0x5d]
    else if r == 7 then [0xd1, 0x87, 0x6c, 0x0f, 0x79, 0xc4, 0x30, 0x0a, 0xb4, 0x55, 0x94, 0xad, 0xd6, 0x6f, 0xf4, 0x1f]
    else if r == 8 then [0xfd, 0xe3, 0xba, 0xd2, 0x05, 0xe5, 0xd0, 0xd7, 0x35, 0x47, 0x96, 0x4e, 0xf1, 0xfe, 0x37, 0xf1]
    else [0xbd, 0x6e, 0x7c, 0x3d, 0xf2, 0xb5, 0x77, 0x9e, 0x0b, 0x61, 0x21, 0x6e, 0x8b, 0x10, 0xb6, 0x89]
  }

  /** One step of the key schedule, from the values of the words it reads. */
  lemma ScheduleStepIs(key: seq<bv8>, i: int, back: Word, prev: Word, next: Word)
    requires |key| == KeySize && 4 <= i < ScheduleWords
    requires ScheduleWordIs(key, i - 4, back) && ScheduleWordIs(key, i - 1, prev)
    requires NextWord(back, prev, i) == next
    ensures ScheduleWordIs(key, i, next)
  {
    assert ScheduleWord(key, i) == ScheduleStep(key, i);
  }

  /** A step of the key schedule that does not fall on a multiple of four
      is the exclusive or of the two words it reads. */
  lemma ScheduleXorStepIs(key: seq<bv8>, i: int, back: Word, prev: Word)
    requires |key| == KeySize && 4 <= i < ScheduleWords && i % 4 != 0
    requires ScheduleWordIs(key, i - 4, back) && ScheduleWordIs(key, i - 1, prev)
    ensures ScheduleWordIs(key, i, XorWord(back, prev))
  {
    ScheduleStepIs(key, i, back, prev, XorWord(back, prev));
  }

  /** Word i of the key schedule of `key` is w. */
  ghost predicate ScheduleWordIs(key: seq<bv8>, i: int, w: Word)
    requires |key| == KeySize && 0 <= i < ScheduleWords
  {
    ScheduleWord(key, i) == w
  }

  /** Words 0 .. 3 of the key schedule of KatKey: the key itself. */
  lemma KatKeyWords()
    ensures ScheduleWordIs(KatKey, 0, Word(0x00, 0x01, 0x02, 0x03)) && ScheduleWordIs(KatKey, 1, Word(0x04, 0x05, 0x06, 0x07))
    ensures ScheduleWordIs(KatKey, 2, Word(0x08, 0x09, 0x0a, 0x0b)) && ScheduleWordIs(KatKey, 3, Word(0x0c, 0x0d, 0x0e, 0x0f))
  {
  }

  /** Word 4 of the key schedule of KatKey (FIPS 197 appendix A.1). */
  lemma KatWord4()
    ensures ScheduleWordIs(KatKey, 4, Word(0xd6, 0xaa, 0x74, 0xfd))
  {
    KatKeyWords();
    RconPowers();
    ScheduleStepIs(KatKey, 4, Word(0x00, 0x01, 0x02, 0x03), Word(0x0c, 0x0d, 0x0e, 0x0f), Word(0xd6, 0xaa, 0x74, 0xfd));
  }

  /** Word 5 of the key schedule of KatKey (FIPS 197 appendix A.1). */
  lemma KatWord5()
    ensures ScheduleWordIs(KatKey, 5, Word(0xd2, 0xaf, 0x72, 0xfa))
  {
    KatKeyWords();
    KatWord4();
    ScheduleXorStepIs(KatKey, 5, Word(0x04, 0x05, 0x06, 0x07), Word(0xd6, 0xaa, 0x74, 0xfd));
  }

  /** Word 6 of the key schedule of KatKey (FIPS 197 appendix A.1). */
  lemma KatWord6()
    ensures ScheduleWordIs(KatKey, 6, Word(0xda, 0xa6, 0x78, 0xf1))
  {
    KatKeyWords();
    KatWord5();
    ScheduleXorStepIs(KatKey, 6, Word(0x08, 0x09, 0x0a, 0x0b), Word(0xd2, 0xaf, 0x72, 0xfa));
  }

  /** Word 7 of the key schedule of KatKey (FIPS 197 appendix A.1). */
  lemma KatWord7()
    ensures ScheduleWordIs(KatKey, 7, Word(0xd6, 0xab, 0x76, 0xfe))
  {
    KatKeyWords();
    KatWord6();
    ScheduleXorStepIs(KatKey, 7, Word(0x0c, 0x0d, 0x0e, 0x0f), Word(0xda, 0xa6, 0x78, 0xf1));
  }

  /** Word 8 of the key schedule of KatKey (FIPS 197 appendix A.1). */
  lemma KatWord8()
    ensures ScheduleWordIs(KatKey, 8, Word(0xb6, 0x92, 0xcf, 0x0b))
  {
    KatWord4();
    KatWord7();
    RconPowers();
    ScheduleStepIs(KatKey, 8, Word(0xd6, 0xaa, 0x74, 0xfd), Word(0xd6, 0xab, 0x76, 0xfe), Word(0xb6, 0x92, 0xcf, 0x0b));
  }

  /** Word 9 of the key schedule of KatKey (FIPS 197 appendix A.1). */
  lemma KatWord9()
    ensures ScheduleWordIs(KatKey, 9, Word(0x64, 0x3d, 0xbd, 0xf1))
  {
    KatWord5();
    KatWord8();
    ScheduleXorStepIs(KatKey, 9, Word(0xd2, 0xaf, 0x72, 0xfa), Word(0xb6, 0x92, 0xcf, 0x0b));
  }

  /** Word 10 of the key schedule of KatKey (FIPS 197 appendix A.1). */
  lemma KatWord10()
    ensures ScheduleWordIs(KatKey, 10, Word(0xbe, 0x9b, 0xc5, 0x00))
  {
    KatWord6();
    KatWord9();
    ScheduleXorStepIs(KatKey, 10, Word(0xda, 0xa6, 0x78, 0xf1), Word(0x64, 0x3d, 0xbd, 0xf1));
  }

  /** Word 11 of the key schedule of KatKey (FIPS 197 appendix A.1). */
  lemma KatWord11()
    ensures ScheduleWordIs(KatKey, 11, Word(0x68, 0x30, 0xb3, 0xfe))
  {
    KatWord7();
    KatWord10();
    ScheduleXorStepIs(KatKey, 11, Word(0xd6, 0xab, 0x76, 0xfe), Word(0xbe, 0x9b, 0xc5, 0x00));
  }

  /** Word 12 of the key schedule of KatKey (FIPS 197 appendix A.1). */
  lemma KatWord12()
    ensures ScheduleWordIs(KatKey, 12, Word(0xb6, 0xff, 0x74, 0x4e))
  {
    KatWord8();
    KatWord11();
    RconPowers();
    ScheduleStepIs(KatKey, 12, Word(0xb6, 0x92, 0xcf, 0x0b), Word(0x68, 0x30, 0xb3, 0xfe), Word(0xb6, 0xff, 0x74, 0x4e));
  }

  /** Word 13 of the key schedule of KatKey (FIPS 197 appendix A.1). */
  lemma KatWord13()
    ensures ScheduleWordIs(KatKey, 13, Word(0xd2, 0xc2, 0xc9, 0xbf))
  {
    KatWord9();
    KatWord12();
    ScheduleXorStepIs(KatKey, 13, Word(0x64, 0x3d, 0xbd, 0xf1), Word(0xb6, 0xff, 0x74, 0x4e));
  }

  /** Word 14 of the key schedule of KatKey (FIPS 197 appendix A.1). */
  lemma KatWord14()
    ensures ScheduleWordIs(KatKey, 14, Word(0x6c, 0x59, 0x0c, 0xbf))
  {
    KatWord10();
    KatWord13();
    ScheduleXorStepIs(KatKey, 14, Word(0xbe, 0x9b, 0xc5, 0x00), Word(0xd2, 0xc2, 0xc9, 0xbf));
  }

  /** Word 15 of the key schedule of KatKey (FIPS 197 appendix A.1). */
  lemma KatWord15()
    ensures ScheduleWordIs(KatKey, 15, Word(0x04, 0x69, 0xbf, 0x41))
  {
    KatWord11();
    KatWord14();
    ScheduleXorStepIs(KatKey, 15, Word(0x68, 0x30, 0xb3, 0xfe), Word(0x6c, 0x59, 0x0c, 0xbf));
  }

  /** Word 16 of the key schedule of KatKey (FIPS 197 appendix A.1). */
  lemma KatWord16()
    ensures ScheduleWordIs(KatKey, 16, Word(0x47, 0xf7, 0xf7, 0xbc))
  {
    KatWord12();
    KatWord15();
    RconPowers();
    ScheduleStepIs(KatKey, 16, Word(0xb6, 0xff, 0x74, 0x4e), Word(0x04, 0x69, 0xbf, 0x41), Word(0x47, 0xf7, 0xf7, 0xbc));
  }

  /** Word 17 of the key schedule of KatKey (FIPS 197 appendix A.1). */
  lemma KatWord17()
    ensures ScheduleWordIs(KatKey, 17, Word(0x95, 0x35, 0x3e, 0x03))
  {
    KatWord13();
    KatWord16();
    ScheduleXorStepIs(KatKey, 17, Word(0xd2, 0xc2, 0xc9, 0xbf), Word(0x47, 0xf7, 0xf7, 0xbc));
  }

  /** Word 18 of the key schedule of KatKey (FIPS 197 appendix A.1). */
  lemma KatWord18()
    ensures ScheduleWordIs(KatKey, 18, Word(0xf9, 0x6c, 0x32, 0xbc))
  {
    KatWord14();
    KatWord17();
    ScheduleXorStepIs(KatKey, 18, Word(0x6c, 0x59, 0x0c, 0xbf), Word(0x95, 0x35, 0x3e, 0x03));
  }

  /** Word 19 of the key schedule of KatKey (FIPS 197 appendix A.1). */
  lemma KatWord19()
    ensures ScheduleWordIs(KatKey, 19, Word(0xfd, 0x05, 0x8d, 0xfd))
  {
    KatWord15();
    KatWord18();
    ScheduleXorStepIs(KatKey, 19, Word(0x04, 0x69, 0xbf, 0x41), Word(0xf9, 0x6c, 0x32, 0xbc));
  }

  /** Word 20 of the key schedule of KatKey (FIPS 197 appendix A.1). */
  lemma KatWord20()
    ensures ScheduleWordIs(KatKey, 20, Word(0x3c, 0xaa, 0xa3, 0xe8))
  {
    KatWord16();
    KatWord19();
    RconPowers();
    ScheduleStepIs(KatKey, 20, Word(0x47, 0xf7, 0xf7, 0xbc), Word(0xfd, 0x05, 0x8d, 0xfd), Word(0x3c, 0xaa, 0xa3, 0xe8));
  }

  /** Word 21 of the key schedule of KatKey (FIPS 197 appendix A.1). */
  lemma KatWord21()
    ensures ScheduleWordIs(KatKey, 21, Word(0xa9, 0x9f, 0x9d, 0xeb))
  {
    KatWord17();
    KatWord20();
    ScheduleXorStepIs(KatKey, 21, Word(0x95, 0x35, 0x3e, 0x03), Word(0x3c, 0xaa, 0xa3, 0xe8));
  }

  /** Word 22 of the key schedule of KatKey (FIPS 197 appendix A.1). */
  lemma KatWord22()
    ensures ScheduleWordIs(KatKey, 22, Word(0x50, 0xf3, 0xaf, 0x57))
  {
    KatWord18();
    KatWord21();
    ScheduleXorStepIs(KatKey, 22, Word(0xf9, 0x6c, 0x32, 0xbc), Word(0xa9, 0x9f, 0x9d, 0xeb));
  }

  /** Word 23 of the key schedule of KatKey (FIPS 197 appendix A.1). */
  lemma KatWord23()
    ensures ScheduleWordIs(KatKey, 23, Word(0xad, 0xf6, 0x22, 0xaa))
  {
    KatWord19();
    KatWord22();
    ScheduleXorStepIs(KatKey, 23, Word(0xfd, 0x05, 0x8d, 0xfd), Word(0x50, 0xf3, 0xaf, 0x57));
  }

  /** Word 24 of the key schedule of KatKey (FIPS 197 appendix A.1). */
  lemma KatWord24()
    ensures ScheduleWordIs(KatKey, 24, Word(0x5e, 0x39, 0x0f, 0x7d))
  {
    KatWord20();
    KatWord23();
    RconPowers();
    ScheduleStepIs(KatKey, 24, Word(0x3c, 0xaa, 0xa3, 0xe8), Word(0xad, 0xf6, 0x22, 0xaa), Word(0x5e, 0x39, 0x0f, 0x7d));
  }

  /** Word 25 of the key schedule of KatKey (FIPS 197 appendix A.1). */
  lemma KatWord25()
    ensures ScheduleWordIs(KatKey, 25, Word(0xf7, 0xa6, 0x92, 0x96))
  {
    KatWord21();
    KatWord24();
    ScheduleXorStepIs(KatKey, 25, Word(0xa9, 0x9f, 0x9d, 0xeb), Word(0x5e, 0x39, 0x0f, 0x7d));
  }

  /** Word 26 of the key schedule of KatKey (FIPS 197 appendix A.1). */
  lemma KatWord26()
    ensures ScheduleWordIs(KatKey, 26, Word(0xa7, 0x55, 0x3d, 0xc1))
  {
    KatWord22();
    KatWord25();
    ScheduleXorStepIs(KatKey, 26, Word(0x50, 0xf3, 0xaf, 0x57), Word(0xf7, 0xa6, 0x92, 0x96));
  }

  /** Word 27 of the key schedule of KatKey (FIPS 197 appendix A.1). */
  lemma KatWord27()
    ensures ScheduleWordIs(KatKey, 27, Word(0x0a, 0xa3, 0x1f, 0x6b))
  {
    KatWord23();
    KatWord26();
    ScheduleXorStepIs(KatKey, 27, Word(0xad, 0xf6, 0x22, 0xaa), Word(0xa7, 0x55, 0x3d, 0xc1));
  }

  /** Word 28 of the key schedule of KatKey (FIPS 197 appendix A.1). */
  lemma KatWord28()
    ensures ScheduleWordIs(KatKey, 28, Word(0x14, 0xf9, 0x70, 0x1a))
  {
    KatWord24();
    KatWord27();
    RconPowers();
    ScheduleStepIs(KatKey, 28, Word(0x5e, 0x39, 0x0f, 0x7d), Word(0x0a, 0xa3, 0x1f, 0x6b), Word(0x14, 0xf9, 0x70, 0x1a));
  }

  /** Word 29 of the key schedule of KatKey (FIPS 197 appendix A.1). */
  lemma KatWord29()
    ensures ScheduleWordIs(KatKey, 29, Word(0xe3, 0x5f, 0xe2, 0x8c))
  {
    KatWord25();
    KatWord28();
    ScheduleXorStepIs(KatKey, 29, Word(0xf7, 0xa6, 0x92, 0x96), Word(0x14, 0xf9, 0x70, 0x1a));
  }

  /** Word 30 of the key schedule of KatKey (FIPS 197 appendix A.1). */
  lemma KatWord30()
    ensures ScheduleWordIs(KatKey, 30, Word(0x44, 0x0a, 0xdf, 0x4d))
  {
    KatWord26();
    KatWord29();
    ScheduleXorStepIs(KatKey, 30, Word(0xa7, 0x55, 0x3d, 0xc1), Word(0xe3, 0x5f, 0xe2, 0x8c));
  }

  /** Word 31 of the key schedule of KatKey (FIPS 197 appendix A.1). */
  lemma KatWord31()
    ensures ScheduleWordIs(KatKey, 31, Word(0x4e, 0xa9, 0xc0, 0x26))
  {
    KatWord27();
    KatWord30();
    ScheduleXorStepIs(KatKey, 31, Word(0x0a, 0xa3, 0x1f, 0x6b), Word(0x44, 0x0a, 0xdf, 0x4d));
  }

  /** Word 32 of the key schedule of KatKey (FIPS 197 appendix A.1). */
  lemma KatWord32()
    ensures ScheduleWordIs(KatKey, 32, Word(0x47, 0x43, 0x87, 0x35))
  {
    KatWord28();
    KatWord31();
    RconPowers();
    ScheduleStepIs(KatKey, 32, Word(0x14, 0xf9, 0x70, 0x1a), Word(0x4e, 0xa9, 0xc0, 0x26), Word(0x47, 0x43, 0x87, 0x35));
  }

  /** Word 33 of the key schedule of KatKey (FIPS 197 appendix A.1). */
  lemma KatWord33()
    ensures ScheduleWordIs(KatKey, 33, Word(0xa4, 0x1c, 0x65, 0xb9))
  {
    KatWord29();
    KatWord32();
    ScheduleXorStepIs(KatKey, 33, Word(0xe3, 0x5f, 0xe2, 0x8c), Word(0x47, 0x43, 0x87, 0x35));
  }

  /** Word 34 of the key schedule of KatKey (FIPS 197 appendix A.1). */
  lemma KatWord34()
    ensures ScheduleWordIs(KatKey, 34, Word(0xe0, 0x16, 0xba, 0xf4))
  {
    KatWord30();
    KatWord33();
    ScheduleXorStepIs(KatKey, 34, Word(0x44, 0x0a, 0xdf, 0x4d), Word(0xa4, 0x1c, 0x65, 0xb9));
  }

  /** Word 35 of the key schedule of KatKey (FIPS 197 appendix A.1). */
  lemma KatWord35()
    ensures ScheduleWordIs(KatKey, 35, Word(0xae, 0xbf, 0x7a, 0xd2))
  {
    KatWord31();
    KatWord34();
    ScheduleXorStepIs(KatKey, 35, Word(0x4e, 0xa9, 0xc0, 0x26), Word(0xe0, 0x16, 0xba, 0xf4));
  }

  /** Word 36 of the key schedule of KatKey (FIPS 197 appendix A.1). */
  lemma KatWord36()
    ensures ScheduleWordIs(KatKey, 36, Word(0x54, 0x99, 0x32, 0xd1))
  {
    KatWord32();
    KatWord35();
    RconPowers();
    ScheduleStepIs(KatKey, 36, Word(0x47, 0x43, 0x87, 0x35), Word(0xae, 0xbf, 0x7a, 0xd2), Word(0x54, 0x99, 0x32, 0xd1));
  }

  /** Word 37 of the key schedule of KatKey (FIPS 197 appendix A.1). */
  lemma KatWord37()
    ensures ScheduleWordIs(KatKey, 37, Word(0xf0, 0x85, 0x57, 0x68))
  {
    KatWord33();
    KatWord36();
    ScheduleXorStepIs(KatKey, 37, Word(0xa4, 0x1c, 0x65, 0xb9), Word(0x54, 0x99, 0x32, 0xd1));
  }

  /** Word 38 of the key schedule of KatKey (FIPS 197 appendix A.1). */
  lemma KatWord38()
    ensures ScheduleWordIs(KatKey, 38, Word(0x10, 0x93, 0xed, 0x9c))
  {
    KatWord34();
    KatWord37();
    ScheduleXorStepIs(KatKey, 38, Word(0xe0, 0x16, 0xba, 0xf4), Word(0xf0, 0x85, 0x57, 0x68));
  }

  /** Word 39 of the key schedule of KatKey (FIPS 197 appendix A.1). */
  lemma KatWord39()
    ensures ScheduleWordIs(KatKey, 39, Word(0xbe, 0x2c, 0x97, 0x4e))
  {
    KatWord35();
    KatWord38();
    ScheduleXorStepIs(KatKey, 39, Word(0xae, 0xbf, 0x7a, 0xd2), Word(0x10, 0x93, 0xed, 0x9c));
  }

  /** Word 40 of the key schedule of KatKey (FIPS 197 appendix A.1). */
  lemma KatWord40()
    ensures ScheduleWordIs(KatKey, 40, Word(0x13, 0x11, 0x1d, 0x7f))
  {
    KatWord36();
    KatWord39();
    RconPowers();
    ScheduleStepIs(KatKey, 40, Word(0x54, 0x99, 0x32, 0xd1), Word(0xbe, 0x2c, 0x97, 0x4e), Word(0x13, 0x11, 0x1d, 0x7f));
  }

  /** Word 41 of the key schedule of KatKey (FIPS 197 appendix A.1). */
  lemma KatWord41()
    ensures ScheduleWordIs(KatKey, 41, Word(0xe3, 0x94, 0x4a, 0x17))
  {
    KatWord37();
    KatWord40();
    ScheduleXorStepIs(KatKey, 41, Word(0xf0, 0x85, 0x57, 0x68), Word(0x13, 0x11, 0x1d, 0x7f));
  }

  /** Word 42 of the key schedule of KatKey (FIPS 197 appendix A.1). */
  lemma KatWord42()
    ensures ScheduleWordIs(KatKey, 42, Word(0xf3, 0x07, 0xa7, 0x8b))
  {
    KatWord38();
    KatWord41();
    ScheduleXorStepIs(KatKey, 42, Word(0x10, 0x93, 0xed, 0x9c), Word(0xe3, 0x94, 0x4a, 0x17));
  }

  /** Word 43 of the key schedule of KatKey (FIPS 197 appendix A.1). */
  lemma KatWord43()
    ensures ScheduleWordIs(KatKey, 43, Word(0x4d, 0x2b, 0x30, 0xc5))
  {
    KatWord39();
    KatWord42();
    ScheduleXorStepIs(KatKey, 43, Word(0xbe, 0x2c, 0x97, 0x4e), Word(0xf3, 0x07, 0xa7, 0x8b));
  }

  /** Two blocks that agree byte by byte are equal. */
  lemma BlockEqual(a: seq<bv8>, b: seq<bv8>)
    requires |a| == BlockSize && |b| == BlockSize
    requires a[0] == b[0] && a[1] == b[1] && a[2] == b[2] && a[3] == b[3]
    requires a[4] == b[4] && a[5] == b[5] && a[6] == b[6] && a[7] == b[7]
    requires a[8] == b[8] && a[9] == b[9] && a[10] == b[10] && a[11] == b[11]
    requires a[12] == b[12] && a[13] == b[13] && a[14] == b[14] && a[15] == b[15]
    ensures a == b
  {
    forall k | 0 <= k < BlockSize
      ensures a[k] == b[k]
    {
      if k == 0 {
      }
      else if k == 1 {
      }
      else if k == 2 {
      }
      else if k == 3 {
      }
      else if k == 4 {
      }
      else if k == 5 {
      }
      else if k == 6 {
      }
      else if k == 7 {
      }
      else if k == 8 {
      }
      else if k == 9 {
      }
      else if k == 10 {
      }
      else if k == 11 {
      }
      else if k == 12 {
      }
      else if k == 13 {
      }
      else if k == 14 {
      }
      else {
      }
    }
  }

  /** MixColumns acts on the four columns one by one. */
  lemma MixByColumns(s: seq<bv8>, t: seq<bv8>)
    requires |s| == BlockSize && |t| == BlockSize
    requires MixColumn(ColumnOf(s, 0)) == ColumnOf(t, 0) && MixColumn(ColumnOf(s, 1)) == ColumnOf(t, 1)
    requires MixColumn(ColumnOf(s, 2)) == ColumnOf(t, 2) && MixColumn(ColumnOf(s, 3)) == ColumnOf(t, 3)
    ensures MixColumns(s) == t
  {
    forall k | 0 <= k < BlockSize
      ensures MixColumns(s)[k] == t[k]
    {
      Position(k);
      assert MixColumn(ColumnOf(s, k / 4)) == ColumnOf(t, k / 4);
    }
  }


  /** Round key 0 of the key schedule of KatKey. */
  lemma KatRoundKey0()
    ensures WordAt(KeyExpansion(KatKey), 0) == Word(0x00, 0x01, 0x02, 0x03) && WordAt(KeyExpansion(KatKey), 1) == Word(0x04, 0x05, 0x06, 0x07)
    ensures WordAt(KeyExpansion(KatKey), 2) == Word(0x08, 0x09, 0x0a, 0x0b) && WordAt(KeyExpansion(KatKey), 3) == Word(0x0c, 0x0d, 0x0e, 0x0f)
  {
    KatKeyWords();
    WordOfExpansion(KatKey, 0);
    WordOfExpansion(KatKey, 1);
    WordOfExpansion(KatKey, 2);
    WordOfExpansion(KatKey, 3);
  }

  /** AddRoundKey of round 0 on KatPlain. */
  lemma KatArk0(ks: seq<bv8>)
    requires |ks| == ScheduleSize
    requires WordAt(ks, 0) == Word(0x00, 0x01, 0x02, 0x03) && WordAt(ks, 1) == Word(0x04, 0x05, 0x06, 0x07)
    requires WordAt(ks, 2) == Word(0x08, 0x09, 0x0a, 0x0b) && WordAt(ks, 3) == Word(0x0c, 0x0d, 0x0e, 0x0f)
    ensures AddRoundKey(KatPlain, ks, 0) == KatState(0)
  {
    BlockEqual(AddRoundKey(KatPlain, ks, 0), [0x00, 0x10, 0x20, 0x30, 0x40, 0x50, 0x60, 0x70, 0x80, 0x90, 0xa0, 0xb0, 0xc0, 0xd0, 0xe0, 0xf0]);
  }

  /** Round key 1 of the key schedule of KatKey. */
  lemma KatRoundKey1()
    ensures WordAt(KeyExpansion(KatKey), 4) == Word(0xd6, 0xaa, 0x74, 0xfd) && WordAt(KeyExpansion(KatKey), 5) == Word(0xd2, 0xaf, 0x72, 0xfa)
    ensures WordAt(KeyExpansion(KatKey), 6) == Word(0xda, 0xa6, 0x78, 0xf1) && WordAt(KeyExpansion(KatKey), 7) == Word(0xd6, 0xab, 0x76, 0xfe)
  {
    KatWord4();
    KatWord5();
    KatWord6();
    KatWord7();
    WordOfExpansion(KatKey, 4);
    WordOfExpansion(KatKey, 5);
    WordOfExpansion(KatKey, 6);
    WordOfExpansion(KatKey, 7);
  }

  /** SubBytes of round 1 on KatPlain. */
  lemma KatSub1()
    ensures SubBytes(KatState(0)) == [0x63, 0xca, 0xb7, 0x04, 0x09, 0x53, 0xd0, 0x51, 0xcd, 0x60, 0xe0, 0xe7, 0xba, 0x70, 0xe1, 0x8c]
  {
    BlockEqual(SubBytes([0x00, 0x10, 0x20, 0x30, 0x40, 0x50, 0x60, 0x70, 0x80, 0x90, 0xa0, 0xb0, 0xc0, 0xd0, 0xe0, 0xf0]), [0x63, 0xca, 0xb7, 0x04, 0x09, 0x53, 0xd0, 0x51, 0xcd, 0x60, 0xe0, 0xe7, 0xba, 0x70, 0xe1, 0x8c]);
  }

  /** ShiftRows and MixColumns of round 1 on KatPlain. */
  lemma KatShiftMix1()
    ensures MixColumns(ShiftRows([0x63, 0xca, 0xb7, 0x04, 0x09, 0x53, 0xd0, 0x51, 0xcd, 0x60, 0xe0, 0xe7, 0xba, 0x70, 0xe1, 0x8c])) == [0x5f, 0x72, 0x64, 0x15, 0x57, 0xf5, 0xbc, 0x92, 0xf7, 0xbe, 0x3b, 0x29, 0x1d, 0xb9, 0xf9, 0x1a]
  {
    assert ShiftRows([0x63, 0xca, 0xb7, 0x04, 0x09, 0x53, 0xd0, 0x51, 0xcd, 0x60, 0xe0, 0xe7, 0xba, 0x70, 0xe1, 0x8c]) == [0x63, 0x53, 0xe0, 0x8c, 0x09, 0x60, 0xe1, 0x04, 0xcd, 0x70, 0xb7, 0x51, 0xba, 0xca, 0xd0, 0xe7];
    MixByColumns([0x63, 0x53, 0xe0, 0x8c, 0x09, 0x60, 0xe1, 0x04, 0xcd, 0x70, 0xb7, 0x51, 0xba, 0xca, 0xd0, 0xe7], [0x5f, 0x72, 0x64, 0x15, 0x57, 0xf5, 0xbc, 0x92, 0xf7, 0xbe, 0x3b, 0x29, 0x1d, 0xb9, 0xf9, 0x1a]);
  }

  /** AddRoundKey of round 1 on KatPlain. */
  lemma KatArk1(ks: seq<bv8>)
    requires |ks| == ScheduleSize
    requires WordAt(ks, 4) == Word(0xd6, 0xaa, 0x74, 0xfd) && WordAt(ks, 5) == Word(0xd2, 0xaf, 0x72, 0xfa)
    requires WordAt(ks, 6) == Word(0xda, 0xa6, 0x78, 0xf1) && WordAt(ks, 7) == Word(0xd6, 0xab, 0x76, 0xfe)
    ensures AddRoundKey([0x5f, 0x72, 0x64, 0x15, 0x57, 0xf5, 0xbc, 0x92, 0xf7, 0xbe, 0x3b, 0x29, 0x1d, 0xb9, 0xf9, 0x1a], ks, 1) == KatState(1)
  {
    BlockEqual(AddRoundKey([0x5f, 0x72, 0x64, 0x15, 0x57, 0xf5, 0xbc, 0x92, 0xf7, 0xbe, 0x3b, 0x29, 0x1d, 0xb9, 0xf9, 0x1a], ks, 1), [0x89, 0xd8, 0x10, 0xe8, 0x85, 0x5a, 0xce, 0x68, 0x2d, 0x18, 0x43, 0xd8, 0xcb, 0x12, 0x8f, 0xe4]);
  }

  /** Round 1 of the cipher on KatPlain (FIPS 197 appendix C.1). */
  lemma KatRound1(ks: seq<bv8>)
    requires |ks| == ScheduleSize
    requires WordAt(ks, 4) == Word(0xd6, 0xaa, 0x74, 0xfd) && WordAt(ks, 5) == Word(0xd2, 0xaf, 0x72, 0xfa)
    requires WordAt(ks, 6) == Word(0xda, 0xa6, 0x78, 0xf1) && WordAt(ks, 7) == Word(0xd6, 0xab, 0x76, 0xfe)
    ensures Round(KatState(0), ks, 1) == KatState(1)
  {
    KatSub1();
    KatShiftMix1();
    KatArk1(ks);
  }

  /** Round key 2 of the key schedule of KatKey. */
  lemma KatRoundKey2()
    ensures WordAt(KeyExpansion(KatKey), 8) == Word(0xb6, 0x92, 0xcf, 0x0b) && WordAt(KeyExpansion(KatKey), 9) == Word(0x64, 0x3d, 0xbd, 0xf1)
    ensures WordAt(KeyExpansion(KatKey), 10) == Word(0xbe, 0x9b, 0xc5, 0x00) && WordAt(KeyExpansion(KatKey), 11) == Word(0x68, 0x30, 0xb3, 0xfe)
  {
    KatWord8();
    KatWord9();
    KatWord10();
    KatWord11();
    WordOfExpansion(KatKey, 8);
    WordOfExpansion(KatKey, 9);
    WordOfExpansion(KatKey, 10);
    WordOfExpansion(KatKey, 11);
  }

  /** SubBytes of round 2 on KatPlain. */
  lemma KatSub2()
    ensures SubBytes(KatState(1)) == [0xa7, 0x61, 0xca, 0x9b, 0x97, 0xbe, 0x8b, 0x45, 0xd8, 0xad, 0x1a, 0x61, 0x1f, 0xc9, 0x73, 0x69]
  {
    BlockEqual(SubBytes([0x89, 0xd8, 0x10, 0xe8, 0x85, 0x5a, 0xce, 0x68, 0x2d, 0x18, 0x43, 0xd8, 0xcb, 0x12, 0x8f, 0xe4]), [0xa7, 0x61, 0xca, 0x9b, 0x97, 0xbe, 0x8b, 0x45, 0xd8, 0xad, 0x1a, 0x61, 0x1f, 0xc9, 0x73, 0x69]);
  }

  /** ShiftRows and MixColumns of round 2 on KatPlain. */
  lemma KatShiftMix2()
    ensures MixColumns(ShiftRows([0xa7, 0x61, 0xca, 0x9b, 0x97, 0xbe, 0x8b, 0x45, 0xd8, 0xad, 0x1a, 0x61, 0x1f, 0xc9, 0x73, 0x69])) == [0xff, 0x87, 0x96, 0x84, 0x31, 0xd8, 0x6a, 0x51, 0x64, 0x51, 0x51, 0xfa, 0x77, 0x3a, 0xd0, 0x09]
  {
    assert ShiftRows([0xa7, 0x61, 0xca, 0x9b, 0x97, 0xbe, 0x8b, 0x45, 0xd8, 0xad, 0x1a, 0x61, 0x1f, 0xc9, 0x73, 0x69]) == [0xa7, 0xbe, 0x1a, 0x69, 0x97, 0xad, 0x73, 0x9b, 0xd8, 0xc9, 0xca, 0x45, 0x1f, 0x61, 0x8b, 0x61];
    MixByColumns([0xa7, 0xbe, 0x1a, 0x69, 0x97, 0xad, 0x73, 0x9b, 0xd8, 0xc9, 0xca, 0x45, 0x1f, 0x61, 0x8b, 0x61], [0xff, 0x87, 0x96, 0x84, 0x31, 0xd8, 0x6a, 0x51, 0x64, 0x51, 0x51, 0xfa, 0x77, 0x3a, 0xd0, 0x09]);
  }

  /** AddRoundKey of round 2 on KatPlain. */
  lemma KatArk2(ks: seq<bv8>)
    requires |ks| == ScheduleSize
    requires WordAt(ks, 8) == Word(0xb6, 0x92, 0xcf, 0x0b) && WordAt(ks, 9) == Word(0x64, 0x3d, 0xbd, 0xf1)
    requires WordAt(ks, 10) == Word(0xbe, 0x9b, 0xc5, 0x00) && WordAt(ks, 11) == Word(0x68, 0x30, 0xb3, 0xfe)
    ensures AddRoundKey([0xff, 0x87, 0x96, 0x84, 0x31, 0xd8, 0x6a, 0x51, 0x64, 0x51, 0x51, 0xfa, 0x77, 0x3a, 0xd0, 0x09], ks, 2) == KatState(2)
  {
    BlockEqual(AddRoundKey([0xff, 0x87, 0x96, 0x84, 0x31, 0xd8, 0x6a, 0x51, 0x64, 0x51, 0x51, 0xfa, 0x77, 0x3a, 0xd0, 0x09], ks, 2), [0x49, 0x15, 0x59, 0x8f, 0x55, 0xe5, 0xd7, 0xa0, 0xda, 0xca, 0x94, 0xfa, 0x1f, 0x0a, 0x63, 0xf7]);
  }

  /** Round 2 of the cipher on KatPlain (FIPS 197 appendix C.1). */
  lemma KatRound2(ks: seq<bv8>)
    requires |ks| == ScheduleSize
    requires WordAt(ks, 8) == Word(0xb6, 0x92, 0xcf, 0x0b) && WordAt(ks, 9) == Word(0x64, 0x3d, 0xbd, 0xf1)
    requires WordAt(ks, 10) == Word(0xbe, 0x9b, 0xc5, 0x00) && WordAt(ks, 11) == Word(0x68, 0x30, 0xb3, 0xfe)
    ensures Round(KatState(1), ks, 2) == KatState(2)
  {
    KatSub2();
    KatShiftMix2();
    KatArk2(ks);
  }

  /** Round key 3 of the key schedule of KatKey. */
  lemma KatRoundKey3()
    ensures WordAt(KeyExpansion(KatKey), 12) == Word(0xb6, 0xff, 0x74, 0x4e) && WordAt(KeyExpansion(KatKey), 13) == Word(0xd2, 0xc2, 0xc9, 0xbf)
    ensures WordAt(KeyExpansion(KatKey), 14) == Word(0x6c, 0x59, 0x0c, 0xbf) && WordAt(KeyExpansion(KatKey), 15) == Word(0x04, 0x69, 0xbf, 0x41)
  {
    KatWord12();
    KatWord13();
    KatWord14();
    KatWord15();
    WordOfExpansion(KatKey, 12);
    WordOfExpansion(KatKey, 13);
    WordOfExpansion(KatKey, 14);
    WordOfExpansion(KatKey, 15);
  }

  /** SubBytes of round 3 on KatPlain. */
  lemma KatSub3()
    ensures SubBytes(KatState(2)) == [0x3b, 0x59, 0xcb, 0x73, 0xfc, 0xd9, 0x0e, 0xe0, 0x57, 0x74, 0x22, 0x2d, 0xc0, 0x67, 0xfb, 0x68]
  {
    BlockEqual(SubBytes([0x49, 0x15, 0x59, 0x8f, 0x55, 0xe5, 0xd7, 0xa0, 0xda, 0xca, 0x94, 0xfa, 0x1f, 0x0a, 0x63, 0xf7]), [0x3b, 0x59, 0xcb, 0x73, 0xfc, 0xd9, 0x0e, 0xe0, 0x57, 0x74, 0x22, 0x2d, 0xc0, 0x67, 0xfb, 0x68]);
  }

  /** ShiftRows and MixColumns of round 3 on KatPlain. */
  lemma KatShiftMix3()
    ensures MixColumns(ShiftRows([0x3b, 0x59, 0xcb, 0x73, 0xfc, 0xd9, 0x0e, 0xe0, 0x57, 0x74, 0x22, 0x2d, 0xc0, 0x67, 0xfb, 0x68])) == [0x4c, 0x9c, 0x1e, 0x66, 0xf7, 0x71, 0xf0, 0x76, 0x2c, 0x3f, 0x86, 0x8e, 0x53, 0x4d, 0xf2, 0x56]
  {
    assert ShiftRows([0x3b, 0x59, 0xcb, 0x73, 0xfc, 0xd9, 0x0e, 0xe0, 0x57, 0x74, 0x22, 0x2d, 0xc0, 0x67, 0xfb, 0x68]) == [0x3b, 0xd9, 0x22, 0x68, 0xfc, 0x74, 0xfb, 0x73, 0x57, 0x67, 0xcb, 0xe0, 0xc0, 0x59, 0x0e, 0x2d];
    MixByColumns([0x3b, 0xd9, 0x22, 0x68, 0xfc, 0x74, 0xfb, 0x73, 0x57, 0x67, 0xcb, 0xe0, 0xc0, 0x59, 0x0e, 0x2d], [0x4c, 0x9c, 0x1e, 0x66, 0xf7, 0x71, 0xf0, 0x76, 0x2c, 0x3f, 0x86, 0x8e, 0x53, 0x4d, 0xf2, 0x56]);
  }

  /** AddRoundKey of round 3 on KatPlain. */
  lemma KatArk3(ks: seq<bv8>)
    requires |ks| == ScheduleSize
    requires WordAt(ks, 12) == Word(0xb6, 0xff, 0x74, 0x4e) && WordAt(ks, 13) == Word(0xd2, 0xc2, 0xc9, 0xbf)
    requires WordAt(ks, 14) == Word(0x6c, 0x59, 0x0c, 0xbf) && WordAt(ks, 15) == Word(0x04, 0x69, 0xbf, 0x41)
    ensures AddRoundKey([0x4c, 0x9c, 0x1e, 0x66, 0xf7, 0x71, 0xf0, 0x76, 0x2c, 0x3f, 0x86, 0x8e, 0x53, 0x4d, 0xf2, 0x56], ks, 3) == KatState(3)
  {
    BlockEqual(AddRoundKey([0x4c, 0x9c, 0x1e, 0x66, 0xf7, 0x71, 0xf0, 0x76, 0x2c, 0x3f, 0x86, 0x8e, 0x53, 0x4d, 0xf2, 0x56], ks, 3), [0xfa, 0x63, 0x6a, 0x28, 0x25, 0xb3, 0x39, 0xc9, 0x40, 0x66, 0x8a, 0x31, 0x57, 0x24, 0x4d, 0x17]);
  }

  /** Round 3 of the cipher on KatPlain (FIPS 197 appendix C.1). */
  lemma KatRound3(ks: seq<bv8>)
    requires |ks| == ScheduleSize
    requires WordAt(ks, 12) == Word(0xb6, 0xff, 0x74, 0x4e) && WordAt(ks, 13) == Word(0xd2, 0xc2, 0xc9, 0xbf)
    requires WordAt(ks, 14) == Word(0x6c, 0x59, 0x0c, 0xbf) && WordAt(ks, 15) == Word(0x04, 0x69, 0xbf, 0x41)
    ensures Round(KatState(2), ks, 3) == KatState(3)
  {
    KatSub3();
    KatShiftMix3();
    KatArk3(ks);
  }

  /** Round key 4 of the key schedule of KatKey. */
  lemma KatRoundKey4()
    ensures WordAt(KeyExpansion(KatKey), 16) == Word(0x47, 0xf7, 0xf7, 0xbc) && WordAt(KeyExpansion(KatKey), 17) == Word(0x95, 0x35, 0x3e, 0x03)
    ensures WordAt(KeyExpansion(KatKey), 18) == Word(0xf9, 0x6c, 0x32, 0xbc) && WordAt(KeyExpansion(KatKey), 19) == Word(0xfd, 0x05, 0x8d, 0xfd)
  {
    KatWord16();
    KatWord17();
    KatWord18();
    KatWord19();
    WordOfExpansion(KatKey, 16);
    WordOfExpansion(KatKey, 17);
    WordOfExpansion(KatKey, 18);
    WordOfExpansion(KatKey, 19);
  }

  /** SubBytes of round 4 on KatPlain. */
  lemma KatSub4()
    ensures SubBytes(KatState(3)) == [0x2d, 0xfb, 0x02, 0x34, 0x3f, 0x6d, 0x12, 0xdd, 0x09, 0x33, 0x7e, 0xc7, 0x5b, 0x36, 0xe3, 0xf0]
  {
    BlockEqual(SubBytes([0xfa, 0x63, 0x6a, 0x28, 0x25, 0xb3, 0x39, 0xc9, 0x40, 0x66, 0x8a, 0x31, 0x57, 0x24, 0x4d, 0x17]), [0x2d, 0xfb, 0x02, 0x34, 0x3f, 0x6d, 0x12, 0xdd, 0x09, 0x33, 0x7e, 0xc7, 0x5b, 0x36, 0xe3, 0xf0]);
  }

  /** ShiftRows and MixColumns of round 4 on KatPlain. */
  lemma KatShiftMix4()
    ensures MixColumns(ShiftRows([0x2d, 0xfb, 0x02, 0x34, 0x3f, 0x6d, 0x12, 0xdd, 0x09, 0x33, 0x7e, 0xc7, 0x5b, 0x36, 0xe3, 0xf0])) == [0x63, 0x85, 0xb7, 0x9f, 0xfc, 0x53, 0x8d, 0xf9, 0x97, 0xbe, 0x47, 0x8e, 0x75, 0x47, 0xd6, 0x91]
  {
    assert ShiftRows([0x2d, 0xfb, 0x02, 0x34, 0x3f, 0x6d, 0x12, 0xdd, 0x09, 0x33, 0x7e, 0xc7, 0x5b, 0x36, 0xe3, 0xf0]) == [0x2d, 0x6d, 0x7e, 0xf0, 0x3f, 0x33, 0xe3, 0x34, 0x09, 0x36, 0x02, 0xdd, 0x5b, 0xfb, 0x12, 0xc7];
    MixByColumns([0x2d, 0x6d, 0x7e, 0xf0, 0x3f, 0x33, 0xe3, 0x34, 0x09, 0x36, 0x02, 0xdd, 0x5b, 0xfb, 0x12, 0xc7], [0x63, 0x85, 0xb7, 0x9f, 0xfc, 0x53, 0x8d, 0xf9, 0x97, 0xbe, 0x47, 0x8e, 0x75, 0x47, 0xd6, 0x91]);
  }

  /** AddRoundKey of round 4 on KatPlain. */
  lemma KatArk4(ks: seq<bv8>)
    requires |ks| == ScheduleSize
    requires WordAt(ks, 16) == Word(0x47, 0xf7, 0xf7, 0xbc) && WordAt(ks, 17) == Word(0x95, 0x35, 0x3e, 0x03)
    requires WordAt(ks, 18) == Word(0xf9, 0x6c, 0x32, 0xbc) && WordAt(ks, 19) == Word(0xfd, 0x05, 0x8d, 0xfd)
    ensures AddRoundKey([0x63, 0x85, 0xb7, 0x9f, 0xfc, 0x53, 0x8d, 0xf9, 0x97, 0xbe, 0x47, 0x8e, 0x75, 0x47, 0xd6, 0x91], ks, 4) == KatState(4)
  {
    BlockEqual(AddRoundKey([0x63, 0x85, 0xb7, 0x9f, 0xfc, 0x53, 0x8d, 0xf9, 0x97, 0xbe, 0x47, 0x8e, 0x75, 0x47, 0xd6, 0x91], ks, 4), [0x24, 0x72, 0x40, 0x23, 0x69, 0x66, 0xb3, 0xfa, 0x6e, 0xd2, 0x75, 0x32, 0x88, 0x42, 0x5b, 0x6c]);
  }

  /** Round 4 of the cipher on KatPlain (FIPS 197 appendix C.1). */
  lemma KatRound4(ks: seq<bv8>)
    requires |ks| == ScheduleSize
    requires WordAt(ks, 16) == Word(0x47, 0xf7, 0xf7, 0xbc) && WordAt(ks, 17) == Word(0x95, 0x35, 0x3e, 0x03)
    requires WordAt(ks, 18) == Word(0xf9, 0x6c, 0x32, 0xbc) && WordAt(ks, 19) == Word(0xfd, 0x05, 0x8d, 0xfd)
    ensures Round(KatState(3), ks, 4) == KatState(4)
  {
    KatSub4();
    KatShiftMix4();
    KatArk4(ks);
  }

  /** Round key 5 of the key schedule of KatKey. */
  lemma KatRoundKey5()
    ensures WordAt(KeyExpansion(KatKey), 20) == Word(0x3c, 0xaa, 0xa3, 0xe8) && WordAt(KeyExpansion(KatKey), 21) == Word(0xa9, 0x9f, 0x9d, 0xeb)
    ensures WordAt(KeyExpansion(KatKey), 22) == Word(0x50, 0xf3, 0xaf, 0x57) && WordAt(KeyExpansion(KatKey), 23) == Word(0xad, 0xf6, 0x22, 0xaa)
  {
    KatWord20();
    KatWord21();
    KatWord22();
    KatWord23();
    WordOfExpansion(KatKey, 20);
    WordOfExpansion(KatKey, 21);
    WordOfExpansion(KatKey, 22);
    WordOfExpansion(KatKey, 23);
  }

  /** SubBytes of round 5 on KatPlain. */
  lemma KatSub5()
    ensures SubBytes(KatState(4)) == [0x36, 0x40, 0x09, 0x26, 0xf9, 0x33, 0x6d, 0x2d, 0x9f, 0xb5, 0x9d, 0x23, 0xc4, 0x2c, 0x39, 0x50]
  {
    BlockEqual(SubBytes([0x24, 0x72, 0x40, 0x23, 0x69, 0x66, 0xb3, 0xfa, 0x6e, 0xd2, 0x75, 0x32, 0x88, 0x42, 0x5b, 0x6c]), [0x36, 0x40, 0x09, 0x26, 0xf9, 0x33, 0x6d, 0x2d, 0x9f, 0xb5, 0x9d, 0x23, 0xc4, 0x2c, 0x39, 0x50]);
  }

  /** ShiftRows and MixColumns of round 5 on KatPlain. */
  lemma KatShiftMix5()
    ensures MixColumns(ShiftRows([0x36, 0x40, 0x09, 0x26, 0xf9, 0x33, 0x6d, 0x2d, 0x9f, 0xb5, 0x9d, 0x23, 0xc4, 0x2c, 0x39, 0x50])) == [0xf4, 0xbc, 0xd4, 0x54, 0x32, 0xe5, 0x54, 0xd0, 0x75, 0xf1, 0xd6, 0xc5, 0x1d, 0xd0, 0x3b, 0x3c]
  {
    assert ShiftRows([0x36, 0x40, 0x09, 0x26, 0xf9, 0x33, 0x6d, 0x2d, 0x9f, 0xb5, 0x9d, 0x23, 0xc4, 0x2c, 0x39, 0x50]) == [0x36, 0x33, 0x9d, 0x50, 0xf9, 0xb5, 0x39, 0x26, 0x9f, 0x2c, 0x09, 0x2d, 0xc4, 0x40, 0x6d, 0x23];
    MixByColumns([0x36, 0x33, 0x9d, 0x50, 0xf9, 0xb5, 0x39, 0x26, 0x9f, 0x2c, 0x09, 0x2d, 0xc4, 0x40, 0x6d, 0x23], [0xf4, 0xbc, 0xd4, 0x54, 0x32, 0xe5, 0x54, 0xd0, 0x75, 0xf1, 0xd6, 0xc5, 0x1d, 0xd0, 0x3b, 0x3c]);
  }

  /** AddRoundKey of round 5 on KatPlain. */
  lemma KatArk5(ks: seq<bv8>)
    requires |ks| == ScheduleSize
    requires WordAt(ks, 20) == Word(0x3c, 0xaa, 0xa3, 0xe8) && WordAt(ks, 21) == Word(0xa9, 0x9f, 0x9d, 0xeb)
    requires WordAt(ks, 22) == Word(0x50, 0xf3, 0xaf, 0x57) && WordAt(ks, 23) == Word(0xad, 0xf6, 0x22, 0xaa)
    ensures AddRoundKey([0xf4, 0xbc, 0xd4, 0x54, 0x32, 0xe5, 0x54, 0xd0, 0x75, 0xf1, 0xd6, 0xc5, 0x1d, 0xd0, 0x3b, 0x3c], ks, 5) == KatState(5)
  {
    BlockEqual(AddRoundKey([0xf4, 0xbc, 0xd4, 0x54, 0x32, 0xe5, 0x54, 0xd0, 0x75, 0xf1, 0xd6, 0xc5, 0x1d, 0xd0, 0x3b, 0x3c], ks, 5), [0xc8, 0x16, 0x77, 0xbc, 0x9b, 0x7a, 0xc9, 0x3b, 0x25, 0x02, 0x79, 0x92, 0xb0, 0x26, 0x19, 0x96]);
  }

  /** Round 5 of the cipher on KatPlain (FIPS 197 appendix C.1). */
  lemma KatRound5(ks: seq<bv8>)
    requires |ks| == ScheduleSize
    requires WordAt(ks, 20) == Word(0x3c, 0xaa, 0xa3, 0xe8) && WordAt(ks, 21) == Word(0xa9, 0x9f, 0x9d, 0xeb)
    requires WordAt(ks, 22) == Word(0x50, 0xf3, 0xaf, 0x57) && WordAt(ks, 23) == Word(0xad, 0xf6, 0x22, 0xaa)
    ensures Round(KatState(4), ks, 5) == KatState(5)
  {
    KatSub5();
    KatShiftMix5();
    KatArk5(ks);
  }

  /** Round key 6 of the key schedule of KatKey. */
  lemma KatRoundKey6()
    ensures WordAt(KeyExpansion(KatKey), 24) == Word(0x5e, 0x39, 0x0f, 0x7d) && WordAt(KeyExpansion(KatKey), 25) == Word(0xf7, 0xa6, 0x92, 0x96)
    ensures WordAt(KeyExpansion(KatKey), 26) == Word(0xa7, 0x55, 0x3d, 0xc1) && WordAt(KeyExpansion(KatKey), 27) == Word(0x0a, 0xa3, 0x1f, 0x6b)
  {
    KatWord24();
    KatWord25();
    KatWord26();
    KatWord27();
    WordOfExpansion(KatKey, 24);
    WordOfExpansion(KatKey, 25);
    WordOfExpansion(KatKey, 26);
    WordOfExpansion(KatKey, 27);
  }

  /** SubBytes of round 6 on KatPlain. */
  lemma KatSub6()
    ensures SubBytes(KatState(5)) == [0xe8, 0x47, 0xf5, 0x65, 0x14, 0xda, 0xdd, 0xe2, 0x3f, 0x77, 0xb6, 0x4f, 0xe7, 0xf7, 0xd4, 0x90]
  {
    BlockEqual(SubBytes([0xc8, 0x16, 0x77, 0xbc, 0x9b, 0x7a, 0xc9, 0x3b, 0x25, 0x02, 0x79, 0x92, 0xb0, 0x26, 0x19, 0x96]), [0xe8, 0x47, 0xf5, 0x65, 0x14, 0xda, 0xdd, 0xe2, 0x3f, 0x77, 0xb6, 0x4f, 0xe7, 0xf7, 0xd4, 0x90]);
  }

  /** ShiftRows and MixColumns of round 6 on KatPlain. */
  lemma KatShiftMix6()
    ensures MixColumns(ShiftRows([0xe8, 0x47, 0xf5, 0x65, 0x14, 0xda, 0xdd, 0xe2, 0x3f, 0x77, 0xb6, 0x4f, 0xe7, 0xf7, 0xd4, 0x90])) == [0x98, 0x16, 0xee, 0x74, 0x00, 0xf8, 0x7f, 0x55, 0x6b, 0x2c, 0x04, 0x9c, 0x8e, 0x5a, 0xd0, 0x36]
  {
    assert ShiftRows([0xe8, 0x47, 0xf5, 0x65, 0x14, 0xda, 0xdd, 0xe2, 0x3f, 0x77, 0xb6, 0x4f, 0xe7, 0xf7, 0xd4, 0x90]) == [0xe8, 0xda, 0xb6, 0x90, 0x14, 0x77, 0xd4, 0x65, 0x3f, 0xf7, 0xf5, 0xe2, 0xe7, 0x47, 0xdd, 0x4f];
    MixByColumns([0xe8, 0xda, 0xb6, 0x90, 0x14, 0x77, 0xd4, 0x65, 0x3f, 0xf7, 0xf5, 0xe2, 0xe7, 0x47, 0xdd, 0x4f], [0x98, 0x16, 0xee, 0x74, 0x00, 0xf8, 0x7f, 0x55, 0x6b, 0x2c, 0x04, 0x9c, 0x8e, 0x5a, 0xd0, 0x36]);
  }

  /** AddRoundKey of round 6 on KatPlain. */
  lemma KatArk6(ks: seq<bv8>)
    requires |ks| == ScheduleSize
    requires WordAt(ks, 24) == Word(0x5e, 0x39, 0x0f, 0x7d) && WordAt(ks, 25) == Word(0xf7, 0xa6, 0x92, 0x96)
    requires WordAt(ks, 26) == Word(0xa7, 0x55, 0x3d, 0xc1) && WordAt(ks, 27) == Word(0x0a, 0xa3, 0x1f, 0x6b)
    ensures AddRoundKey([0x98, 0x16, 0xee, 0x74, 0x00, 0xf8, 0x7f, 0x55, 0x6b, 0x2c, 0x04, 0x9c, 0x8e, 0x5a, 0xd0, 0x36], ks, 6) == KatState(6)
  {
    BlockEqual(AddRoundKey([0x98, 0x16, 0xee, 0x74, 0x00, 0xf8, 0x7f, 0x55, 0x6b, 0x2c, 0x04, 0x9c, 0x8e, 0x5a, 0xd0, 0x36], ks, 6), [0xc6, 0x2f, 0xe1, 0x09, 0xf7, 0x5e, 0xed, 0xc3, 0xcc, 0x79, 0x39, 0x5d, 0x84, 0xf9, 0xcf, 0x5d]);
  }

  /** Round 6 of the cipher on KatPlain (FIPS 197 appendix C.1). */
  lemma KatRound6(ks: seq<bv8>)
    requires |ks| == ScheduleSize
    requires WordAt(ks, 24) == Word(0x5e, 0x39, 0x0f, 0x7d) && WordAt(ks, 25) == Word(0xf7, 0xa6, 0x92, 0x96)
    requires WordAt(ks, 26) == Word(0xa7, 0x55, 0x3d, 0xc1) && WordAt(ks, 27) == Word(0x0a, 0xa3, 0x1f, 0x6b)
    ensures Round(KatState(5), ks, 6) == KatState(6)
  {
    KatSub6();
    KatShiftMix6();
    KatArk6(ks);
  }

  /** Round key 7 of the key schedule of KatKey. */
  lemma KatRoundKey7()
    ensures WordAt(KeyExpansion(KatKey), 28) == Word(0x14, 0xf9, 0x70, 0x1a) && WordAt(KeyExpansion(KatKey), 29) == Word(0xe3, 0x5f, 0xe2, 0x8c)
    ensures WordAt(KeyExpansion(KatKey), 30) == Word(0x44, 0x0a, 0xdf, 0x4d) && WordAt(KeyExpansion(KatKey), 31) == Word(0x4e, 0xa9, 0xc0, 0x26)
  {
    KatWord28();
    KatWord29();
    KatWord30();
    KatWord31();
    WordOfExpansion(KatKey, 28);
    WordOfExpansion(KatKey, 29);
    WordOfExpansion(KatKey, 30);
    WordOfExpansion(KatKey, 31);
  }

  /** SubBytes of round 7 on KatPlain. */
  lemma KatSub7()
    ensures SubBytes(KatState(6)) == [0xb4, 0x15, 0xf8, 0x01, 0x68, 0x58, 0x55, 0x2e, 0x4b, 0xb6, 0x12, 0x4c, 0x5f, 0x99, 0x8a, 0x4c]
  {
    BlockEqual(SubBytes([0xc6, 0x2f, 0xe1, 0x09, 0xf7, 0x5e, 0xed, 0xc3, 0xcc, 0x79, 0x39, 0x5d, 0x84, 0xf9, 0xcf, 0x5d]), [0xb4, 0x15, 0xf8, 0x01, 0x68, 0x58, 0x55, 0x2e, 0x4b, 0xb6, 0x12, 0x4c, 0x5f, 0x99, 0x8a, 0x4c]);
  }

  /** ShiftRows and MixColumns of round 7 on KatPlain. */
  lemma KatShiftMix7()
    ensures MixColumns(ShiftRows([0xb4, 0x15, 0xf8, 0x01, 0x68, 0x58, 0x55, 0x2e, 0x4b, 0xb6, 0x12, 0x4c, 0x5f, 0x99, 0x8a, 0x4c])) == [0xc5, 0x7e, 0x1c, 0x15, 0x9a, 0x9b, 0xd2, 0x86, 0xf0, 0x5f, 0x4b, 0xe0, 0x98, 0xc6, 0x34, 0x39]
  {
    assert ShiftRows([0xb4, 0x15, 0xf8, 0x01, 0x68, 0x58, 0x55, 0x2e, 0x4b, 0xb6, 0x12, 0x4c, 0x5f, 0x99, 0x8a, 0x4c]) == [0xb4, 0x58, 0x12, 0x4c, 0x68, 0xb6, 0x8a, 0x01, 0x4b, 0x99, 0xf8, 0x2e, 0x5f, 0x15, 0x55, 0x4c];
    MixByColumns([0xb4, 0x58, 0x12, 0x4c, 0x68, 0xb6, 0x8a, 0x01, 0x4b, 0x99, 0xf8, 0x2e, 0x5f, 0x15, 0x55, 0x4c], [0xc5, 0x7e, 0x1c, 0x15, 0x9a, 0x9b, 0xd2, 0x86, 0xf0, 0x5f, 0x4b, 0xe0, 0x98, 0xc6, 0x34, 0x39]);
  }

  /** AddRoundKey of round 7 on KatPlain. */
  lemma KatArk7(ks: seq<bv8>)
    requires |ks| == ScheduleSize
    requires WordAt(ks, 28) == Word(0x14, 0xf9, 0x70, 0x1a) && WordAt(ks, 29) == Word(0xe3, 0x5f, 0xe2, 0x8c)
    requires WordAt(ks, 30) == Word(0x44, 0x0a, 0xdf, 0x4d) && WordAt(ks, 31) == Word(0x4e, 0xa9, 0xc0, 0x26)
    ensures AddRoundKey([0xc5, 0x7e, 0x1c, 0x15, 0x9a, 0x9b, 0xd2, 0x86, 0xf0, 0x5f, 0x4b, 0xe0, 0x98, 0xc6, 0x34, 0x39], ks, 7) == KatState(7)
  {
    BlockEqual(AddRoundKey([0xc5, 0x7e, 0x1c, 0x15, 0x9a, 0x9b, 0xd2, 0x86, 0xf0, 0x5f, 0x4b, 0xe0, 0x98, 0xc6, 0x34, 0x39], ks, 7), [0xd1, 0x87, 0x6c, 0x0f, 0x79, 0xc4, 0x30, 0x0a, 0xb4, 0x55, 0x94, 0xad, 0xd6, 0x6f, 0xf4, 0x1f]);
  }

  /** Round 7 of the cipher on KatPlain (FIPS 197 appendix C.1). */
  lemma KatRound7(ks: seq<bv8>)
    requires |ks| == ScheduleSize
    requires WordAt(ks, 28) == Word(0x14, 0xf9, 0x70, 0x1a) && WordAt(ks, 29) == Word(0xe3, 0x5f, 0xe2, 0x8c)
    requires WordAt(ks, 30) == Word(0x44, 0x0a, 0xdf, 0x4d) && WordAt(ks, 31) == Word(0x4e, 0xa9, 0xc0, 0x26)
    ensures Round(KatState(6), ks, 7) == KatState(7)
  {
    KatSub7();
    KatShiftMix7();
    KatArk7(ks);
  }

  /** Round key 8 of the key schedule of KatKey. */
  lemma KatRoundKey8()
    ensures WordAt(KeyExpansion(KatKey), 32) == Word(0x47, 0x43, 0x87, 0x35) && WordAt(KeyExpansion(KatKey), 33) == Word(0xa4, 0x1c, 0x65, 0xb9)
    ensures WordAt(KeyExpansion(KatKey), 34) == Word(0xe0, 0x16, 0xba, 0xf4) && WordAt(KeyExpansion(KatKey), 35) == Word(0xae, 0xbf, 0x7a, 0xd2)
  {
    KatWord32();
    KatWord33();
    KatWord34();
    KatWord35();
    WordOfExpansion(KatKey, 32);
    WordOfExpansion(KatKey, 33);
    WordOfExpansion(KatKey, 34);
    WordOfExpansion(KatKey, 35);
  }

  /** SubBytes of round 8 on KatPlain. */
  lemma KatSub8()
    ensures SubBytes(KatState(7)) == [0x3e, 0x17, 0x50, 0x76, 0xb6, 0x1c, 0x04, 0x67, 0x8d, 0xfc, 0x22, 0x95, 0xf6, 0xa8, 0xbf, 0xc0]
  {
    BlockEqual(SubBytes([0xd1, 0x87, 0x6c, 0x0f, 0x79, 0xc4, 0x30, 0x0a, 0xb4, 0x55, 0x94, 0xad, 0xd6, 0x6f, 0xf4, 0x1f]), [0x3e, 0x17, 0x50, 0x76, 0xb6, 0x1c, 0x04, 0x67, 0x8d, 0xfc, 0x22, 0x95, 0xf6, 0xa8, 0xbf, 0xc0]);
  }

  /** ShiftRows and MixColumns of round 8 on KatPlain. */
  lemma KatShiftMix8()
    ensures MixColumns(ShiftRows([0x3e, 0x17, 0x50, 0x76, 0xb6, 0x1c, 0x04, 0x67, 0x8d, 0xfc, 0x22, 0x95, 0xf6, 0xa8, 0xbf, 0xc0])) == [0xba, 0xa0, 0x3d, 0xe7, 0xa1, 0xf9, 0xb5, 0x6e, 0xd5, 0x51, 0x2c, 0xba, 0x5f, 0x41, 0x4d, 0x23]
  {
    assert ShiftRows([0x3e, 0x17, 0x50, 0x76, 0xb6, 0x1c, 0x04, 0x67, 0x8d, 0xfc, 0x22, 0x95, 0xf6, 0xa8, 0xbf, 0xc0]) == [0x3e, 0x1c, 0x22, 0xc0, 0xb6, 0xfc, 0xbf, 0x76, 0x8d, 0xa8, 0x50, 0x67, 0xf6, 0x17, 0x04, 0x95];
    MixByColumns([0x3e, 0x1c, 0x22, 0xc0, 0xb6, 0xfc, 0xbf, 0x76, 0x8d, 0xa8, 0x50, 0x67, 0xf6, 0x17, 0x04, 0x95], [0xba, 0xa0, 0x3d, 0xe7, 0xa1, 0xf9, 0xb5, 0x6e, 0xd5, 0x51, 0x2c, 0xba, 0x5f, 0x41, 0x4d, 0x23]);
  }

  /** AddRoundKey of round 8 on KatPlain. */
  lemma KatArk8(ks: seq<bv8>)
    requires |ks| == ScheduleSize
    requires WordAt(ks, 32) == Word(0x47, 0x43, 0x87, 0x35) && WordAt(ks, 33) == Word(0xa4, 0x1c, 0x65, 0xb9)
    requires WordAt(ks, 34) == Word(0xe0, 0x16, 0xba, 0xf4) && WordAt(ks, 35) == Word(0xae, 0xbf, 0x7a, 0xd2)
    ensures AddRoundKey([0xba, 0xa0, 0x3d, 0xe7, 0xa1, 0xf9, 0xb5, 0x6e, 0xd5, 0x51, 0x2c, 0xba, 0x5f, 0x41, 0x4d, 0x23], ks, 8) == KatState(8)
  {
    BlockEqual(AddRoundKey([0xba, 0xa0, 0x3d, 0xe7, 0xa1, 0xf9, 0xb5, 0x6e, 0xd5, 0x51, 0x2c, 0xba, 0x5f, 0x41, 0x4d, 0x23], ks, 8), [0xfd, 0xe3, 0xba, 0xd2, 0x05, 0xe5, 0xd0, 0xd7, 0x35, 0x47, 0x96, 0x4e, 0xf1, 0xfe, 0x37, 0xf1]);
  }

  /** Round 8 of the cipher on KatPlain (FIPS 197 appendix C.1). */
  lemma KatRound8(ks: seq<bv8>)
    requires |ks| == ScheduleSize
    requires WordAt(ks, 32) == Word(0x47, 0x43, 0x87, 0x35) && WordAt(ks, 33) == Word(0xa4, 0x1c, 0x65, 0xb9)
    requires WordAt(ks, 34) == Word(0xe0, 0x16, 0xba, 0xf4) && WordAt(ks, 35) == Word(0xae, 0xbf, 0x7a, 0xd2)
    ensures Round(KatState(7), ks, 8) == KatState(8)
  {
    KatSub8();
    KatShiftMix8();
    KatArk8(ks);
  }

  /** Round key 9 of the key schedule of KatKey. */
  lemma KatRoundKey9()
    ensures WordAt(KeyExpansion(KatKey), 36) == Word(0x54, 0x99, 0x32, 0xd1) && WordAt(KeyExpansion(KatKey), 37) == Word(0xf0, 0x85, 0x57, 0x68)
    ensures WordAt(KeyExpansion(KatKey), 38) == Word(0x10, 0x93, 0xed, 0x9c) && WordAt(KeyExpansion(KatKey), 39) == Word(0xbe, 0x2c, 0x97, 0x4e)
  {
    KatWord36();
    KatWord37();
    KatWord38();
    KatWord39();
    WordOfExpansion(KatKey, 36);
    WordOfExpansion(KatKey, 37);
    WordOfExpansion(KatKey, 38);
    WordOfExpansion(KatKey, 39);
  }

  /** SubBytes of round 9 on KatPlain. */
  lemma KatSub9()
    ensures SubBytes(KatState(8)) == [0x54, 0x11, 0xf4, 0xb5, 0x6b, 0xd9, 0x70, 0x0e, 0x96, 0xa0, 0x90, 0x2f, 0xa1, 0xbb, 0x9a, 0xa1]
  {
    BlockEqual(SubBytes([0xfd, 0xe3, 0xba, 0xd2, 0x05, 0xe5, 0xd0, 0xd7, 0x35, 0x47, 0x96, 0x4e, 0xf1, 0xfe, 0x37, 0xf1]), [0x54, 0x11, 0xf4, 0xb5, 0x6b, 0xd9, 0x70, 0x0e, 0x96, 0xa0, 0x90, 0x2f, 0xa1, 0xbb, 0x9a, 0xa1]);
  }

  /** ShiftRows and MixColumns of round 9 on KatPlain. */
  lemma KatShiftMix9()
    ensures MixColumns(ShiftRows([0x54, 0x11, 0xf4, 0xb5, 0x6b, 0xd9, 0x70, 0x0e, 0x96, 0xa0, 0x90, 0x2f, 0xa1, 0xbb, 0x9a, 0xa1])) == [0xe9, 0xf7, 0x4e, 0xec, 0x02, 0x30, 0x20, 0xf6, 0x1b, 0xf2, 0xcc, 0xf2, 0x35, 0x3c, 0x21, 0xc7]
  {
    assert ShiftRows([0x54, 0x11, 0xf4, 0xb5, 0x6b, 0xd9, 0x70, 0x0e, 0x96, 0xa0, 0x90, 0x2f, 0xa1, 0xbb, 0x9a, 0xa1]) == [0x54, 0xd9, 0x90, 0xa1, 0x6b, 0xa0, 0x9a, 0xb5, 0x96, 0xbb, 0xf4, 0x0e, 0xa1, 0x11, 0x70, 0x2f];
    MixByColumns([0x54, 0xd9, 0x90, 0xa1, 0x6b, 0xa0, 0x9a, 0xb5, 0x96, 0xbb, 0xf4, 0x0e, 0xa1, 0x11, 0x70, 0x2f], [0xe9, 0xf7, 0x4e, 0xec, 0x02, 0x30, 0x20, 0xf6, 0x1b, 0xf2, 0xcc, 0xf2, 0x35, 0x3c, 0x21, 0xc7]);
  }

  /** AddRoundKey of round 9 on KatPlain. */
  lemma KatArk9(ks: seq<bv8>)
    requires |ks| == ScheduleSize
    requires WordAt(ks, 36) == Word(0x54, 0x99, 0x32, 0xd1) && WordAt(ks, 37) == Word(0xf0, 0x85, 0x57, 0x68)
    requires WordAt(ks, 38) == Word(0x10, 0x93, 0xed, 0x9c) && WordAt(ks, 39) == Word(0xbe, 0x2c, 0x97, 0x4e)
    ensures AddRoundKey([0xe9, 0xf7, 0x4e, 0xec, 0x02, 0x30, 0x20, 0xf6, 0x1b, 0xf2, 0xcc, 0xf2, 0x35, 0x3c, 0x21, 0xc7], ks, 9) == KatState(9)
  {
    BlockEqual(AddRoundKey([0xe9, 0xf7, 0x4e, 0xec, 0x02, 0x30, 0x20, 0xf6, 0x1b, 0xf2, 0xcc, 0xf2, 0x35, 0x3c, 0x21, 0xc7], ks, 9), [0xbd, 0x6e, 0x7c, 0x3d, 0xf2, 0xb5, 0x77, 0x9e, 0x0b, 0x61, 0x21, 0x6e, 0x8b, 0x10, 0xb6, 0x89]);
  }

  /** Round 9 of the cipher on KatPlain (FIPS 197 appendix C.1). */
  lemma KatRound9(ks: seq<bv8>)
    requires |ks| == ScheduleSize
    requires WordAt(ks, 36) == Word(0x54, 0x99, 0x32, 0xd1) && WordAt(ks, 37) == Word(0xf0, 0x85, 0x57, 0x68)
    requires WordAt(ks, 38) == Word(0x10, 0x93, 0xed, 0x9c) && WordAt(ks, 39) == Word(0xbe, 0x2c, 0x97, 0x4e)
    ensures Round(KatState(8), ks, 9) == KatState(9)
  {
    KatSub9();
    KatShiftMix9();
    KatArk9(ks);
  }

  /** Round key 10 of the key schedule of KatKey. */
  lemma KatRoundKey10()
    ensures WordAt(KeyExpansion(KatKey), 40) == Word(0x13, 0x11, 0x1d, 0x7f) && WordAt(KeyExpansion(KatKey), 41) == Word(0xe3, 0x94, 0x4a, 0x17)
    ensures WordAt(KeyExpansion(KatKey), 42) == Word(0xf3, 0x07, 0xa7, 0x8b) && WordAt(KeyExpansion(KatKey), 43) == Word(0x4d, 0x2b, 0x30, 0xc5)
  {
    KatWord40();
    KatWord41();
    KatWord42();
    KatWord43();
    WordOfExpansion(KatKey, 40);
    WordOfExpansion(KatKey, 41);
    WordOfExpansion(KatKey, 42);
    WordOfExpansion(KatKey, 43);
  }

  /** SubBytes of the last round on KatPlain. */
  lemma KatSub10()
    ensures SubBytes(KatState(9)) == [0x7a, 0x9f, 0x10, 0x27, 0x89, 0xd5, 0xf5, 0x0b, 0x2b, 0xef, 0xfd, 0x9f, 0x3d, 0xca, 0x4e, 0xa7]
  {
    BlockEqual(SubBytes([0xbd, 0x6e, 0x7c, 0x3d, 0xf2, 0xb5, 0x77, 0x9e, 0x0b, 0x61, 0x21, 0x6e, 0x8b, 0x10, 0xb6, 0x89]), [0x7a, 0x9f, 0x10, 0x27, 0x89, 0xd5, 0xf5, 0x0b, 0x2b, 0xef, 0xfd, 0x9f, 0x3d, 0xca, 0x4e, 0xa7]);
  }

  /** ShiftRows of the last round on KatPlain. */
  lemma KatShift10()
    ensures ShiftRows([0x7a, 0x9f, 0x10, 0x27, 0x89, 0xd5, 0xf5, 0x0b, 0x2b, 0xef, 0xfd, 0x9f, 0x3d, 0xca, 0x4e, 0xa7]) == [0x7a, 0xd5, 0xfd, 0xa7, 0x89, 0xef, 0x4e, 0x27, 0x2b, 0xca, 0x10, 0x0b, 0x3d, 0x9f, 0xf5, 0x9f]
  {
  }

  /** AddRoundKey of round 10 on KatPlain. */
  lemma KatArk10(ks: seq<bv8>)
    requires |ks| == ScheduleSize
    requires WordAt(ks, 40) == Word(0x13, 0x11, 0x1d, 0x7f) && WordAt(ks, 41) == Word(0xe3, 0x94, 0x4a, 0x17)
    requires WordAt(ks, 42) == Word(0xf3, 0x07, 0xa7, 0x8b) && WordAt(ks, 43) == Word(0x4d, 0x2b, 0x30, 0xc5)
    ensures AddRoundKey([0x7a, 0xd5, 0xfd, 0xa7, 0x89, 0xef, 0x4e, 0x27, 0x2b, 0xca, 0x10, 0x0b, 0x3d, 0x9f, 0xf5, 0x9f], ks, 10) == KatCipher
  {
    BlockEqual(AddRoundKey([0x7a, 0xd5, 0xfd, 0xa7, 0x89, 0xef, 0x4e, 0x27, 0x2b, 0xca, 0x10, 0x0b, 0x3d, 0x9f, 0xf5, 0x9f], ks, 10), [0x69, 0xc4, 0xe0, 0xd8, 0x6a, 0x7b, 0x04, 0x30, 0xd8, 0xcd, 0xb7, 0x80, 0x70, 0xb4, 0xc5, 0x5a]);
  }

  /** The key schedule ks holds the words of FIPS 197 appendix A.1. */
  ghost predicate HoldsKatSchedule(ks: seq<bv8>)
    requires |ks| == ScheduleSize
  {
    && WordAt(ks, 0) == Word(0x00, 0x01, 0x02, 0x03)
    && WordAt(ks, 1) == Word(0x04, 0x05, 0x06, 0x07)
    && WordAt(ks, 2) == Word(0x08, 0x09, 0x0a, 0x0b)
    && WordAt(ks, 3) == Word(0x0c, 0x0d, 0x0e, 0x0f)
    && WordAt(ks, 4) == Word(0xd6, 0xaa, 0x74, 0xfd)
    && WordAt(ks, 5) == Word(0xd2, 0xaf, 0x72, 0xfa)
    && WordAt(ks, 6) == Word(0xda, 0xa6, 0x78, 0xf1)
    && WordAt(ks, 7) == Word(0xd6, 0xab, 0x76, 0xfe)
    && WordAt(ks, 8) == Word(0xb6, 0x92, 0xcf, 0x0b)
    && WordAt(ks, 9) == Word(0x64, 0x3d, 0xbd, 0xf1)
    && WordAt(ks, 10) == Word(0xbe, 0x9b, 0xc5, 0x00)
    && WordAt(ks, 11) == Word(0x68, 0x30, 0xb3, 0xfe)
    && WordAt(ks, 12) == Word(0xb6, 0xff, 0x74, 0x4e)
    && WordAt(ks, 13) == Word(0xd2, 0xc2, 0xc9, 0xbf)
    && WordAt(ks, 14) == Word(0x6c, 0x59, 0x0c, 0xbf)
    && WordAt(ks, 15) == Word(0x04, 0x69, 0xbf, 0x41)
    && WordAt(ks, 16) == Word(0x47, 0xf7, 0xf7, 0xbc)
    && WordAt(ks, 17) == Word(0x95, 0x35, 0x3e, 0x03)
    && WordAt(ks, 18) == Word(0xf9, 0x6c, 0x32, 0xbc)
    && WordAt(ks, 19) == Word(0xfd, 0x05, 0x8d, 0xfd)
    && WordAt(ks, 20) == Word(0x3c, 0xaa, 0xa3, 0xe8)
    && WordAt(ks, 21) == Word(0xa9, 0x9f, 0x9d, 0xeb)
    && WordAt(ks, 22) == Word(0x50, 0xf3, 0xaf, 0x57)
    && WordAt(ks, 23) == Word(0xad, 0xf6, 0x22, 0xaa)
    && WordAt(ks, 24) == Word(0x5e, 0x39, 0x0f, 0x7d)
    && WordAt(ks, 25) == Word(0xf7, 0xa6, 0x92, 0x96)
    && WordAt(ks, 26) == Word(0xa7, 0x55, 0x3d, 0xc1)
    && WordAt(ks, 27) == Word(0x0a, 0xa3, 0x1f, 0x6b)
    && WordAt(ks, 28) == Word(0x14, 0xf9, 0x70, 0x1a)
    && WordAt(ks, 29) == Word(0xe3, 0x5f, 0xe2, 0x8c)
    && WordAt(ks, 30) == Word(0x44, 0x0a, 0xdf, 0x4d)
    && WordAt(ks, 31) == Word(0x4e, 0xa9, 0xc0, 0x26)
    && WordAt(ks, 32) == Word(0x47, 0x43, 0x87, 0x35)
    && WordAt(ks, 33) == Word(0xa4, 0x1c, 0x65, 0xb9)
    && WordAt(ks, 34) == Word(0xe0, 0x16, 0xba, 0xf4)
    && WordAt(ks, 35) == Word(0xae, 0xbf, 0x7a, 0xd2)
    && WordAt(ks, 36) == Word(0x54, 0x99, 0x32, 0xd1)
    && WordAt(ks, 37) == Word(0xf0, 0x85, 0x57, 0x68)
    && WordAt(ks, 38) == Word(0x10, 0x93, 0xed, 0x9c)
    && WordAt(ks, 39) == Word(0xbe, 0x2c, 0x97, 0x4e)
    && WordAt(ks, 40) == Word(0x13, 0x11, 0x1d, 0x7f)
    && WordAt(ks, 41) == Word(0xe3, 0x94, 0x4a, 0x17)
    && WordAt(ks, 42) == Word(0xf3, 0x07, 0xa7, 0x8b)
    && WordAt(ks, 43) == Word(0x4d, 0x2b, 0x30, 0xc5)
  }

  /** The key schedule of KatKey is the one of FIPS 197 appendix A.1. */
  lemma KatSchedule()
    ensures HoldsKatSchedule(KeyExpansion(KatKey))
  {
    KatRoundKey0();
    KatRoundKey1();
    KatRoundKey2();
    KatRoundKey3();
    KatRoundKey4();
    KatRoundKey5();
    KatRoundKey6();
    KatRoundKey7();
    KatRoundKey8();
    KatRoundKey9();
    KatRoundKey10();
  }

  /** The cipher of KatPlain under the key schedule of FIPS 197 appendix A.1,
      round by round as in FIPS 197 appendix C.1. */
  lemma KatCipherUnder(ks: seq<bv8>)
    requires |ks| == ScheduleSize && HoldsKatSchedule(ks)
    ensures Encrypt(KatPlain, ks) == KatCipher
  {
    KatArk0(ks);
    assert Forward(KatPlain, ks, 0) == KatState(0);
    KatRound1(ks);
    assert Forward(KatPlain, ks, 1) == KatState(1);
    KatRound2(ks);
    assert Forward(KatPlain, ks, 2) == KatState(2);
    KatRound3(ks);
    assert Forward(KatPlain, ks, 3) == KatState(3);
    KatRound4(ks);
    assert Forward(KatPlain, ks, 4) == KatState(4);
    KatRound5(ks);
    assert Forward(KatPlain, ks, 5) == KatState(5);
    KatRound6(ks);
    assert Forward(KatPlain, ks, 6) == KatState(6);
    KatRound7(ks);
    assert Forward(KatPlain, ks, 7) == KatState(7);
    KatRound8(ks);
    assert Forward(KatPlain, ks, 8) == KatState(8);
    KatRound9(ks);
    assert Forward(KatPlain, ks, 9) == KatState(9);
    KatSub10();
    KatShift10();
    KatArk10(ks);
  }

  /** The self-test's known answer: KatPlain enciphers to KatCipher under KatKey. */
  lemma KatEncrypt()
    ensures Encrypt(KatPlain, KeyExpansion(KatKey)) == KatCipher
  {
    KatSchedule();
    KatCipherUnder(KeyExpansion(KatKey));
  }

  /** The self-test's second known answer: KatCipher deciphers to KatPlain under KatKey. */
  lemma KatDecrypt()
    ensures Decrypt(KatCipher, KeyExpansion(KatKey)) == KatPlain
  {
    KatEncrypt();
    DecryptEncrypt(KatPlain, KeyExpansion(KatKey));
  }
}
