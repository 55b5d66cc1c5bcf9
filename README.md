# AES-128 of libakrypt, modelled in Dafny

This project models `source/ak_aes128.c` of libakrypt, which implements the
AES-128 block cipher of FIPS 197 (a 16-byte block and a 16-byte key expanded
into eleven round keys). The model covers:

- the GF(2^8) multipliers `mul_by_02` … `mul_by_0e`;
- the `SBOX`, `INV_SBOX` and `RCON` tables;
- the eight in-place round transformations;
- the key expansion `ak_aes128_schedule_keys` and its error paths;
- the single-block cipher `ak_aes128_encrypt` and inverse cipher `ak_aes128_decrypt`;
- the key-object operations: `ak_aes128_delete_keys`, the mask and unmask flag toggles, and `ak_bckey_create_aes128`;
- the self-test's known-answer vector (FIPS 197 appendix C.1).

The modules follow the structure of the source file:

| module | file | models |
|---|---|---|
| `Field` | field.dfy | `mul_by_*` as functions on `bv8`. They are proved equal to the shift-and-add field product of FIPS 197 section 4.2, and xtime is proved XOR-linear. |
| `Tables` | tables.dfy | `SBOX` and `INV_SBOX` as lookup functions on the byte value, proved to be inverse permutations. `RCON` is proved to hold the powers of {02}. |
| `Transforms` | transforms.dfy | The round transformations as functions on the 16-byte state. Byte `4c + r` is row r of column c, as in the source. Each transformation has its inverse lemma. |
| `InPlace` | aes128.dfy | The source's in-place loops over a `bv8` array. Each is proved to compute the matching `Transforms` function. |
| `KeySchedule` | keyschedule.dfy | The key expansion of FIPS 197 section 5.2 as a function. It is proved to start with the key and follow the recurrence, and to be the only sequence that does. |
| `Cipher` | cipher.dfy | The cipher and inverse cipher in the source's order of steps, over any 176-byte schedule. Both round trips are proved. |
| `Block` | block.dfy | `ak_aes128_encrypt` and `ak_aes128_decrypt` as methods on arrays. Each is proved to compute `Cipher.Encrypt` or `Cipher.Decrypt`. |
| `Keys` | key.dfy | The secret key and block-cipher key as classes. Also the schedule, delete, mask and create operations, with every error path. |
| `Kat` | kat.dfy | The self-test vector: key 00..0f, plaintext 00112233..ff, ciphertext 69c4e0d8 6a7b0430 d8cdb780 70b4c55a. |

A key whose length is not 16 is rejected with the null-pointer error code
(`source/ak_aes128.c:342`), although the message and the library's description
speak of an unsupported key length. The model follows the code.

Library calls the file makes are parameters of the model:
- the secure wipe's status and written pattern;
- whether the aligned allocation succeeds;
- the verdict of the key's integrity check (a field of the key);
- the status of the generic `ak_bckey_create`.

## Model

| member | source | states |
|---|---|---|
| Field.Mul02 | source/ak_aes128.c:76-89 | Computes `mul_by_02`: the byte shifted left by one, XORed with 0x1b when bit 7 was set. It has no contract of its own; its meaning is proved in `Field.XtimeReduces` and `Field.ForwardMultipliersAreProducts`. |
| Field.Mul03 | source/ak_aes128.c:96-99 | Computes `mul_by_03` as `mul_by_02(b) ^ b`. Proved to be the product by {03} in `Field.ForwardMultipliersAreProducts`. |
| Field.Mul09 | source/ak_aes128.c:106-109 | Computes `mul_by_09` as three xtimes of b, XOR b. Proved to be the product by {09} in `Field.InverseMultipliersAreProducts`. |
| Field.Mul0B | source/ak_aes128.c:116-119 | Computes `mul_by_0b` as three xtimes of b, XOR one xtime of b, XOR b. Proved to be the product by {0b} in `Field.InverseMultipliersAreProducts`. |
| Field.Mul0D | source/ak_aes128.c:126-129 | Computes `mul_by_0d` as three xtimes of b, XOR two xtimes of b, XOR b. Proved to be the product by {0d} in `Field.InverseMultipliersAreProducts`. |
| Field.Mul0E | source/ak_aes128.c:136-139 | Computes `mul_by_0e` as three xtimes, XOR two xtimes, XOR one xtime of b. Proved to be the product by {0e} in `Field.InverseMultipliersAreProducts`. |
| Field.XtimeReduces | source/ak_aes128.c:76-89 | `mul_by_02` is the product by x reduced modulo m(x) = 0x11b, that is, the 16-bit shift reduced once. |
| Field.ForwardMultipliersAreProducts | source/ak_aes128.c:76-99 | `mul_by_02` and `mul_by_03` equal the general GF(2^8) product by {02} and {03}. |
| Field.InverseMultipliersAreProducts | source/ak_aes128.c:106-139 | `mul_by_09`, `mul_by_0b`, `mul_by_0d` and `mul_by_0e` equal the GF(2^8) products by {09}, {0b}, {0d} and {0e}. |
| Field.Mul02Linear | source/ak_aes128.c:76-89 | xtime distributes over XOR. |
| Tables.Sub | source/ak_aes128.c:14-29 | Computes the `SBOX` lookup: a comparison tree on the byte whose leaves are the 256 table entries in table order. Its inverse property is `Tables.SBoxInverse`. |
| Tables.InvSub | source/ak_aes128.c:36-51 | Computes the `INV_SBOX` lookup in the same form. |
| Tables.Rcon | source/ak_aes128.c:58-61 | Computes the entry `RCON[j][r]` that the key expansion reads: x^r for row 0 and 0 for rows 1 to 3. `Tables.RconTableHoldsPowers` proves it equal to the literal table `Tables.RconTable` at every index. |
| Tables.SBoxInverse | source/ak_aes128.c:14-51 | `INV_SBOX[SBOX[x]] == x` and `SBOX[INV_SBOX[x]] == x` for every byte x. |
| Tables.TableIndex | source/ak_aes128.c:170 | The table index `16 * (x / 0x10) + x % 0x10` the source computes is x itself. |
| Tables.RconPowers | source/ak_aes128.c:58 | The ten round constants are x^0 .. x^9 in GF(2^8): 01 02 04 08 10 20 40 80 1b 36. |
| Tables.RconTableHoldsPowers | source/ak_aes128.c:58-61 | Every entry `RCON[j][r]` is the round constant: x^r in row 0, each the xtime of the one before, and 0 in rows 1 to 3. |
| Transforms.AddRoundKeyInvolution | source/ak_aes128.c:146-156 | Adding the same round key twice restores the state. |
| Transforms.AddRoundKeyReadsOneRound | source/ak_aes128.c:146-156 | AddRoundKey of round r reads only schedule bytes `16r .. 16r+15`. Two schedules that agree there give the same result. |
| Transforms.SubBytesInverse | source/ak_aes128.c:163-190 | InvSubBytes undoes SubBytes, and SubBytes undoes InvSubBytes. |
| Transforms.ShiftRowsMoves | source/ak_aes128.c:197-258 | After ShiftRows, row r of column c holds the byte of column (c + r) mod 4. After InvShiftRows it holds the byte of column (c - r) mod 4. Rows stay in place. |
| Transforms.ShiftRowsInverse | source/ak_aes128.c:197-258 | InvShiftRows and ShiftRows undo each other in both orders. |
| Transforms.ColumnsOfMixColumns | source/ak_aes128.c:266-305 | Each column of the mixed state is the circulant matrix {02,03,01,01} (inverse: {0e,0b,0d,09}) applied to that column alone. |
| Transforms.InvMixColumnUndoesMix | source/ak_aes128.c:272-275 | On one column, the inverse matrix undoes the forward matrix. |
| Transforms.MixColumnUndoesInvMix | source/ak_aes128.c:295-298 | On one column, the forward matrix undoes the inverse matrix. |
| Transforms.MixColumnsInverse | source/ak_aes128.c:266-305 | InvMixColumns and MixColumns undo each other in both orders on the whole state. |
| InPlace.AddRoundKeyInPlace | source/ak_aes128.c:146-156 | The state array becomes its XOR with schedule bytes `16 * round ..` for `0 <= round <= 10`. The schedule is unchanged. |
| InPlace.SubBytesInPlace | source/ak_aes128.c:163-173 | Every byte of the state is replaced by its `SBOX` image, through the source's index. Nothing else changes. |
| InPlace.InvSubBytesInPlace | source/ak_aes128.c:180-190 | Every byte of the state is replaced by its `INV_SBOX` image. |
| InPlace.RotateRowLeft | source/ak_aes128.c:204-221 | One pass through `tmp_arr` rotates row `count` one column to the left. The other rows are unchanged. |
| InPlace.RotateRowRight | source/ak_aes128.c:238-255 | One pass through `tmp_arr` rotates row `count` one column to the right. The other rows are unchanged. |
| InPlace.RowsRotatedDone | source/ak_aes128.c:202-223 | Rotating every row r by r single steps yields ShiftRows (to the left) or InvShiftRows (to the right). |
| InPlace.ShiftRowsInPlace | source/ak_aes128.c:197-224 | The triple loop leaves the state equal to ShiftRows of the old state. |
| InPlace.InvShiftRowsInPlace | source/ak_aes128.c:231-258 | The triple loop leaves the state equal to InvShiftRows of the old state. |
| InPlace.MixColumnsInPlace | source/ak_aes128.c:266-282 | The loop over columns, computing s0..s3 from the old column, leaves MixColumns of the old state. |
| InPlace.InvMixColumnsInPlace | source/ak_aes128.c:289-305 | The loop over columns leaves InvMixColumns of the old state. |
| KeySchedule.ExpansionStartsWithKey | source/ak_aes128.c:359-365 | The first 16 schedule bytes are the key. |
| KeySchedule.ExpansionFollowsRecurrence | source/ak_aes128.c:370-400 | For 4 <= i < 44, word i is word i-4 XOR word i-1. When i % 4 == 0, it is word i-4 XOR SubWord(RotWord(word i-1)) XOR the round-constant word of round i/4. |
| KeySchedule.ExpansionIsSchedule | source/ak_aes128.c:355-400 | The expanded key is 176 bytes, starts with the key and follows the recurrence. |
| KeySchedule.ScheduleUnique | source/ak_aes128.c:355-400 | Any 176-byte sequence that starts with the key and follows the recurrence is the expanded key. So the schedule depends on the key bytes alone. |
| KeySchedule.RconStepByte | source/ak_aes128.c:386-390 | The source's byte-wise `back[j] ^ tmp[j] ^ RCON[j][i/4-1]` is byte j of the word-level step. |
| Keys.CopyKey | source/ak_aes128.c:359-365 | The nested loop copies the 16 key bytes into schedule bytes 0..15. |
| Keys.SubWordInPlace | source/ak_aes128.c:381-384 | The loop over `tmp` applies SubWord, through the source's table index. |
| Keys.RotSubWord | source/ak_aes128.c:374-384 | `tmp` ends up holding SubWord(RotWord(word i-1)). |
| Keys.ExpandRconWord | source/ak_aes128.c:386-390 | Word i becomes word i-4 XOR `tmp` XOR the round constant. Words before i are unchanged. |
| Keys.ExpandXorWord | source/ak_aes128.c:394-398 | Word i becomes word i-4 XOR word i-1. Words before i are unchanged. |
| Keys.ExpandKey | source/ak_aes128.c:358-400 | The expansion loops fill the buffer with exactly `KeyExpansion(key)`. |
| Keys.ScheduleKeys | source/ak_aes128.c:337-403 | The outcomes are: NULL key gives null pointer; wrong key size also gives null pointer; failed integrity check gives wrong key icode. These three leave `data` and its contents untouched. Otherwise any old schedule is wiped and released first, then allocation failure gives out of memory with `data` null. Success gives ok, with a fresh 176-byte buffer holding `KeyExpansion(key)`. No other field changes. |
| Keys.DeleteKeys | source/ak_aes128.c:311-331 | NULL gives null pointer. With no schedule, the result is ok and nothing changes. Otherwise the buffer holds the wipe pattern, or zeros if the wipe failed. It is released (`data` becomes null), and the wipe's status is returned. |
| Keys.SecretKey.SetSpecialMask | source/ak_aes128.c:494-501 | Always ok. The flags become `Masked(old flags)`. No other field changes. |
| Keys.SecretKey.SpecialUnmask | source/ak_aes128.c:508-516 | Always ok. The flags become `Unmasked(old flags)`. No other field changes. |
| Keys.Masked | source/ak_aes128.c:496-498 | The mask bit is set in the result. |
| Keys.Unmasked | source/ak_aes128.c:510-514 | The mask bit is clear in the result. |
| Keys.MaskTouchesOneBit | source/ak_aes128.c:494-516 | Masking and unmasking leave every other flag bit as it was. |
| Keys.MaskIdempotent | source/ak_aes128.c:494-516 | Masking twice is masking once, and unmasking twice is unmasking once. |
| Keys.MaskRoundTrip | source/ak_aes128.c:494-516 | Unmasking undoes masking of an unmasked key, and masking undoes unmasking of a masked one. |
| Keys.CreateAes128 | source/ak_aes128.c:522-541 | NULL gives null pointer. An error from the generic creation is passed up unchanged. Otherwise the result is ok, and the four cipher operations and the two mask operations are bound to their AES-128 variants. |
| Cipher.UndoSubShift | source/ak_aes128.c:431-432 | InvShiftRows then InvSubBytes undo SubBytes then ShiftRows, and the reverse order also holds. |
| Cipher.InvRoundUndoesRound | source/ak_aes128.c:429-435 | One inverse round, taken in the decrypt loop's order, undoes one full round. |
| Cipher.RoundUndoesInvRound | source/ak_aes128.c:471-477 | One full round undoes one inverse round. |
| Cipher.BackwardAfterEncrypt | source/ak_aes128.c:410-487 | After decrypt's loop reaches round n on a ciphertext, its state is SubBytes and ShiftRows of encrypt's state after round n. |
| Cipher.ForwardAfterDecrypt | source/ak_aes128.c:410-487 | Encrypt's state after round n on a decrypted block is InvSubBytes and InvShiftRows of decrypt's state at round n. |
| Cipher.DecryptEncrypt | source/ak_aes128.c:410-487 | For any 176-byte schedule, decrypt(encrypt(P)) == P. |
| Cipher.EncryptDecrypt | source/ak_aes128.c:410-487 | For any 176-byte schedule, encrypt(decrypt(C)) == C. |
| Block.LoadState | source/ak_aes128.c:419-425 | Copying the input into `state[4][4]` is the identity on the 16 bytes. |
| Block.StoreState | source/ak_aes128.c:441-444 | Copying `state[i/4][i%4]` to the output is the identity on the 16 bytes. |
| Block.RoundInPlace | source/ak_aes128.c:431-434 | One pass of the encrypt loop is one full round. |
| Block.InvRoundInPlace | source/ak_aes128.c:473-476 | One pass of the decrypt loop is one inverse round. |
| Block.FinalRoundInPlace | source/ak_aes128.c:437-439 | SubBytes, ShiftRows and round key 10, with no MixColumns. |
| Block.InvFinalRoundInPlace | source/ak_aes128.c:479-481 | InvShiftRows, InvSubBytes and round key 0, with no InvMixColumns. |
| Block.EncryptBlock | source/ak_aes128.c:410-446 | The output block is the FIPS 197 cipher of the input under the schedule. The schedule is unchanged. |
| Block.DecryptBlock | source/ak_aes128.c:452-487 | The output block is the FIPS 197 inverse cipher of the input under the schedule. The schedule is unchanged. |
| Kat.KatSchedule | source/ak_aes128.c:550 | The schedule of key 00..0f is the 44 words of FIPS 197 appendix A.1. |
| Kat.KatEncrypt | source/ak_aes128.c:549-550 | Key 00..0f enciphers 00112233..ff to 69c4e0d86a7b0430d8cdb78070b4c55a. |
| Kat.KatDecrypt | source/ak_aes128.c:592-593 | Under the same key, 69c4e0d86a7b0430d8cdb78070b4c55a deciphers to 00112233..ff. |

## Left out

- Foreign calls are not modelled; their outcomes are parameters or fields:
  - `ak_ptr_wipe`, `ak_aligned_malloc`, `free`, `ak_error_message`, `skey->check_icode` and `ak_bckey_create`;
  - `ak_libakrypt_get_option_by_name`, whose result `oc` is never used.
- Effects not modelled:
  - the messages `ak_error_message` logs;
  - what `ak_bckey_create` does to the key besides its status.
- Keys.MaskFlag: the value of `ak_key_flag_set_mask` is defined outside this file. The model fixes it to the single bit 0x2, and the mask lemmas are proved for that value only. The flag word is modelled as 64 bits.
- Keys.ScheduleKeys: requires that the key's byte sequence has length `key_size` and that an existing schedule is 176 bytes. These are invariants the library keeps for its keys, not checks this file makes.
- Keys.DeleteKeys: what `free` does to the released memory is not modelled, and neither are the opacity of a wipe or any side-channel or constant-time property. The buffer is modelled as detached from the key.
- Keys.CreateAes128: function pointers are modelled as fields set to fixed tags naming the bound operations. The generic `ak_bckey_create(bkey, 16, 16)` is modelled only by its status. The contract says nothing about what that call does to the key's fields (its size, bytes, schedule, flags), or to the bindings when it fails.
- Block.EncryptBlock and Block.DecryptBlock take the schedule array directly, where the source reads it from `skey->data`. The source's `state[4][4]` is kept as a flat 16-byte array with the same byte order.
- Tables.Sub and Tables.InvSub: the S-box tables are written as comparison trees on the byte value, with the leaves in table order, rather than as arrays.
- Keys.ExpandRconWord: `RCON[j][r]` is read as the function `Rcon`, which gives x^r in row 0 and zero elsewhere. `Tables.RconTableHoldsPowers` proves it equal to the table.
- Helper methods (`RotateRowLeft`, `ExpandXorWord` and the like) split the source's function bodies into loop-sized pieces without changing the order of writes.
- The self-test `ak_libakrypt_test_aes128` (lines 547–628) and the example program: only their vector is modelled, as the lemmas `Kat.KatEncrypt` and `Kat.KatDecrypt`. The self-test only prints its results and compares nothing. `ak_bckey_set_key` and the ECB wrappers it calls are not part of this model.
