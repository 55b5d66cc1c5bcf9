/** The secret key of `source/ak_aes128.c` and the operations the file
    installs on it: key expansion into a freshly allocated 176-byte
    schedule, its secure deletion, the masking flag toggles, and the
    creation of an AES-128 block-cipher key. The library calls the file
    makes (secure wipe, aligned allocation, the integrity check and the
    generic key creation) are not part of this model: their outcomes are
    parameters or fields. */
module Keys {
  import opened Field
  import opened Tables
  import opened KeySchedule

  /** The library error codes these operations return; `Failure` stands
      for any other code, such as one passed up from a library call. */
  datatype Status = Ok | NullPointer | WrongKeyIcode | OutOfMemory | Failure(code: int)

  /** The bit of the key flags that records that the key is masked.
      Its value is fixed outside this file; any single bit would do. */
  const MaskFlag: bv64 := 0x2

  /** The operations `ak_bckey_create_aes128` installs, as tags. */
  datatype Operation =
    | Unset
    | Aes128ScheduleKeys | Aes128DeleteKeys | Aes128Encrypt | Aes128Decrypt
    | Aes128SetMask | Aes128Unmask

  /** A secret key: its bytes, their declared length, the expanded key
      (null while there is none), the flag word, the verdict of its
      integrity check, and its masking operations. */
  class SecretKey {
    var key: seq<bv8>
    var keySize: int
    var data: array?<bv8>
    var flags: bv64
    var icodeOk: bool
    var setMask: Operation
    var unmask: Operation

    constructor (key: seq<bv8>, icodeOk: bool)
      ensures this.key == key && keySize == |key| && data == null
      ensures flags == 0 && this.icodeOk == icodeOk
      ensures setMask == Unset && unmask == Unset
    {
      this.key := key;
      keySize := |key|;
      data := null;
      flags := 0;
      this.icodeOk := icodeOk;
      setMask := Unset;
      unmask := Unset;
    }

    /** `ak_skey_set_special_aes128_mask`: AES-128 keys are not masked,
        so only the mask bit is recorded. */
    method SetSpecialMask() returns (error: Status)
      modifies this
      ensures error == Ok
      ensures flags == Masked(old(flags))
      ensures key == old(key) && keySize == old(keySize) && data == old(data) && icodeOk == old(icodeOk)
      ensures setMask == old(setMask) && unmask == old(unmask)
    {
      if flags & MaskFlag == 0 {
        flags := flags | MaskFlag;
      }
      return Ok;
    }

    /** `ak_skey_set_special_aes128_unmask`: only the mask bit is
        cleared, if it is set. */
    method SpecialUnmask() returns (error: Status)
      modifies this
      ensures error == Ok
      ensures flags == Unmasked(old(flags))
      ensures key == old(key) && keySize == old(keySize) && data == old(data) && icodeOk == old(icodeOk)
      ensures setMask == old(setMask) && unmask == old(unmask)
    {
      if flags & MaskFlag == 0 {
        return Ok;
      }
      flags := flags ^ MaskFlag;
      return Ok;
    }
  }

  /** A block-cipher key: a secret key, embedded in it (so it is never
      replaced by another), plus the operations bound to it. */
  class BlockCipherKey {
    const key: SecretKey
    var scheduleKeys: Operation
    var deleteKeys: Operation
    var encrypt: Operation
    var decrypt: Operation

    constructor (key: SecretKey)
      ensures this.key == key
      ensures scheduleKeys == Unset && deleteKeys == Unset && encrypt == Unset && decrypt == Unset
    {
      this.key := key;
      scheduleKeys := Unset;
      deleteKeys := Unset;
      encrypt := Unset;
      decrypt := Unset;
    }
  }

  /** The flag word with the mask bit set. */
  function Masked(f: bv64): (r: bv64)
    ensures r & MaskFlag == MaskFlag
  {
    f | MaskFlag
  }

  /** The flag word with the mask bit clear. */
  function Unmasked(f: bv64): (r: bv64)
    ensures r & MaskFlag == 0
  {
    f & !MaskFlag
  }

  /** Setting and clearing the mask leave every other bit as it was. */
  lemma MaskTouchesOneBit(f: bv64)
    ensures Masked(f) & !MaskFlag == f & !MaskFlag
    ensures Unmasked(f) & !MaskFlag == f & !MaskFlag
  {
  }

  /** Setting the mask twice is setting it once; so is clearing it. */
  lemma MaskIdempotent(f: bv64)
    ensures Masked(Masked(f)) == Masked(f)
    ensures Unmasked(Unmasked(f)) == Unmasked(f)
  {
  }

  /** Unmasking a masked key restores a flag word whose mask bit was
      clear, and masking an unmasked one restores a word whose bit was set. */
  lemma MaskRoundTrip(f: bv64)
    ensures f & MaskFlag == 0 ==> Unmasked(Masked(f)) == f
    ensures f & MaskFlag != 0 ==> Masked(Unmasked(f)) == f
  {
  }

  /** A buffer of n zero bytes. */
  function Zeros(n: nat): (z: seq<bv8>)
    ensures |z| == n && forall k :: 0 <= k < n ==> z[k] == 0
  {
    seq(n, k => 0)
  }

  /** `ak_aes128_delete_keys`: the expanded key, if there is one, is
      overwritten with the wipe pattern, or with zeros when the wipe
      reports an error, then released; the wipe's status is returned.
      `wipeStatus` and `wipePattern` stand for what the secure wipe
      reports and writes. */
  method DeleteKeys(skey: SecretKey?, wipeStatus: Status, wipePattern: seq<bv8>) returns (error: Status)
    requires |wipePattern| == ScheduleBytes
    requires skey != null && skey.data != null ==> skey.data.Length == ScheduleBytes
    modifies skey, if skey != null && skey.data != null then {skey.data} else {}
    ensures skey == null ==> error == NullPointer
    ensures skey != null ==> skey.data == null
    ensures skey != null && old(skey.data) == null ==> error == Ok
    ensures skey != null && old(skey.data) != null ==>
      error == wipeStatus && old(skey.data)[..] == if wipeStatus == Ok then wipePattern else Zeros(ScheduleBytes)
    ensures skey != null ==> skey.key == old(skey.key) && skey.keySize == old(skey.keySize) && skey.flags == old(skey.flags)
    ensures skey != null ==> skey.icodeOk == old(skey.icodeOk) && skey.setMask == old(skey.setMask) && skey.unmask == old(skey.unmask)
  {
    error := Ok;
    if skey == null {
      return NullPointer;
    }
    if skey.data != null {
      var buffer := skey.data;
      forall k | 0 <= k < buffer.Length {
        buffer[k] := wipePattern[k];
      }
      error := wipeStatus;
      if error != Ok {
        forall k | 0 <= k < buffer.Length {
          buffer[k] := 0;
        }
      }
      skey.data := null;
    }
    return error;
  }

  /** `ak_aes128_schedule_keys`: after the checks on the key (present,
      16 bytes long, integrity code correct) any previous schedule is
      deleted, a 176-byte buffer is allocated and filled with the
      expansion of the key. A key of the wrong length is reported as a
      null pointer, as the source does. `icodeOk` on the key stands for
      the integrity check's verdict, `allocOk` for the allocation's
      success, and `wipeStatus`/`wipePattern` for the secure wipe of the
      previous schedule. */
  method ScheduleKeys(skey: SecretKey?, allocOk: bool, wipeStatus: Status, wipePattern: seq<bv8>) returns (error: Status)
    requires |wipePattern| == ScheduleBytes
    requires skey != null ==> |skey.key| == skey.keySize
    requires skey != null && skey.data != null ==> skey.data.Length == ScheduleBytes
    modifies skey, if skey != null && skey.data != null then {skey.data} else {}
    ensures skey != null ==> skey.key == old(skey.key) && skey.keySize == old(skey.keySize) && skey.flags == old(skey.flags)
    ensures skey != null ==> skey.icodeOk == old(skey.icodeOk) && skey.setMask == old(skey.setMask) && skey.unmask == old(skey.unmask)
    ensures skey == null ==> error == NullPointer
    ensures skey != null && skey.keySize != KeySize ==> error == NullPointer
    ensures skey != null && skey.keySize == KeySize && !skey.icodeOk ==> error == WrongKeyIcode
    ensures skey != null && (skey.keySize != KeySize || !skey.icodeOk) ==>
      skey.data == old(skey.data) && (skey.data != null ==> skey.data[..] == old(skey.data[..]))
    ensures skey != null && skey.keySize == KeySize && skey.icodeOk && old(skey.data) != null ==>
      old(skey.data)[..] == if wipeStatus == Ok then wipePattern else Zeros(ScheduleBytes)
    ensures skey != null && skey.keySize == KeySize && skey.icodeOk && !allocOk ==>
      error == OutOfMemory && skey.data == null
    ensures skey != null && skey.keySize == KeySize && skey.icodeOk && allocOk ==>
      error == Ok && skey.data != null && fresh(skey.data) && skey.data[..] == KeyExpansion(skey.key)
  {
    if skey == null {
      return NullPointer;
    }
    if skey.keySize != KeySize {
      return NullPointer;
    }
    if !skey.icodeOk {
      return WrongKeyIcode;
    }
    if skey.data != null {
      var ignored := DeleteKeys(skey, wipeStatus, wipePattern);
    }
    if !allocOk {
      skey.data := null;
      return OutOfMemory;
    }
    var keySchedule := new bv8[ScheduleBytes];
    skey.data := keySchedule;
    ExpandKey(keySchedule, skey.key);
    return Ok;
  }

  /** The key expansion loops of `ak_aes128_schedule_keys`: the key is
      copied into words 0 .. 3, then words 4 .. 43 are computed one after
      the other, every fourth one through RotWord and SubWord in the
      four-byte buffer `tmp`. */
  method ExpandKey(keySchedule: array<bv8>, key: seq<bv8>)
    requires keySchedule.Length == ScheduleBytes && |key| == KeySize
    modifies keySchedule
    ensures keySchedule[..] == KeyExpansion(key)
  {
    CopyKey(keySchedule, key);
    var tmp := new bv8[4];
    for i := 4 to ScheduleWords
      invariant SchedulePrefix(key, keySchedule[..], i)
    {
      ghost var before := keySchedule[..];
      ghost var back, prev := WordAt(before, i - 4), WordAt(before, i - 1);
      if i % 4 == 0 {
        RotSubWord(keySchedule, tmp, i, prev);
        ExpandRconWord(keySchedule, tmp, i, i / 4 - 1, back, SubWord(RotWord(prev)));
      } else {
        ExpandXorWord(keySchedule, i, back, prev);
      }
      ExtendSchedule(key, before, keySchedule[..], i);
    }
    ScheduleUnique(key, keySchedule[..]);
  }

  /** The first loops of the expansion: the key bytes, word by word. */
  method CopyKey(keySchedule: array<bv8>, key: seq<bv8>)
    requires keySchedule.Length == ScheduleBytes && |key| == KeySize
    modifies keySchedule
    ensures keySchedule[..KeySize] == key
  {
    for i := 0 to 4
      invariant forall k :: 0 <= k < 4 * i ==> keySchedule[k] == key[k]
    {
      for j := 0 to 4
        invariant forall k :: 0 <= k < 4 * i + j ==> keySchedule[k] == key[k]
      {
        keySchedule[j + 4 * i] := key[j + 4 * i];
      }
    }
  }

  /** Word i is written byte by byte as word i - 4 (`back`) XOR the
      buffer `tmp` (holding `sub`) XOR the round constant `RCON[j][r]`;
      the source's r is i / 4 - 1. */
  method ExpandRconWord(keySchedule: array<bv8>, tmp: array<bv8>, i: int, r: int, ghost back: Word, ghost sub: Word)
    requires keySchedule.Length == ScheduleBytes && tmp.Length == 4
    requires 4 <= i < ScheduleWords && 0 <= r < 10
    requires WordAt(keySchedule[..], i - 4) == back && WordAt(tmp[..], 0) == sub
    modifies keySchedule
    ensures keySchedule[..4 * i] == old(keySchedule[..4 * i])
    ensures WordAt(keySchedule[..], i) == XorWord(XorWord(back, sub), RconWord(r))
  {
    ghost var before := keySchedule[..];
    ghost var next := XorWord(XorWord(back, sub), RconWord(r));
    ghost var t := tmp[..];
    for j := 0 to 4
      invariant forall k :: 0 <= k < 4 * i ==> keySchedule[k] == before[k]
      invariant forall jj :: 0 <= jj < j ==> keySchedule[4 * i + jj] == Byte(next, jj)
      invariant tmp[..] == t
    {
      RconStepByte(back, sub, r, j);
      WordAtBytes(before, i - 4, j);
      WordAtBytes(t, 0, j);
      var tmp2 := Add(Add(keySchedule[j + (i - 4) * 4], tmp[j]), Rcon(j, r));
      assert tmp2 == Byte(next, j);
      keySchedule[j + i * 4] := tmp2;
    }
    assert keySchedule[..4 * i] == before[..4 * i];
    WordOfBytes(keySchedule[..], i, next);
  }

  /** Word i, not a multiple of four, is written byte by byte as word
      i - 4 (`back`) XOR word i - 1 (`prev`). */
  method ExpandXorWord(keySchedule: array<bv8>, i: int, ghost back: Word, ghost prev: Word)
    requires keySchedule.Length == ScheduleBytes && 4 <= i < ScheduleWords
    requires WordAt(keySchedule[..], i - 4) == back && WordAt(keySchedule[..], i - 1) == prev
    modifies keySchedule
    ensures keySchedule[..4 * i] == old(keySchedule[..4 * i])
    ensures WordAt(keySchedule[..], i) == XorWord(back, prev)
  {
    ghost var before := keySchedule[..];
    ghost var next := XorWord(back, prev);
    for j := 0 to 4
      invariant forall k :: 0 <= k < 4 * i ==> keySchedule[k] == before[k]
      invariant forall jj :: 0 <= jj < j ==> keySchedule[4 * i + jj] == Byte(next, jj)
    {
      XorWordBytes(back, prev, j);
      WordAtBytes(before, i - 4, j);
      WordAtBytes(before, i - 1, j);
      var tmp2 := Add(keySchedule[j + (i - 4) * 4], keySchedule[j + (i - 1) * 4]);
      assert tmp2 == Byte(next, j);
      keySchedule[j + i * 4] := tmp2;
    }
    assert keySchedule[..4 * i] == before[..4 * i];
    WordOfBytes(keySchedule[..], i, next);
  }

  /** RotWord then SubWord of word i - 1 (`prev`) into `tmp`. */
  method RotSubWord(keySchedule: array<bv8>, tmp: array<bv8>, i: int, ghost prev: Word)
    requires keySchedule.Length == ScheduleBytes && tmp.Length == 4
    requires 4 <= i < ScheduleWords && WordAt(keySchedule[..], i - 1) == prev
    modifies tmp
    ensures WordAt(tmp[..], 0) == SubWord(RotWord(prev))
  {
    tmp[0] := keySchedule[1 + (i - 1) * 4];
    tmp[1] := keySchedule[2 + (i - 1) * 4];
    tmp[2] := keySchedule[3 + (i - 1) * 4];
    tmp[3] := keySchedule[0 + (i - 1) * 4];
    SubWordInPlace(tmp);
  }

  /** SubWord on the buffer `tmp`, with the source's table index
      `16 * (x / 0x10) + x % 0x10`. */
  method SubWordInPlace(tmp: array<bv8>)
    requires tmp.Length == 4
    modifies tmp
    ensures WordAt(tmp[..], 0) == SubWord(WordAt(old(tmp[..]), 0))
  {
    ghost var w := tmp[..];
    for j := 0 to 4
      invariant forall k :: 0 <= k < 4 ==> tmp[k] == if k < j then Sub(w[k]) else w[k]
    {
      var x := tmp[j];
      var index: bv8 := 16 * (x / 0x10) + x % 0x10;
      TableIndex(x);
      tmp[j] := Sub(index);
    }
  }

  /** `ak_bckey_create_aes128`: the generic block-cipher key is created
      for 16-byte keys and blocks, then the AES-128 operations are bound
      to it. `createStatus` stands for the result of the generic creation,
      whose other effects on the key are not part of this model, so the
      contract says nothing about the key's other fields; its error is
      passed up unchanged. */
  method CreateAes128(bkey: BlockCipherKey?, createStatus: Status) returns (error: Status)
    modifies bkey, if bkey != null then {bkey.key} else {}
    ensures bkey == null ==> error == NullPointer
    ensures bkey != null && createStatus != Ok ==> error == createStatus
    ensures bkey != null && createStatus == Ok ==>
      (error == Ok
       && bkey.scheduleKeys == Aes128ScheduleKeys && bkey.deleteKeys == Aes128DeleteKeys
       && bkey.encrypt == Aes128Encrypt && bkey.decrypt == Aes128Decrypt
       && bkey.key.setMask == Aes128SetMask && bkey.key.unmask == Aes128Unmask)
  {
    if bkey == null {
      return NullPointer;
    }
    error := createStatus;
    if error != Ok {
      return error;
    }
    bkey.scheduleKeys := Aes128ScheduleKeys;
    bkey.deleteKeys := Aes128DeleteKeys;
    bkey.encrypt := Aes128Encrypt;
    bkey.decrypt := Aes128Decrypt;
    bkey.key.setMask := Aes128SetMask;
    bkey.key.unmask := Aes128Unmask;
    return error;
  }
}
