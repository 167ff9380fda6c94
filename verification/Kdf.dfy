/** The one-step KDF and the split of its output (crates/pair-pairing/src/kdf.rs). */
module Kdf {
  import opened Octets

  /** A 32-octet hash, such as SHA-256. */
  ghost predicate IsHash(h: Bytes -> Bytes) {
    forall x: Bytes :: |h(x)| == 32
  }

  const OUTPUT_LEN := 320

  const ALGORITHM_ID: Bytes := [69, 65, 80, 45, 78, 79, 79, 66]  // "EAP-NOOB"

  /** What block `i` hashes: the 32-bit counter, which starts at 1, then Z, then FixedInfo. */
  function BlockInput(z: Bytes, fixedInfo: Bytes, i: nat): Bytes {
    BigEndian(i + 1, 4) + z + fixedInfo
  }

  /** SP 800-56C, section 4.1: octet `j` of the output is octet `j % 32` of block `j / 32`. */
  function KdfOutput(h: Bytes -> Bytes, z: Bytes, fixedInfo: Bytes, len: nat): (out: Bytes)
    requires IsHash(h)
    ensures |out| == len
  {
    seq(len, j requires 0 <= j < len => h(BlockInput(z, fixedInfo, j / 32))[j % 32])
  }

  /** The loop, with its 32-bit counter: longer outputs would overflow the counter. */
  method OneStepKdf(h: Bytes -> Bytes, z: Bytes, fixedInfo: Bytes, outLen: nat) returns (out: Bytes)
    requires IsHash(h)
    requires outLen <= 32 * (0x1_0000_0000 - 2)
    ensures out == KdfOutput(h, z, fixedInfo, outLen)
  {
    out := [];
    var counter: nat := 1;
    while |out| < outLen
      invariant 1 <= counter < 0x1_0000_0000
      invariant |out| == 32 * (counter - 1)
      invariant |out| < outLen + 32
      invariant out == KdfOutput(h, z, fixedInfo, |out|)
    {
      var block := h(BigEndian(counter, 4) + z + fixedInfo);
      var next := out + block;
      assert next == KdfOutput(h, z, fixedInfo, |next|) by {
        forall j | 0 <= j < |next|
          ensures next[j] == h(BlockInput(z, fixedInfo, j / 32))[j % 32]
        {
          if j >= |out| {
            assert j / 32 == counter - 1 && j % 32 == j - |out|;
          }
        }
      }
      out := next;
      counter := counter + 1;
    }
    out := out[..outLen];
  }

  /** A shorter output is a prefix of a longer one. */
  lemma ShorterIsPrefix(h: Bytes -> Bytes, z: Bytes, fixedInfo: Bytes, short: nat, long: nat)
    requires IsHash(h) && short <= long
    ensures KdfOutput(h, z, fixedInfo, short) == KdfOutput(h, z, fixedInfo, long)[..short]
  {
  }

  /** Whole block `i` of the output is the hash of that block's input. */
  lemma BlockIsHash(h: Bytes -> Bytes, z: Bytes, fixedInfo: Bytes, len: nat, i: nat)
    requires IsHash(h) && 32 * (i + 1) <= len
    ensures KdfOutput(h, z, fixedInfo, len)[32 * i..32 * (i + 1)] == h(BlockInput(z, fixedInfo, i))
  {
    var out, block := KdfOutput(h, z, fixedInfo, len), h(BlockInput(z, fixedInfo, i));
    forall j | 0 <= j < 32
      ensures out[32 * i + j] == block[j]
    {
      assert (32 * i + j) / 32 == i && (32 * i + j) % 32 == j;
    }
    assert out[32 * i..32 * (i + 1)] == block;
  }

  function FixedInfo(np: Bytes, ns: Bytes, noob: Bytes): Bytes {
    ALGORITHM_ID + np + ns + [|noob| % 256] + noob
  }

  /** The buffer is filled piece by piece; the length of the Noob is cut to one octet. */
  method EapNoobFixedInfo(np: Bytes, ns: Bytes, noob: Bytes) returns (fi: Bytes)
    ensures fi == FixedInfo(np, ns, noob)
  {
    fi := ALGORITHM_ID;
    fi := fi + np;
    fi := fi + ns;
    fi := fi + [|noob| % 256];
    fi := fi + noob;
  }

  /** For Noobs of one length, FixedInfo fixes the Noob and the two nonces' concatenation, and nothing more. */
  lemma FixedInfoDetermines(np: Bytes, ns: Bytes, noob: Bytes, np': Bytes, ns': Bytes, noob': Bytes)
    requires |noob| == |noob'|
    ensures FixedInfo(np, ns, noob) == FixedInfo(np', ns', noob') <==> np + ns == np' + ns' && noob == noob'
  {
    var a, b := FixedInfo(np, ns, noob), FixedInfo(np', ns', noob');
    assert a == ALGORITHM_ID + (np + ns) + ([|noob| % 256] + noob);
    assert b == ALGORITHM_ID + (np' + ns') + ([|noob'| % 256] + noob');
    if a == b {
      var n := |np + ns|;
      assert |np' + ns'| == n;
      assert a[8..8 + n] == np + ns && b[8..8 + n] == np' + ns';
      assert a[9 + n..] == noob && b[9 + n..] == noob';
    }
  }

  /**
   * The longer Noob, its length octet in front, laid across the end of the other's nonces, the other's length
   * octet and the other's Noob.
   */
  predicate Absorbs(nonces: Bytes, noob: Bytes, nonces': Bytes, noob': Bytes) {
    && |noob| < |noob'|
    && var d := |noob'| - |noob|;
      nonces == nonces' + [|noob'| % 256] + noob'[..d - 1] && noob'[d - 1] == |noob| % 256 && noob'[d..] == noob
  }

  /** For Noobs of any lengths: what FixedInfo fixes, and all that it does not. */
  lemma FixedInfoEqualExactly(np: Bytes, ns: Bytes, noob: Bytes, np': Bytes, ns': Bytes, noob': Bytes)
    ensures FixedInfo(np, ns, noob) == FixedInfo(np', ns', noob') <==>
              || (np + ns == np' + ns' && noob == noob')
              || Absorbs(np + ns, noob, np' + ns', noob') || Absorbs(np' + ns', noob', np + ns, noob)
  {
    if |noob| == |noob'| {
      FixedInfoDetermines(np, ns, noob, np', ns', noob');
    } else if |noob| < |noob'| {
      AbsorbsExactly(np, ns, noob, np', ns', noob');
    } else {
      AbsorbsExactly(np', ns', noob', np, ns, noob);
    }
  }

  lemma AbsorbsExactly(np: Bytes, ns: Bytes, noob: Bytes, np': Bytes, ns': Bytes, noob': Bytes)
    requires |noob| < |noob'|
    ensures FixedInfo(np, ns, noob) == FixedInfo(np', ns', noob') <==> Absorbs(np + ns, noob, np' + ns', noob')
  {
    var d, n := |noob'| - |noob|, |np' + ns'|;
    var rest := [|noob| % 256] + noob;
    var a, b := FixedInfo(np, ns, noob), FixedInfo(np', ns', noob');
    assert a == ALGORITHM_ID + (np + ns) + rest;
    assert b == ALGORITHM_ID + (np' + ns' + [|noob'| % 256] + noob'[..d - 1]) + noob'[d - 1..] by {
      assert noob' == noob'[..d - 1] + noob'[d - 1..];
    }
    if a == b {
      assert |np + ns| == n + d;
      assert a[8..8 + n + d] == np + ns && a[8 + n + d..] == rest;
      assert b[8..8 + n + d] == np' + ns' + [|noob'| % 256] + noob'[..d - 1] && b[8 + n + d..] == noob'[d - 1..];
      assert rest[0] == noob'[d - 1..][0] && rest[1..] == noob'[d - 1..][1..];
    }
    if Absorbs(np + ns, noob, np' + ns', noob') {
      assert noob'[d - 1..] == [noob'[d - 1]] + noob'[d..];
    }
  }

  /** With nonces of fixed lengths FixedInfo is injective. */
  lemma FixedInfoInjective(np: Bytes, ns: Bytes, noob: Bytes, np': Bytes, ns': Bytes, noob': Bytes)
    requires |np| == |np'| && |ns| == |ns'|
    requires FixedInfo(np, ns, noob) == FixedInfo(np', ns', noob')
    ensures np == np' && ns == ns' && noob == noob'
  {
    assert |FixedInfo(np, ns, noob)| == 9 + |np| + |ns| + |noob|;
    assert |FixedInfo(np', ns', noob')| == 9 + |np'| + |ns'| + |noob'|;
    FixedInfoDetermines(np, ns, noob, np', ns', noob');
    var both := np + ns;
    assert both[..|np|] == np && both[|np|..] == ns;
    var both' := np' + ns';
    assert both'[..|np|] == np' && both'[|np|..] == ns';
  }

  datatype DerivedKeys = DerivedKeys(
    msk: Bytes, emsk: Bytes, amsk: Bytes, methodId: Bytes, kms: Bytes, kmp: Bytes, kz: Bytes)

  /** The seven keys have their lengths and, laid end to end, are the first 320 octets of `out`. */
  predicate SplitsInto(out: Bytes, keys: DerivedKeys) {
    |out| >= OUTPUT_LEN
    && |keys.msk| == |keys.emsk| == |keys.amsk| == 64
    && |keys.methodId| == |keys.kms| == |keys.kmp| == |keys.kz| == 32
    && keys.msk + keys.emsk + keys.amsk + keys.methodId + keys.kms + keys.kmp + keys.kz == out[..OUTPUT_LEN]
  }

  /** `from_output`: take each key at a moving offset. */
  method FromOutput(out: Bytes) returns (keys: Result<DerivedKeys>)
    ensures keys.Ok? <==> |out| >= OUTPUT_LEN
    ensures keys.Ok? ==> SplitsInto(out, keys.value)
  {
    if |out| < OUTPUT_LEN {
      return Err("kdf output too short");
    }
    var o := 0;
    var msk := out[o..o + 64];
    o := o + 64;
    var emsk := out[o..o + 64];
    o := o + 64;
    var amsk := out[o..o + 64];
    o := o + 64;
    var methodId := out[o..o + 32];
    o := o + 32;
    var kms := out[o..o + 32];
    o := o + 32;
    var kmp := out[o..o + 32];
    o := o + 32;
    var kz := out[o..o + 32];
    keys := Ok(DerivedKeys(msk, emsk, amsk, methodId, kms, kmp, kz));
    assert msk + emsk + amsk + methodId + kms + kmp + kz == out[..OUTPUT_LEN];
  }

  /** The seven keys of one exchange, each a slice of the KDF output. */
  function CompletionKeys(h: Bytes -> Bytes, z: Bytes, np: Bytes, ns: Bytes, noob: Bytes): (keys: DerivedKeys)
    requires IsHash(h)
    ensures SplitsInto(KdfOutput(h, z, FixedInfo(np, ns, noob), OUTPUT_LEN), keys)
  {
    var out := KdfOutput(h, z, FixedInfo(np, ns, noob), OUTPUT_LEN);
    assert out[..OUTPUT_LEN] == out;
    assert out ==
           out[0..64] + out[64..128] + out[128..192] + out[192..224] + out[224..256] + out[256..288] + out[288..320];
    DerivedKeys(out[0..64], out[64..128], out[128..192], out[192..224], out[224..256], out[256..288], out[288..320])
  }

  /** Only one split has the right lengths. */
  lemma SplitUnique(out: Bytes, a: DerivedKeys, b: DerivedKeys)
    requires SplitsInto(out, a) && SplitsInto(out, b)
    ensures a == b
  {
    SplitOffsets(out, a);
    SplitOffsets(out, b);
  }

  lemma SplitOffsets(out: Bytes, k: DerivedKeys)
    requires SplitsInto(out, k)
    ensures k == DerivedKeys(out[0..64], out[64..128], out[128..192], out[192..224], out[224..256],
                             out[256..288], out[288..320])
  {
    var whole := k.msk + k.emsk + k.amsk + k.methodId + k.kms + k.kmp + k.kz;
    assert whole[0..64] == k.msk && whole[64..128] == k.emsk && whole[128..192] == k.amsk;
    assert whole[192..224] == k.methodId && whole[224..256] == k.kms;
    assert whole[256..288] == k.kmp && whole[288..320] == k.kz;
    assert whole[0..64] == out[0..64] && whole[64..128] == out[64..128] && whole[128..192] == out[128..192];
    assert whole[192..224] == out[192..224] && whole[224..256] == out[224..256];
    assert whole[256..288] == out[256..288] && whole[288..320] == out[288..320];
  }

  method DeriveCompletion(h: Bytes -> Bytes, z: Bytes, np: Bytes, ns: Bytes, noob: Bytes) returns (keys: DerivedKeys)
    requires IsHash(h)
    ensures keys == CompletionKeys(h, z, np, ns, noob)
  {
    var fi := EapNoobFixedInfo(np, ns, noob);
    var out := OneStepKdf(h, z, fi, OUTPUT_LEN);
    var split := FromOutput(out);
    keys := split.value;
    SplitUnique(out, keys, CompletionKeys(h, z, np, ns, noob));
  }

  /** The hash takes these two inputs apart, or they are one input. */
  predicate NoCollision(h: Bytes -> Bytes, x: Bytes, y: Bytes) {
    h(x) == h(y) ==> x == y
  }

  /** Agreeing on the confirmation key Kmp means agreeing on every key, unless SHA-256 collides on block 9. */
  lemma KmpFixesKeys(h: Bytes -> Bytes, z: Bytes, np: Bytes, ns: Bytes, noob: Bytes,
                     z': Bytes, np': Bytes, ns': Bytes, noob': Bytes)
    requires IsHash(h)
    requires NoCollision(h, BlockInput(z, FixedInfo(np, ns, noob), 8), BlockInput(z', FixedInfo(np', ns', noob'), 8))
    requires CompletionKeys(h, z, np, ns, noob).kmp == CompletionKeys(h, z', np', ns', noob').kmp
    ensures CompletionKeys(h, z, np, ns, noob) == CompletionKeys(h, z', np', ns', noob')
  {
    KeyBlock(h, z, FixedInfo(np, ns, noob), z', FixedInfo(np', ns', noob'), 8);
  }

  /** The same for the server's confirmation key Kms, which is block 8. */
  lemma KmsFixesKeys(h: Bytes -> Bytes, z: Bytes, np: Bytes, ns: Bytes, noob: Bytes,
                     z': Bytes, np': Bytes, ns': Bytes, noob': Bytes)
    requires IsHash(h)
    requires NoCollision(h, BlockInput(z, FixedInfo(np, ns, noob), 7), BlockInput(z', FixedInfo(np', ns', noob'), 7))
    requires CompletionKeys(h, z, np, ns, noob).kms == CompletionKeys(h, z', np', ns', noob').kms
    ensures CompletionKeys(h, z, np, ns, noob) == CompletionKeys(h, z', np', ns', noob')
  {
    KeyBlock(h, z, FixedInfo(np, ns, noob), z', FixedInfo(np', ns', noob'), 7);
  }

  lemma KeyBlock(h: Bytes -> Bytes, z: Bytes, fi: Bytes, z': Bytes, fi': Bytes, i: nat)
    requires IsHash(h) && i < 10
    requires NoCollision(h, BlockInput(z, fi, i), BlockInput(z', fi', i))
    requires KdfOutput(h, z, fi, OUTPUT_LEN)[32 * i..32 * (i + 1)] ==
             KdfOutput(h, z', fi', OUTPUT_LEN)[32 * i..32 * (i + 1)]
    ensures KdfOutput(h, z, fi, OUTPUT_LEN) == KdfOutput(h, z', fi', OUTPUT_LEN)
  {
    BlockIsHash(h, z, fi, OUTPUT_LEN, i);
    BlockIsHash(h, z', fi', OUTPUT_LEN, i);
    var a, b := BlockInput(z, fi, i), BlockInput(z', fi', i);
    assert a == BigEndian(i + 1, 4) + (z + fi) && b == BigEndian(i + 1, 4) + (z' + fi');
    assert a[4..] == z + fi && b[4..] == z' + fi';
    forall j: nat
      ensures BlockInput(z, fi, j) == BlockInput(z', fi', j)
    {
      assert BlockInput(z, fi, j) == BigEndian(j + 1, 4) + (z + fi);
      assert BlockInput(z', fi', j) == BigEndian(j + 1, 4) + (z' + fi');
    }
  }

  // ---- octet by octet ----

  /** Each whole block is the hash of the counter, which is one for the first, then Z, then FixedInfo. */
  lemma BlockHashes(h: Bytes -> Bytes, z: Bytes, fixedInfo: Bytes, len: nat, i: nat) returns (x: Bytes)
    requires IsHash(h) && 32 * (i + 1) <= len <= 32 * (0x1_0000_0000 - 2)
    ensures KdfOutput(h, z, fixedInfo, len)[32 * i..32 * (i + 1)] == h(x)
    ensures |x| == 4 + |z| + |fixedInfo| && FromBigEndian(x[..4]) == i + 1
    ensures x[0] == (i + 1) / 0x100_0000 && x[1] == (i + 1) / 0x1_0000 % 256 && x[2] == (i + 1) / 0x100 % 256
    ensures x[3] == (i + 1) % 256
    ensures x[4..4 + |z|] == z && x[4 + |z|..] == fixedInfo
  {
    BlockIsHash(h, z, fixedInfo, len, i);
    OnFourOctets(i + 1);
    x := BlockInput(z, fixedInfo, i);
    assert x == BigEndian(i + 1, 4) + z + fixedInfo;
    assert x[..4] == BigEndian(i + 1, 4);
  }

  /** The parts of FixedInfo and where they are. */
  lemma FixedInfoPlaces(np: Bytes, ns: Bytes, noob: Bytes)
    ensures var fi, n := FixedInfo(np, ns, noob), |np| + |ns|;
      && |fi| == 9 + n + |noob|
      && (forall j :: 0 <= j < 8 ==> fi[j] == "EAP-NOOB"[j] as int)
      && fi[8..8 + |np|] == np && fi[8 + |np|..8 + n] == ns
      && fi[8 + n] == |noob| % 256 && fi[9 + n..] == noob
  {
    var fi := FixedInfo(np, ns, noob);
    var t := "EAP-NOOB";
    assert t[0] == 'E' && t[1] == 'A' && t[2] == 'P' && t[3] == '-';
    assert t[4] == 'N' && t[5] == 'O' && t[6] == 'O' && t[7] == 'B';
    assert fi[..8] == ALGORITHM_ID;
  }

  /** What block `counter` of the key derivation of one exchange hashes. */
  function Hashed(counter: byte, z: Bytes, np: Bytes, ns: Bytes, noob: Bytes): Bytes {
    [0, 0, 0, counter] + z + [69, 65, 80, 45, 78, 79, 79, 66] + np + ns + [|noob| % 256] + noob
  }

  /** The seven keys, each from its own hashes. */
  lemma KeysInFull(h: Bytes -> Bytes, z: Bytes, np: Bytes, ns: Bytes, noob: Bytes)
    requires IsHash(h)
    ensures var keys := CompletionKeys(h, z, np, ns, noob);
      && keys.msk == h(Hashed(1, z, np, ns, noob)) + h(Hashed(2, z, np, ns, noob))
      && keys.emsk == h(Hashed(3, z, np, ns, noob)) + h(Hashed(4, z, np, ns, noob))
      && keys.amsk == h(Hashed(5, z, np, ns, noob)) + h(Hashed(6, z, np, ns, noob))
      && keys.methodId == h(Hashed(7, z, np, ns, noob)) && keys.kms == h(Hashed(8, z, np, ns, noob))
      && keys.kmp == h(Hashed(9, z, np, ns, noob)) && keys.kz == h(Hashed(10, z, np, ns, noob))
  {
    var out := KdfOutput(h, z, FixedInfo(np, ns, noob), OUTPUT_LEN);
    forall i: nat | i < 10
      ensures out[32 * i..32 * (i + 1)] == h(Hashed(i + 1, z, np, ns, noob))
    {
      BlockOfExchange(h, z, np, ns, noob, i);
    }
    SplitOffsets(out, CompletionKeys(h, z, np, ns, noob));
    hide CompletionKeys, Hashed, FixedInfo, KdfOutput, SplitsInto;
    assert out[0..64] == out[32 * 0..32 * 1] + out[32 * 1..32 * 2];
    assert out[64..128] == out[32 * 2..32 * 3] + out[32 * 3..32 * 4];
    assert out[128..192] == out[32 * 4..32 * 5] + out[32 * 5..32 * 6];
    assert out[192..224] == out[32 * 6..32 * 7] && out[224..256] == out[32 * 7..32 * 8];
    assert out[256..288] == out[32 * 8..32 * 9] && out[288..320] == out[32 * 9..32 * 10];
  }

  lemma BlockOfExchange(h: Bytes -> Bytes, z: Bytes, np: Bytes, ns: Bytes, noob: Bytes, i: nat)
    requires IsHash(h) && i < 10
    ensures KdfOutput(h, z, FixedInfo(np, ns, noob), OUTPUT_LEN)[32 * i..32 * (i + 1)] ==
              h(Hashed(i + 1, z, np, ns, noob))
  {
    BlockIsHash(h, z, FixedInfo(np, ns, noob), OUTPUT_LEN, i);
    OnFourOctets(i + 1);
    assert BlockInput(z, FixedInfo(np, ns, noob), i) == Hashed(i + 1, z, np, ns, noob);
  }
}
