/** Octets, big-endian integers and the two small result types the whole model uses. */
module Octets {

  datatype Option<+T> = None | Some(value: T)

  datatype Result<+T> = Ok(value: T) | Err(reason: string)

  type byte = x: int | 0 <= x < 256

  type Bytes = seq<byte>

  function Pow256(k: nat): nat {
    if k == 0 then 1 else 256 * Pow256(k - 1)
  }

  /** The low `width` octets of `n`, most significant first (Rust's `to_be_bytes`). */
  function BigEndian(n: nat, width: nat): (b: Bytes)
    ensures |b| == width
  {
    if width == 0 then [] else BigEndian(n / 256, width - 1) + [n % 256]
  }

  lemma BigEndianUnfold(n: nat, width: nat)
    ensures BigEndian(n, width + 1) == BigEndian(n / 256, width) + [n % 256]
  {
  }

  /** The number an octet string denotes, most significant first (Rust's `from_be_bytes`). */
  function FromBigEndian(b: Bytes): nat {
    if |b| == 0 then 0 else 256 * FromBigEndian(b[..|b| - 1]) + b[|b| - 1]
  }

  /** A number that fits on `width` octets is read back from them. */
  lemma {:induction false} BigEndianValue(n: nat, width: nat)
    requires n < Pow256(width)
    ensures FromBigEndian(BigEndian(n, width)) == n
  {
    if width > 0 {
      BigEndianValue(n / 256, width - 1);
      assert BigEndian(n, width)[..width - 1] == BigEndian(n / 256, width - 1);
    }
  }

  lemma Pow256At4()
    ensures Pow256(4) == 0x1_0000_0000
  {
    assert Pow256(1) == 256 && Pow256(2) == 65536 && Pow256(3) == 16777216;
  }

  /** On four octets: the most significant comes first, and what does not fit is cut off. */
  lemma OnFourOctets(n: nat)
    ensures BigEndian(n, 4) == [n / 0x100_0000 % 256, n / 0x1_0000 % 256, n / 0x100 % 256, n % 256]
    ensures n < 0x1_0000_0000 ==> FromBigEndian(BigEndian(n, 4)) == n
  {
    assert BigEndian(n, 4) == BigEndian(n, 1 + 1 + 1 + 1);
    BigEndianUnfold(n, 3);
    BigEndianUnfold(n / 256, 2);
    BigEndianUnfold(n / 256 / 256, 1);
    BigEndianUnfold(n / 256 / 256 / 256, 0);
    Pow256At4();
    if n < 0x1_0000_0000 {
      BigEndianValue(n, 4);
    }
  }
}
