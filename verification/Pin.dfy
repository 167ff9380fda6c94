/** The six-digit PIN and its 16-octet Noob (crates/pair-pairing/src/pin.rs). */
module Pin {
  import opened Octets
  import opened Decimal

  predicate IsValidPin(pin: string) {
    |pin| == 6 && AllDigits(pin)
  }

  /** The PIN as an unsigned 128-bit number, zero when it does not parse, big-endian on 16 octets. */
  function NoobFromPin(pin: string): (noob: Bytes)
    ensures |noob| == 16
  {
    var v := match ParseUnsigned(pin, Pow256(16)) case Some(n) => n case None => 0;
    BigEndian(v, 16)
  }

  lemma {:induction false} ValueBound(s: string)
    requires AllDigits(s)
    ensures Value(s) < Pow10(|s|)
  {
    if |s| > 0 {
      ValueBound(s[..|s| - 1]);
    }
  }

  lemma Limits()
    ensures Pow10(6) == 1_000_000 < Pow256(16)
  {
    assert Pow10(2) == 100 && Pow10(4) == 10000;
    Pow256At4();
    assert Pow256(8) >= Pow256(4) && Pow256(12) >= Pow256(8) && Pow256(16) >= Pow256(12);
  }

  /** A valid PIN's Noob is read back as the number its digits denote. */
  lemma NoobValue(pin: string)
    requires IsValidPin(pin)
    ensures FromBigEndian(NoobFromPin(pin)) == Value(pin)
  {
    ValueBound(pin);
    Limits();
    BigEndianValue(Value(pin), 16);
  }

  /** Different valid PINs have different Noobs. */
  lemma NoobInjective(a: string, b: string)
    requires IsValidPin(a) && IsValidPin(b)
    requires NoobFromPin(a) == NoobFromPin(b)
    ensures a == b
  {
    NoobValue(a);
    NoobValue(b);
    ValueInjective(a, b);
  }

  /** A PIN is six decimal digits, and its Noob is their number on sixteen octets, so that zeros fill the first. */
  lemma PinsInFull(pin: string)
    ensures IsValidPin(pin) <==> |pin| == 6 && forall i :: 0 <= i < 6 ==> pin[i] in "0123456789"
    ensures IsValidPin(pin) ==> NoobFromPin(pin)[..12] == seq(12, _ => 0)
  {
    forall c: char
      ensures c in "0123456789" <==> IsDigit(c)
    {
      var t := "0123456789";
      assert t[0] == '0' && t[1] == '1' && t[2] == '2' && t[3] == '3' && t[4] == '4';
      assert t[5] == '5' && t[6] == '6' && t[7] == '7' && t[8] == '8' && t[9] == '9';
    }
    if IsValidPin(pin) {
      ValueBound(pin);
      Limits();
      Pow256At4();
      LeadingZeros(Value(pin), 12);
    }
  }

  lemma {:induction false} LeadingZeros(n: nat, zeros: nat)
    requires n < 0x1_0000_0000
    ensures BigEndian(n, zeros + 4)[..zeros] == seq(zeros, _ => 0)
  {
    if zeros > 0 {
      Pow256Grows(zeros - 1);
      FrontZero(n, zeros + 3);
      LeadingZeros(n, zeros - 1);
      hide BigEndian;
      assert BigEndian(n, zeros + 4) == [0] + BigEndian(n, zeros + 3);
      assert seq(zeros, _ => 0) == [0] + seq(zeros - 1, _ => 0);
    }
  }

  lemma {:induction false} Pow256Grows(k: nat)
    ensures Pow256(k + 4) >= 0x1_0000_0000
  {
    Pow256At4();
    if k > 0 {
      Pow256Grows(k - 1);
    }
  }

  /** A number that fits has a zero in front on one octet more. */
  lemma {:induction false} FrontZero(n: nat, width: nat)
    requires n < Pow256(width)
    ensures BigEndian(n, width + 1) == [0] + BigEndian(n, width)
  {
    if width > 0 {
      FrontZero(n / 256, width - 1);
    }
  }
}
