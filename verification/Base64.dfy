/**
 * The base64 decoder of crates/pair-trust/src/identity.rs. A text and the octets it encodes denote one
 * number, in base 64 and in base 256; decoding is proved to change the base and nothing else.
 */
module Base64 {
  import opened Octets

  function CharOf(v: nat): (c: char)
    requires v < 64
  {
    if v < 26 then 'A' + v as char
    else if v < 52 then 'a' + (v - 26) as char
    else if v < 62 then '0' + (v - 52) as char
    else if v == 62 then '+' else '/'
  }

  function SextetOf(c: char): (v: Option<nat>)
    ensures v.Some? ==> v.value < 64
  {
    if 'A' <= c <= 'Z' then Some((c - 'A') as int)
    else if 'a' <= c <= 'z' then Some((c - 'a') as int + 26)
    else if '0' <= c <= '9' then Some((c - '0') as int + 52)
    else if c == '+' then Some(62)
    else if c == '/' then Some(63)
    else None
  }

  lemma AlphabetInverse(v: nat)
    requires v < 64
    ensures SextetOf(CharOf(v)) == Some(v) && !IsAsciiSpace(CharOf(v)) && CharOf(v) as int < 128
  {
  }

  predicate IsAsciiSpace(c: char) {
    c == ' ' || c == '\t' || c == '\n' || c == '\r' || c as int == 12
  }

  predicate Skipped(c: char) {
    c == '=' || IsAsciiSpace(c)
  }

  type Sextets = s: seq<nat> | forall i :: 0 <= i < |s| ==> s[i] < 64

  /** The sextets of the characters that are not skipped, unless one is outside the alphabet. */
  function SextetsOf(s: string): Option<Sextets> {
    if |s| == 0 then Some([])
    else
      var last := s[|s| - 1];
      var front := SextetsOf(s[..|s| - 1]);
      if front.None? || Skipped(last) then front
      else match SextetOf(last) case Some(v) => Some(front.value + [v]) case None => None
  }

  /** The number a sextet string denotes. */
  function Number(s: Sextets): nat {
    if |s| == 0 then 0 else 64 * Number(s[..|s| - 1]) + s[|s| - 1]
  }

  /** The bits left over after `count` sextets, and how many octets they fill. */
  function Pending(count: nat): (bits: nat)
    ensures bits == 0 || bits == 2 || bits == 4 || bits == 6
  {
    if count == 0 then 0 else if Pending(count - 1) == 0 then 6 else Pending(count - 1) - 2
  }

  function Filled(count: nat): nat {
    if count == 0 then 0 else Filled(count - 1) + (if Pending(count - 1) == 0 then 0 else 1)
  }

  /** Fewer than eight bits are ever pending, and none is lost. */
  lemma {:induction false} FilledAndPending(count: nat)
    ensures 6 * count == 8 * Filled(count) + Pending(count)
  {
    if count > 0 {
      FilledAndPending(count - 1);
    }
  }

  /** `x >> bits` and the `bits` bits that it drops, for the shifts that occur. */
  function Shift(x: nat, bits: nat): nat {
    if bits == 2 then x / 4 else if bits == 4 then x / 16 else if bits == 6 then x / 64 else x
  }

  function LowBits(x: nat, bits: nat): nat {
    if bits == 2 then x % 4 else if bits == 4 then x % 16 else if bits == 6 then x % 64 else 0
  }

  /** The octets of a sextet string: its number without the trailing bits that fill no octet. */
  function OctetsOf(s: Sextets): (b: Bytes)
    ensures |b| == Filled(|s|)
  {
    BigEndian(Shift(Number(s), Pending(|s|)), Filled(|s|))
  }

  function Decode(s: string): Option<Bytes> {
    match SextetsOf(s) case Some(x) => Some(OctetsOf(x)) case None => None
  }

  // ---- the loop with its 32-bit accumulator ----

  /** The 256-entry reverse table, 255 marking what is outside the alphabet. */
  method ReverseTable() returns (rev: seq<nat>)
    ensures |rev| == 256
    ensures forall c: char :: c as int < 256 ==> rev[c as int] == (match SextetOf(c) case Some(v) => v case None => 255)
  {
    rev := seq(256, _ => 255);
    for i := 0 to 64
      invariant |rev| == 256
      invariant forall c: char :: c as int < 256 ==>
        rev[c as int] == (match SextetOf(c) case Some(v) => (if v < i then v else 255) case None => 255)
    {
      AlphabetInverse(i);
      rev := rev[CharOf(i) as int := i];
    }
  }

  // One sextet more, with 0, 2, 4 or 6 bits pending: the accumulator keeps agreeing with the number on
  // the low bits, although its high bits are cut off at 32.

  lemma Quotient(x: int, d: int, q: int, r: int)
    requires (d == 4 || d == 16 || d == 64 || d == 256 || d == 1024 || d == 4096) && x == d * q + r && 0 <= r < d
    ensures x / d == q && x % d == r
  {
  }

  /** What is cut off at 32 bits is a multiple of every `low` there is. */
  lemma Shifted(buf: nat, v: nat) returns (q: nat)
    ensures buf * 64 % 0x1_0000_0000 + v == 64 * buf + v - 0x1_0000_0000 * q
  {
    q := buf * 64 / 0x1_0000_0000;
  }

  lemma Accumulate0(n: nat, buf: nat, v: nat)
    requires v < 64
    ensures (buf * 64 % 0x1_0000_0000 + v) % 64 == (64 * n + v) % 64 == v && (64 * n + v) / 64 == n
  {
    var q := Shifted(buf, v);
    Quotient(64 * buf + v - 0x1_0000_0000 * q, 64, buf - 0x400_0000 * q, v);
    Quotient(64 * n + v, 64, n, v);
  }

  lemma Accumulate2(n: nat, buf: nat, v: nat)
    requires v < 64 && buf % 4 == n % 4
    ensures (buf * 64 % 0x1_0000_0000 + v) % 256 == (64 * n + v) % 256 && (64 * n + v) / 256 == n / 4
  {
    var q := Shifted(buf, v);
    var r := n % 4;
    Quotient(64 * buf + v - 0x1_0000_0000 * q, 256, buf / 4 - 0x100_0000 * q, 64 * r + v);
    Quotient(64 * n + v, 256, n / 4, 64 * r + v);
  }

  lemma Accumulate4(n: nat, buf: nat, v: nat)
    requires v < 64 && buf % 16 == n % 16
    ensures (buf * 64 % 0x1_0000_0000 + v) % 1024 == (64 * n + v) % 1024 && (64 * n + v) / 1024 == n / 16
  {
    var q := Shifted(buf, v);
    var r := n % 16;
    Quotient(64 * buf + v - 0x1_0000_0000 * q, 1024, buf / 16 - 0x40_0000 * q, 64 * r + v);
    Quotient(64 * n + v, 1024, n / 16, 64 * r + v);
  }

  lemma Accumulate6(n: nat, buf: nat, v: nat)
    requires v < 64 && buf % 64 == n % 64
    ensures (buf * 64 % 0x1_0000_0000 + v) % 4096 == (64 * n + v) % 4096 && (64 * n + v) / 4096 == n / 64
  {
    var q := Shifted(buf, v);
    var r := n % 64;
    Quotient(64 * buf + v - 0x1_0000_0000 * q, 4096, buf / 64 - 0x10_0000 * q, 64 * r + v);
    Quotient(64 * n + v, 4096, n / 64, 64 * r + v);
  }

  /** An octet and the `pending` bits below it, on top of a multiple of both. */
  lemma CutOne(x: nat, pending: nat, high: nat, octet: nat, low: nat)
    requires (pending == 4 || pending == 16) && octet < 256 && low < pending
    requires x == pending * (256 * high + octet) + low
    ensures x % pending == low && x / pending % 256 == octet && x / pending / 256 == high
  {
    Quotient(x, pending, 256 * high + octet, low);
    Quotient(256 * high + octet, 256, high, octet);
  }

  /** The octet cut out of the accumulator and what stays pending, from agreement on `bits + 6` low bits. */
  lemma Cut(x: nat, next: nat, low: nat, pending: nat)
    requires (low == 1024 && pending == 4) || (low == 4096 && pending == 16)
    requires next % low == x % low
    ensures next % pending == x % pending
    ensures next / pending % 256 == x / pending % 256 && x / pending / 256 == x / low
  {
    if low == 1024 {
      CutOne(next, 4, next / 1024, x % 1024 / 4, x % 1024 % 4);
      CutOne(x, 4, x / 1024, x % 1024 / 4, x % 1024 % 4);
    } else {
      CutOne(next, 16, next / 4096, x % 4096 / 16, x % 4096 % 16);
      CutOne(x, 16, x / 4096, x % 4096 / 16, x % 4096 % 16);
    }
  }

  lemma Accumulate(n: nat, bits: nat, buf: nat, v: nat)
    requires v < 64 && bits < 8 && bits % 2 == 0
    requires LowBits(buf, bits) == LowBits(n, bits)
    ensures var x, next := 64 * n + v, buf * 64 % 0x1_0000_0000 + v;
      && (bits == 0 ==> LowBits(next, 6) == LowBits(x, 6) && Shift(x, 6) == Shift(n, 0))
      && (bits >= 2 ==>
            && LowBits(next, bits - 2) == LowBits(x, bits - 2)
            && Shift(next, bits - 2) % 256 == Shift(x, bits - 2) % 256
            && Shift(x, bits - 2) / 256 == Shift(n, bits))
  {
    var x, next := 64 * n + v, buf * 64 % 0x1_0000_0000 + v;
    if bits == 0 {
      Accumulate0(n, buf, v);
    } else if bits == 2 {
      Accumulate2(n, buf, v);
    } else if bits == 4 {
      Accumulate4(n, buf, v);
      Cut(x, next, 1024, 4);
    } else {
      Accumulate6(n, buf, v);
      Cut(x, next, 4096, 16);
    }
  }

  lemma PendingStep(count: nat)
    ensures Pending(count + 1) == (if Pending(count) == 0 then 6 else Pending(count) - 2)
    ensures Filled(count + 1) == Filled(count) + (if Pending(count) == 0 then 0 else 1)
  {
  }

  lemma OctetsAre(s: Sextets)
    ensures OctetsOf(s) == BigEndian(Shift(Number(s), Pending(|s|)), Filled(|s|))
  {
  }

  lemma OctetAdded(x: nat, n: nat, f: nat)
    requires x / 256 == n
    ensures BigEndian(x, f + 1) == BigEndian(n, f) + [x % 256]
  {
    BigEndianUnfold(x, f);
  }

  lemma SameOctets(s: Sextets, t: Sextets)
    requires Filled(|t|) == Filled(|s|) && Shift(Number(t), Pending(|t|)) == Shift(Number(s), Pending(|s|))
    ensures OctetsOf(t) == OctetsOf(s)
  {
    hide Shift, Number, Pending, Filled, BigEndian;
  }

  lemma MoreOctets(s: Sextets, t: Sextets, x: nat)
    requires Filled(|t|) == Filled(|s|) + 1 && Shift(Number(t), Pending(|t|)) == x
    requires x / 256 == Shift(Number(s), Pending(|s|))
    ensures OctetsOf(t) == OctetsOf(s) + [x % 256]
  {
    hide Shift, Number, Pending, Filled, BigEndian;
    OctetAdded(x, Shift(Number(s), Pending(|s|)), Filled(|s|));
  }

  /** One sextet more fills an octet unless no bits were pending. */
  lemma OctetsExtend(s: Sextets, v: nat)
    requires v < 64
    requires var bits, x := Pending(|s|), 64 * Number(s) + v;
      if bits == 0 then Shift(x, 6) == Shift(Number(s), 0) else Shift(x, bits - 2) / 256 == Shift(Number(s), bits)
    ensures Number(s + [v]) == 64 * Number(s) + v
    ensures var bits, x := Pending(|s|), 64 * Number(s) + v;
      && Pending(|s + [v]|) == (if bits == 0 then 6 else bits - 2)
      && OctetsOf(s + [v]) == OctetsOf(s) + if bits == 0 then [] else [Shift(x, bits - 2) % 256]
  {
    hide *;
    NumberPush(s, v);
    PendingStep(|s|);
    assert |s + [v]| == |s| + 1;
    if Pending(|s|) == 0 {
      SameOctets(s, s + [v]);
    } else {
      MoreOctets(s, s + [v], Shift(64 * Number(s) + v, Pending(|s|) - 2));
    }
  }

  lemma NothingDecoded()
    ensures Pending(0) == 0 && LowBits(0, 0) == LowBits(Number([]), 0) && OctetsOf([]) == []
  {
  }

  method Base64Decode(s: string) returns (out: Option<Bytes>)
    ensures out == Decode(s)
  {
    NothingDecoded();
    hide Shift, LowBits, Number, OctetsOf, Pending, Filled;
    var rev := ReverseTable();
    var octets: Bytes := [];
    var buf: nat, bits: nat := 0, 0;
    ghost var seen: Sextets := [];
    var i := 0;
    while i < |s|
      invariant 0 <= i <= |s|
      invariant SextetsOf(s[..i]) == Some(seen)
      invariant bits == Pending(|seen|)
      invariant buf < 0x1_0000_0000
      invariant LowBits(buf, bits) == LowBits(Number(seen), bits)
      invariant octets == OctetsOf(seen)
    {
      var c := s[i];
      assert s[..i + 1][..i] == s[..i];
      i := i + 1;
      if c == '=' || IsAsciiSpace(c) {
        continue;
      }
      if c as int >= 256 || rev[c as int] == 255 {
        FailureSpreads(s, i);
        return None;
      }
      var v := rev[c as int];
      assert SextetOf(c) == Some(v);
      Accumulate(Number(seen), bits, buf, v);
      OctetsExtend(seen, v);
      buf := buf * 64 % 0x1_0000_0000 + v;
      bits := bits + 6;
      if bits >= 8 {
        bits := bits - 8;
        octets := octets + [Shift(buf, bits) % 256];
      }
      seen := seen + [v];
    }
    assert s[..i] == s;
    return Some(octets);
  }

  /** Once a prefix fails, the whole text fails. */
  lemma {:induction false} FailureSpreads(s: string, i: nat)
    requires i <= |s| && SextetsOf(s[..i]).None?
    ensures SextetsOf(s).None?
  {
    if i < |s| {
      assert s[..|s| - 1][..i] == s[..i];
      FailureSpreads(s[..|s| - 1], i);
    } else {
      assert s[..i] == s;
    }
  }

  // ---- the encoding of RFC 4648, section 4 ----

  function Group3(b: Bytes): Sextets
    requires |b| == 3
  {
    [b[0] / 4, b[0] % 4 * 16 + b[1] / 16, b[1] % 16 * 4 + b[2] / 64, b[2] % 64]
  }

  /** The sextets of a whole number of three-octet groups. */
  function WholeGroups(b: Bytes): (s: Sextets)
    requires |b| % 3 == 0
    ensures |s| == |b| / 3 * 4
  {
    if |b| == 0 then [] else WholeGroups(b[..|b| - 3]) + Group3(b[|b| - 3..])
  }

  /** The sextets of the last one or two octets, filled up with zero bits. */
  function TailGroup(b: Bytes): Sextets
    requires |b| < 3
  {
    if |b| == 1 then [b[0] / 4, b[0] % 4 * 16]
    else if |b| == 2 then [b[0] / 4, b[0] % 4 * 16 + b[1] / 16, b[1] % 16 * 4]
    else []
  }

  function EncodedSextets(b: Bytes): Sextets {
    WholeGroups(b[..|b| - |b| % 3]) + TailGroup(b[|b| - |b| % 3..])
  }

  function Chars(s: Sextets): (t: string)
    ensures |t| == |s|
  {
    seq(|s|, i requires 0 <= i < |s| => CharOf(s[i]))
  }

  function Padding(n: nat): string {
    if n % 3 == 1 then "==" else if n % 3 == 2 then "=" else ""
  }

  function Encode(b: Bytes): string {
    Chars(EncodedSextets(b)) + Padding(|b|)
  }

  lemma {:induction false} WholeGroupsNumber(b: Bytes)
    requires |b| % 3 == 0
    ensures Number(WholeGroups(b)) == FromBigEndian(b)
  {
    if |b| > 0 {
      var n := |b| - 3;
      var front, g := WholeGroups(b[..n]), Group3(b[n..]);
      WholeGroupsNumber(b[..n]);
      NumberFour(front, g);
      assert b[..n + 2][..n + 1] == b[..n + 1] && b[..n + 1][..n] == b[..n];
      assert b[..n + 3] == b;
      assert FromBigEndian(b[..n + 2]) == 256 * FromBigEndian(b[..n + 1]) + b[n + 1];
      assert FromBigEndian(b[..n + 1]) == 256 * FromBigEndian(b[..n]) + b[n];
      assert b[n..][0] == b[n] && b[n..][1] == b[n + 1] && b[n..][2] == b[n + 2];
    }
  }

  lemma NumberPush(s: Sextets, v: nat)
    requires v < 64
    ensures Number(s + [v]) == 64 * Number(s) + v
  {
    assert (s + [v])[..|s|] == s;
  }

  lemma NumberFour(s: Sextets, g: Sextets)
    requires |g| == 4
    ensures Number(s + g) == 64 * (64 * (64 * (64 * Number(s) + g[0]) + g[1]) + g[2]) + g[3]
  {
    NumberPush(s, g[0]);
    NumberPush(s + [g[0]], g[1]);
    NumberPush(s + [g[0]] + [g[1]], g[2]);
    NumberPush(s + [g[0]] + [g[1]] + [g[2]], g[3]);
    assert s + g == s + [g[0]] + [g[1]] + [g[2]] + [g[3]];
  }

  lemma {:induction false} BigEndianOfValue(b: Bytes)
    ensures BigEndian(FromBigEndian(b), |b|) == b
  {
    if |b| > 0 {
      BigEndianOfValue(b[..|b| - 1]);
      assert b == b[..|b| - 1] + [b[|b| - 1]];
    }
  }

  lemma EncodedLength(b: Bytes)
    ensures |EncodedSextets(b)| == 4 * (|b| / 3) + (if |b| % 3 == 0 then 0 else |b| % 3 + 1)
  {
    assert |b| - |b| % 3 == 3 * (|b| / 3);
  }

  lemma EncodedCount(b: Bytes)
    ensures Filled(|EncodedSextets(b)|) == |b|
    ensures Pending(|EncodedSextets(b)|) == (if |b| % 3 == 1 then 4 else if |b| % 3 == 2 then 2 else 0)
  {
    EncodedLength(b);
    FilledAndPending(|EncodedSextets(b)|);
    hide EncodedSextets, Filled, Pending;
    assert |b| == 3 * (|b| / 3) + |b| % 3;
  }

  lemma ValuePush(b: Bytes, o: byte)
    ensures FromBigEndian(b + [o]) == 256 * FromBigEndian(b) + o
  {
    assert (b + [o])[..|b|] == b;
  }

  lemma TailOfOne(front: Sextets, tail: Bytes)
    requires |tail| == 1
    ensures Number(front + TailGroup(tail)) == 16 * (256 * Number(front) + tail[0])
  {
    var g := TailGroup(tail);
    NumberPush(front, g[0]);
    NumberPush(front + [g[0]], g[1]);
    assert front + g == front + [g[0]] + [g[1]];
  }

  lemma TailOfTwo(front: Sextets, tail: Bytes)
    requires |tail| == 2
    ensures Number(front + TailGroup(tail)) == 4 * (256 * (256 * Number(front) + tail[0]) + tail[1])
  {
    var g := TailGroup(tail);
    NumberPush(front, g[0]);
    NumberPush(front + [g[0]], g[1]);
    NumberPush(front + [g[0]] + [g[1]], g[2]);
    assert front + g == front + [g[0]] + [g[1]] + [g[2]];
  }

  /** What the zero bits of the tail group multiply the number by. */
  function Fill(tail: nat): nat {
    if tail == 1 then 16 else if tail == 2 then 4 else 1
  }

  lemma EmptyTail()
    ensures TailGroup([]) == []
  {
  }

  lemma GroupsAndOne(front: Bytes, tail: Bytes)
    requires |front| % 3 == 0 && |tail| == 1
    ensures Number(WholeGroups(front) + TailGroup(tail)) == 16 * FromBigEndian(front + tail)
  {
    WholeGroupsNumber(front);
    hide WholeGroups, TailGroup, Number, FromBigEndian;
    TailOfOne(WholeGroups(front), tail);
    ValuePush(front, tail[0]);
    assert front + tail == front + [tail[0]];
  }

  lemma GroupsAndTwo(front: Bytes, tail: Bytes)
    requires |front| % 3 == 0 && |tail| == 2
    ensures Number(WholeGroups(front) + TailGroup(tail)) == 4 * FromBigEndian(front + tail)
  {
    WholeGroupsNumber(front);
    hide WholeGroups, TailGroup, Number, FromBigEndian;
    TailOfTwo(WholeGroups(front), tail);
    ValuePush(front, tail[0]);
    ValuePush(front + [tail[0]], tail[1]);
    assert front + tail == front + [tail[0]] + [tail[1]];
  }

  lemma GroupsNumber(front: Bytes, tail: Bytes)
    requires |front| % 3 == 0 && |tail| < 3
    ensures Number(WholeGroups(front) + TailGroup(tail)) == Fill(|tail|) * FromBigEndian(front + tail)
  {
    EmptyTail();
    hide WholeGroups, TailGroup, Number, FromBigEndian;
    if |tail| == 0 {
      WholeGroupsNumber(front);
      assert WholeGroups(front) + TailGroup(tail) == WholeGroups(front) && front + tail == front;
    } else if |tail| == 1 {
      GroupsAndOne(front, tail);
    } else {
      GroupsAndTwo(front, tail);
    }
  }

  /** Decoding the sextets of an encoding gives the octets back. */
  lemma EncodedOctets(b: Bytes)
    ensures OctetsOf(EncodedSextets(b)) == b
  {
    var n := |b| - |b| % 3;
    GroupsNumber(b[..n], b[n..]);
    assert b[..n] + b[n..] == b;
    EncodedCount(b);
    BigEndianOfValue(b);
  }

  // ---- characters and interleaved white space ----

  /** The text without its ASCII white space. */
  function Strip(s: string): string {
    if |s| == 0 then ""
    else if IsAsciiSpace(s[|s| - 1]) then Strip(s[..|s| - 1])
    else Strip(s[..|s| - 1]) + [s[|s| - 1]]
  }

  lemma {:induction false} SpaceIsIgnored(s: string)
    ensures SextetsOf(s) == SextetsOf(Strip(s))
  {
    if |s| > 0 {
      SpaceIsIgnored(s[..|s| - 1]);
      var t := Strip(s);
      if !IsAsciiSpace(s[|s| - 1]) {
        assert t[..|t| - 1] == Strip(s[..|s| - 1]);
      }
    }
  }

  lemma {:induction false} SextetsOfChars(s: Sextets)
    ensures SextetsOf(Chars(s)) == Some(s)
  {
    if |s| > 0 {
      var n := |s| - 1;
      SextetsOfChars(s[..n]);
      AlphabetInverse(s[n]);
      assert Chars(s)[..n] == Chars(s[..n]);
      assert s == s[..n] + [s[n]];
    }
  }

  lemma PadIsIgnored(t: string)
    ensures SextetsOf(t + "=") == SextetsOf(t)
  {
    assert (t + "=")[..|t|] == t;
  }

  lemma SextetsOfEncoded(b: Bytes)
    ensures SextetsOf(Encode(b)) == Some(EncodedSextets(b))
  {
    var t := Chars(EncodedSextets(b));
    SextetsOfChars(EncodedSextets(b));
    PadIsIgnored(t);
    PadIsIgnored(t + "=");
    hide EncodedSextets, SextetsOf, Chars;
    assert t + "==" == t + "=" + "=" && t + "" == t;
  }

  /** However white space is interleaved with the encoding of `b`, decoding returns `b`. */
  lemma DecodeInvertsEncode(s: string, b: Bytes)
    requires Strip(s) == Encode(b)
    ensures Decode(s) == Some(b)
  {
    SpaceIsIgnored(s);
    SextetsOfEncoded(b);
    EncodedOctets(b);
  }

  // ---- character by character ----

  /** The alphabet of section 4 of RFC 4648. */
  const ALPHABET := UPPER + LOWER + DIGITS + "+/"
  const UPPER := "ABCDEFGHIJKLMNOPQRSTUVWXYZ"
  const LOWER := "abcdefghijklmnopqrstuvwxyz"
  const DIGITS := "0123456789"

  /** The characters of `t` follow one another from `c` on. */
  predicate Consecutive(t: string, c: char) {
    forall i :: 0 <= i < |t| ==> t[i] as int == c as int + i
  }

  lemma UpperRun()
    ensures |UPPER| == 26 && Consecutive(UPPER, 'A')
  {
  }

  lemma LowerRun()
    ensures |LOWER| == 26 && Consecutive(LOWER, 'a')
  {
  }

  lemma DigitsRun()
    ensures |DIGITS| == 10 && Consecutive(DIGITS, '0')
  {
  }

  /** A character means its place in the alphabet, and no other character means anything. */
  lemma AlphabetInFull(c: char, i: nat)
    ensures |ALPHABET| == 64
    ensures SextetOf(c) == Some(i) <==> i < 64 && ALPHABET[i] == c
  {
    UpperRun();
    LowerRun();
    DigitsRun();
    hide UPPER, LOWER, DIGITS;
    assert ALPHABET[62] == '+' && ALPHABET[63] == '/';
    if i < 64 {
      assert ALPHABET[i] == if i < 26 then UPPER[i] else if i < 52 then LOWER[i - 26] else
             if i < 62 then DIGITS[i - 52] else "+/"[i - 62];
    }
  }

  /** What is passed over: the padding and the five ASCII white-space characters. */
  lemma SkippedInFull(c: char)
    ensures Skipped(c) <==> c in {'=', ' ', '\t', '\n', '\r', 12 as char}
  {
  }

  /** The text of these places in the alphabet. */
  function Spelled(places: Sextets): string {
    RunsLength();
    seq(|places|, i requires 0 <= i < |places| => ALPHABET[places[i]])
  }

  lemma RunsLength()
    ensures |ALPHABET| == 64
  {
  }

  lemma SpelledLast(places: Sextets)
    requires |places| > 0
    ensures var n := |places| - 1;
      |ALPHABET| == 64 && |Spelled(places)| == |places|
      && Spelled(places)[..n] == Spelled(places[..n]) && Spelled(places)[n] == ALPHABET[places[n]]
  {
    RunsLength();
    hide ALPHABET;
    assert Spelled(places)[..|places| - 1] == Spelled(places[..|places| - 1]);
  }

  lemma {:induction false} SpelledSextets(places: Sextets)
    ensures SextetsOf(Spelled(places)) == Some(places)
  {
    if |places| > 0 {
      var n := |places| - 1;
      SpelledSextets(places[..n]);
      AlphabetInFull(ALPHABET[places[n]], places[n]);
      PlacesNotSkipped(places[n]);
      hide ALPHABET, SextetOf, Skipped;
      SpelledLast(places);
      hide Spelled;
      assert places == places[..n] + [places[n]];
    }
  }

  lemma PlacesNotSkipped(i: nat)
    requires i < 64 && |ALPHABET| == 64
    ensures !Skipped(ALPHABET[i])
  {
    AlphabetInFull(ALPHABET[i], i);
    hide ALPHABET;
  }

  /** Four places are three octets. */
  lemma NothingPending(count: nat)
    requires count % 4 == 0
    ensures Pending(count) == 0 && Pending(count + 1) == 6 && Pending(count + 2) == 4 && Pending(count + 3) == 2
    ensures Pending(count + 4) == 0
    ensures Filled(count + 1) == Filled(count) && Filled(count + 2) == Filled(count) + 1
    ensures Filled(count + 3) == Filled(count) + 2 && Filled(count + 4) == Filled(count) + 3
  {
    FilledAndPending(count);
    var m := count / 4;
    assert 24 * m == 8 * Filled(count) + Pending(count);
    PendingStep(count);
    PendingStep(count + 1);
    PendingStep(count + 2);
    PendingStep(count + 3);
  }

  /** Four places more are three octets more, and what is left over at the end fills one octet, two or none. */
  lemma PlacesInFull(s: Sextets, a: nat, b: nat, c: nat, e: nat)
    requires |s| % 4 == 0 && a < 64 && b < 64 && c < 64 && e < 64
    ensures OctetsOf([]) == [] && OctetsOf(s + [a]) == OctetsOf(s)
    ensures OctetsOf(s + [a, b]) == OctetsOf(s) + [4 * a + b / 16]
    ensures OctetsOf(s + [a, b, c]) == OctetsOf(s) + [4 * a + b / 16, b % 16 * 16 + c / 4]
    ensures OctetsOf(s + [a, b, c, e]) == OctetsOf(s) + [4 * a + b / 16, b % 16 * 16 + c / 4, c % 4 * 64 + e]
  {
    var n, f := Number(s), Filled(|s|);
    NothingPending(|s|);
    NumbersPushed(s, a, b, c, e);
    NothingDecoded();
    OneOctet(n, f, a, b);
    TwoOctets(n, f, a, b, c);
    ThreeOctets(n, f, a, b, c, e);
    hide Number, Pending, Filled, BigEndian;
    OctetsAre(s);
    OctetsAre(s + [a]);
    OctetsAre(s + [a, b]);
    OctetsAre(s + [a, b, c]);
    OctetsAre(s + [a, b, c, e]);
    hide OctetsOf;
  }

  lemma PushedOn(s: Sextets, t: Sextets, v: nat)
    requires v < 64
    ensures Number(s + (t + [v])) == 64 * Number(s + t) + v
  {
    NumberPush(s + t, v);
    assert s + (t + [v]) == s + t + [v];
  }

  lemma NumbersPushed(s: Sextets, a: nat, b: nat, c: nat, e: nat)
    requires a < 64 && b < 64 && c < 64 && e < 64
    ensures Number(s + [a]) == 64 * Number(s) + a
    ensures Number(s + [a, b]) == 64 * (64 * Number(s) + a) + b
    ensures Number(s + [a, b, c]) == 64 * (64 * (64 * Number(s) + a) + b) + c
    ensures Number(s + [a, b, c, e]) == 64 * (64 * (64 * (64 * Number(s) + a) + b) + c) + e
  {
    hide *;
    NumberPush(s, a);
    PushedOn(s, [a], b);
    PushedOn(s, [a, b], c);
    PushedOn(s, [a, b, c], e);
    assert [a] + [b] == [a, b] && [a, b] + [c] == [a, b, c] && [a, b, c] + [e] == [a, b, c, e];
  }

  lemma OneOctet(n: nat, f: nat, a: nat, b: nat)
    requires a < 64 && b < 64
    ensures (64 * n + a) / 64 == n
    ensures BigEndian((64 * (64 * n + a) + b) / 16, f + 1) == BigEndian(n, f) + [4 * a + b / 16]
  {
    var x := (64 * (64 * n + a) + b) / 16;
    assert x == 256 * n + (4 * a + b / 16);
    BigEndianUnfold(x, f);
  }

  lemma Parts4(q: nat, r: nat)
    requires r < 4
    ensures (4 * q + r) / 4 == q
  {
  }

  lemma Parts16(q: nat, r: nat)
    requires r < 16
    ensures (16 * q + r) / 16 == q
  {
  }

  lemma Parts256(q: nat, r: nat)
    requires r < 256
    ensures (256 * q + r) / 256 == q && (256 * q + r) % 256 == r
  {
  }

  lemma MiddleOctet(y: nat, b: nat, c: nat)
    requires b < 64 && c < 64 && y % 64 == b
    ensures (64 * y + c) / 4 / 256 == y / 16 && (64 * y + c) / 4 % 256 == b % 16 * 16 + c / 4
  {
    var q, high, low, front, rest := y / 64, b / 16, b % 16, c / 4, c % 4;
    assert y == 16 * (4 * q + high) + low && low < 16;
    Parts16(4 * q + high, low);
    assert 64 * y + c == 4 * (16 * y + front) + rest && rest < 4;
    Parts4(16 * y + front, rest);
    assert 16 * y + front == 256 * (4 * q + high) + (16 * low + front) && 16 * low + front < 256;
    Parts256(4 * q + high, 16 * low + front);
  }

  lemma TwoOctets(n: nat, f: nat, a: nat, b: nat, c: nat)
    requires a < 64 && b < 64 && c < 64
    ensures BigEndian((64 * (64 * (64 * n + a) + b) + c) / 4, f + 2) ==
              BigEndian(n, f) + [4 * a + b / 16, b % 16 * 16 + c / 4]
  {
    var y := 64 * (64 * n + a) + b;
    var x := (64 * y + c) / 4;
    MiddleOctet(y, b, c);
    OneOctet(n, f, a, b);
    hide BigEndian;
    assert BigEndian(x, f + 2) == BigEndian(x / 256, f + 1) + [x % 256] by { BigEndianUnfold(x, f + 1); }
  }

  lemma ThreeOctets(n: nat, f: nat, a: nat, b: nat, c: nat, e: nat)
    requires a < 64 && b < 64 && c < 64 && e < 64
    ensures BigEndian(64 * (64 * (64 * (64 * n + a) + b) + c) + e, f + 3) ==
              BigEndian(n, f) + [4 * a + b / 16, b % 16 * 16 + c / 4, c % 4 * 64 + e]
  {
    var v := 64 * (64 * (64 * n + a) + b) + c;
    var x := 64 * v + e;
    LastOctet(v, c, e);
    TwoOctets(n, f, a, b, c);
    hide BigEndian;
    assert BigEndian(x, f + 3) == BigEndian(x / 256, f + 2) + [x % 256] by { BigEndianUnfold(x, f + 2); }
  }

  lemma LastOctet(v: nat, c: nat, e: nat)
    requires c < 64 && e < 64 && v % 64 == c
    ensures (64 * v + e) / 256 == v / 4 && (64 * v + e) % 256 == c % 4 * 64 + e
  {
    assert v % 4 == c % 4;
  }

  /** So a text of characters of the alphabet decodes, group by group, to the octets of their places. */
  lemma SpelledDecodes(places: Sextets)
    ensures Decode(Spelled(places)) == Some(OctetsOf(places))
  {
    SpelledSextets(places);
    hide Spelled, OctetsOf;
  }
}
