/** Reading undoes writing, frame by frame, exactly for the bodies each framing can carry. */
module FramingProofs {
  import opened Octets
  import opened Decimal
  import opened Framing

  /** What a line can carry. */
  predicate LineOk(b: Bytes) {
    b != [] && LF !in b && b[|b| - 1] != CR
  }

  /** The bodies a framing carries; a body never exceeds the address space. */
  predicate Carries(f: Framing, b: Bytes) {
    match f
    case JsonLines => LineOk(b)
    case LengthPrefixedBE => |b| < 0x1_0000_0000
    case ContentLength => |b| < 0x1_0000_0000_0000_0000
  }

  // ---- lines ----

  lemma {:induction false} LineScan(buf: Bytes, b: Bytes, rest: Bytes)
    requires LF !in b
    ensures LineFrom(buf, b + [LF] + rest) == LineFrom(buf + b, [LF] + rest)
    decreases |b|
  {
    if b == [] {
      assert b + [LF] + rest == [LF] + rest && buf + b == buf;
    } else {
      LineScan(buf + [b[0]], b[1..], rest);
      assert (b + [LF] + rest)[1..] == b[1..] + [LF] + rest;
      assert buf + [b[0]] + b[1..] == buf + b;
    }
  }

  /** A line that is read is not empty and holds no line feed, and reading consumes something. */
  lemma {:induction false} LineShape(buf: Bytes, s: Bytes)
    requires LF !in buf
    ensures var r := LineFrom(buf, s);
      && (r.result.Ok? && r.result.value.Some? ==> r.result.value.value != [] && LF !in r.result.value.value)
      && (s != [] ==> |r.rest| < |s|)
    decreases |s|
  {
    if s != [] {
      if s[0] != LF {
        LineShape(buf + [s[0]], s[1..]);
      } else if DropCr(buf) == [] {
        LineShape([], s[1..]);
      }
    }
  }

  /** A body that ends a line is read without a CR at its end; an empty one is skipped. */
  lemma LineRead(b: Bytes, rest: Bytes)
    requires LF !in b
    ensures LineFrom([], b + [LF] + rest) ==
              if DropCr(b) == [] then LineFrom([], rest) else Read(Ok(Some(DropCr(b))), rest)
  {
    LineScan([], b, rest);
    assert [] + b == b && ([LF] + rest)[1..] == rest;
  }

  lemma LineRoundTrip(b: Bytes, rest: Bytes)
    ensures LineFrom([], b + [LF] + rest) == Read(Ok(Some(b)), rest) <==> LineOk(b)
  {
    LineShape([], b + [LF] + rest);
    LineShape([], rest);
    if LF !in b {
      LineRead(b, rest);
    }
    hide LineFrom;
  }

  // ---- length prefix ----

  lemma PrefixRoundTrip(b: Bytes, rest: Bytes)
    ensures PrefixedFrom(Encoded(LengthPrefixedBE, b) + rest) == Read(Ok(Some(b)), rest) <==> |b| < 0x1_0000_0000
  {
    Pow256At4();
    var n := |b| % 0x1_0000_0000;
    var s := Encoded(LengthPrefixedBE, b) + rest;
    BigEndianValue(n, 4);
    assert s[..4] == BigEndian(n, 4) && s[4..] == b + rest;
    if n == |b| {
      assert (b + rest)[..n] == b && (b + rest)[n..] == rest;
    }
  }

  // ---- content length ----

  lemma {:induction false} ShowLength(n: nat, k: nat)
    requires k > 0 && n < Pow10(k)
    ensures |ShowNat(n)| <= k
  {
    if n >= 10 {
      assert k > 1;
      ShowLength(n / 10, k - 1);
    }
  }

  lemma HeaderIsShort(n: nat)
    requires n < 0x1_0000_0000_0000_0000
    ensures |HeaderText(n)| <= 40
  {
    assert Pow10(5) == 100000;
    assert Pow10(10) == 100000 * Pow10(5);
    assert Pow10(15) == 100000 * Pow10(10);
    assert Pow10(20) == 100000 * Pow10(15);
    ShowLength(n, 20);
  }

  /** A header without a CR in its fields ends blank only at its end. */
  lemma BlankOnlyAtEnd(fields: Bytes, j: nat)
    requires CR !in fields && j < |fields| + 4
    ensures !EndsBlank((fields + BLANK_LINE)[..j])
  {
    var h := (fields + BLANK_LINE)[..j];
    if j >= 4 {
      assert h[j - 4..][0] == h[j - 4] == fields[j - 4];
    }
  }

  /** Reading goes on from any place in a header to its first blank line, and stops right after it. */
  lemma {:induction false} HeaderScan(header: Bytes, i: nat, rest: Bytes)
    requires EndsBlank(header) && i < |header| <= 8192
    requires forall j :: i < j < |header| ==> !EndsBlank(header[..j])
    ensures HeaderFrom(header[..i], header[i..] + rest) == Complete(header, rest)
    decreases |header| - i
  {
    var s := header[i..] + rest;
    assert header[..i] + [s[0]] == header[..i + 1] && s[1..] == header[i + 1..] + rest;
    if i + 1 < |header| {
      HeaderScan(header, i + 1, rest);
    } else {
      assert header[..i + 1] == header && header[i + 1..] + rest == rest;
    }
  }

  lemma {:induction false} NoCrlf(s: string, i: nat, n: nat)
    requires i <= n <= |s|
    requires forall j :: i <= j < n ==> s[j] != '\r'
    requires n == |s| || (n + 1 < |s| && s[n] == '\r' && s[n + 1] == '\n')
    ensures NextCrlf(s, i) == n
    decreases n - i
  {
    if i < n {
      NoCrlf(s, i + 1, n);
    }
  }

  lemma SplitOne(line: string, rest: string)
    requires forall j :: 0 <= j < |line| ==> line[j] != '\r'
    ensures SplitCrlf(line + "\r\n" + rest) == [line] + SplitCrlf(rest)
    ensures SplitCrlf(line) == [line]
  {
    var t := line + "\r\n" + rest;
    assert t[|line|] == '\r' && t[|line| + 1] == '\n';
    NoCrlf(t, 0, |line|);
    NoCrlf(line, 0, |line|);
    assert t[..|line|] == line && t[|line| + 2..] == rest;
  }

  /** The header text splits into its one field line and two empty lines, from which the number is read. */
  lemma HeaderParses(n: nat)
    requires n < 0x1_0000_0000_0000_0000
    ensures LengthIn(SplitCrlf(HeaderText(n)), None) == Some(n)
  {
    var line := "Content-Length: " + ShowNat(n);
    assert forall j :: 16 <= j < |line| ==> IsDigit(line[j]);
    SplitOne(line, "\r\n");
    SplitOne("", "");
    assert HeaderText(n) == line + "\r\n" + "\r\n" && "" + "\r\n" + "" == "\r\n";
    FieldValue(n);
    hide SplitCrlf, Pem.Trim, ParseUnsigned, ShowNat;
    var empty := [""] + [""];
    LengthOfEmpty(empty, Some(n));
    assert ([line] + empty)[1..] == empty;
  }

  lemma {:induction false} LengthOfEmpty(lines: seq<string>, len: Option<nat>)
    requires forall i :: 0 <= i < |lines| ==> lines[i] == ""
    ensures LengthIn(lines, len) == len
  {
    if |lines| > 0 {
      LengthOfEmpty(lines[1..], len);
    }
  }

  lemma FieldValue(n: nat)
    requires n < 0x1_0000_0000_0000_0000
    ensures FIELD <= "Content-Length: " + ShowNat(n)
    ensures ParseUnsigned(Pem.Trim(("Content-Length: " + ShowNat(n))[|FIELD|..]), 0x1_0000_0000_0000_0000) == Some(n)
  {
    var line, v := "Content-Length: " + ShowNat(n), ShowNat(n);
    assert line[..15] == FIELD;
    assert line[15..] == " " + v;
    assert (" " + v)[1..] == v;
    assert IsDigit(v[0]) && IsDigit(v[|v| - 1]);
    assert Pem.Trim(" " + v) == Pem.Trim(v) == v;
    ParseOfShow(n, 0x1_0000_0000_0000_0000);
  }

  /** The header is its one field and the blank line, with no CR before that. */
  lemma HeaderShape(n: nat)
    ensures EndsBlank(AsciiBytes(HeaderText(n)))
    ensures forall j :: 0 <= j < |HeaderText(n)| ==> !EndsBlank(AsciiBytes(HeaderText(n))[..j])
  {
    var t, h := HeaderText(n), AsciiBytes(HeaderText(n));
    var fields := h[..|h| - 4];
    assert h[|h| - 4..] == BLANK_LINE && h == fields + BLANK_LINE;
    assert forall j :: 16 <= j < |t| - 4 ==> IsDigit(t[j]);
    assert forall j :: 0 <= j < |fields| ==> fields[j] == t[j] as int;
    forall j | 0 <= j < |t|
      ensures !EndsBlank(h[..j])
    {
      BlankOnlyAtEnd(fields, j);
    }
  }

  lemma ContentRoundTrip(lossy: Lossy, b: Bytes, rest: Bytes)
    requires LossyOk(lossy) && |b| < 0x1_0000_0000_0000_0000
    ensures ContentFrom(lossy, Encoded(ContentLength, b) + rest) == Read(Ok(Some(b)), rest)
  {
    var n := |b|;
    var h := AsciiBytes(HeaderText(n));
    HeaderIsShort(n);
    HeaderShape(n);
    HeaderParses(n);
    HeaderScan(h, 0, b + rest);
    assert AsciiText(h) == HeaderText(n);
    hide HeaderText, EndsBlank, SplitCrlf, LengthIn, HeaderFrom;
    assert h[..0] == [] && h[0..] + (b + rest) == Encoded(ContentLength, b) + rest;
    assert (b + rest)[..n] == b && (b + rest)[n..] == rest;
  }

  // ---- any framing, any number of frames ----

  /** One read returns exactly the frame that was written and consumes nothing more. */
  lemma FrameRoundTrip(f: Framing, lossy: Lossy, b: Bytes, rest: Bytes)
    requires LossyOk(lossy) && Carries(f, b)
    ensures FrameFrom(f, lossy, Encoded(f, b) + rest) == Read(Ok(Some(b)), rest)
  {
    match f
    case JsonLines => LineRoundTrip(b, rest);
    case LengthPrefixedBE => PrefixRoundTrip(b, rest);
    case ContentLength => ContentRoundTrip(lossy, b, rest);
  }

  function Stream(f: Framing, bodies: seq<Bytes>): Bytes {
    if |bodies| == 0 then [] else Encoded(f, bodies[0]) + Stream(f, bodies[1..])
  }

  /** The results of `n` reads in a row. */
  function Reads(f: Framing, lossy: Lossy, s: Bytes, n: nat): seq<Result<Option<Bytes>>>
    decreases n
  {
    if n == 0 then []
    else
      var r := FrameFrom(f, lossy, s);
      [r.result] + Reads(f, lossy, r.rest, n - 1)
  }

  /** Reading a stream of frames returns exactly the bodies, in order, and then keeps reporting the end. */
  lemma {:induction false} StreamRoundTrip(f: Framing, lossy: Lossy, bodies: seq<Bytes>, extra: nat)
    requires LossyOk(lossy)
    requires forall i :: 0 <= i < |bodies| ==> Carries(f, bodies[i])
    ensures Reads(f, lossy, Stream(f, bodies), |bodies| + extra) ==
              seq(|bodies|, i requires 0 <= i < |bodies| => Ok(Some(bodies[i]))) + seq(extra, _ => Ok(None))
    decreases |bodies| + extra
  {
    hide FrameFrom, Encoded, Carries, LossyOk;
    if |bodies| > 0 {
      assert Carries(f, bodies[0]);
      FrameRoundTrip(f, lossy, bodies[0], Stream(f, bodies[1..]));
      StreamRoundTrip(f, lossy, bodies[1..], extra);
    } else if extra > 0 {
      EmptyStream(f, lossy);
      StreamRoundTrip(f, lossy, bodies, extra - 1);
    }
  }

  lemma EmptyStream(f: Framing, lossy: Lossy)
    requires LossyOk(lossy)
    ensures FrameFrom(f, lossy, []) == Read(Ok(None), [])
  {
  }

  // ---- octet by octet ----

  /** What is written: the body and a line feed, its length on four octets, most significant first, or a header. */
  lemma FramesInFull(b: Bytes)
    ensures Encoded(JsonLines, b) == b + [10]
    ensures var n := |b| % 0x1_0000_0000;
      Encoded(LengthPrefixedBE, b) == [n / 0x100_0000, n / 0x1_0000 % 256, n / 0x100 % 256, n % 256] + b
    ensures var header := "Content-Length: " + ShowNat(|b|) + "\r\n\r\n";
      && |Encoded(ContentLength, b)| == |header| + |b| && Encoded(ContentLength, b)[|header|..] == b
      && forall i :: 0 <= i < |header| ==> Encoded(ContentLength, b)[i] == header[i] as int
  {
    OnFourOctets(|b| % 0x1_0000_0000);
    hide BigEndian, ShowNat;
  }

  /** The last line need not be ended: it is returned as it is, a CR at its end included, and then the end. */
  lemma {:induction false} UnendedLine(buf: Bytes, s: Bytes)
    requires LF !in s
    ensures LineFrom(buf, s) == Read(Ok(if buf + s == [] then None else Some(buf + s)), [])
    decreases |s|
  {
    if s == [] {
      assert buf + s == buf;
    } else {
      UnendedLine(buf + [s[0]], s[1..]);
      assert buf + [s[0]] + s[1..] == buf + s;
    }
  }

  /** Lines that are empty, or only a CR, are passed over wherever they are. */
  lemma BlankLinesSkipped(rest: Bytes)
    ensures LineFrom([], [10] + rest) == LineFrom([], rest) == LineFrom([], [13, 10] + rest)
  {
    LineRead([], rest);
    LineRead([CR], rest);
    assert [] + [LF] + rest == [10] + rest && [CR] + [LF] + rest == [13, 10] + rest;
  }

  /** An end inside the prefix is a clean end, one inside the body an error; a length is read most significant first. */
  lemma PrefixInFull(a: byte, b: byte, c: byte, d: byte, s: Bytes)
    ensures forall n :: 0 <= n < 4 ==> PrefixedFrom([a, b, c, d][..n]) == Read(Ok(None), [])
    ensures var n := 0x100_0000 * a + 0x1_0000 * b + 0x100 * c + d;
      PrefixedFrom([a, b, c, d] + s) ==
        if |s| < n then Read(Err("unexpected end of file"), []) else Read(Ok(Some(s[..n])), s[n..])
  {
    var n := 0x100_0000 * a + 0x1_0000 * b + 0x100 * c + d;
    OnFourOctets(n);
    assert BigEndian(n, 4) == [a, b, c, d] by { OctetsOfSum(a, b, c, d); }
    assert ([a, b, c, d] + s)[..4] == [a, b, c, d] && ([a, b, c, d] + s)[4..] == s;
    hide BigEndian, FromBigEndian;
  }

  lemma OctetsOfSum(a: byte, b: byte, c: byte, d: byte)
    ensures var n := 0x100_0000 * a + 0x1_0000 * b + 0x100 * c + d;
      n / 0x100_0000 % 256 == a && n / 0x1_0000 % 256 == b && n / 0x100 % 256 == c && n % 256 == d
  {
    var n := 0x100_0000 * a + 0x1_0000 * b + 0x100 * c + d;
    assert n / 0x100 == 0x1_0000 * a + 0x100 * b + c;
    assert n / 0x1_0000 == 0x100 * a + b;
    assert n / 0x100_0000 == a;
  }

  /** The last header line with the field decides: its number, trimmed, or nothing if that is no number. */
  lemma {:induction false} LastFieldDecides(pre: seq<string>, value: string, post: seq<string>, len: Option<nat>)
    requires forall i :: 0 <= i < |post| ==> !("Content-Length:" <= post[i])
    ensures LengthIn(pre + ["Content-Length:" + value] + post, len) ==
              ParseUnsigned(Pem.Trim(value), 0x1_0000_0000_0000_0000)
  {
    var lines := pre + ["Content-Length:" + value] + post;
    hide ParseUnsigned, Pem.Trim;
    if |pre| == 0 {
      assert lines[0] == "Content-Length:" + value && lines[1..] == post;
      assert ("Content-Length:" + value)[15..] == value;
      NoFieldKeeps(post, ParseUnsigned(Pem.Trim(value), 0x1_0000_0000_0000_0000));
    } else {
      assert lines[0] == pre[0] && lines[1..] == pre[1..] + ["Content-Length:" + value] + post;
      LastFieldDecides(pre[1..], value, post, LengthIn([pre[0]], len));
      assert [pre[0]][1..] == [];
      assert LengthIn(lines, len) == LengthIn(lines[1..], LengthIn([pre[0]], len));
    }
  }

  lemma {:induction false} NoFieldKeeps(lines: seq<string>, len: Option<nat>)
    requires forall i :: 0 <= i < |lines| ==> !("Content-Length:" <= lines[i])
    ensures LengthIn(lines, len) == len
  {
    if |lines| > 0 {
      NoFieldKeeps(lines[1..], len);
    }
  }

  /** A header that never gets to its blank line: the end cuts it short, or it grows too large. */
  lemma {:induction false} HeaderCut(s: Bytes, i: nat)
    requires i <= |s| && i <= 8192 && forall n :: 0 <= n <= |s| ==> !EndsBlank(s[..n])
    ensures HeaderFrom(s[..i], s[i..]) == if |s| <= 8192 then Ended(s) else TooLarge(s[8193..])
    decreases |s| - i
  {
    if i == |s| {
      assert s[..i] == s;
    } else {
      assert s[..i] + [s[i..][0]] == s[..i + 1] && s[i..][1..] == s[i + 1..];
      if i < 8192 {
        HeaderCut(s, i + 1);
      }
    }
  }

  /** Then nothing is returned but a clean end, an empty body, or an error. */
  lemma ContentCut(lossy: Lossy, s: Bytes)
    requires forall n :: 0 <= n <= |s| ==> !EndsBlank(s[..n])
    ensures ContentFrom(lossy, s) ==
              if s == [] then Read(Ok(None), [])
              else if |s| <= 8192 then Read(Ok(Some([])), [])
              else Read(Err("content-length header too large"), s[8193..])
  {
    HeaderCut(s, 0);
    assert s[..0] == [] && s[0..] == s;
  }
}
