/** The three framings of a byte stream (crates/pair-rpc/src/framing.rs). */
module Framing {
  import opened Octets
  import opened Decimal
  import Pem

  datatype Framing = JsonLines | LengthPrefixedBE | ContentLength

  const LF: byte := 10
  const CR: byte := 13
  const BLANK_LINE: Bytes := [CR, LF, CR, LF]

  /** Octets as text. `String::from_utf8_lossy` is not looked into beyond ASCII. */
  type Lossy = Bytes -> string

  predicate IsAscii(b: Bytes) {
    forall i :: 0 <= i < |b| ==> b[i] < 128
  }

  function AsciiText(b: Bytes): string
    requires IsAscii(b)
  {
    seq(|b|, i requires 0 <= i < |b| => b[i] as char)
  }

  function AsciiBytes(s: string): (b: Bytes)
    requires forall i :: 0 <= i < |s| ==> s[i] as int < 128
    ensures |b| == |s|
  {
    seq(|s|, i requires 0 <= i < |s| => s[i] as int)
  }

  ghost predicate LossyOk(lossy: Lossy) {
    forall b: Bytes :: IsAscii(b) ==> lossy(b) == AsciiText(b)
  }

  // ---- encoding ----

  function HeaderText(n: nat): (s: string)
    ensures forall i :: 0 <= i < |s| ==> s[i] as int < 128
  {
    "Content-Length: " + ShowNat(n) + "\r\n\r\n"
  }

  function Encoded(f: Framing, body: Bytes): Bytes {
    match f
    case JsonLines => body + [LF]
    case LengthPrefixedBE => BigEndian(|body| % 0x1_0000_0000, 4) + body
    case ContentLength => AsciiBytes(HeaderText(|body|)) + body
  }

  method Encode(f: Framing, body: Bytes) returns (v: Bytes)
    ensures v == Encoded(f, body)
  {
    v := [];
    match f {
      case JsonLines =>
        v := v + body;
        v := v + [LF];
      case LengthPrefixedBE =>
        v := v + BigEndian(|body| % 0x1_0000_0000, 4);
        v := v + body;
      case ContentLength =>
        v := v + AsciiBytes(HeaderText(|body|));
        v := v + body;
    }
  }

  // ---- reading one frame: the result and what is left of the stream ----

  datatype Read = Read(result: Result<Option<Bytes>>, rest: Bytes)

  function DropCr(line: Bytes): Bytes {
    if |line| > 0 && line[|line| - 1] == CR then line[..|line| - 1] else line
  }

  function LineFrom(buf: Bytes, s: Bytes): Read
    decreases |s|
  {
    if |s| == 0 then Read(Ok(if buf == [] then None else Some(buf)), [])
    else if s[0] != LF then LineFrom(buf + [s[0]], s[1..])
    else if DropCr(buf) == [] then LineFrom([], s[1..])
    else Read(Ok(Some(DropCr(buf))), s[1..])
  }

  function BodyFrom(len: nat, s: Bytes): Read {
    if |s| < len then Read(Err("unexpected end of file"), []) else Read(Ok(Some(s[..len])), s[len..])
  }

  function PrefixedFrom(s: Bytes): Read {
    if |s| < 4 then Read(Ok(None), []) else BodyFrom(FromBigEndian(s[..4]), s[4..])
  }

  datatype Header = Ended(header: Bytes) | TooLarge(left: Bytes) | Complete(header: Bytes, left: Bytes)

  predicate EndsBlank(h: Bytes) {
    |h| >= 4 && h[|h| - 4..] == BLANK_LINE
  }

  function HeaderFrom(header: Bytes, s: Bytes): Header
    decreases |s|
  {
    if |s| == 0 then Ended(header)
    else
      var h := header + [s[0]];
      if EndsBlank(h) then Complete(h, s[1..])
      else if |h| > 8192 then TooLarge(s[1..])
      else HeaderFrom(h, s[1..])
  }

  /** Where the first CRLF at or after `i` begins, or the length. */
  function NextCrlf(s: string, i: nat): (n: nat)
    requires i <= |s|
    ensures i <= n <= |s| && (n < |s| ==> n + 1 < |s|)
    decreases |s| - i
  {
    if i == |s| then i
    else if i + 1 < |s| && s[i] == '\r' && s[i + 1] == '\n' then i
    else NextCrlf(s, i + 1)
  }

  /** `text.split("\r\n")`. */
  function SplitCrlf(s: string): seq<string>
    decreases |s|
  {
    var n := NextCrlf(s, 0);
    if n == |s| then [s] else [s[..n]] + SplitCrlf(s[n + 2..])
  }

  const FIELD := "Content-Length:"

  /** The last header line with the field decides, also when its number does not parse. */
  function LengthIn(lines: seq<string>, len: Option<nat>): Option<nat> {
    if |lines| == 0 then len
    else if FIELD <= lines[0] then
      LengthIn(lines[1..], ParseUnsigned(Pem.Trim(lines[0][|FIELD|..]), 0x1_0000_0000_0000_0000))
    else LengthIn(lines[1..], len)
  }

  function ContentFrom(lossy: Lossy, s: Bytes): Read {
    match HeaderFrom([], s)
    case Ended(h) => Read(Ok(if h == [] then None else Some([])), [])
    case TooLarge(left) => Read(Err("content-length header too large"), left)
    case Complete(h, left) =>
      (match LengthIn(SplitCrlf(lossy(h)), None)
       case None => Read(Err("missing Content-Length"), left)
       case Some(len) => BodyFrom(len, left))
  }

  function FrameFrom(f: Framing, lossy: Lossy, s: Bytes): Read {
    match f
    case JsonLines => LineFrom([], s)
    case LengthPrefixedBE => PrefixedFrom(s)
    case ContentLength => ContentFrom(lossy, s)
  }

  /** The stream being read, which each read consumes from the front. */
  class Reader {
    var rest: Bytes

    constructor (stream: Bytes)
      ensures rest == stream
    {
      rest := stream;
    }

    method ReadByte() returns (b: Option<byte>)
      modifies this
      ensures old(rest) == [] ==> b == None && rest == []
      ensures old(rest) != [] ==> b == Some(old(rest)[0]) && rest == old(rest)[1..]
    {
      if |rest| == 0 {
        return None;
      }
      b := Some(rest[0]);
      rest := rest[1..];
    }

    /** At the end of the stream the octets read so far are lost. */
    method ReadExact(n: nat) returns (b: Option<Bytes>)
      modifies this
      ensures |old(rest)| < n ==> b == None && rest == []
      ensures |old(rest)| >= n ==> b == Some(old(rest)[..n]) && rest == old(rest)[n..]
    {
      if |rest| < n {
        rest := [];
        return None;
      }
      b := Some(rest[..n]);
      rest := rest[n..];
    }

    method ReadLine() returns (r: Result<Option<Bytes>>)
      modifies this
      ensures Read(r, rest) == LineFrom([], old(rest))
    {
      var buf: Bytes := [];
      while true
        invariant LineFrom(buf, rest) == LineFrom([], old(rest))
        decreases |rest|
      {
        var octet := ReadByte();
        if octet.None? {
          return Ok(if buf == [] then None else Some(buf));
        }
        if octet.value == LF {
          if |buf| > 0 && buf[|buf| - 1] == CR {
            buf := buf[..|buf| - 1];
          }
          if buf == [] {
            continue;
          }
          return Ok(Some(buf));
        }
        buf := buf + [octet.value];
      }
    }

    method ReadLenPrefixed() returns (r: Result<Option<Bytes>>)
      modifies this
      ensures Read(r, rest) == PrefixedFrom(old(rest))
    {
      var prefix := ReadExact(4);
      if prefix.None? {
        return Ok(None);
      }
      var body := ReadExact(FromBigEndian(prefix.value));
      if body.None? {
        return Err("unexpected end of file");
      }
      r := Ok(body);
    }

    method ReadContentLength(lossy: Lossy) returns (r: Result<Option<Bytes>>)
      modifies this
      ensures Read(r, rest) == ContentFrom(lossy, old(rest))
    {
      var header: Bytes := [];
      while true
        invariant HeaderFrom(header, rest) == HeaderFrom([], old(rest))
        decreases |rest|
      {
        var octet := ReadByte();
        if octet.None? {
          return Ok(if header == [] then None else Some([]));
        }
        header := header + [octet.value];
        if EndsBlank(header) {
          assert HeaderFrom([], old(rest)) == Complete(header, rest);
          break;
        }
        if |header| > 8192 {
          return Err("content-length header too large");
        }
      }
      var lines := SplitCrlf(lossy(header));
      var len: Option<nat> := None;
      var i := 0;
      while i < |lines|
        invariant 0 <= i <= |lines|
        invariant LengthIn(lines[i..], len) == LengthIn(lines, None)
      {
        assert lines[i..][1..] == lines[i + 1..];
        if FIELD <= lines[i] {
          len := ParseUnsigned(Pem.Trim(lines[i][|FIELD|..]), 0x1_0000_0000_0000_0000);
        }
        i := i + 1;
      }
      if len.None? {
        return Err("missing Content-Length");
      }
      var body := ReadExact(len.value);
      if body.None? {
        return Err("unexpected end of file");
      }
      r := Ok(body);
    }

    method ReadFrame(f: Framing, lossy: Lossy) returns (r: Result<Option<Bytes>>)
      modifies this
      ensures Read(r, rest) == FrameFrom(f, lossy, old(rest))
    {
      match f {
        case JsonLines => r := ReadLine();
        case LengthPrefixedBE => r := ReadLenPrefixed();
        case ContentLength => r := ReadContentLength(lossy);
      }
    }
  }
}
