/** Extracting the DER of a certificate from PEM text (crates/pair-trust/src/identity.rs). */
module Pem {
  import opened Octets
  import opened Base64

  const BEGIN := "-----BEGIN CERTIFICATE-----"
  const END := "-----END CERTIFICATE-----"

  // ---- lines and white space, as Rust's `str` has them ----

  /** The first line feed of `s` at or after `i`, or the length. */
  function LineEnd(s: string, i: nat): (n: nat)
    requires i <= |s|
    ensures i <= n <= |s| && (n < |s| ==> s[n] == '\n') && forall j :: i <= j < n ==> s[j] != '\n'
    decreases |s| - i
  {
    if i == |s| || s[i] == '\n' then i else LineEnd(s, i + 1)
  }

  function DropCr(line: string): string {
    if |line| > 0 && line[|line| - 1] == '\r' then line[..|line| - 1] else line
  }

  /** `str::lines`: LF or CRLF ends a line, and the last line need not be ended. */
  function Lines(s: string): seq<string>
    decreases |s|
  {
    if s == "" then []
    else
      var n := LineEnd(s, 0);
      if n == |s| then [s] else [DropCr(s[..n])] + Lines(s[n + 1..])
  }

  /** The Unicode White_Space property. */
  predicate IsSpace(c: char) {
    var u := c as int;
    9 <= u <= 13 || u == 0x20 || u == 0x85 || u == 0xA0 || u == 0x1680 || 0x2000 <= u <= 0x200A
    || u == 0x2028 || u == 0x2029 || u == 0x202F || u == 0x205F || u == 0x3000
  }

  function TrimEnd(s: string): string {
    if |s| > 0 && IsSpace(s[|s| - 1]) then TrimEnd(s[..|s| - 1]) else s
  }

  function Trim(s: string): string {
    if |s| > 0 && IsSpace(s[0]) then Trim(s[1..]) else TrimEnd(s)
  }

  predicate StartsWith(line: string, prefix: string) {
    prefix <= line
  }

  predicate Plain(line: string) {
    !StartsWith(line, BEGIN) && !StartsWith(line, END)
  }

  // ---- extraction ----

  /** The text collected from `lines`: what follows a BEGIN line, trimmed, up to the first END line. */
  function Collected(lines: seq<string>, inBlock: bool): string {
    if |lines| == 0 then ""
    else if StartsWith(lines[0], BEGIN) then Collected(lines[1..], true)
    else if StartsWith(lines[0], END) then ""
    else (if inBlock then Trim(lines[0]) else "") + Collected(lines[1..], inBlock)
  }

  function PemToDer(pem: string): Option<Bytes> {
    var b64 := Collected(Lines(pem), false);
    if b64 == "" then None else Decode(b64)
  }

  method ExtractDer(pem: string) returns (der: Option<Bytes>)
    ensures der == PemToDer(pem)
  {
    hide Lines, StartsWith, Trim, Decode;
    var lines := Lines(pem);
    var b64 := "";
    var inBlock := false;
    var i := 0;
    while i < |lines|
      invariant 0 <= i <= |lines|
      invariant b64 + Collected(lines[i..], inBlock) == Collected(lines, false)
      invariant i == |lines| ==> b64 == Collected(lines, false)
    {
      var line := lines[i];
      assert lines[i..][0] == line && lines[i..][1..] == lines[i + 1..];
      i := i + 1;
      if StartsWith(line, BEGIN) {
        inBlock := true;
        continue;
      }
      if StartsWith(line, END) {
        assert b64 == Collected(lines, false);
        break;
      }
      if inBlock {
        b64 := b64 + Trim(line);
      }
    }
    assert b64 == Collected(lines, false);
    if b64 == "" {
      return None;
    }
    der := Base64Decode(b64);
  }

  /** The trimmed lines, end to end. */
  function Wrapped(body: seq<string>): string {
    if |body| == 0 then "" else Trim(body[0]) + Wrapped(body[1..])
  }

  /** A line ended by `eol` is split off again. */
  lemma LinesOfOne(line: string, eol: string, rest: string)
    requires eol == "\n" || eol == "\r\n"
    requires forall i :: 0 <= i < |line| ==> line[i] != '\n'
    requires eol == "\n" ==> DropCr(line) == line
    ensures Lines(line + eol + rest) == [line] + Lines(rest)
  {
    var s, n := line + eol + rest, |line| + |eol| - 1;
    assert s[n] == '\n' && forall j :: 0 <= j < n ==> s[j] != '\n';
    assert LineEnd(s, 0) == n;
    assert s[..n] == line + eol[..|eol| - 1] && s[n + 1..] == rest;
    assert DropCr(s[..n]) == line;
  }

  /** The lines written out, each with its own ending. */
  function Written(lines: seq<string>, eols: seq<string>): string
    requires |lines| == |eols|
  {
    if |lines| == 0 then "" else lines[0] + eols[0] + Written(lines[1..], eols[1..])
  }

  /** A line with its ending: LF, CRLF, or, for a last line that is not empty, none. */
  predicate CanEnd(line: string, eol: string, last: bool) {
    && (forall i :: 0 <= i < |line| ==> line[i] != '\n')
    && (eol == "\r\n" || (eol == "\n" && DropCr(line) == line) || (eol == "" && last && line != ""))
  }

  predicate Endings(lines: seq<string>, eols: seq<string>) {
    |lines| == |eols| && forall i :: 0 <= i < |lines| ==> CanEnd(lines[i], eols[i], i == |lines| - 1)
  }

  /** Writing lines out, with endings mixed in any way, and splitting the text gives the lines back. */
  lemma {:induction false} LinesOfWritten(lines: seq<string>, eols: seq<string>)
    requires Endings(lines, eols)
    ensures Lines(Written(lines, eols)) == lines
  {
    if |lines| > 0 {
      assert CanEnd(lines[0], eols[0], 0 == |lines| - 1);
      var rest := Written(lines[1..], eols[1..]);
      if eols[0] == "" {
        assert rest == "" && Written(lines, eols) == lines[0];
        assert LineEnd(lines[0], 0) == |lines[0]|;
      } else {
        LinesOfOne(lines[0], eols[0], rest);
        forall i | 0 <= i < |lines[1..]|
          ensures CanEnd(lines[1..][i], eols[1..][i], i == |lines[1..]| - 1)
        {
          assert lines[1..][i] == lines[i + 1] && eols[1..][i] == eols[i + 1];
        }
        LinesOfWritten(lines[1..], eols[1..]);
      }
    }
  }

  lemma {:induction false} CollectedSkips(pre: seq<string>, rest: seq<string>)
    requires forall i :: 0 <= i < |pre| ==> Plain(pre[i])
    ensures Collected(pre + rest, false) == Collected(rest, false)
  {
    if |pre| > 0 {
      CollectedSkips(pre[1..], rest);
      assert (pre + rest)[1..] == pre[1..] + rest;
    } else {
      assert pre + rest == rest;
    }
  }

  lemma {:induction false} CollectedBody(body: seq<string>, rest: seq<string>)
    requires forall i :: 0 <= i < |body| ==> Plain(body[i])
    requires |rest| > 0 && StartsWith(rest[0], END)
    ensures Collected(body + rest, true) == Wrapped(body)
  {
    if |body| > 0 {
      CollectedBody(body[1..], rest);
      assert (body + rest)[1..] == body[1..] + rest;
    } else {
      assert body + rest == rest;
      assert BEGIN[5] != END[5];
    }
  }

  lemma MarkersDiffer(line: string)
    ensures !(StartsWith(line, BEGIN) && StartsWith(line, END))
  {
    assert BEGIN[5] == 'B' && END[5] == 'E';
    assert StartsWith(line, BEGIN) ==> line[5] == 'B';
  }

  /** Collection sees only the block: nothing before it that is free of markers, nothing after it. */
  lemma CollectedIsBlock(pre: seq<string>, begin: string, body: seq<string>, end: string, post: seq<string>)
    requires forall i :: 0 <= i < |pre| ==> Plain(pre[i])
    requires forall i :: 0 <= i < |body| ==> Plain(body[i])
    requires StartsWith(begin, BEGIN) && StartsWith(end, END)
    ensures Collected(pre + [begin] + body + [end] + post, false) == Wrapped(body)
  {
    var tail := body + ([end] + post);
    assert pre + [begin] + body + [end] + post == pre + ([begin] + tail);
    CollectedSkips(pre, [begin] + tail);
    assert ([begin] + tail)[1..] == tail;
    MarkersDiffer(end);
    CollectedBody(body, [end] + post);
  }

  /**
   * A PEM text with the encoding of nonempty `der` in its block, wrapped in any way, with line endings mixed in
   * any way and an unended last line allowed, gives `der` back, whatever marker-free lines come before the
   * block and whatever comes after it.
   */
  lemma PemRoundTrip(pre: seq<string>, begin: string, body: seq<string>, end: string, post: seq<string>,
                     eols: seq<string>, der: Bytes)
    requires forall i :: 0 <= i < |pre| ==> Plain(pre[i])
    requires forall i :: 0 <= i < |body| ==> Plain(body[i])
    requires StartsWith(begin, BEGIN) && StartsWith(end, END)
    requires Endings(pre + [begin] + body + [end] + post, eols)
    requires |der| > 0 && Strip(Wrapped(body)) == Encode(der)
    ensures PemToDer(Written(pre + [begin] + body + [end] + post, eols)) == Some(der)
  {
    LinesOfWritten(pre + [begin] + body + [end] + post, eols);
    CollectedIsBlock(pre, begin, body, end, post);
    EncodeNonempty(der);
    DecodeInvertsEncode(Wrapped(body), der);
  }

  /** A block without content is refused, so the empty octet string cannot be carried. */
  lemma EmptyBlockRefused(pre: seq<string>, begin: string, body: seq<string>, end: string, post: seq<string>,
                          pem: string)
    requires forall i :: 0 <= i < |pre| ==> Plain(pre[i])
    requires forall i :: 0 <= i < |body| ==> Plain(body[i])
    requires StartsWith(begin, BEGIN) && StartsWith(end, END)
    requires Lines(pem) == pre + [begin] + body + [end] + post
    requires Wrapped(body) == ""
    ensures PemToDer(pem) == None
  {
    CollectedIsBlock(pre, begin, body, end, post);
  }

  lemma EncodeNonempty(b: Bytes)
    requires |b| > 0
    ensures Encode(b) != "" && Strip("") != Encode(b)
  {
    EncodedCount(b);
    assert |EncodedSextets(b)| > 0;
  }

  // ---- the usual text of a certificate ----

  /** The characters of an encoding: neither white space nor a hyphen. */
  predicate Tight(s: string) {
    forall i :: 0 <= i < |s| ==> !IsSpace(s[i]) && s[i] != '-'
  }

  lemma EncodingIsTight(b: Bytes)
    ensures Tight(Encode(b))
  {
    var sextets := EncodedSextets(b);
    forall i | 0 <= i < |Encode(b)|
      ensures !IsSpace(Encode(b)[i]) && Encode(b)[i] != '-'
    {
      if i < |sextets| {
        AlphabetTight(sextets[i]);
      }
    }
  }

  lemma AlphabetTight(v: nat)
    requires v < 64
    ensures !IsSpace(CharOf(v)) && CharOf(v) != '-'
  {
  }

  lemma {:induction false} TightIsStripped(s: string)
    requires Tight(s)
    ensures Strip(s) == s && Trim(s) == s
  {
    if |s| > 0 {
      var n := |s| - 1;
      TightIsStripped(s[..n]);
      assert !IsAsciiSpace(s[n]);
      assert s == s[..n] + [s[n]];
    }
  }

  function PemOf(der: Bytes): string {
    Written([BEGIN, Encode(der), END], ["\n", "\n", "\n"])
  }

  lemma MarkerLines()
    ensures CanEnd(BEGIN, "\n", false) && CanEnd(END, "\n", true)
  {
    assert '\n' !in BEGIN && '\n' !in END && '\r' !in BEGIN && '\r' !in END;
    assert |BEGIN| == 27 && |END| == 25 && DropCr(BEGIN) == BEGIN && DropCr(END) == END;
    hide BEGIN, END;
    assert forall i :: 0 <= i < |BEGIN| ==> BEGIN[i] in BEGIN;
    assert forall i :: 0 <= i < |END| ==> END[i] in END;
  }

  lemma TightLine(e: string)
    requires Tight(e) && e != ""
    ensures CanEnd(e, "\n", false) && Plain(e) && Strip(Wrapped([e])) == e
  {
    TightIsStripped(e);
    assert Wrapped([e]) == e + "" == e;
    assert BEGIN[0] == '-' && END[0] == '-';
    hide Strip, Trim, Wrapped, BEGIN, END;
    assert forall i :: 0 <= i < |e| ==> !IsSpace(e[i]);
    assert e[0] != '-';
  }

  /** It is read back, unless it is empty. */
  lemma PemOfDecodes(der: Bytes)
    requires |der| > 0
    ensures PemToDer(PemOf(der)) == Some(der)
  {
    var e := Encode(der);
    EncodingIsTight(der);
    EncodeNonempty(der);
    TightLine(e);
    MarkerLines();
    hide Encode, Strip, Trim, CanEnd, Plain, Wrapped, Written, PemToDer, BEGIN, END;
    var lines := [] + [BEGIN] + [e] + [END] + [];
    assert lines == [BEGIN, e, END];
    PemRoundTrip([], BEGIN, [e], END, [], ["\n", "\n", "\n"], der);
  }

  // ---- in full ----

  lemma ThreeLines(a: string, b: string, c: string)
    ensures Written([a, b, c], ["\n", "\n", "\n"]) == a + "\n" + b + "\n" + c + "\n"
  {
    assert [a, b, c][1..] == [b, c] && [b, c][1..] == [c] && [c][1..] == [];
    assert ["\n", "\n", "\n"][1..] == ["\n", "\n"] && ["\n", "\n"][1..] == ["\n"] && ["\n"][1..] == [];
    assert Written([c], ["\n"]) == c + "\n";
    assert Written([b, c], ["\n", "\n"]) == b + "\n" + (c + "\n");
  }

  /** The block of section 5.1 of RFC 7468, its text in one line. */
  lemma BlockInFull(der: Bytes)
    requires |der| > 0
    ensures PemToDer("-----BEGIN CERTIFICATE-----" + "\n" + Encode(der) + "\n" + "-----END CERTIFICATE-----" + "\n")
              == Some(der)
  {
    PemOfDecodes(der);
    ThreeLines(BEGIN, Encode(der), END);
    hide PemToDer, Encode, Written;
  }

  /** Without a line that begins the block there is no certificate. */
  lemma {:induction false} NothingCollected(lines: seq<string>)
    requires forall i :: 0 <= i < |lines| ==> !StartsWith(lines[i], "-----BEGIN CERTIFICATE-----")
    ensures Collected(lines, false) == ""
  {
    if |lines| > 0 {
      NothingCollected(lines[1..]);
    }
  }

  lemma NoBlockRefused(pem: string)
    requires forall i :: 0 <= i < |Lines(pem)| ==> !StartsWith(Lines(pem)[i], "-----BEGIN CERTIFICATE-----")
    ensures PemToDer(pem) == None
  {
    NothingCollected(Lines(pem));
  }

  /** Trimming takes white space off both ends and nothing else. */
  lemma {:induction false} TrimInFull(s: string) returns (before: string, after: string)
    ensures s == before + Trim(s) + after
    ensures forall i :: 0 <= i < |before| ==> IsSpace(before[i])
    ensures forall i :: 0 <= i < |after| ==> IsSpace(after[i])
    ensures Trim(s) != "" ==> !IsSpace(Trim(s)[0]) && !IsSpace(Trim(s)[|Trim(s)| - 1])
  {
    hide IsSpace;
    if |s| > 0 && IsSpace(s[0]) {
      var rest, tail := TrimInFull(s[1..]);
      before, after := [s[0]] + rest, tail;
      assert s == [s[0]] + s[1..];
    } else {
      before := "";
      after := TrimEndInFull(s);
    }
  }

  lemma {:induction false} TrimEndInFull(s: string) returns (after: string)
    ensures s == TrimEnd(s) + after && forall i :: 0 <= i < |after| ==> IsSpace(after[i])
    ensures TrimEnd(s) != "" ==> !IsSpace(TrimEnd(s)[|TrimEnd(s)| - 1])
  {
    hide IsSpace;
    if |s| > 0 && IsSpace(s[|s| - 1]) {
      var front := s[..|s| - 1];
      var tail := TrimEndInFull(front);
      after := tail + [s[|s| - 1]];
      var kept := TrimEnd(front);
      assert TrimEnd(s) == kept;
      hide TrimEnd;
      assert s == front + [s[|s| - 1]] == kept + tail + [s[|s| - 1]] == kept + after;
    } else {
      after := "";
    }
  }
}
