/** The lexical structure of JSON text: which commas separate, and what RFC 8259 lets a raw value look like. */
module JsonText {

  // ---- splitting at commas outside strings and brackets ----

  datatype Scan = Scan(depth: int, inString: bool, escaped: bool)

  const TOP := Scan(0, false, false)

  function Step(st: Scan, c: char): Scan {
    if st.inString then
      if st.escaped then st.(escaped := false)
      else if c == '\\' then st.(escaped := true)
      else if c == '"' then st.(inString := false)
      else st
    else if c == '"' then st.(inString := true)
    else if c == '[' || c == '{' then st.(depth := st.depth + 1)
    else if c == ']' || c == '}' then st.(depth := st.depth - 1)
    else st
  }

  predicate Separates(st: Scan, c: char) {
    st == TOP && c == ','
  }

  /** The pieces of `s` between its separating commas, when scanning starts in `st`. */
  function SplitFrom(st: Scan, s: string): (pieces: seq<string>)
    ensures |pieces| > 0
    decreases s
  {
    if s == "" then [""]
    else if Separates(st, s[0]) then [""] + SplitFrom(st, s[1..])
    else
      var pieces := SplitFrom(Step(st, s[0]), s[1..]);
      [[s[0]] + pieces[0]] + pieces[1..]
  }

  /** The elements of a bracketed array text. */
  function Elements(s: string): seq<string>
    requires |s| >= 2
  {
    SplitFrom(TOP, s[1..|s| - 1])
  }

  function Joined(parts: seq<string>): string {
    if |parts| == 0 then "" else if |parts| == 1 then parts[0] else parts[0] + "," + Joined(parts[1..])
  }

  /** Scanning `s` from `st` meets no separating comma and ends in `end`. */
  predicate Passes(st: Scan, s: string, end: Scan)
    decreases s
  {
    if s == "" then st == end else !Separates(st, s[0]) && Passes(Step(st, s[0]), s[1..], end)
  }

  /** `s` is one array element: the scan comes back to the top without separating. */
  predicate IsElement(s: string) {
    Passes(TOP, s, TOP)
  }

  lemma {:induction false} PassesThen(a: Scan, s: string, b: Scan, t: string, c: Scan)
    requires Passes(a, s, b) && Passes(b, t, c)
    ensures Passes(a, s + t, c)
    decreases s
  {
    if s == "" {
      assert s + t == t;
    } else {
      PassesThen(Step(a, s[0]), s[1..], b, t, c);
      assert (s + t)[1..] == s[1..] + t;
    }
  }

  lemma {:induction false} SplitAfterPiece(st: Scan, s: string, rest: string)
    requires Passes(st, s, TOP)
    ensures SplitFrom(st, s) == [s]
    ensures SplitFrom(st, s + "," + rest) == [s] + SplitFrom(TOP, rest)
    decreases s
  {
    var whole := s + "," + rest;
    if s == "" {
      assert whole[0] == ',' && whole[1..] == rest;
    } else {
      SplitAfterPiece(Step(st, s[0]), s[1..], rest);
      assert whole[1..] == s[1..] + "," + rest;
      assert [s[0]] + s[1..] == s;
    }
  }

  /** Joining elements with commas and splitting again returns exactly those elements. */
  lemma {:induction false} SplitJoined(parts: seq<string>)
    requires |parts| > 0
    requires forall i :: 0 <= i < |parts| ==> IsElement(parts[i])
    ensures SplitFrom(TOP, Joined(parts)) == parts
  {
    if |parts| == 1 {
      SplitAfterPiece(TOP, parts[0], "");
    } else {
      SplitJoined(parts[1..]);
      SplitAfterPiece(TOP, parts[0], Joined(parts[1..]));
    }
  }

  // ---- the RFC 8259 grammar, as derivation trees ----

  datatype StringChar = Plain(c: char) | Escape(c: char)

  datatype Value =
    | Word(word: string)
    | Number(text: string)
    | Text(chars: seq<StringChar>)
    | Array(blank: string, items: Items)
    | Object(blank: string, members: Members)

  datatype Items = NoItems | Items(before: string, item: Value, after: string, rest: Items)

  datatype Members =
    | NoMembers
    | Members(before: string, key: seq<StringChar>, colon: string, value: Value, after: string, rest: Members)

  predicate BlankChar(c: char) {
    c == ' ' || c == '\t' || c == '\n' || c == '\r'
  }

  predicate IsBlank(s: string) {
    forall i :: 0 <= i < |s| ==> BlankChar(s[i])
  }

  predicate IsNumber(s: string) {
    |s| > 0 && forall i :: 0 <= i < |s| ==>
      '0' <= s[i] <= '9' || s[i] == '-' || s[i] == '+' || s[i] == '.' || s[i] == 'e' || s[i] == 'E'
  }

  predicate IsWord(s: string) {
    s == "null" || s == "true" || s == "false"
  }

  predicate CharOk(c: StringChar) {
    c.Plain? ==> c.c != '"' && c.c != '\\'
  }

  predicate CharsOk(chars: seq<StringChar>) {
    forall i :: 0 <= i < |chars| ==> CharOk(chars[i])
  }

  /** `blank : blank`, the name separator with the blanks allowed around it. */
  predicate IsColon(s: string) {
    forall i :: 0 <= i < |s| ==> BlankChar(s[i]) || s[i] == ':'
  }

  /** The tree is allowed; numbers and escapes are a superset of what RFC 8259 admits. */
  predicate WellFormed(v: Value) {
    match v
    case Word(w) => IsWord(w)
    case Number(t) => IsNumber(t)
    case Text(chars) => CharsOk(chars)
    case Array(blank, items) => IsBlank(blank) && ItemsOk(items)
    case Object(blank, members) => IsBlank(blank) && MembersOk(members)
  }

  predicate ItemsOk(items: Items) {
    items.NoItems? ||
    (IsBlank(items.before) && WellFormed(items.item) && IsBlank(items.after) && ItemsOk(items.rest))
  }

  predicate MembersOk(m: Members) {
    m.NoMembers? ||
    (IsBlank(m.before) && CharsOk(m.key) && IsColon(m.colon) && WellFormed(m.value) && IsBlank(m.after)
     && MembersOk(m.rest))
  }

  function RenderChars(chars: seq<StringChar>): string {
    if |chars| == 0 then ""
    else (match chars[0] case Plain(c) => [c] case Escape(c) => ['\\', c]) + RenderChars(chars[1..])
  }

  function RenderText(chars: seq<StringChar>): string {
    "\"" + (RenderChars(chars) + "\"")
  }

  function Render(v: Value): string {
    match v
    case Word(w) => w
    case Number(t) => t
    case Text(chars) => RenderText(chars)
    case Array(blank, items) => "[" + ((if items.NoItems? then blank else RenderItems(items)) + "]")
    case Object(blank, members) => "{" + ((if members.NoMembers? then blank else RenderMembers(members)) + "}")
  }

  function RenderItems(items: Items): string {
    match items
    case NoItems => ""
    case Items(before, item, after, rest) =>
      before + (Render(item) + (after + (if rest.NoItems? then "" else "," + RenderItems(rest))))
  }

  function RenderMembers(m: Members): string {
    match m
    case NoMembers => ""
    case Members(before, key, colon, value, after, rest) =>
      before + (RenderText(key) + (colon + (Render(value)
        + (after + (if rest.NoMembers? then "" else "," + RenderMembers(rest))))))
  }

  /** `s` is the text of a JSON value, which is what a `RawValue` guarantees. */
  ghost predicate IsJson(s: string) {
    exists v: Value :: WellFormed(v) && Render(v) == s
  }

  predicate Neutral(c: char) {
    c != '"' && c != '[' && c != ']' && c != '{' && c != '}' && c != ','
  }

  lemma {:induction false} NeutralPasses(d: nat, s: string)
    requires forall i :: 0 <= i < |s| ==> Neutral(s[i])
    ensures Passes(Scan(d, false, false), s, Scan(d, false, false))
  {
    if s != "" {
      assert Neutral(s[0]);
      NeutralPasses(d, s[1..]);
    }
  }

  lemma {:induction false} CharsPass(d: nat, chars: seq<StringChar>)
    requires CharsOk(chars)
    ensures Passes(Scan(d, true, false), RenderChars(chars), Scan(d, true, false))
  {
    if |chars| > 0 {
      var st := Scan(d, true, false);
      assert CharOk(chars[0]);
      CharsPass(d, chars[1..]);
      var head := match chars[0] case Plain(c) => [c] case Escape(c) => ['\\', c];
      if chars[0].Escape? {
        assert head[1..] == [chars[0].c];
        assert Passes(Step(st, head[0]), head[1..], st) by {
          assert head[1..][1..] == "";
        }
      } else {
        assert head[1..] == "";
      }
      PassesThen(st, head, st, RenderChars(chars[1..]), st);
    }
  }

  lemma OneStep(st: Scan, c: char)
    requires !Separates(st, c)
    ensures Passes(st, [c], Step(st, c))
  {
    assert [c][1..] == "";
  }

  lemma TextPasses(d: nat, chars: seq<StringChar>)
    requires CharsOk(chars)
    ensures Passes(Scan(d, false, false), RenderText(chars), Scan(d, false, false))
  {
    var st, within := Scan(d, false, false), Scan(d, true, false);
    CharsPass(d, chars);
    OneStep(st, '"');
    OneStep(within, '"');
    PassesThen(within, RenderChars(chars), within, "\"", st);
    PassesThen(st, "\"", within, RenderChars(chars) + "\"", st);
  }

  /** `open body close` brings the depth up and back down. */
  lemma BracketPasses(d: nat, open: char, body: string, close: char)
    requires (open == '[' && close == ']') || (open == '{' && close == '}')
    requires Passes(Scan(d + 1, false, false), body, Scan(d + 1, false, false))
    ensures Passes(Scan(d, false, false), [open] + (body + [close]), Scan(d, false, false))
  {
    var st, within := Scan(d, false, false), Scan(d + 1, false, false);
    OneStep(st, open);
    OneStep(within, close);
    PassesThen(within, body, within, [close], st);
    PassesThen(st, [open], within, body + [close], st);
  }

  lemma WordPasses(d: nat, w: string)
    requires IsWord(w)
    ensures Passes(Scan(d, false, false), w, Scan(d, false, false))
  {
    NeutralPasses(d, w);
  }

  /** Every JSON value, at any depth, is scanned without leaving that depth or separating. */
  lemma {:induction false} ValuePasses(d: nat, v: Value)
    requires WellFormed(v)
    ensures Passes(Scan(d, false, false), Render(v), Scan(d, false, false))
    decreases v
  {
    match v
    case Word(w) => WordPasses(d, w);
    case Number(t) => NeutralPasses(d, t);
    case Text(chars) => TextPasses(d, chars);
    case Array(blank, items) =>
      if items.NoItems? { NeutralPasses(d + 1, blank); } else { ItemsPass(d + 1, items); }
      BracketPasses(d, '[', if items.NoItems? then blank else RenderItems(items), ']');
    case Object(blank, members) =>
      if members.NoMembers? { NeutralPasses(d + 1, blank); } else { MembersPass(d + 1, members); }
      BracketPasses(d, '{', if members.NoMembers? then blank else RenderMembers(members), '}');
  }

  /** `a b c rest` stays on its level when each part does. */
  lemma FourPass(st: Scan, a: string, b: string, c: string, rest: string)
    requires Passes(st, a, st) && Passes(st, b, st) && Passes(st, c, st) && Passes(st, rest, st)
    ensures Passes(st, a + (b + (c + rest)), st)
  {
    PassesThen(st, c, st, rest, st);
    PassesThen(st, b, st, c + rest, st);
    PassesThen(st, a, st, b + (c + rest), st);
  }

  lemma CommaPasses(d: nat, rest: string)
    requires d > 0 && Passes(Scan(d, false, false), rest, Scan(d, false, false))
    ensures Passes(Scan(d, false, false), "," + rest, Scan(d, false, false))
  {
    OneStep(Scan(d, false, false), ',');
    PassesThen(Scan(d, false, false), ",", Scan(d, false, false), rest, Scan(d, false, false));
  }

  lemma {:induction false} ItemsPass(d: nat, items: Items)
    requires d > 0 && ItemsOk(items)
    ensures Passes(Scan(d, false, false), RenderItems(items), Scan(d, false, false))
    decreases items
  {
    if items.Items? {
      ItemsPass(d, items.rest);
      CommaPasses(d, RenderItems(items.rest));
      NeutralPasses(d, items.before);
      ValuePasses(d, items.item);
      NeutralPasses(d, items.after);
      FourPass(Scan(d, false, false), items.before, Render(items.item), items.after,
               if items.rest.NoItems? then "" else "," + RenderItems(items.rest));
    }
  }

  lemma {:induction false} MembersPass(d: nat, m: Members)
    requires d > 0 && MembersOk(m)
    ensures Passes(Scan(d, false, false), RenderMembers(m), Scan(d, false, false))
    decreases m
  {
    if m.Members? {
      var st := Scan(d, false, false);
      var tail := m.after + (if m.rest.NoMembers? then "" else "," + RenderMembers(m.rest));
      MembersPass(d, m.rest);
      CommaPasses(d, RenderMembers(m.rest));
      NeutralPasses(d, m.after);
      PassesThen(st, m.after, st, if m.rest.NoMembers? then "" else "," + RenderMembers(m.rest), st);
      ValuePasses(d, m.value);
      PassesThen(st, Render(m.value), st, tail, st);
      NeutralPasses(d, m.before);
      TextPasses(d, m.key);
      NeutralPasses(d, m.colon);
      FourPass(st, m.before, RenderText(m.key), m.colon, Render(m.value) + tail);
    }
  }

  /** JSON text is never empty and always one element of an array. */
  lemma JsonIsElement(s: string)
    requires IsJson(s)
    ensures IsElement(s) && s != ""
  {
    var v: Value :| WellFormed(v) && Render(v) == s;
    ValuePasses(0, v);
  }
}
