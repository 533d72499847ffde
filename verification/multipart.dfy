/** Multipart bodies, written from a map of parts (PrepareMessageBytes in sip/message.go) and read back
    (the multipart loop of processPDU in sip/stack.go). */
module Multipart {
  import opened SipTypes
  import opened Text

  // ----- body types

  datatype BodyType =
    | NoType | SDP | DTMF | DTMFRelay | SIPFragment | SimpleMsgSummary | PlainText | AppJson
    | MultipartAlternative | MultipartMixed | MultipartRelated | ISUP | QSIG | PIDFXML | MSCPXML | MSCXML
    | VndEtsiPstnXML | VndOrangeInData | ResourceListXML | AnyXML | UnknownType

  /** GetBodyType, with the table DicBodyContentType written out. */
  function GetBodyType(contentType: string): BodyType {
    var t := Lower(contentType);
    if t == "application/sdp" then SDP
    else if t == "application/dtmf" then DTMF
    else if t == "application/dtmf-relay" then DTMFRelay
    else if t == "multipart/mixed" then MultipartMixed
    else if t == "multipart/alternative" then MultipartAlternative
    else if t == "multipart/related" then MultipartRelated
    else if t == "application/isup" then ISUP
    else if t == "application/qsig" then QSIG
    else if t == "message/sipfrag" then SIPFragment
    else if t == "application/simple-message-summary" then SimpleMsgSummary
    else if t == "text/plain" then PlainText
    else if t == "application/pidf+xml" then PIDFXML
    else if t == "application/mscp+xml" then MSCPXML
    else if t == "application/mediaservercontrol+xml" then MSCXML
    else if t == "application/resource-lists+xml" then ResourceListXML
    else if t == "application/vnd.etsi.pstn+xml" then VndEtsiPstnXML
    else if t == "application/vnd.orange.indata" then VndOrangeInData
    else if t == "application/json" then AppJson
    else if t == "+xml" || Contains(t, "xml") then AnyXML
    else UnknownType
  }

  /** The content type of each body type that has one of its own. */
  function TypeName(bt: BodyType): Option<string> {
    match bt
    case SDP => Some("application/sdp")
    case DTMF => Some("application/dtmf")
    case DTMFRelay => Some("application/dtmf-relay")
    case SIPFragment => Some("message/sipfrag")
    case SimpleMsgSummary => Some("application/simple-message-summary")
    case PlainText => Some("text/plain")
    case AppJson => Some("application/json")
    case MultipartAlternative => Some("multipart/alternative")
    case MultipartMixed => Some("multipart/mixed")
    case MultipartRelated => Some("multipart/related")
    case ISUP => Some("application/isup")
    case QSIG => Some("application/qsig")
    case PIDFXML => Some("application/pidf+xml")
    case MSCPXML => Some("application/mscp+xml")
    case MSCXML => Some("application/mediaservercontrol+xml")
    case VndEtsiPstnXML => Some("application/vnd.etsi.pstn+xml")
    case VndOrangeInData => Some("application/vnd.orange.indata")
    case ResourceListXML => Some("application/resource-lists+xml")
    case _ => None
  }

  /** A content type, in any letter case, is read as a body type of that name. */
  lemma TypeFromName(s: string)
    ensures TypeName(GetBodyType(s)).Some? ==> TypeName(GetBodyType(s)) == Some(Lower(s))
  {
    hide Lower, Contains;
  }

  /** One that is nobody's name stands for any XML, when it mentions it, and else for the unknown type. */
  lemma TypeWithoutName(s: string)
    requires TypeName(GetBodyType(s)).None?
    ensures GetBodyType(s) == if Contains(Lower(s), "xml") then AnyXML else UnknownType
  {
    hide Lower, TypeName;
    XMLMentioned(Lower(s));
    OtherTypes(s);
  }

  lemma XMLMentioned(t: string)
    ensures t == "+xml" ==> Contains(t, "xml")
  {
    assert t == "+xml" ==> StartsAt(t, "xml", 1);
  }

  lemma OtherTypes(s: string)
    ensures TypeName(GetBodyType(s)).None? ==>
              GetBodyType(s) == if Lower(s) == "+xml" || Contains(Lower(s), "xml") then AnyXML else UnknownType
  {
    hide Lower, Contains;
  }

  /** And it is indeed nobody's. */
  lemma NobodysName(s: string, bt: BodyType)
    requires TypeName(GetBodyType(s)).None?
    ensures TypeName(bt) != Some(Lower(s))
  {
    hide Lower, Contains;
  }

  predicate Known(bt: BodyType) { bt != NoType && bt != UnknownType }

  // ----- header lines

  predicate IsSpace(c: char) { c in {' ', '\t', '\n', '\r', '\U{0C}'} }

  function SkipSpaces(s: string): string {
    if s != "" && IsSpace(s[0]) then SkipSpaces(s[1..]) else s
  }

  function NameEnd(s: string): (n: nat)
    ensures n <= |s| && ':' !in s[..n] && (n < |s| ==> s[n] == ':')
  {
    if s == "" || s[0] == ':' then 0 else NameEnd(s[1..]) + 1
  }

  /** What the expression for a header line captures: the name without leading blanks, and the value
      without leading blanks; of blanks only, the last one. */
  function HeaderLine(ln: string): Option<(string, string)> {
    var n := NameEnd(ln);
    if n == |ln| || n == 0 then None
    else
      var (name, value) := (SkipSpaces(ln[..n]), SkipSpaces(ln[n + 1..]));
      if ln[n + 1..] == "" || '\n' in value || (value == "" && ln[|ln| - 1] == '\n') then None
      else Some((if name == "" then [ln[n - 1]] else name, if value == "" then [ln[|ln| - 1]] else value))
  }

  /** A header that a line can carry. */
  predicate Plain(name: string, value: string) {
    && name != "" && !IsSpace(name[0]) && ':' !in name && OneLine(name)
    && value != "" && !IsSpace(value[0]) && OneLine(value)
  }

  function RenderHeader(name: string, value: string): string { name + ": " + value }

  lemma {:induction false} NameEndIs(s: string, n: nat)
    requires n < |s| && s[n] == ':' && ':' !in s[..n]
    ensures NameEnd(s) == n
  {
    if n > 0 {
      assert s[0] in s[..n];
      assert s[1..][..n - 1] == s[..n][1..];
      NameEndIs(s[1..], n - 1);
    }
  }

  lemma HeaderLineOf(name: string, value: string)
    requires Plain(name, value)
    ensures HeaderLine(RenderHeader(name, value)) == Some((name, value))
  {
    var ln := RenderHeader(name, value);
    assert ln[..|name|] == name;
    NameEndIs(ln, |name|);
    assert ln[|name| + 1..] == [' '] + value;
    assert ([' '] + value)[1..] == value;
    assert SkipSpaces([' '] + value) == SkipSpaces(value) == value;
    assert SkipSpaces(name) == name;
  }

  // ----- the headers of a part

  type Headers = map<string, seq<string>>

  /** SipHeaders.Add */
  function AddHeader(h: Headers, name: string, value: string): Headers {
    var k := Lower(name);
    h[k := (if k in h then h[k] else []) + [value]]
  }

  datatype Parsed = Parsed(headers: Headers, bt: BodyType)

  const CONTENT_TYPE := "content-type"

  function TakeLine(p: Parsed, ln: string): Parsed {
    match HeaderLine(ln)
    case None => p
    case Some((name, value)) =>
      Parsed(AddHeader(p.headers, name, value), if Lower(name) == CONTENT_TYPE then GetBodyType(value) else p.bt)
  }

  function TakeLines(p: Parsed, lines: seq<string>): Parsed
    decreases |lines|
  {
    if lines == [] then p else TakeLines(TakeLine(p, lines[0]), lines[1..])
  }

  datatype Part = Part(headers: Headers, bytes: string)

  // ----- writing

  /** A part as the writer visits it: its headers in some order, its bytes. */
  type Field = (string, seq<string>)
  datatype Visit = Visit(fields: seq<Field>, bytes: string)

  function WriteValues(table: seq<string>, name: string, values: seq<string>): string {
    if values == [] then ""
    else RenderHeader(HeaderCase(table, name), values[0]) + CRLF + WriteValues(table, name, values[1..])
  }

  function WriteFields(table: seq<string>, fields: seq<Field>): string {
    if fields == [] then "" else WriteValues(table, fields[0].0, fields[0].1) + WriteFields(table, fields[1..])
  }

  function WritePart(table: seq<string>, b: string, v: Visit): string {
    "--" + b + CRLF + WriteFields(table, v.fields) + CRLF + v.bytes
  }

  /** All parts, each with the line break that separates it from what follows, and the closing line. */
  function WriteParts(table: seq<string>, b: string, vs: seq<Visit>): string {
    if vs == [] then "--" + b + "--" + CRLF
    else WritePart(table, b, vs[0]) + CRLF + WriteParts(table, b, vs[1..])
  }

  method WriteHeaders(table: seq<string>, fields: seq<Field>) returns (text: string)
    ensures text == WriteFields(table, fields)
  {
    text := "";
    for k := 0 to |fields|
      invariant text + WriteFields(table, fields[k..]) == WriteFields(table, fields)
    {
      ghost var start := text;
      assert fields[k..][1..] == fields[k + 1..];
      var (name, values) := fields[k];
      for j := 0 to |values|
        invariant text + WriteValues(table, name, values[j..]) == start + WriteValues(table, name, values)
      {
        assert values[j..][1..] == values[j + 1..];
        text := text + RenderHeader(HeaderCase(table, name), values[j]) + CRLF;
      }
      assert values[|values|..] == [];
      assert text == start + WriteValues(table, name, values);
    }
    assert fields[|fields|..] == [];
  }

  /** The parts from the second on, each after the line break that ends the one before it. */
  function WriteRest(table: seq<string>, b: string, vs: seq<Visit>): string {
    if vs == [] then CRLF + "--" + b + "--" + CRLF
    else CRLF + WritePart(table, b, vs[0]) + WriteRest(table, b, vs[1..])
  }

  lemma Regroup(a: string, p: string, c: string, r: string)
    ensures a + p + (c + r) == a + (p + c + r)
  {
  }

  lemma {:induction false} RestWritten(table: seq<string>, b: string, vs: seq<Visit>)
    ensures WriteRest(table, b, vs) == CRLF + WriteParts(table, b, vs)
  {
    if vs == [] {
      Regroup(CRLF, "--" + b + "--", CRLF, "");
    } else {
      var (p, r) := (WritePart(table, b, vs[0]), WriteParts(table, b, vs[1..]));
      RestWritten(table, b, vs[1..]);
      Regroup(CRLF, p, CRLF, r);
    }
  }

  lemma FirstThenRest(table: seq<string>, b: string, vs: seq<Visit>)
    requires vs != []
    ensures WriteParts(table, b, vs) == WritePart(table, b, vs[0]) + WriteRest(table, b, vs[1..])
  {
    var (p, r) := (WritePart(table, b, vs[0]), WriteParts(table, b, vs[1..]));
    RestWritten(table, b, vs[1..]);
    Regroup("", p, CRLF, r);
    assert "" + p == p;
    assert p + CRLF + r == p + (CRLF + r);
  }

  /** What is still to be written after i parts. */
  function ToWrite(table: seq<string>, b: string, vs: seq<Visit>, i: nat): string
    requires i <= |vs|
  {
    if i == 0 then WriteParts(table, b, vs) else WriteRest(table, b, vs[i..])
  }

  lemma Assoc(x: string, y: string, z: string)
    ensures x + y + z == x + (y + z)
  {
  }

  lemma WriteOne(table: seq<string>, b: string, vs: seq<Visit>, i: nat)
    requires i < |vs|
    ensures ToWrite(table, b, vs, i) ==
            (if i == 0 then "" else CRLF) + WritePart(table, b, vs[i]) + ToWrite(table, b, vs, i + 1)
  {
    assert vs[i..][1..] == vs[i + 1..];
    if i == 0 {
      FirstThenRest(table, b, vs);
      assert "" + WritePart(table, b, vs[0]) == WritePart(table, b, vs[0]);
    }
  }

  /** The multipart branch of PrepareMessageBytes. */
  method WriteBody(table: seq<string>, b: string, vs: seq<Visit>) returns (body: string)
    requires vs != []
    ensures body == WriteParts(table, b, vs)
  {
    body := "";
    var first := true;
    for i := 0 to |vs|
      invariant first <==> i == 0
      invariant body + ToWrite(table, b, vs, i) == WriteParts(table, b, vs)
    {
      WriteOne(table, b, vs, i);
      var headers := WriteHeaders(table, vs[i].fields);
      var piece := (if first then "" else CRLF) + ("--" + b + CRLF + headers + CRLF + vs[i].bytes);
      Assoc(body, piece, ToWrite(table, b, vs, i + 1));
      body := body + piece;
      first := false;
    }
    assert vs[|vs|..] == [];
    var end := CRLF + "--" + b + "--" + CRLF;
    assert ToWrite(table, b, vs, |vs|) == end;
    body := body + end;
  }

  // ----- reading

  /** Crash: an index outside the text stops the program. */
  datatype Outcome = Crash | Read(parts: map<BodyType, Part>, rest: string)

  function Mark(b: string): string { "--" + b }
  function EndMark(b: string): string { "--" + b + "--" + CRLF }

  /** What one turn of the loop finds: the end, a slip, or a part and what comes after it. */
  datatype Turn = Over | Slip | Found(bt: BodyType, part: Part, rest: string)

  function NextTurn(b: string, payload: string): (t: Turn)
    ensures t.Found? ==> |t.rest| < |payload|
  {
    match Index(payload, Mark(b))
    case None => Over
    case Some(i) =>
      if payload == EndMark(b) then Over
      else if |payload| < i + |Mark(b)| + 2 then Slip
      else ReadPart(b, payload[i + |Mark(b)| + 2..])
  }

  /** One part, from behind its marker; a part without a known type keeps no bytes. */
  function ReadPart(b: string, p: string): (t: Turn)
    ensures t.Found? ==> |t.rest| <= |p|
  {
    match (Index(p, BLANK_LINE), Index(p, Mark(b)))
    case (Some(blank), Some(end)) =>
      var h := TakeLines(Parsed(map[], NoType), Lines(p[..blank]));
      if !Known(h.bt) then Found(h.bt, Part(h.headers, ""), p[end..])
      else if blank + 6 > end then Slip
      else Found(h.bt, Part(h.headers, p[blank + 4..end - 2]), p[end..])
    case _ => Slip
  }

  /** The multipart loop of processPDU. */
  function ReadParts(b: string, payload: string, m: map<BodyType, Part>): (r: Outcome)
    ensures r.Read? ==> |r.rest| <= |payload|
    decreases |payload|
  {
    match NextTurn(b, payload)
    case Over => Read(m, payload)
    case Slip => Crash
    case Found(bt, part, rest) => ReadParts(b, rest, if Known(bt) then m[bt := part] else m)
  }

  /** The lines of a part's header. */
  method ReadHeader(text: string) returns (headers: Headers, bt: BodyType)
    ensures Parsed(headers, bt) == TakeLines(Parsed(map[], NoType), Lines(text))
  {
    headers, bt := map[], NoType;
    var lines := Lines(text);
    for k := 0 to |lines|
      invariant TakeLines(Parsed(headers, bt), lines[k..]) == TakeLines(Parsed(map[], NoType), lines)
    {
      assert lines[k..][1..] == lines[k + 1..];
      var field := HeaderLine(lines[k]);
      if field.Some? {
        headers := AddHeader(headers, field.value.0, field.value.1);
        if Lower(field.value.0) == CONTENT_TYPE {
          bt := GetBodyType(field.value.1);
        }
      }
    }
    assert lines[|lines|..] == [];
  }

  method ReadOne(b: string, payload: string) returns (t: Turn)
    ensures t == ReadPart(b, payload)
  {
    var blank := Index(payload, BLANK_LINE);
    var end := Index(payload, Mark(b));
    if blank.None? || end.None? {
      return Slip;
    }
    var headers, bt := ReadHeader(payload[..blank.value]);
    if !Known(bt) {
      return Found(bt, Part(headers, ""), payload[end.value..]);
    }
    if blank.value + 6 > end.value {
      return Slip;
    }
    return Found(bt, Part(headers, payload[blank.value + 4..end.value - 2]), payload[end.value..]);
  }

  method ReadTurn(b: string, payload: string) returns (t: Turn)
    ensures t == NextTurn(b, payload)
  {
    hide Index, Mark, EndMark;
    var i := Index(payload, Mark(b));
    if i.None? || payload == EndMark(b) {
      return Over;
    }
    if |payload| < i.value + |Mark(b)| + 2 {
      return Slip;
    }
    t := ReadOne(b, payload[i.value + |Mark(b)| + 2..]);
  }

  method ReadBody(b: string, body: string) returns (r: Outcome)
    ensures r == ReadParts(b, body, map[])
  {
    var payload, m := body, map[];
    var t := ReadTurn(b, payload);
    while t.Found?
      invariant t == NextTurn(b, payload) && ReadParts(b, body, map[]) == ReadParts(b, payload, m)
      decreases |payload|
    {
      if Known(t.bt) {
        m := m[t.bt := t.part];
      }
      payload := t.rest;
      t := ReadTurn(b, payload);
    }
    return if t.Slip? then Crash else Read(m, payload);
  }

  // ----- what the reader finds in what was written

  function Terminated(ls: seq<string>): string {
    if ls == [] then "" else ls[0] + CRLF + Terminated(ls[1..])
  }

  /** The first occurrence of a pattern lies beyond a piece and its line break that do not have it. */
  lemma IndexBeyond(x: string, s: string, pat: string, i: nat)
    requires !Contains(x, pat) && OneLine(pat) && pat != "" && StartsAt(s, pat, i)
    requires forall j :: 0 <= j < i ==> !StartsAt(s, pat, j)
    ensures Index(x + CRLF + s, pat) == Some(|x| + 2 + i) && StartsAt(x + CRLF + s, pat, |x| + 2 + i)
    ensures forall j :: 0 <= j < |x| + 2 + i ==> !StartsAt(x + CRLF + s, pat, j)
  {
    var t := x + CRLF + s;
    NoneStartsIn(x, '\r', ['\n'] + s, pat);
    assert x + ['\r'] + (['\n'] + s) == t && t[|x| + 1] == '\n';
    forall j: nat | j < |x| + 2 + i
      ensures !StartsAt(t, pat, j)
    {
      StartsWith(t, pat, j);
      if j >= |x| + 2 {
        StartsBeyond(x + CRLF, s, pat, j - |x| - 2);
      }
    }
    StartsBeyond(x + CRLF, s, pat, i);
    IndexIs(t, pat, |x| + 2 + i);
  }

  lemma {:induction false} MarkBeyondLines(ls: seq<string>, s: string, pat: string, i: nat)
    requires OneLine(pat) && pat != "" && StartsAt(s, pat, i) && forall j :: 0 <= j < i ==> !StartsAt(s, pat, j)
    requires forall k :: 0 <= k < |ls| ==> !Contains(ls[k], pat)
    ensures Index(Terminated(ls) + s, pat) == Some(|Terminated(ls)| + i)
    ensures StartsAt(Terminated(ls) + s, pat, |Terminated(ls)| + i)
    ensures forall j :: 0 <= j < |Terminated(ls)| + i ==> !StartsAt(Terminated(ls) + s, pat, j)
  {
    hide Index, Contains;
    if ls == [] {
      assert "" + s == s;
      IndexIs(s, pat, i);
    } else {
      var rest := Terminated(ls[1..]) + s;
      MarkBeyondLines(ls[1..], s, pat, i);
      IndexBeyond(ls[0], rest, pat, |Terminated(ls[1..])| + i);
      assert Terminated(ls) + s == ls[0] + CRLF + rest;
    }
  }

  predicate IsLine(l: string) { l != "" && OneLine(l) }

  lemma BlankLineNotIn(l: string, rest: string, j: nat)
    requires IsLine(l) && rest != "" && rest[0] != '\r' && j < |l| + 2
    ensures !StartsAt(l + CRLF + rest, BLANK_LINE, j)
  {
    var s := l + CRLF + rest;
    StartsWith(s, BLANK_LINE, j);
    assert j < |l| ==> s[j] == l[j];
    assert s[|l| + 1] == '\n' && s[|l| + 2] == rest[0];
    assert BLANK_LINE[0] == '\r' && BLANK_LINE[2] == '\r';
  }

  /** The blank line is the one after the last header line. */
  lemma {:induction false} BlankLineAfter(ls: seq<string>, x: string)
    requires ls != [] && forall k :: 0 <= k < |ls| ==> IsLine(ls[k])
    ensures var (s, n) := (Terminated(ls) + CRLF + x, |Terminated(ls)| - 2);
            n >= 0 && StartsAt(s, BLANK_LINE, n) && forall j :: 0 <= j < n ==> !StartsAt(s, BLANK_LINE, j)
  {
    var (l, t) := (ls[0], ls[1..]);
    var (s, rest) := (Terminated(ls) + CRLF + x, Terminated(t) + CRLF + x);
    assert s == l + CRLF + rest;
    if t == [] {
      assert s[|l|..] == BLANK_LINE + x;
      forall j: nat | j < |l|
        ensures !StartsAt(s, BLANK_LINE, j)
      {
        StartsWith(s, BLANK_LINE, j);
        assert s[j] == l[j];
      }
    } else {
      BlankLineAfter(t, x);
      assert rest[0] == t[0][0];
      var n := |Terminated(t)| - 2;
      forall j: nat | j < |l| + 2 + n
        ensures !StartsAt(s, BLANK_LINE, j)
      {
        if j < |l| + 2 {
          BlankLineNotIn(l, rest, j);
        } else {
          StartsBeyond(l + CRLF, rest, BLANK_LINE, j - |l| - 2);
        }
      }
      StartsBeyond(l + CRLF, rest, BLANK_LINE, n);
    }
  }

  /** Splitting the header lines gives them back. */
  lemma {:induction false} LinesOf(ls: seq<string>)
    requires ls != [] && forall k :: 0 <= k < |ls| ==> IsLine(ls[k])
    ensures |Terminated(ls)| >= 2 && Lines(Terminated(ls)[..|Terminated(ls)| - 2]) == ls
  {
    var (l, t) := (ls[0], ls[1..]);
    var s := Terminated(ls);
    if t == [] {
      assert Terminated(t) == "" && s == l + CRLF;
      assert s[..|s| - 2] == l;
      LastLine(l);
    } else {
      LinesOf(t);
      assert s[..|s| - 2] == l + CRLF + Terminated(t)[..|Terminated(t)| - 2];
      LineFirst(l, Terminated(t)[..|Terminated(t)| - 2]);
    }
  }

  // ----- the header lines of a part

  function ValueLines(table: seq<string>, name: string, values: seq<string>): seq<string> {
    if values == [] then []
    else [RenderHeader(HeaderCase(table, name), values[0])] + ValueLines(table, name, values[1..])
  }

  function FieldLines(table: seq<string>, fields: seq<Field>): seq<string> {
    if fields == [] then [] else ValueLines(table, fields[0].0, fields[0].1) + FieldLines(table, fields[1..])
  }

  lemma {:induction false} TerminatedJoin(a: seq<string>, c: seq<string>)
    ensures Terminated(a + c) == Terminated(a) + Terminated(c)
  {
    if a == [] {
      assert a + c == c;
    } else {
      TerminatedJoin(a[1..], c);
      assert (a + c)[1..] == a[1..] + c;
    }
  }

  lemma {:induction false} ValuesWritten(table: seq<string>, name: string, values: seq<string>)
    ensures WriteValues(table, name, values) == Terminated(ValueLines(table, name, values))
  {
    if values != [] {
      ValuesWritten(table, name, values[1..]);
      assert ValueLines(table, name, values)[1..] == ValueLines(table, name, values[1..]);
    }
  }

  lemma {:induction false} FieldsWritten(table: seq<string>, fields: seq<Field>)
    ensures WriteFields(table, fields) == Terminated(FieldLines(table, fields))
  {
    if fields != [] {
      var (name, values) := fields[0];
      FieldsWritten(table, fields[1..]);
      ValuesWritten(table, name, values);
      TerminatedJoin(ValueLines(table, name, values), FieldLines(table, fields[1..]));
    }
  }

  /** A header that can be sent in a part delimited by b. */
  predicate GoodValue(table: seq<string>, b: string, name: string, value: string) {
    Plain(HeaderCase(table, name), value) && !Contains(RenderHeader(HeaderCase(table, name), value), Mark(b))
  }

  predicate GoodField(table: seq<string>, b: string, f: Field) {
    f.0 == Lower(f.0) && f.1 != [] && forall k :: 0 <= k < |f.1| ==> GoodValue(table, b, f.0, f.1[k])
  }

  lemma {:induction false} GoodValueLines(table: seq<string>, b: string, name: string, values: seq<string>)
    requires forall k :: 0 <= k < |values| ==> GoodValue(table, b, name, values[k])
    ensures var ls := ValueLines(table, name, values);
            |ls| == |values| && forall k :: 0 <= k < |ls| ==> IsLine(ls[k]) && !Contains(ls[k], Mark(b))
  {
    if values != [] {
      GoodValueLines(table, b, name, values[1..]);
      assert GoodValue(table, b, name, values[0]);
    }
  }

  lemma {:induction false} GoodFieldLines(table: seq<string>, b: string, fields: seq<Field>)
    requires forall k :: 0 <= k < |fields| ==> GoodField(table, b, fields[k])
    ensures var ls := FieldLines(table, fields);
            |ls| >= |fields| && forall k :: 0 <= k < |ls| ==> IsLine(ls[k]) && !Contains(ls[k], Mark(b))
  {
    if fields != [] {
      GoodFieldLines(table, b, fields[1..]);
      assert GoodField(table, b, fields[0]);
      GoodValueLines(table, b, fields[0].0, fields[0].1);
    }
  }

  // ----- what the header lines are read as

  /** The type after the values of one header. */
  function TypeAfter(bt: BodyType, f: Field): BodyType {
    if f.0 == CONTENT_TYPE && f.1 != [] then GetBodyType(f.1[|f.1| - 1]) else bt
  }

  lemma {:induction false} TakeMore(p: Parsed, a: seq<string>, c: seq<string>)
    ensures TakeLines(p, a + c) == TakeLines(TakeLines(p, a), c)
    decreases |a|
  {
    if a == [] {
      assert a + c == c;
    } else {
      TakeMore(TakeLine(p, a[0]), a[1..], c);
      assert (a + c)[1..] == a[1..] + c;
    }
  }

  lemma TakeHeader(table: seq<string>, b: string, p: Parsed, name: string, value: string)
    requires GoodValue(table, b, name, value) && name == Lower(name)
    ensures TakeLine(p, RenderHeader(HeaderCase(table, name), value)) ==
            Parsed(p.headers[name := (if name in p.headers then p.headers[name] else []) + [value]],
                   if name == CONTENT_TYPE then GetBodyType(value) else p.bt)
  {
    HeaderLineOf(HeaderCase(table, name), value);
    HeaderCaseIsCase(table, name);
  }

  /** The state after some values of a header were taken. */
  function WithValues(p: Parsed, name: string, values: seq<string>): Parsed
    requires values != []
  {
    Parsed(p.headers[name := values], TypeAfter(p.bt, (name, values)))
  }

  lemma TakeNext(table: seq<string>, b: string, p: Parsed, name: string, done: seq<string>, value: string)
    requires name == Lower(name) && GoodValue(table, b, name, value)
    requires done == [] ==> name !in p.headers
    ensures var q := if done == [] then p else WithValues(p, name, done);
            TakeLine(q, RenderHeader(HeaderCase(table, name), value)) == WithValues(p, name, done + [value])
  {
    hide RenderHeader, HeaderCase;
    var q := if done == [] then p else WithValues(p, name, done);
    TakeHeader(table, b, q, name, value);
    assert [] + [value] == [value];
    assert q.headers[name := done + [value]] == p.headers[name := done + [value]];
  }

  lemma {:induction false} TakeValues(table: seq<string>, b: string, p: Parsed, name: string,
                                     done: seq<string>, values: seq<string>)
    requires name == Lower(name) && values != [] &&
               forall k :: 0 <= k < |values| ==> GoodValue(table, b, name, values[k])
    requires done == [] ==> name !in p.headers
    ensures var q := if done == [] then p else WithValues(p, name, done);
            TakeLines(q, ValueLines(table, name, values)) == WithValues(p, name, done + values)
    decreases |values|
  {
    hide TakeLine;
    var ls := ValueLines(table, name, values);
    TakeNext(table, b, p, name, done, values[0]);
    assert ls[1..] == ValueLines(table, name, values[1..]);
    if |values| == 1 {
      assert values == [values[0]];
    } else {
      TakeValues(table, b, p, name, done + [values[0]], values[1..]);
      assert done + [values[0]] + values[1..] == done + values;
    }
  }

  function FieldMap(h: Headers, fields: seq<Field>): Headers
    decreases |fields|
  {
    if fields == [] then h else FieldMap(h[fields[0].0 := fields[0].1], fields[1..])
  }

  function TypeOf(bt: BodyType, fields: seq<Field>): BodyType
    decreases |fields|
  {
    if fields == [] then bt else TypeOf(TypeAfter(bt, fields[0]), fields[1..])
  }

  lemma {:induction false} TakeFields(table: seq<string>, b: string, p: Parsed, fields: seq<Field>)
    requires forall k :: 0 <= k < |fields| ==> GoodField(table, b, fields[k]) && fields[k].0 !in p.headers
    requires forall i, j :: 0 <= i < j < |fields| ==> fields[i].0 != fields[j].0
    ensures TakeLines(p, FieldLines(table, fields)) == Parsed(FieldMap(p.headers, fields), TypeOf(p.bt, fields))
    decreases |fields|
  {
    if fields != [] {
      var (name, values) := fields[0];
      assert GoodField(table, b, fields[0]);
      var q := WithValues(p, name, values);
      TakeMore(p, ValueLines(table, name, values), FieldLines(table, fields[1..]));
      TakeValues(table, b, p, name, [], values);
      assert [] + values == values;
      TakeFields(table, b, q, fields[1..]);
    }
  }

  // ----- round trip

  /** The fields visit every header of the part once. */
  ghost predicate VisitsHeaders(fields: seq<Field>, h: Headers) {
    && (forall i :: 0 <= i < |fields| ==> fields[i].0 in h && h[fields[i].0] == fields[i].1)
    && (forall k :: k in h ==> exists i :: 0 <= i < |fields| && fields[i].0 == k)
    && (forall i, j :: 0 <= i < j < |fields| ==> fields[i].0 != fields[j].0)
  }

  lemma {:induction false} FieldMapHas(h: Headers, fields: seq<Field>, k: string)
    requires forall i, j :: 0 <= i < j < |fields| ==> fields[i].0 != fields[j].0
    ensures k in FieldMap(h, fields) <==> k in h || exists i :: 0 <= i < |fields| && fields[i].0 == k
    ensures k in h && (forall i :: 0 <= i < |fields| ==> fields[i].0 != k) ==> FieldMap(h, fields)[k] == h[k]
    ensures forall i :: 0 <= i < |fields| && fields[i].0 == k ==> FieldMap(h, fields)[k] == fields[i].1
    decreases |fields|
  {
    if fields != [] {
      FieldMapHas(h[fields[0].0 := fields[0].1], fields[1..], k);
      assert forall i :: 1 <= i < |fields| ==> fields[1..][i - 1] == fields[i];
    }
  }

  lemma VisitedHeaders(fields: seq<Field>, h: Headers)
    requires VisitsHeaders(fields, h)
    ensures FieldMap(map[], fields) == h
  {
    forall k
      ensures k in FieldMap(map[], fields) <==> k in h
      ensures k in h ==> k in FieldMap(map[], fields) && FieldMap(map[], fields)[k] == h[k]
    {
      FieldMapHas(map[], fields, k);
    }
  }

  lemma {:induction false} TypeFound(bt: BodyType, fields: seq<Field>, i: nat)
    requires i < |fields| && fields[i].0 == CONTENT_TYPE && fields[i].1 != []
    requires forall i, j :: 0 <= i < j < |fields| ==> fields[i].0 != fields[j].0
    ensures TypeOf(bt, fields) == GetBodyType(fields[i].1[|fields[i].1| - 1])
    decreases |fields|
  {
    hide GetBodyType;
    if i == 0 {
      TypeStays(TypeAfter(bt, fields[0]), fields[1..]);
    } else {
      TypeFound(TypeAfter(bt, fields[0]), fields[1..], i - 1);
    }
  }

  lemma {:induction false} TypeStays(bt: BodyType, fields: seq<Field>)
    requires forall i :: 0 <= i < |fields| ==> fields[i].0 != CONTENT_TYPE
    ensures TypeOf(bt, fields) == bt
    decreases |fields|
  {
    if fields != [] {
      TypeStays(bt, fields[1..]);
    }
  }

  /** A part of type bt that can be sent between markers of b: it names its type, which is a known one,
      every header fits a line, and neither a header nor the bytes contain the marker. */
  ghost predicate Sendable(table: seq<string>, b: string, bt: BodyType, part: Part, v: Visit) {
    && Known(bt) && v.bytes == part.bytes && VisitsHeaders(v.fields, part.headers)
    && (forall k :: 0 <= k < |v.fields| ==> GoodField(table, b, v.fields[k]))
    && CONTENT_TYPE in part.headers
    && (var types := part.headers[CONTENT_TYPE]; types != [] && GetBodyType(types[|types| - 1]) == bt)
    && !Contains(part.bytes, Mark(b))
  }

  lemma MarkInTail(bytes: string, rest: string, pat: string)
    requires OneLine(pat) && pat != "" && StartsAt(rest, pat, 0) && !Contains(bytes, pat)
    ensures var t := "" + CRLF + (bytes + CRLF + rest);
            StartsAt(t, pat, |bytes| + 4) && forall j :: 0 <= j < |bytes| + 4 ==> !StartsAt(t, pat, j)
  {
    IndexBeyond(bytes, rest, pat, 0);
    assert !Contains("", pat);
    IndexBeyond("", bytes + CRLF + rest, pat, |bytes| + 2);
  }

  /** In header lines, an empty line, bytes and a line break before rest, the first marker is rest's. */
  lemma MarkAfterPart(ls: seq<string>, bytes: string, rest: string, pat: string)
    requires OneLine(pat) && pat != "" && StartsAt(rest, pat, 0) && !Contains(bytes, pat)
    requires forall k :: 0 <= k < |ls| ==> !Contains(ls[k], pat)
    ensures Index(Terminated(ls) + CRLF + bytes + CRLF + rest, pat) == Some(|Terminated(ls)| + |bytes| + 4)
  {
    hide Terminated, Index, Contains;
    var t := "" + CRLF + (bytes + CRLF + rest);
    assert Index(Terminated(ls) + t, pat) == Some(|Terminated(ls)| + |bytes| + 4) by {
      MarkInTail(bytes, rest, pat);
      MarkBeyondLines(ls, t, pat, |bytes| + 4);
    }
    assert Terminated(ls) + CRLF + bytes + CRLF + rest == Terminated(ls) + t by {
      PartText(Terminated(ls), CRLF, bytes, rest);
    }
  }

  lemma PartText(head: string, c: string, bytes: string, rest: string)
    ensures head + c + bytes + c + rest == head + ("" + c + (bytes + c + rest))
    ensures head + c + bytes + c + rest == head + c + (bytes + c + rest)
  {
    assert "" + c == c;
    Assoc(head + c, bytes, c);
    Assoc(head + c, bytes + c, rest);
    Assoc(head, c, bytes + c + rest);
  }

  lemma BlankInPart(ls: seq<string>, bytes: string, rest: string)
    requires ls != [] && forall k :: 0 <= k < |ls| ==> IsLine(ls[k])
    ensures |Terminated(ls)| >= 2
    ensures Index(Terminated(ls) + CRLF + bytes + CRLF + rest, BLANK_LINE) == Some(|Terminated(ls)| - 2)
  {
    var p := Terminated(ls) + CRLF + bytes + CRLF + rest;
    BlankLineAfter(ls, bytes + CRLF + rest);
    PartText(Terminated(ls), CRLF, bytes, rest);
    IndexIs(p, BLANK_LINE, |Terminated(ls)| - 2);
  }

  /** Where the header of a part ends, and where the next marker is. */
  lemma PartEnds(table: seq<string>, b: string, bt: BodyType, part: Part, v: Visit, rest: string)
    requires OneLine(b) && Sendable(table, b, bt, part, v) && StartsAt(rest, Mark(b), 0)
    ensures var (head, p) := (WriteFields(table, v.fields),
                               WriteFields(table, v.fields) + CRLF + v.bytes + CRLF + rest);
            && |head| >= 2 && Index(p, BLANK_LINE) == Some(|head| - 2)
            && Index(p, Mark(b)) == Some(|head| + |v.bytes| + 4)
  {
    hide WriteFields;
    var ls := FieldLines(table, v.fields);
    FieldsWritten(table, v.fields);
    GoodFieldLines(table, b, v.fields);
    BlankInPart(ls, v.bytes, rest);
    MarkAfterPart(ls, v.bytes, rest, Mark(b));
  }

  lemma HeaderRead(table: seq<string>, b: string, bt: BodyType, part: Part, v: Visit)
    requires Sendable(table, b, bt, part, v)
    ensures var head := WriteFields(table, v.fields);
            |head| >= 2 && TakeLines(Parsed(map[], NoType), Lines(head[..|head| - 2])) == Parsed(part.headers, bt)
  {
    hide GoodField;
    var ls := FieldLines(table, v.fields);
    FieldsWritten(table, v.fields);
    GoodFieldLines(table, b, v.fields);
    LinesOf(ls);
    TakeFields(table, b, Parsed(map[], NoType), v.fields);
    VisitedHeaders(v.fields, part.headers);
    TypeOfPart(table, b, bt, part, v);
  }

  lemma TypeOfPart(table: seq<string>, b: string, bt: BodyType, part: Part, v: Visit)
    requires Sendable(table, b, bt, part, v)
    ensures TypeOf(NoType, v.fields) == bt
  {
    hide GoodField, Contains, GetBodyType;
    var i :| 0 <= i < |v.fields| && v.fields[i].0 == CONTENT_TYPE;
    TypeFound(NoType, v.fields, i);
  }

  /** What follows the marker of a part. */
  lemma PartRead(table: seq<string>, b: string, bt: BodyType, part: Part, v: Visit, rest: string)
    requires OneLine(b) && Sendable(table, b, bt, part, v) && StartsAt(rest, Mark(b), 0)
    ensures ReadPart(b, WriteFields(table, v.fields) + CRLF + v.bytes + CRLF + rest) == Found(bt, part, rest)
  {
    hide Index, WriteFields, Lines;
    var head := WriteFields(table, v.fields);
    var p := head + CRLF + v.bytes + CRLF + rest;
    PartEnds(table, b, bt, part, v, rest);
    HeaderRead(table, b, bt, part, v);
    assert p[..|head| - 2] == head[..|head| - 2];
    assert p[|head| + 2..|head| + 2 + |v.bytes|] == v.bytes;
    assert p[|head| + |v.bytes| + 4..] == rest;
  }

  /** The parts in the order in which the writer visits them. */
  ghost predicate VisitsParts(table: seq<string>, b: string, parts: map<BodyType, Part>,
                              bts: seq<BodyType>, vs: seq<Visit>) {
    && |bts| == |vs|
    && (forall i :: 0 <= i < |bts| ==> bts[i] in parts && Sendable(table, b, bts[i], parts[bts[i]], vs[i]))
    && (forall bt :: bt in parts ==> bt in bts)
  }

  function Gathered(m: map<BodyType, Part>, parts: map<BodyType, Part>, bts: seq<BodyType>): map<BodyType, Part>
    requires forall i :: 0 <= i < |bts| ==> bts[i] in parts
    decreases |bts|
  {
    if bts == [] then m else Gathered(m[bts[0] := parts[bts[0]]], parts, bts[1..])
  }

  /** A turn of the loop on a marker, its line break and a part. */
  lemma TurnAtMark(b: string, p: string)
    ensures NextTurn(b, Mark(b) + CRLF + p) == ReadPart(b, p) && StartsAt(Mark(b) + CRLF + p, Mark(b), 0)
  {
    var s := Mark(b) + CRLF + p;
    IndexIs(s, Mark(b), 0);
    assert s[|Mark(b)|] == '\r' && EndMark(b)[|Mark(b)|] == '-';
    assert s[|Mark(b)| + 2..] == p;
  }

  lemma TurnAtEnd(b: string)
    ensures NextTurn(b, EndMark(b)) == Over && StartsAt(EndMark(b), Mark(b), 0)
  {
    assert EndMark(b) == Mark(b) + "--" + CRLF;
    IndexIs(EndMark(b), Mark(b), 0);
  }

  lemma {:induction false} PartsRead(table: seq<string>, b: string, parts: map<BodyType, Part>, bts: seq<BodyType>,
                                     vs: seq<Visit>, m: map<BodyType, Part>)
    requires OneLine(b) && |bts| == |vs|
    requires forall i :: 0 <= i < |bts| ==> bts[i] in parts && Sendable(table, b, bts[i], parts[bts[i]], vs[i])
    ensures ReadParts(b, WriteParts(table, b, vs), m) == Read(Gathered(m, parts, bts), EndMark(b))
    ensures StartsAt(WriteParts(table, b, vs), Mark(b), 0)
    decreases |vs|
  {
    if vs == [] {
      TurnAtEnd(b);
    } else {
      var (v, rest) := (vs[0], WriteParts(table, b, vs[1..]));
      var p := WriteFields(table, v.fields) + CRLF + v.bytes + CRLF + rest;
      PartsRead(table, b, parts, bts[1..], vs[1..], m[bts[0] := parts[bts[0]]]);
      PartRead(table, b, bts[0], parts[bts[0]], v, rest);
      WrittenFirst(table, b, vs);
      TurnAtMark(b, p);
    }
  }

  lemma WrittenFirst(table: seq<string>, b: string, vs: seq<Visit>)
    requires vs != []
    ensures WriteParts(table, b, vs) ==
            Mark(b) + CRLF +
              (WriteFields(table, vs[0].fields) + CRLF + vs[0].bytes + CRLF + WriteParts(table, b, vs[1..]))
  {
  }

  lemma {:induction false} GatheredAll(m: map<BodyType, Part>, parts: map<BodyType, Part>, bts: seq<BodyType>)
    requires forall i :: 0 <= i < |bts| ==> bts[i] in parts
    requires forall bt :: bt in m ==> bt in parts && m[bt] == parts[bt]
    requires forall bt :: bt in parts ==> bt in m || bt in bts
    ensures Gathered(m, parts, bts) == parts
    decreases |bts|
  {
    if bts != [] {
      assert forall bt :: bt in bts ==> bt == bts[0] || bt in bts[1..];
      GatheredAll(m[bts[0] := parts[bts[0]]], parts, bts[1..]);
    }
  }

  /** Whatever the order in which the writer visits the parts and their headers, the reader gets the
      same map from types to headers and bytes back, and stops at the closing line. */
  lemma MultipartRoundTrip(table: seq<string>, b: string, parts: map<BodyType, Part>,
                           bts: seq<BodyType>, vs: seq<Visit>)
    requires OneLine(b) && VisitsParts(table, b, parts, bts, vs)
    ensures ReadParts(b, WriteParts(table, b, vs), map[]) == Read(parts, EndMark(b))
  {
    PartsRead(table, b, parts, bts, vs, map[]);
    GatheredAll(map[], parts, bts);
  }

  // ----- parts with something after them

  lemma {:induction false} PartsReadBefore(table: seq<string>, b: string, parts: map<BodyType, Part>,
                                           bts: seq<BodyType>, vs: seq<Visit>, tail: string, m: map<BodyType, Part>)
    requires OneLine(b) && |bts| == |vs|
    requires forall i :: 0 <= i < |bts| ==> bts[i] in parts && Sendable(table, b, bts[i], parts[bts[i]], vs[i])
    ensures ReadParts(b, WriteParts(table, b, vs) + tail, m) ==
            ReadParts(b, EndMark(b) + tail, Gathered(m, parts, bts))
    ensures StartsAt(WriteParts(table, b, vs) + tail, Mark(b), 0)
    decreases |vs|
  {
    hide ReadPart, Sendable, OneLine;
    if vs == [] {
      assert EndMark(b) + tail == Mark(b) + ("--" + CRLF + tail);
    } else {
      var (v, rest) := (vs[0], WriteParts(table, b, vs[1..]) + tail);
      var p := WriteFields(table, v.fields) + CRLF + v.bytes + CRLF + rest;
      PartsReadBefore(table, b, parts, bts[1..], vs[1..], tail, m[bts[0] := parts[bts[0]]]);
      PartRead(table, b, bts[0], parts[bts[0]], v, rest);
      SentTypeKnown(table, b, bts[0], parts[bts[0]], v);
      WrittenFirst(table, b, vs);
      TailRegrouped(Mark(b) + CRLF, WriteFields(table, v.fields) + CRLF + v.bytes + CRLF,
                    WriteParts(table, b, vs[1..]), tail);
      assert WriteParts(table, b, vs) + tail == Mark(b) + CRLF + p;
      TurnAtMark(b, p);
    }
  }

  lemma SentTypeKnown(table: seq<string>, b: string, bt: BodyType, part: Part, v: Visit)
    requires Sendable(table, b, bt, part, v)
    ensures Known(bt)
  {
  }

  lemma TailRegrouped(x: string, y: string, z: string, tail: string)
    ensures x + (y + z) + tail == x + (y + (z + tail))
  {
  }

  /** What comes after the closing line is taken for one more part, and when it holds no marker that stops the
      program. */
  lemma PartsMustBeLast(table: seq<string>, b: string, parts: map<BodyType, Part>,
                        bts: seq<BodyType>, vs: seq<Visit>, tail: string)
    requires OneLine(b) && VisitsParts(table, b, parts, bts, vs) && tail != "" && !Contains(tail, Mark(b))
    ensures ReadParts(b, WriteParts(table, b, vs) + tail, map[]).Crash?
  {
    hide Sendable, Contains, WriteParts, NextTurn, EndMark, Mark, OneLine;
    PartsReadBefore(table, b, parts, bts, vs, tail, map[]);
    TailIsNoPart(b, tail);
  }

  lemma TailIsNoPart(b: string, tail: string)
    requires tail != "" && !Contains(tail, Mark(b))
    ensures NextTurn(b, EndMark(b) + tail) == Slip
  {
    hide Contains, Index;
    var s := EndMark(b) + tail;
    assert s == Mark(b) + ("--" + CRLF + tail);
    IndexIs(s, Mark(b), 0);
    assert s[|Mark(b)| + 2..] == CRLF + tail;
    NoMarkAfterBreak(b, tail);
  }

  lemma NoMarkAfterBreak(b: string, tail: string)
    requires !Contains(tail, Mark(b))
    ensures Index(CRLF + tail, Mark(b)).None?
  {
    var s := CRLF + tail;
    forall j: nat
      ensures !StartsAt(s, Mark(b), j)
    {
      if j >= 2 {
        StartsBeyond(CRLF, tail, Mark(b), j - 2);
      } else {
        StartsWith(s, Mark(b), j);
        assert Mark(b)[0] == '-' && s[j] == CRLF[j];
        assert CRLF[j] == (if j == 0 then '\r' else '\n');
      }
    }
    NotFound(s, Mark(b), 0);
  }

  // ----- parts that are not kept

  /** A part whose headers name no type, or one that is not known, is passed over. */
  lemma UnknownPartSkipped(b: string, p: string, blank: nat, end: nat, m: map<BodyType, Part>)
    requires Index(p, BLANK_LINE) == Some(blank) && Index(p, Mark(b)) == Some(end)
    requires TakeLines(Parsed(map[], NoType), Lines(p[..blank])).bt in {NoType, UnknownType}
    ensures ReadParts(b, Mark(b) + CRLF + p, m) == ReadParts(b, p[end..], m)
  {
    hide Index, Lines, TakeLines, Mark;
    TurnAtMark(b, p);
  }

  /** What follows a marker and is no whole part, without a blank line, without a further marker, or with the marker
      before the end of the headers, stops the program. */
  lemma CutOffPartStops(b: string, p: string, m: map<BodyType, Part>)
    requires || Index(p, BLANK_LINE).None? || Index(p, Mark(b)).None?
             || (Known(TakeLines(Parsed(map[], NoType), Lines(p[..Index(p, BLANK_LINE).value])).bt)
                 && Index(p, BLANK_LINE).value + 6 > Index(p, Mark(b)).value)
    ensures ReadParts(b, Mark(b) + CRLF + p, m).Crash?
  {
    hide Index, Lines, TakeLines, Mark;
    TurnAtMark(b, p);
  }

  /** Without a marker there is no part. */
  lemma NoMarkNoPart(b: string, s: string, m: map<BodyType, Part>)
    requires !Contains(s, Mark(b))
    ensures ReadParts(b, s, m) == Read(m, s)
  {
    hide Mark;
    assert Index(s, Mark(b)).Some? ==> Contains(s, Mark(b));
  }
}
