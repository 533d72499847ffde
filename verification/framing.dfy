/** How a datagram is cut into messages: Content-Length framing (processPDU in sip/stack.go) and the
    loop over the messages of a packet (processPacket in sip/init.go). */
module Framing {
  import opened SipTypes
  import opened Decimal
  import opened Text
  import opened Multipart

  /** What the start line and the header lines say, as far as framing goes. A head that is no message
      is BadHead; the parsing of heads is a parameter. */
  datatype ContentType = Missing | Malformed | Single(bt: BodyType) | Parts(boundary: string)
  datatype Head = BadHead | Head(contentLength: Option<string>, contentType: ContentType)

  datatype Content = NoContent | Body(parts: map<BodyType, Part>)
  datatype Message = Message(head: string, content: Content)

  /** Nothing is left of a datagram without a blank line; Crash stops the program. */
  datatype Outcome = Nothing | Error | Stop | Got(msg: Message, rest: string)

  const HEADER_END := |BLANK_LINE|

  /** The number of body bytes that the head announces; without a Content-Length, all that follow. */
  function Announced(h: Head, following: nat): Int64
    requires h.Head? && following <= INT_MAX
  {
    match h.contentLength
    case Some(text) => Str2IntSpec(text)
    case None => following
  }

  /** processPDU */
  function ParsePDU(parse: string -> Head, payload: string): (o: Outcome)
    requires |payload| <= INT_MAX
    ensures o.Got? ==> |o.rest| <= |payload|
  {
    match Index(payload, BLANK_LINE)
    case None => Nothing
    case Some(n) =>
      var (head, start) := (payload[..n], n + HEADER_END);
      var h := parse(head);
      if h.BadHead? then Error
      else
        var length: int := Announced(h, |payload| - start);
        if length == 0 then Got(Message(head, NoContent), payload[start..])
        else if |payload| < start + length then Error
        else ParseBody(head, h.contentType, payload, start, length)
  }

  function ParseBody(head: string, contentType: ContentType, payload: string, start: nat, length: int): (o: Outcome)
    requires start <= |payload| && start + length <= |payload| && length != 0
    ensures o.Got? ==> |o.rest| <= |payload|
  {
    match contentType
    case Missing => Error
    case Malformed => Error
    case Parts(b) =>
      (match ReadParts(b, payload[start..], map[])
       case Crash => Stop
       case Read(parts, rest) => Got(Message(head, Body(parts)), rest))
    case Single(bt) =>
      if length < 0 && bt != UnknownType then Stop   // a slice that ends before it starts
      else if start + length < 0 then Stop
      else Got(Message(head, Body(if bt == UnknownType then map[] else map[bt := Part(map[],
              payload[start..start + length])])),
               payload[start + length..])
  }

  // ----- does the loop get on?

  /** A head that takes nothing off the datagram: its Content-Length is minus its own size, and its
      Content-Type is one the router does not know. */
  predicate TakesNothing(parse: string -> Head, payload: string)
    requires |payload| <= INT_MAX
  {
    var n := Index(payload, BLANK_LINE);
    n.Some? &&
    var h := parse(payload[..n.value]);
    && h.Head? && h.contentType == Single(UnknownType)
    && Announced(h, |payload| - n.value - HEADER_END) == -(n.value + HEADER_END)
  }

  /** A parsed message strictly shortens what remains of the datagram, or the loop would find the very
      same datagram again: exactly when its head takes nothing. */
  lemma ParsingGetsOn(parse: string -> Head, payload: string)
    requires |payload| <= INT_MAX
    ensures var o := ParsePDU(parse, payload);
            o.Got? ==> if TakesNothing(parse, payload) then o.rest == payload else |o.rest| < |payload|
    ensures TakesNothing(parse, payload) ==> ParsePDU(parse, payload).Got?
  {
    hide Str2IntSpec, Index, ReadParts;
    var n := Index(payload, BLANK_LINE);
    if n.Some? {
      assert payload[0..] == payload;
    }
  }

  // ----- the loop

  /** What a packet is cut into: the messages handled, and whether the loop got through. Stuck: it would
      handle the last of them again and again. */
  datatype Verdict = Done | Broken | Stopped | Stuck
  datatype Cut = Cut(msgs: seq<Message>, verdict: Verdict)

  function Before(m: Message, c: Cut): Cut { Cut([m] + c.msgs, c.verdict) }

  function CutPacket(parse: string -> Head, pdu: string): Cut
    requires |pdu| <= INT_MAX
    decreases |pdu|
  {
    if pdu == "" then Cut([], Done)
    else
      ParsingGetsOn(parse, pdu);
      match ParsePDU(parse, pdu)
      case Nothing => Cut([], Broken)
      case Error => Cut([], Broken)
      case Stop => Cut([], Stopped)
      case Got(m, rest) => if rest == pdu then Cut([m], Stuck) else Before(m, CutPacket(parse, rest))
  }

  /** The loop of processPDU's caller sees only its outcome. */
  method ProcessPDU(parse: string -> Head, payload: string) returns (o: Outcome)
    requires |payload| <= INT_MAX
    ensures o == ParsePDU(parse, payload)
  {
    hide Str2IntSpec, Index;
    var n := Index(payload, BLANK_LINE);
    if n.None? {
      return Nothing;
    }
    var head, rest := payload[..n.value], payload[n.value + HEADER_END..];
    var h := parse(head);
    if h.BadHead? {
      return Error;
    }
    var length: int := |rest|;
    if h.contentLength.Some? {
      length := Str2Int(h.contentLength.value);
    }
    if length == 0 {
      return Got(Message(head, NoContent), rest);
    }
    if |rest| < length || h.contentType.Missing? || h.contentType.Malformed? {
      return Error;
    }
    if h.contentType.Single? {
      var bt, end := h.contentType.bt, n.value + HEADER_END + length;
      var parts: map<BodyType, Part> := map[];
      if bt != UnknownType {
        if length < 0 {
          return Stop;
        }
        parts := parts[bt := Part(map[], payload[n.value + HEADER_END..end])];
      }
      return if end < 0 then Stop else Got(Message(head, Body(parts)), payload[end..]);
    }
    var body := ReadBody(h.contentType.boundary, rest);
    return if body.Crash? then Stop else Got(Message(head, Body(body.parts)), body.rest);
  }

  function After(msgs: seq<Message>, c: Cut): Cut { Cut(msgs + c.msgs, c.verdict) }

  lemma CutUnfolds(parse: string -> Head, pdu: string, o: Outcome)
    requires 0 < |pdu| <= INT_MAX && o == ParsePDU(parse, pdu)
    ensures o.Nothing? || o.Error? ==> CutPacket(parse, pdu) == Cut([], Broken)
    ensures o.Stop? ==> CutPacket(parse, pdu) == Cut([], Stopped)
    ensures o.Got? && o.rest == pdu ==> CutPacket(parse, pdu) == Cut([o.msg], Stuck)
    ensures o.Got? && o.rest != pdu ==> CutPacket(parse, pdu) == Before(o.msg, CutPacket(parse, o.rest))
  {
  }

  lemma AfterBefore(msgs: seq<Message>, m: Message, c: Cut)
    ensures After(msgs, Before(m, c)) == After(msgs + [m], c)
    ensures After(msgs, Cut([], c.verdict)) == Cut(msgs, c.verdict)
  {
    assert msgs + ([m] + c.msgs) == msgs + [m] + c.msgs;
    assert msgs + [] == msgs;
  }

  /** processPacket; the messages go to sipStack in this order. */
  method ProcessPacket(parse: string -> Head, packet: string) returns (msgs: seq<Message>, verdict: Verdict)
    requires |packet| <= INT_MAX
    ensures Cut(msgs, verdict) == CutPacket(parse, packet)
  {
    var pdu := packet;
    msgs := [];
    ghost var all := CutPacket(parse, packet);
    while |pdu| > 0
      invariant |pdu| <= INT_MAX && all == After(msgs, CutPacket(parse, pdu))
      decreases |pdu|
    {
      var o := ProcessPDU(parse, pdu);
      CutUnfolds(parse, pdu, o);
      if !o.Got? {
        AfterBefore(msgs, Message("", NoContent), CutPacket(parse, pdu));
        return msgs, if o.Stop? then Stopped else Broken;
      }
      AfterBefore(msgs, o.msg, CutPacket(parse, o.rest));
      ParsingGetsOn(parse, pdu);
      msgs := msgs + [o.msg];
      if o.rest == pdu {
        return msgs, Stuck;
      }
      pdu := o.rest;
    }
    return msgs, Done;
  }

  /** Lines with a line break between each two. */
  function Joined(lines: seq<string>): string
    requires lines != []
  {
    if |lines| == 1 then lines[0] else lines[0] + CRLF + Joined(lines[1..])
  }

  /** No line is empty. */
  predicate Filled(lines: seq<string>) { forall k :: 0 <= k < |lines| ==> OneLine(lines[k]) && lines[k] != "" }

  /** The blank line after a head is the first one when the head has no empty line. */
  lemma {:induction false} NoBlankWithin(lines: seq<string>, j: nat)
    requires lines != [] && Filled(lines)
    requires j < |Joined(lines)|
    ensures !StartsAt(Joined(lines) + BLANK_LINE, BLANK_LINE, j)
  {
    var x := lines[0];
    var s := Joined(lines) + BLANK_LINE;
    StartsWith(s, BLANK_LINE, j);
    if j < |x| {
      assert s[j] == x[j];
    } else {
      var t := Joined(lines[1..]) + BLANK_LINE;
      assert s == x + CRLF + t;
      if j == |x| {
        assert s[j + 2] == t[0] == lines[1][0];
      } else if j == |x| + 1 {
        assert s[j] == '\n';
      } else {
        NoBlankWithin(lines[1..], j - |x| - 2);
        StartsBeyond(x + CRLF, t, BLANK_LINE, j - |x| - 2);
      }
    }
  }

  lemma HeadEnds(lines: seq<string>)
    requires lines != [] && Filled(lines)
    ensures Index(Joined(lines) + BLANK_LINE, BLANK_LINE) == Some(|Joined(lines)|)
  {
    var head := Joined(lines);
    forall j: nat | j < |head|
      ensures !StartsAt(head + BLANK_LINE, BLANK_LINE, j)
    {
      NoBlankWithin(lines, j);
    }
    assert (head + BLANK_LINE)[|head|..] == BLANK_LINE;
    IndexIs(head + BLANK_LINE, BLANK_LINE, |head|);
  }

  const STUCK_LINES := [
    "OPTIONS sip:b SIP/2.0",
    "Via: a;branch=c",
    "From: a",
    "To: b",
    "Call-ID: 1",
    "CSeq: 1 OPTIONS",
    "Content-Type: a/b",
    "Content-Length: -128"
  ]

  lemma StuckLines()
    ensures Filled(STUCK_LINES)
  {
    hide Joined;
    assert Filled(STUCK_LINES[..2]) && Filled(STUCK_LINES[2..]);
  }

  lemma StuckSize()
    ensures |Joined(STUCK_LINES)| + HEADER_END == 128
  {
    assert |Joined(STUCK_LINES[6..])| == 39;
    assert STUCK_LINES[4..][2..] == STUCK_LINES[6..] && |Joined(STUCK_LINES[4..])| == 68;
    assert STUCK_LINES[2..][2..] == STUCK_LINES[4..] && |Joined(STUCK_LINES[2..])| == 84;
  }

  lemma MinusItsSize()
    ensures Str2IntSpec("-128") == -128
  {
    assert Digits(128) == "128" && "-" + "128" == "-128";
    IntRoundTrip(-128);
  }

  /** A datagram that the loop takes for the same message again and again: a request with every mandatory
      header, a Content-Type of no known kind, and minus its own size as its Content-Length. All that is
      asked of the parser is that it reads these two lines. */
  lemma StuckExample(parse: string -> Head)
    requires parse(Joined(STUCK_LINES)) == Head(Some("-128"), Single(UnknownType))
    ensures var (head, s) := (Joined(STUCK_LINES), Joined(STUCK_LINES) + BLANK_LINE);
            TakesNothing(parse, s) && CutPacket(parse, s) == Cut([Message(head, Body(map[]))], Stuck)
  {
    var s := Joined(STUCK_LINES) + BLANK_LINE;
    StuckLines();
    StuckSize();
    HeadEnds(STUCK_LINES);
    MinusItsSize();
    TakenAgain(parse, s, |Joined(STUCK_LINES)|);
  }

  lemma TakenAgain(parse: string -> Head, s: string, n: nat)
    requires 0 < |s| <= INT_MAX && Index(s, BLANK_LINE) == Some(n)
    requires parse(s[..n]).Head? && parse(s[..n]).contentType == Single(UnknownType)
    requires Announced(parse(s[..n]), |s| - n - HEADER_END) == -(n + HEADER_END)
    ensures TakesNothing(parse, s) && CutPacket(parse, s) == Cut([Message(s[..n], Body(map[]))], Stuck)
  {
    hide CutPacket, Str2IntSpec, Index, ReadParts;
    ParsingGetsOn(parse, s);
    CutUnfolds(parse, s, ParsePDU(parse, s));
  }

  // ----- datagrams of well-formed messages

  /** A message on the wire. */
  datatype Wire = Wire(head: string, body: string)

  function Bytes(w: Wire): string { w.head + BLANK_LINE + w.body }

  function AllBytes(ws: seq<Wire>): string {
    if ws == [] then "" else Bytes(ws[0]) + AllBytes(ws[1..])
  }

  /** Its head is a message's, ends at the first blank line, gives the exact length of the body, and the
      type of a body there is; it is not a multipart one. */
  predicate WellFormed(parse: string -> Head, w: Wire) {
    var h := parse(w.head);
    && Index(w.head + BLANK_LINE, BLANK_LINE) == Some(|w.head|)
    && h.Head? && h.contentLength.Some? && Str2IntSpec(h.contentLength.value) as int == |w.body|
    && (w.body != "" ==> h.contentType.Single?)
  }

  function Meaning(parse: string -> Head, w: Wire): Message
    requires WellFormed(parse, w)
  {
    Message(w.head,
            if w.body == "" then NoContent
            else
              var bt := parse(w.head).contentType.bt;
              Body(if bt == UnknownType then map[] else map[bt := Part(map[], w.body)]))
  }

  lemma {:induction false} FirstBlank(head: string, rest: string)
    requires Index(head + BLANK_LINE, BLANK_LINE) == Some(|head|)
    ensures Index(head + BLANK_LINE + rest, BLANK_LINE) == Some(|head|)
  {
    var (s, t) := (head + BLANK_LINE, head + BLANK_LINE + rest);
    forall j: nat | j < |head|
      ensures !StartsAt(t, BLANK_LINE, j)
    {
      NotBefore(s, BLANK_LINE, 0, j);
      assert t[j..][..4] == s[j..][..4];
    }
    assert t[|head|..] == BLANK_LINE + rest;
    IndexIs(t, BLANK_LINE, |head|);
  }

  lemma {:induction false} NotBefore(s: string, pat: string, i: nat, j: nat)
    requires i <= j && i <= |s| && (IndexFrom(s, pat, i).Some? ==> j < IndexFrom(s, pat, i).value)
    ensures !StartsAt(s, pat, j)
    decreases j - i
  {
    if i < j && i < |s| {
      NotBefore(s, pat, i + 1, j);
    }
  }

  lemma FramedExactly(parse: string -> Head, w: Wire, rest: string)
    requires WellFormed(parse, w) && |Bytes(w) + rest| <= INT_MAX
    ensures ParsePDU(parse, Bytes(w) + rest) == Got(Meaning(parse, w), rest)
  {
    hide Str2IntSpec, Index, ReadParts;
    var payload := Bytes(w) + rest;
    assert payload == w.head + BLANK_LINE + (w.body + rest);
    FirstBlank(w.head, w.body + rest);
    assert payload[..|w.head|] == w.head;
    assert payload[|w.head| + HEADER_END..] == w.body + rest;
    assert payload[|w.head| + HEADER_END..|w.head| + HEADER_END + |w.body|] == w.body;
    assert payload[|w.head| + HEADER_END + |w.body|..] == rest;
  }

  function Meanings(parse: string -> Head, ws: seq<Wire>): seq<Message>
    requires forall i :: 0 <= i < |ws| ==> WellFormed(parse, ws[i])
  {
    if ws == [] then [] else [Meaning(parse, ws[0])] + Meanings(parse, ws[1..])
  }

  /** A datagram that is any number of well-formed messages one after the other is cut into exactly
      those messages, in order, and the loop gets through. */
  lemma {:induction false} PacketIsCutExactly(parse: string -> Head, ws: seq<Wire>)
    requires forall i :: 0 <= i < |ws| ==> WellFormed(parse, ws[i])
    requires |AllBytes(ws)| <= INT_MAX
    ensures CutPacket(parse, AllBytes(ws)) == Cut(Meanings(parse, ws), Done)
  {
    if ws != [] {
      var (w, rest) := (ws[0], AllBytes(ws[1..]));
      PacketIsCutExactly(parse, ws[1..]);
      FramedExactly(parse, w, rest);
      assert |Bytes(w)| > 0;
    }
  }

  lemma AfterFirst(m: Message, msgs: seq<Message>, c: Cut)
    ensures Before(m, After(msgs, c)) == After([m] + msgs, c)
  {
    assert [m] + (msgs + c.msgs) == [m] + msgs + c.msgs;
  }

  /** ... whatever comes after them. */
  lemma {:induction false} CutBeforeTail(parse: string -> Head, ws: seq<Wire>, tail: string)
    requires forall i :: 0 <= i < |ws| ==> WellFormed(parse, ws[i])
    requires |AllBytes(ws) + tail| <= INT_MAX
    ensures CutPacket(parse, AllBytes(ws) + tail) == After(Meanings(parse, ws), CutPacket(parse, tail))
  {
    hide CutPacket, ParsePDU, Meaning, WellFormed;
    if ws == [] {
      assert AllBytes(ws) + tail == tail;
      assert After([], CutPacket(parse, tail)) == CutPacket(parse, tail);
    } else {
      var (w, rest) := (ws[0], AllBytes(ws[1..]) + tail);
      assert AllBytes(ws) + tail == Bytes(w) + rest;
      CutBeforeTail(parse, ws[1..], tail);
      FramedExactly(parse, w, rest);
      CutUnfolds(parse, Bytes(w) + rest, Got(Meaning(parse, w), rest));
      assert |Bytes(w)| > 0;
      AfterFirst(Meaning(parse, w), Meanings(parse, ws[1..]), CutPacket(parse, tail));
    }
  }

  // ----- the last message of a datagram

  /** A message whose head ends at the first blank line and gives no length: its body is all that follows. */
  predicate OpenEnded(parse: string -> Head, w: Wire) {
    var h := parse(w.head);
    && Index(w.head + BLANK_LINE, BLANK_LINE) == Some(|w.head|)
    && h.Head? && h.contentLength.None? && (w.body != "" ==> h.contentType.Single?)
  }

  function OpenMeaning(parse: string -> Head, w: Wire): Message
    requires OpenEnded(parse, w)
  {
    Message(w.head,
            if w.body == "" then NoContent
            else
              var bt := parse(w.head).contentType.bt;
              Body(if bt == UnknownType then map[] else map[bt := Part(map[], w.body)]))
  }

  lemma OpenFramed(parse: string -> Head, w: Wire)
    requires OpenEnded(parse, w) && |Bytes(w)| <= INT_MAX
    ensures ParsePDU(parse, Bytes(w)) == Got(OpenMeaning(parse, w), "")
  {
    hide Str2IntSpec, Index, ReadParts;
    var s := Bytes(w);
    FirstBlank(w.head, w.body);
    assert s[..|w.head|] == w.head && s[|w.head| + HEADER_END..] == w.body;
    assert s[|w.head| + HEADER_END..|w.head| + HEADER_END + |w.body|] == w.body;
    assert s[|w.head| + HEADER_END + |w.body|..] == "";
  }

  lemma NothingLeft(parse: string -> Head)
    ensures CutPacket(parse, "") == Cut([], Done)
  {
  }

  /** The last message may leave its length out: it is cut out with everything that follows as its body. */
  lemma LastMayBeOpen(parse: string -> Head, ws: seq<Wire>, w: Wire)
    requires (forall i :: 0 <= i < |ws| ==> WellFormed(parse, ws[i])) && OpenEnded(parse, w)
    requires |AllBytes(ws) + Bytes(w)| <= INT_MAX
    ensures CutPacket(parse, AllBytes(ws) + Bytes(w)) == Cut(Meanings(parse, ws) + [OpenMeaning(parse, w)], Done)
  {
    hide CutPacket, ParsePDU, OpenEnded, WellFormed, OpenMeaning;
    CutBeforeTail(parse, ws, Bytes(w));
    OpenFramed(parse, w);
    CutUnfolds(parse, Bytes(w), ParsePDU(parse, Bytes(w)));
    NothingLeft(parse);
    assert |Bytes(w)| > 0;
  }

  /** A multipart message: its head ends at the first blank line, announces parts, and gives the exact length or
      none; its body is what the writer makes of the parts. */
  ghost predicate MultipartWire(parse: string -> Head, w: Wire, table: seq<string>, b: string,
                                parts: map<BodyType, Part>, bts: seq<BodyType>, vs: seq<Visit>) {
    var h := parse(w.head);
    && Index(w.head + BLANK_LINE, BLANK_LINE) == Some(|w.head|)
    && h.Head? && h.contentType == Parts(b)
    && (h.contentLength.Some? ==> Str2IntSpec(h.contentLength.value) as int == |w.body|)
    && OneLine(b) && VisitsParts(table, b, parts, bts, vs) && w.body == WriteParts(table, b, vs)
  }

  lemma OneBreak(b: string, j: nat)
    requires OneLine(b) && j < |EndMark(b)|
    ensures EndMark(b)[j] == '\r' ==> j == |b| + 4
  {
    assert EndMark(b) == "--" + b + "--" + CRLF;
  }

  lemma EndMarkIsNoMessage(parse: string -> Head, b: string)
    requires OneLine(b) && |EndMark(b)| <= INT_MAX
    ensures CutPacket(parse, EndMark(b)) == Cut([], Broken)
  {
    var s := EndMark(b);
    forall j: nat
      ensures !StartsAt(s, BLANK_LINE, j)
    {
      if StartsAt(s, BLANK_LINE, j) {
        StartsWith(s, BLANK_LINE, j);
        OneBreak(b, j);
      }
    }
    NotFound(s, BLANK_LINE, 0);
  }

  lemma MultipartFramed(parse: string -> Head, w: Wire, table: seq<string>, b: string,
                        parts: map<BodyType, Part>, bts: seq<BodyType>, vs: seq<Visit>)
    requires MultipartWire(parse, w, table, b, parts, bts, vs) && |Bytes(w)| <= INT_MAX
    ensures ParsePDU(parse, Bytes(w)) == Got(Message(w.head, Body(parts)), EndMark(b))
    ensures |EndMark(b)| <= |w.body| && OneLine(b)
  {
    hide ReadParts, WriteParts, VisitsParts, Str2IntSpec, Index;
    var s := Bytes(w);
    MultipartRoundTrip(table, b, parts, bts, vs);
    FirstBlank(w.head, w.body);
    assert s[..|w.head|] == w.head && s[|w.head| + HEADER_END..] == w.body;
    assert |EndMark(b)| > 0;
  }

  /** The last message of a datagram may have a multipart body: it is handed over with exactly the parts that its
      writer was given. What the reader leaves of it, its closing line, ends the loop. */
  lemma MultipartIsCutExactly(parse: string -> Head, ws: seq<Wire>, w: Wire, table: seq<string>, b: string,
                              parts: map<BodyType, Part>, bts: seq<BodyType>, vs: seq<Visit>)
    requires forall i :: 0 <= i < |ws| ==> WellFormed(parse, ws[i])
    requires MultipartWire(parse, w, table, b, parts, bts, vs) && |AllBytes(ws) + Bytes(w)| <= INT_MAX
    ensures CutPacket(parse, AllBytes(ws) + Bytes(w)) ==
            Cut(Meanings(parse, ws) + [Message(w.head, Body(parts))], Broken)
  {
    hide CutPacket, ParsePDU, MultipartWire;
    CutBeforeTail(parse, ws, Bytes(w));
    MultipartFramed(parse, w, table, b, parts, bts, vs);
    EndMarkIsNoMessage(parse, b);
    CutUnfolds(parse, Bytes(w), ParsePDU(parse, Bytes(w)));
  }

  /** Nothing can follow a multipart message in its datagram: its reader takes what comes next for one more part,
      whatever the length says, and stops the program. */
  lemma MultipartMustBeLast(parse: string -> Head, ws: seq<Wire>, w: Wire, tail: string, table: seq<string>, b: string,
                            parts: map<BodyType, Part>, bts: seq<BodyType>, vs: seq<Visit>)
    requires forall i :: 0 <= i < |ws| ==> WellFormed(parse, ws[i])
    requires MultipartWire(parse, w, table, b, parts, bts, vs) && |AllBytes(ws) + (Bytes(w) + tail)| <= INT_MAX
    requires tail != "" && !Contains(tail, Mark(b))
    ensures CutPacket(parse, AllBytes(ws) + (Bytes(w) + tail)) == Cut(Meanings(parse, ws), Stopped)
  {
    hide CutPacket, ParsePDU, MultipartWire;
    CutBeforeTail(parse, ws, Bytes(w) + tail);
    TailStops(parse, w, tail, table, b, parts, bts, vs);
    CutUnfolds(parse, Bytes(w) + tail, ParsePDU(parse, Bytes(w) + tail));
    assert Meanings(parse, ws) + [] == Meanings(parse, ws);
  }

  lemma TailStops(parse: string -> Head, w: Wire, tail: string, table: seq<string>, b: string,
                  parts: map<BodyType, Part>, bts: seq<BodyType>, vs: seq<Visit>)
    requires MultipartWire(parse, w, table, b, parts, bts, vs) && |Bytes(w) + tail| <= INT_MAX
    requires tail != "" && !Contains(tail, Mark(b))
    ensures ParsePDU(parse, Bytes(w) + tail) == Stop
  {
    hide ReadParts, WriteParts, VisitsParts, Contains, Str2IntSpec, Index;
    var s := Bytes(w) + tail;
    PartsMustBeLast(table, b, parts, bts, vs, tail);
    assert s == w.head + BLANK_LINE + (w.body + tail);
    FirstBlank(w.head, w.body + tail);
    assert s[..|w.head|] == w.head && s[|w.head| + HEADER_END..] == w.body + tail;
    NonEmptyBody(table, b, vs);
  }

  lemma NonEmptyBody(table: seq<string>, b: string, vs: seq<Visit>)
    ensures WriteParts(table, b, vs) != ""
  {
    if vs != [] {
      WrittenFirst(table, b, vs);
    }
  }

  // ----- what is not a message

  /** The first blank line of the datagram is at n. */
  predicate BlankAt(payload: string, n: nat) {
    StartsAt(payload, BLANK_LINE, n) && forall j: nat :: j < n ==> !StartsAt(payload, BLANK_LINE, j)
  }

  /** A datagram without a blank line is nothing, and the loop ends there. */
  lemma NothingExactly(parse: string -> Head, payload: string)
    requires |payload| <= INT_MAX
    ensures ParsePDU(parse, payload).Nothing? <==> forall j: nat :: !StartsAt(payload, BLANK_LINE, j)
  {
    if Index(payload, BLANK_LINE).None? {
      forall j: nat
        ensures !StartsAt(payload, BLANK_LINE, j)
      {
        NotBefore(payload, BLANK_LINE, 0, j);
      }
    }
  }

  /** What is refused: a head that is no message, a body that is not all there, and a body of which the type is not
      given or cannot be read. What stops the program: a negative length, unless the type is unknown and the length
      does not reach back beyond the datagram, and parts that are cut off. */
  lemma FaultsExactly(parse: string -> Head, payload: string, n: nat)
    requires |payload| <= INT_MAX && BlankAt(payload, n)
    ensures var (h, start, o) := (parse(payload[..n]), n + 4, ParsePDU(parse, payload));
            if h.BadHead? then o.Error?
            else
              var length: int := Announced(h, |payload| - start);
              && (o.Error? <==> length != 0 && (start + length > |payload| || h.contentType in {Missing, Malformed}))
              && (o.Stop? <==> length != 0 && start + length <= |payload| &&
                               (match h.contentType
                                case Single(bt) => length < 0 && (bt != UnknownType || start + length < 0)
                                case Parts(b) => ReadParts(b, payload[start..], map[]).Crash?
                                case _ => false))
              && (length == 0 ==> o == Got(Message(payload[..n], NoContent), payload[start..]))
  {
    hide Str2IntSpec, ReadParts;
    IndexIs(payload, BLANK_LINE, n);
  }
}
