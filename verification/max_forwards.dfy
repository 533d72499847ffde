/** Max-Forwards through any chain or loop of these routers (section 8.1.1.6 of RFC 3261): the header
    as it is read, the refusal, and the header as it is written on. */
module MaxForwards {
  import opened SipTypes
  import opened Decimal

  const HIGHEST := 255

  /** What the Max-Forwards headers of a message set: the last number among them that is not too big. */
  function Taken(fields: seq<string>): (m: Int64)
    ensures m <= HIGHEST
    decreases |fields|
  {
    if fields == [] then 0
    else
      match Str2IntCheckSpec(fields[|fields| - 1])
      case Some(v) => if v > HIGHEST then Taken(fields[..|fields| - 1]) else v
      case None => Taken(fields[..|fields| - 1])
  }

  /** The header loop of processPDU, as far as Max-Forwards goes. */
  method ReadMaxForwards(fields: seq<string>) returns (m: Int64)
    ensures m == Taken(fields)
  {
    m := 0;
    for i := 0 to |fields|
      invariant m == Taken(fields[..i])
    {
      assert fields[..i + 1][..i] == fields[..i];
      var v, ok := Str2IntCheck(fields[i]);
      if ok && v <= HIGHEST {
        m := v;
      }
      assert m == Taken(fields[..i + 1]);
    }
    assert fields[..|fields|] == fields;
  }

  /** One router: an INVITE with too few hops left is refused (483), any other goes on with one less. */
  function Hop(fields: seq<string>): Option<seq<string>> {
    var m := Taken(fields);
    if TooFewHops(m) then None
    else
      match Int2StrSpec(m - 1)
      case Some(text) => Some([text])
      case None => None
  }

  lemma NumberRead(v: nat)
    ensures Str2IntCheckSpec(Digits(v)) == Some(Wrap64(v))
  {
    NumberOfDigits(v);
    DigitPrefixOfAll(Digits(v));
    assert IsDigit(Digits(v)[0]);
  }

  /** A number is taken exactly when it is not above 255 in a 64-bit register. */
  lemma TakenExactly(v: nat)
    ensures Taken([Digits(v)]) == if Wrap64(v) <= HIGHEST then Wrap64(v) else 0
  {
    NumberRead(v);
    assert [Digits(v)][..0] == [];
  }

  /** So no number above 255 is taken, as long as it is one the register holds; a larger one can come
      round as a small number. */
  lemma OverLimitNotTaken(v: nat)
    ensures HIGHEST < v <= INT_MAX ==> Taken([Digits(v)]) == 0
    ensures v == UINT64 + 100 ==> Taken([Digits(v)]) == 100
  {
    TakenExactly(v);
  }

  lemma HopCounts(fields: seq<string>)
    ensures Hop(fields).Some? <==> Taken(fields) > 1
    ensures Hop(fields).Some? ==> Taken(Hop(fields).value) == Taken(fields) - 1
  {
    var m := Taken(fields);
    if !TooFewHops(m) {
      assert Int2StrSpec(m - 1) == Some(Digits(m - 1));
      TakenExactly(m - 1);
    }
  }

  /** How often an INVITE is forwarded, from router to router, until one refuses it. */
  function Forwards(fields: seq<string>): nat
    decreases if Taken(fields) < 0 then 0 else Taken(fields) as nat
  {
    HopCounts(fields);
    match Hop(fields)
    case None => 0
    case Some(next) => 1 + Forwards(next)
  }

  /** An INVITE that arrives with Max-Forwards m is forwarded exactly m - 1 times, or not at all, and
      never more than 254 times: routing loops are finite. */
  lemma {:induction false} LoopsAreFinite(fields: seq<string>)
    ensures Forwards(fields) == (if Taken(fields) <= 1 then 0 else Taken(fields) - 1) <= HIGHEST - 1
    decreases if Taken(fields) < 0 then 0 else Taken(fields) as nat
  {
    HopCounts(fields);
    if Hop(fields).Some? {
      LoopsAreFinite(Hop(fields).value);
    }
  }
}
