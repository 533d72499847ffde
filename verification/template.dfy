/** Templates with references to regular expression groups, such as ${1}$$2 (TranslateInternal in
    global/support.go). */
module Template {
  import opened SipTypes
  import opened Decimal

  // ----- what a template means

  /** The text a reference stands for; a reference to no group stands for itself, a bare one without
      its dollar sign. */
  function Item(ms: seq<string>, n: nat, braced: bool): string {
    if n < |ms| then ms[n] else if braced then "${" + Digits(n) + "}" else Digits(n)
  }

  function Prepend(b: string, r: Option<string>): Option<string> {
    match r
    case None => None
    case Some(s) => Some(b + s)
  }

  function GroupIndex(digits: string): nat { Str2UintSpec(digits, UINT32) }

  /** The expansion of a template, read from its start; None when a brace is not closed properly. */
  function Expand(s: string, ms: seq<string>): Option<string>
    decreases |s|
  {
    if s == "" then Some("")
    else if s[0] != '$' then Prepend([s[0]], Expand(s[1..], ms))
    else if |s| == 1 then Some("$")
    else if s[1] == '$' then Prepend("$", Expand(s[2..], ms))
    else if IsDigit(s[1]) then ExpandBare(s, ms)
    else if s[1] == '{' then ExpandBraced(s, ms)
    else Prepend(['$', s[1]], Expand(s[2..], ms))
  }

  /** A bare reference: the character after its digits is lost, unless it is an opening brace, which
      comes before the reference's text. */
  function ExpandBare(s: string, ms: seq<string>): Option<string>
    requires |s| > 1 && IsDigit(s[1])
    decreases |s|, 0
  {
    var p := DigitPrefix(s[1..]);
    var (v, e) := (Item(ms, GroupIndex(p), false), 1 + |p|);
    if e == |s| then Some(v)
    else Prepend(if s[e] == '{' then "{" + v else v, Expand(s[e + 1..], ms))
  }

  function ExpandBraced(s: string, ms: seq<string>): Option<string>
    requires |s| > 1
    decreases |s|, 0
  {
    var p := DigitPrefix(s[2..]);
    var e := 2 + |p|;
    if e == |s| then None
    else if s[e] == '}' then
      if p == "" then None else Prepend(Item(ms, GroupIndex(p), true), Expand(s[e + 1..], ms))
    else if s[e] == '{' then Prepend("{", Expand(s[e + 1..], ms))
    else None
  }

  // ----- the loop that expands it

  lemma Prepended(a: string, b: string, r: Option<string>)
    ensures Prepend(a, Prepend(b, r)) == Prepend(a + b, r)
  {
    if r.Some? {
      assert a + (b + r.value) == a + b + r.value;
    }
  }

  /** The digits from position i on; the position after them. */
  method SkipDigits(s: string, i: nat) returns (digits: string, e: nat)
    requires i <= |s|
    ensures i <= e <= |s| && digits == s[i..e] == DigitPrefix(s[i..])
  {
    digits, e := "", i;
    while e < |s| && IsDigit(s[e])
      invariant i <= e <= |s| && digits == s[i..e]
      invariant forall k :: i <= k < e ==> IsDigit(s[k])
    {
      digits := digits + [s[e]];
      e := e + 1;
    }
    PrefixEnds(s[i..], e - i);
    assert s[i..][..e - i] == s[i..e];
  }

  lemma NothingPrepended(r: Option<string>)
    ensures Prepend("", r) == r
  {
    if r.Some? {
      assert "" + r.value == r.value;
    }
  }

  /** What the dollar sign at position i introduces, and where to go on; None when a brace is not
      closed properly. */
  method Reference(input: string, i: nat, ms: seq<string>) returns (piece: Option<string>, next: nat)
    requires i < |input| && input[i] == '$'
    ensures i < next <= |input|
    ensures Expand(input[i..], ms) == if piece.None? then None else Prepend(piece.value, Expand(input[next..], ms))
  {
    ghost var s := input[i..];
    if i + 1 == |input| {
      assert input[i + 1..] == "" && "$" + "" == "$";
      return Some("$"), i + 1;
    }
    var c := input[i + 1];
    assert s[1] == c && s[2..] == input[i + 2..];
    if c == '$' {
      return Some("$"), i + 2;
    }
    if IsDigit(c) {
      piece, next := BareReference(input, i, ms);
    } else if c == '{' {
      piece, next := BracedReference(input, i, ms);
    } else {
      return Some(['$', c]), i + 2;
    }
  }

  method BareReference(input: string, i: nat, ms: seq<string>) returns (piece: Option<string>, next: nat)
    requires i + 1 < |input| && IsDigit(input[i + 1])
    ensures i < next <= |input| && piece.Some?
    ensures ExpandBare(input[i..], ms) == Prepend(piece.value, Expand(input[next..], ms))
  {
    ghost var s := input[i..];
    var digits, e := SkipDigits(input, i + 1);
    var v := Item(ms, GroupIndex(digits), false);
    assert s[1..] == input[i + 1..];
    if e == |input| {
      assert input[e..] == "" && v + "" == v;
      return Some(v), e;
    }
    assert s[e - i] == input[e] && s[e - i + 1..] == input[e + 1..];
    return Some(if input[e] == '{' then "{" + v else v), e + 1;
  }

  method BracedReference(input: string, i: nat, ms: seq<string>) returns (piece: Option<string>, next: nat)
    requires i + 1 < |input|
    ensures i < next <= |input|
    ensures ExpandBraced(input[i..], ms) ==
            if piece.None? then None else Prepend(piece.value, Expand(input[next..], ms))
  {
    ghost var s := input[i..];
    var digits, e := SkipDigits(input, i + 2);
    assert s[2..] == input[i + 2..];
    if e == |input| {
      return None, e;
    }
    assert s[e - i] == input[e] && s[e - i + 1..] == input[e + 1..];
    if input[e] == '}' && digits != "" {
      return Some(Item(ms, GroupIndex(digits), true)), e + 1;
    } else if input[e] == '{' {
      return Some("{"), e + 1;
    }
    return None, e;
  }

  /** TranslateInternal. An empty template is expanded without matches; any other needs them. */
  method TranslateInternal(input: string, matches: Option<seq<string>>) returns (r: Option<string>)
    ensures r == if input == "" then Some("") else if matches.None? then None else Expand(input, matches.value)
  {
    if input == "" {
      return Some("");
    }
    if matches.None? {
      return None;
    }
    var (ms, b, i) := (matches.value, "", 0);
    assert input[0..] == input;
    NothingPrepended(Expand(input, ms));
    while i < |input|
      invariant 0 <= i <= |input|
      invariant Expand(input, ms) == Prepend(b, Expand(input[i..], ms))
    {
      var piece, next := Some([input[i]]), i + 1;
      if input[i] == '$' {
        piece, next := Reference(input, i, ms);
        if piece.None? {
          return None;
        }
      } else {
        assert input[i..][1..] == input[i + 1..];
      }
      Prepended(b, piece.value, Expand(input[next..], ms));
      b, i := b + piece.value, next;
    }
    assert input[i..] == "" && b + "" == b;
    return Some(b);
  }

  // ----- expansion undoes rendering

  datatype Token = Literal(text: string) | Group(n: nat)

  /** Every dollar sign doubled. */
  function Escape(s: string): string {
    if s == "" then "" else (if s[0] == '$' then "$$" else [s[0]]) + Escape(s[1..])
  }

  function Written(ts: seq<Token>): string {
    if ts == [] then ""
    else (match ts[0] case Literal(s) => Escape(s) case Group(n) => "${" + Digits(n) + "}") + Written(ts[1..])
  }

  function Meant(ts: seq<Token>, ms: seq<string>): string {
    if ts == [] then ""
    else (match ts[0] case Literal(s) => s case Group(n) => Item(ms, n, true)) + Meant(ts[1..], ms)
  }

  lemma {:induction false} EscapedExpands(s: string, rest: string, ms: seq<string>)
    ensures Expand(Escape(s) + rest, ms) == Prepend(s, Expand(rest, ms))
  {
    if s == "" {
      assert Escape(s) + rest == rest;
      assert Expand(rest, ms).Some? ==> "" + Expand(rest, ms).value == Expand(rest, ms).value;
    } else {
      var t := (if s[0] == '$' then "$$" else [s[0]]);
      var u := Escape(s[1..]) + rest;
      EscapedExpands(s[1..], rest, ms);
      assert Escape(s) + rest == t + u;
      assert (t + u)[|t|..] == u;
      Prepended([s[0]], s[1..], Expand(rest, ms));
      assert [s[0]] + s[1..] == s;
    }
  }

  lemma {:induction false} DigitsThen(d: string, c: char, rest: string)
    requires (forall k :: 0 <= k < |d| ==> IsDigit(d[k])) && !IsDigit(c)
    ensures DigitPrefix(d + [c] + rest) == d
  {
    PrefixEnds(d + [c] + rest, |d|);
    assert (d + [c] + rest)[..|d|] == d;
  }

  lemma GroupExpands(n: nat, rest: string, ms: seq<string>)
    requires n < UINT32
    ensures Expand("${" + Digits(n) + "}" + rest, ms) == Prepend(Item(ms, n, true), Expand(rest, ms))
  {
    var d := Digits(n);
    var s := "${" + d + "}" + rest;
    assert s[2..] == d + ['}'] + rest;
    DigitsThen(d, '}', rest);
    UintRoundTrip(n);
    DigitPrefixOfAll(d);
    assert s[2 + |d|] == '}' && s[2 + |d| + 1..] == rest;
  }

  /** Expanding what was written with doubled dollar signs and braced references gives what was meant:
      each literal as it is, and for each reference the group's text, or the reference itself when there
      is no such group. */
  lemma {:induction false} ExpansionOfWritten(ts: seq<Token>, ms: seq<string>)
    requires forall i :: 0 <= i < |ts| && ts[i].Group? ==> ts[i].n < UINT32
    ensures Expand(Written(ts), ms) == Some(Meant(ts, ms))
  {
    if ts != [] {
      ExpansionOfWritten(ts[1..], ms);
      match ts[0]
      case Literal(s) => EscapedExpands(s, Written(ts[1..]), ms);
      case Group(n) => GroupExpands(n, Written(ts[1..]), ms);
    }
  }

  // ----- everything else a template may say

  predicate AllDigits(d: string) { d != "" && forall k :: 0 <= k < |d| ==> IsDigit(d[k]) }

  /** The group that a number means: it wraps around at 32 bits. */
  function Referred(d: string): nat
    requires AllDigits(d)
  {
    Number(d) % 0x1_0000_0000
  }

  lemma NumberMeant(d: string)
    requires AllDigits(d)
    ensures DigitPrefix(d) == d && GroupIndex(d) == Referred(d)
  {
    DigitPrefixOfAll(d);
  }

  /** Where a bare reference differs: whatever character follows it is lost, but for an opening brace, which comes
      before the text of the group. */
  lemma BareReferenceSwallows(d: string, c: char, rest: string, ms: seq<string>)
    requires AllDigits(d) && !IsDigit(c)
    ensures var v := Item(ms, Referred(d), false);
            Expand("$" + d + [c] + rest, ms) == Prepend(if c == '{' then "{" + v else v, Expand(rest, ms))
  {
    var s := "$" + d + [c] + rest;
    assert s[1..] == d + [c] + rest;
    DigitsThen(d, c, rest);
    NumberMeant(d);
    assert s[1] == d[0] && s[1 + |d|] == c && s[1 + |d| + 1..] == rest;
  }

  /** At the end of the template nothing is lost. */
  lemma BareReferenceEnds(d: string, ms: seq<string>)
    requires AllDigits(d)
    ensures Expand("$" + d, ms) == Some(Item(ms, Referred(d), false))
  {
    var s := "$" + d;
    NumberMeant(d);
    assert s[1..] == d && s[1] == d[0];
  }

  /** A dollar sign before any other character, or at the end, stands for itself. */
  lemma DollarStays(c: char, rest: string, ms: seq<string>)
    requires c != '$' && c != '{' && !IsDigit(c)
    ensures Expand("$" + [c] + rest, ms) == Prepend("$" + [c], Expand(rest, ms))
    ensures Expand("$", ms) == Some("$")
  {
    var s := "$" + [c] + rest;
    assert s[2..] == rest && s[1] == c;
    assert "$" + [c] == ['$', c];
  }

  /** Digits or none within a brace that is not closed after them: a second opening brace stands for all of it,
      anything else is an error, and so are a brace around nothing and one at the end. */
  lemma BraceFaults(d: string, c: char, rest: string, ms: seq<string>)
    requires (forall k :: 0 <= k < |d| ==> IsDigit(d[k])) && !IsDigit(c) && (c == '}' ==> d == "")
    ensures Expand("${" + d + [c] + rest, ms) == if c == '{' then Prepend("{", Expand(rest, ms)) else None
    ensures Expand("${" + d, ms) == None
  {
    var s := "${" + d + [c] + rest;
    assert s[2..] == d + [c] + rest;
    DigitsThen(d, c, rest);
    assert s[2 + |d|] == c && s[2 + |d| + 1..] == rest;
    var u := "${" + d;
    assert u[2..] == d;
    DigitPrefixOfAll(d);
  }
}
