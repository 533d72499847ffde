/** Text as the parsers see it: searching, splitting into lines, letter case (global/support.go). */
module Text {
  import opened SipTypes

  const CRLF := "\r\n"
  const BLANK_LINE := "\r\n\r\n"

  predicate StartsAt(s: string, pat: string, i: nat) { i <= |s| && pat <= s[i..] }

  /** GetNextIndex: where pat first occurs in s. */
  function Index(s: string, pat: string): (r: Option<nat>)
    ensures r.Some? ==> StartsAt(s, pat, r.value) && r.value + |pat| <= |s|
  {
    IndexFrom(s, pat, 0)
  }

  function IndexFrom(s: string, pat: string, i: nat): (r: Option<nat>)
    requires i <= |s|
    ensures r.Some? ==> i <= r.value && StartsAt(s, pat, r.value) && r.value + |pat| <= |s|
    decreases |s| - i
  {
    if pat <= s[i..] then Some(i) else if i == |s| then None else IndexFrom(s, pat, i + 1)
  }

  lemma {:induction false} IndexIs(s: string, pat: string, i: nat)
    requires StartsAt(s, pat, i) && forall j :: 0 <= j < i ==> !StartsAt(s, pat, j)
    ensures Index(s, pat) == Some(i)
  {
    IndexFromIs(s, pat, 0, i);
  }

  lemma {:induction false} IndexFromIs(s: string, pat: string, k: nat, i: nat)
    requires k <= i && StartsAt(s, pat, i) && forall j :: k <= j < i ==> !StartsAt(s, pat, j)
    ensures IndexFrom(s, pat, k) == Some(i)
    decreases i - k
  {
    if k < i {
      assert !StartsAt(s, pat, k);
      IndexFromIs(s, pat, k + 1, i);
    }
  }

  lemma {:induction false} NotFound(s: string, pat: string, i: nat)
    requires i <= |s| && forall j: nat :: !StartsAt(s, pat, j)
    ensures IndexFrom(s, pat, i).None?
    decreases |s| - i
  {
    if i < |s| {
      NotFound(s, pat, i + 1);
    }
  }

  /** A match begins with the pattern's first character. */
  lemma StartsWith(s: string, pat: string, i: nat)
    requires pat != ""
    ensures StartsAt(s, pat, i) ==> i + |pat| <= |s| && forall k :: 0 <= k < |pat| ==> s[i + k] == pat[k]
  {
    if StartsAt(s, pat, i) {
      assert forall k :: 0 <= k < |pat| ==> pat[k] == s[i..][k];
    }
  }

  /** Looking beyond a prefix is looking in what follows it. */
  lemma StartsBeyond(x: string, s: string, pat: string, i: nat)
    ensures StartsAt(x + s, pat, |x| + i) == StartsAt(s, pat, i)
  {
    if i <= |s| {
      assert (x + s)[|x| + i..] == s[i..];
    }
  }

  predicate Contains(s: string, pat: string) { exists i :: 0 <= i <= |s| && StartsAt(s, pat, i) }

  /** A pattern that starts in x, although c follows x, is contained in x or contains c. */
  lemma StartsWithin(x: string, c: char, rest: string, pat: string, j: nat)
    requires j <= |x| && pat != ""
    ensures StartsAt(x + [c] + rest, pat, j) ==> Contains(x, pat) || c in pat
  {
    var s := x + [c] + rest;
    if StartsAt(s, pat, j) {
      if j + |pat| <= |x| {
        assert s[j..][..|pat|] == x[j..][..|pat|];
        assert StartsAt(x, pat, j);
      } else {
        assert pat[|x| - j] == s[j..][|x| - j] == c;
      }
    }
  }

  /** So the first occurrence of a pattern without c is after x and c, when x has none. */
  lemma NoneStartsIn(x: string, c: char, rest: string, pat: string)
    requires !Contains(x, pat) && c !in pat && pat != ""
    ensures forall j :: 0 <= j <= |x| ==> !StartsAt(x + [c] + rest, pat, j)
  {
    forall j: nat | j <= |x|
      ensures !StartsAt(x + [c] + rest, pat, j)
    {
      StartsWithin(x, c, rest, pat, j);
    }
  }

  /** strings.Split(s, CRLF) */
  function Lines(s: string): (r: seq<string>)
    ensures r != []
  {
    if |s| < 2 then [s]
    else if s[0] == '\r' && s[1] == '\n' then [""] + Lines(s[2..])
    else var r := Lines(s[1..]); [[s[0]] + r[0]] + r[1..]
  }

  predicate OneLine(s: string) { '\r' !in s && '\n' !in s }

  lemma {:induction false} LineFirst(x: string, rest: string)
    requires OneLine(x)
    ensures Lines(x + CRLF + rest) == [x] + Lines(rest)
  {
    var s := x + CRLF + rest;
    if x == "" {
      assert s[2..] == rest;
    } else {
      LineFirst(x[1..], rest);
      assert s[1..] == x[1..] + CRLF + rest;
      assert [x[0]] + x[1..] == x;
    }
  }

  lemma {:induction false} LastLine(x: string)
    requires OneLine(x)
    ensures Lines(x) == [x]
  {
    if |x| >= 2 {
      LastLine(x[1..]);
      assert [x[0]] + x[1..] == x;
    }
  }

  // ----- letter case

  function LowerChar(c: char): char { if 'A' <= c <= 'Z' then c + ('a' - 'A') else c }
  function UpperChar(c: char): char { if 'a' <= c <= 'z' then c - ('a' - 'A') else c }

  /** ASCIIToLower */
  function Lower(s: string): (r: string)
    ensures |r| == |s| && forall k :: 0 <= k < |s| ==> r[k] == LowerChar(s[k])
  {
    seq(|s|, k requires 0 <= k < |s| => LowerChar(s[k]))
  }

  /** ASCIIPascal */
  function Pascal(s: string): (r: string)
    ensures |r| == |s|
    ensures forall k :: 0 <= k < |s| ==> r[k] == if k == 0 || s[k - 1] == '-' then UpperChar(s[k]) else s[k]
  {
    seq(|s|, k requires 0 <= k < |s| => if k == 0 || s[k - 1] == '-' then UpperChar(s[k]) else s[k])
  }

  /** HeaderCase, with the names of the header table in the order in which they happen to be visited. */
  function HeaderCase(table: seq<string>, h: string): string
  {
    HeaderCaseOf(table, Lower(h))
  }

  function HeaderCaseOf(table: seq<string>, h: string): string {
    if table == [] then Pascal(h) else if Lower(table[0]) == h then table[0] else HeaderCaseOf(table[1..], h)
  }

  /** Spelling a header name its usual way changes nothing but its case. */
  lemma {:induction false} HeaderCaseIsCase(table: seq<string>, h: string)
    ensures Lower(HeaderCase(table, h)) == Lower(h)
  {
    HeaderCaseOfIsCase(table, Lower(h));
  }

  lemma {:induction false} HeaderCaseOfIsCase(table: seq<string>, h: string)
    requires Lower(h) == h
    ensures Lower(HeaderCaseOf(table, h)) == h
  {
    if table != [] {
      HeaderCaseOfIsCase(table[1..], h);
    }
  }

  predicate FirstSpelling(table: seq<string>, h: string, i: nat) {
    i < |table| && Lower(table[i]) == Lower(h) && forall j :: 0 <= j < i ==> Lower(table[j]) != Lower(h)
  }

  /** It is the first spelling in the table of that name, or, for a name that the table does not have, every part of
      it begins with a capital. */
  lemma {:induction false} HeaderCaseFromTable(table: seq<string>, h: string)
    ensures (forall i :: 0 <= i < |table| ==> Lower(table[i]) != Lower(h)) ==>
              HeaderCase(table, h) == Pascal(Lower(h))
    ensures forall i: nat :: FirstSpelling(table, h, i) ==> HeaderCase(table, h) == table[i]
  {
    hide Lower, Pascal;
    if table != [] && Lower(table[0]) != Lower(h) {
      HeaderCaseFromTable(table[1..], h);
      forall i: nat | FirstSpelling(table, h, i)
        ensures HeaderCase(table, h) == table[i]
      {
        assert FirstSpelling(table[1..], h, i - 1);
      }
      assert forall i :: 0 <= i < |table| - 1 ==> table[1..][i] == table[i + 1];
    }
  }
}
