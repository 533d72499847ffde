/** Parameter lists such as ;lr;tag=a8f=2 written from a map and read back (global/support.go). */
module Parameters {
  import opened SipTypes

  // ----- text

  predicate Has(s: string, c: char) { exists k :: 0 <= k < |s| && s[k] == c }

  function TrimLeft(s: string, c: char): string {
    if s != [] && s[0] == c then TrimLeft(s[1..], c) else s
  }

  function TrimRight(s: string, c: char): string
    decreases |s|
  {
    if s != [] && s[|s| - 1] == c then TrimRight(s[..|s| - 1], c) else s
  }

  function Trim(s: string, c: char): string { TrimRight(TrimLeft(s, c), c) }

  /** The pieces of s between the separators. */
  function Split(s: string, c: char): (r: seq<string>)
    ensures r != []
  {
    if s == [] then [""]
    else if s[0] == c then [""] + Split(s[1..], c)
    else var r := Split(s[1..], c); [[s[0]] + r[0]] + r[1..]
  }

  function Join(ps: seq<string>, c: char): string
    requires ps != []
  {
    if |ps| == 1 then ps[0] else ps[0] + [c] + Join(ps[1..], c)
  }

  lemma {:induction false} SplitPiece(p: string, c: char)
    requires !Has(p, c)
    ensures Split(p, c) == [p]
  {
    if p != [] {
      assert !Has(p[1..], c) by { assert forall k :: 0 <= k < |p| - 1 ==> p[1..][k] == p[k + 1]; }
      SplitPiece(p[1..], c);
      assert p == [p[0]] + p[1..];
    }
  }

  lemma {:induction false} SplitFirst(p: string, rest: string, c: char)
    requires !Has(p, c)
    ensures Split(p + [c] + rest, c) == [p] + Split(rest, c)
  {
    var s := p + [c] + rest;
    if p == [] {
      assert s[1..] == rest;
    } else {
      assert !Has(p[1..], c) by { assert forall k :: 0 <= k < |p| - 1 ==> p[1..][k] == p[k + 1]; }
      SplitFirst(p[1..], rest, c);
      assert s[1..] == p[1..] + [c] + rest;
      assert p == [p[0]] + p[1..];
    }
  }

  lemma {:induction false} SplitJoin(ps: seq<string>, c: char)
    requires ps != [] && forall i :: 0 <= i < |ps| ==> !Has(ps[i], c)
    ensures Split(Join(ps, c), c) == ps
  {
    if |ps| == 1 {
      SplitPiece(ps[0], c);
    } else {
      SplitJoin(ps[1..], c);
      SplitFirst(ps[0], Join(ps[1..], c), c);
    }
  }

  // ----- one parameter

  type Param = (string, string)

  function Render(p: Param): string { if p.1 == "" then p.0 else p.0 + "=" + p.1 }

  /** strings.SplitN(s, "=", 2) */
  function Cut(s: string): Param
    decreases |s|
  {
    if s == [] then ("", "")
    else if s[0] == '=' then ("", s[1..])
    else var (k, v) := Cut(s[1..]); ([s[0]] + k, v)
  }

  lemma {:induction false} CutRendered(p: Param)
    requires !Has(p.0, '=')
    ensures Cut(Render(p)) == p
    decreases |p.0|
  {
    var (k, v) := p;
    if k == [] {
      assert v != "" ==> Render(p)[1..] == v;
    } else {
      assert !Has(k[1..], '=') by { assert forall i :: 0 <= i < |k| - 1 ==> k[1..][i] == k[i + 1]; }
      CutRendered((k[1..], v));
      assert Render(p)[1..] == Render((k[1..], v));
      assert k == [k[0]] + k[1..];
    }
  }

  // ----- the list

  function RenderAll(ps: seq<Param>): string {
    if ps == [] then "" else ";" + Render(ps[0]) + RenderAll(ps[1..])
  }

  /** GenerateParameters; the map's entries come in the order in which they happen to be visited. */
  method GenerateParameters(ps: seq<Param>) returns (line: string)
    ensures line == RenderAll(ps)
  {
    line := "";
    for i := 0 to |ps|
      invariant line + RenderAll(ps[i..]) == RenderAll(ps)
    {
      var (k, v) := ps[i];
      assert RenderAll(ps[i..]) == ";" + Render(ps[i]) + RenderAll(ps[i..][1..]);
      assert ps[i..][1..] == ps[i + 1..];
      if v == "" {
        line := line + ";" + k;
      } else {
        line := line + ";" + k + "=" + v;
      }
    }
  }

  /** The map a list of pieces stands for; of two entries for one key the first counts. */
  function Entries(pieces: seq<string>): map<string, string>
    decreases |pieces|
  {
    if pieces == [] then map[]
    else
      var (m, p) := (Entries(pieces[..|pieces| - 1]), Cut(pieces[|pieces| - 1]));
      if p.0 in m then m else m[p.0 := p.1]
  }

  function Parsed(line: string): map<string, string> {
    var s := Trim(Trim(line, ';'), ',');
    if s == "" then map[] else Entries(Split(s, ';'))
  }

  method ParseParameters(line: string) returns (m: map<string, string>)
    ensures m == Parsed(line)
  {
    var s := Trim(Trim(line, ';'), ',');
    m := map[];
    if s == "" {
      return;
    }
    var pieces := Split(s, ';');
    for i := 0 to |pieces|
      invariant m == Entries(pieces[..i])
    {
      var (k, v) := Cut(pieces[i]);
      assert pieces[..i + 1][..i] == pieces[..i];
      if k !in m {
        m := m[k := v];
      }
    }
    assert pieces[..|pieces|] == pieces;
  }

  // ----- round trip

  predicate GoodPiece(s: string) { s != "" && !Has(s, ';') && s[0] != ',' && s[|s| - 1] != ',' }

  /** A parameter that survives wherever it stands in the list: no separator inside, no comma at
      either end, and not empty altogether. */
  predicate Survives(p: Param) {
    var s := Render(p);
    !Has(p.0, '=') && GoodPiece(s)
  }

  /** The list visits every entry of the map once. */
  ghost predicate Visits(ps: seq<Param>, m: map<string, string>) {
    && (forall i :: 0 <= i < |ps| ==> ps[i].0 in m && m[ps[i].0] == ps[i].1)
    && (forall k :: k in m ==> exists i :: 0 <= i < |ps| && ps[i].0 == k)
    && (forall i, j :: 0 <= i < j < |ps| ==> ps[i].0 != ps[j].0)
  }

  function RenderEach(ps: seq<Param>): (r: seq<string>)
    ensures |r| == |ps| && forall i :: 0 <= i < |ps| ==> r[i] == Render(ps[i])
  {
    seq(|ps|, i requires 0 <= i < |ps| => Render(ps[i]))
  }

  lemma {:induction false} RenderAllJoins(ps: seq<Param>)
    requires ps != []
    ensures RenderAll(ps) == ";" + Join(RenderEach(ps), ';')
  {
    var (p, rs) := (Render(ps[0]), RenderEach(ps));
    if |ps| == 1 {
      assert RenderAll(ps[1..]) == "" && Join(rs, ';') == p;
      assert ";" + p + "" == ";" + p;
    } else {
      RenderAllJoins(ps[1..]);
      assert rs[1..] == RenderEach(ps[1..]);
      Regroup(";", p, Join(rs[1..], ';'));
    }
  }

  lemma Regroup(c: string, p: string, r: string)
    ensures c + p + (c + r) == c + (p + c + r)
  {
  }

  lemma {:induction false} JoinEnds(ps: seq<string>, c: char)
    requires ps != [] && forall i :: 0 <= i < |ps| ==> ps[i] != ""
    ensures var s := Join(ps, c);
            s != "" && s[0] == ps[0][0] && s[|s| - 1] == ps[|ps| - 1][|ps[|ps| - 1]| - 1]
  {
    if |ps| > 1 {
      JoinEnds(ps[1..], c);
    }
  }

  lemma TrimNothing(s: string, c: char)
    requires s != "" && s[0] != c && s[|s| - 1] != c
    ensures Trim(s, c) == s
  {
  }

  lemma TrimLeading(s: string, c: char)
    requires s != "" && s[0] != c && s[|s| - 1] != c
    ensures Trim([c] + s, c) == s
  {
    assert ([c] + s)[1..] == s;
    assert TrimLeft([c] + s, c) == TrimLeft(s, c) == s;
  }

  /** The map with the entries of a list. */
  function AsMap(ps: seq<Param>): map<string, string>
    decreases |ps|
  {
    if ps == [] then map[] else AsMap(ps[..|ps| - 1])[ps[|ps| - 1].0 := ps[|ps| - 1].1]
  }

  predicate Listed(ps: seq<Param>, k: string) { exists i :: 0 <= i < |ps| && ps[i].0 == k }
  predicate KeysDiffer(ps: seq<Param>) { forall i, j :: 0 <= i < j < |ps| ==> ps[i].0 != ps[j].0 }

  lemma {:induction false} AsMapKeys(ps: seq<Param>, k: string)
    ensures k in AsMap(ps) <==> Listed(ps, k)
    decreases |ps|
  {
    if ps != [] {
      var before := ps[..|ps| - 1];
      AsMapKeys(before, k);
      assert forall i :: 0 <= i < |before| ==> before[i] == ps[i];
    }
  }

  lemma {:induction false} AsMapAt(ps: seq<Param>, i: nat)
    requires i < |ps| && KeysDiffer(ps)
    ensures ps[i].0 in AsMap(ps) && AsMap(ps)[ps[i].0] == ps[i].1
    decreases |ps|
  {
    if i < |ps| - 1 {
      AsMapAt(ps[..|ps| - 1], i);
    }
  }

  lemma VisitsAsMap(ps: seq<Param>, m: map<string, string>)
    requires Visits(ps, m)
    ensures AsMap(ps) == m
  {
    forall k
      ensures k in AsMap(ps) <==> k in m
      ensures k in m ==> k in AsMap(ps) && AsMap(ps)[k] == m[k]
    {
      AsMapKeys(ps, k);
      if k in m {
        var i :| 0 <= i < |ps| && ps[i].0 == k;
        AsMapAt(ps, i);
      }
    }
  }

  lemma EntriesMore(pieces: seq<string>, piece: string)
    ensures var (m, p) := (Entries(pieces), Cut(piece));
            Entries(pieces + [piece]) == if p.0 in m then m else m[p.0 := p.1]
  {
    assert (pieces + [piece])[..|pieces|] == pieces;
  }

  lemma RenderMore(ps: seq<Param>)
    requires ps != []
    ensures RenderEach(ps) == RenderEach(ps[..|ps| - 1]) + [Render(ps[|ps| - 1])]
  {
  }

  lemma {:induction false} EntriesOf(ps: seq<Param>)
    requires KeysDiffer(ps) && forall i :: 0 <= i < |ps| ==> !Has(ps[i].0, '=')
    ensures Entries(RenderEach(ps)) == AsMap(ps)
    decreases |ps|
  {
    if ps != [] {
      var (before, p) := (ps[..|ps| - 1], ps[|ps| - 1]);
      EntriesOf(before);
      CutRendered(p);
      AsMapKeys(before, p.0);
      RenderMore(ps);
      EntriesMore(RenderEach(before), Render(p));
      assert !Listed(before, p.0);
    }
  }

  lemma ParsedPieces(pieces: seq<string>)
    requires pieces != [] && forall i :: 0 <= i < |pieces| ==> GoodPiece(pieces[i])
    ensures Parsed(";" + Join(pieces, ';')) == Entries(pieces)
  {
    var (s, last) := (Join(pieces, ';'), pieces[|pieces| - 1]);
    JoinEnds(pieces, ';');
    assert pieces[0][0] != ';' by { assert !Has(pieces[0], ';'); }
    assert last[|last| - 1] != ';' by { assert !Has(last, ';'); }
    TrimLeading(s, ';');
    TrimNothing(s, ',');
    SplitJoin(pieces, ';');
  }

  /** Whatever the order in which the entries are visited, the map comes back. */
  lemma ParametersRoundTrip(m: map<string, string>, ps: seq<Param>)
    requires Visits(ps, m) && forall i :: 0 <= i < |ps| ==> Survives(ps[i])
    ensures Parsed(RenderAll(ps)) == m
  {
    if ps == [] {
      assert m == map[];
    } else {
      RenderAllJoins(ps);
      assert forall i :: 0 <= i < |ps| ==> GoodPiece(RenderEach(ps)[i]);
      ParsedPieces(RenderEach(ps));
      EntriesOf(ps);
      VisitsAsMap(ps, m);
    }
  }

  /** Keys and values with none of the separators survive; values may contain "=". */
  lemma PlainSurvives(p: Param)
    requires p.0 != "" && !Has(p.0, ';') && !Has(p.0, '=') && !Has(p.0, ',') && !Has(p.1, ';') && !Has(p.1, ',')
    ensures Survives(p)
  {
    var (s, k) := (Render(p), |p.0|);
    forall i | 0 <= i < |s|
      ensures s[i] != ';' && s[i] != ','
    {
      if i < k {
        assert s[i] == p.0[i];
      } else if i > k {
        assert s[i] == p.1[i - k - 1];
      }
    }
  }

  // ----- any line

  /** What is cut off at the ends is nothing but the character, and all of it. */
  ghost predicate IsTrimmed(s: string, t: string, c: char) {
    exists i, j :: 0 <= i <= j <= |s| && t == s[i..j]
                   && (forall k :: 0 <= k < |s| && (k < i || j <= k) ==> s[k] == c)
                   && (t != "" ==> t[0] != c && t[|t| - 1] != c)
  }

  lemma {:induction false} TrimmedLeft(s: string, c: char)
    ensures var t := TrimLeft(s, c);
            |t| <= |s| && t == s[|s| - |t|..] && (t != "" ==> t[0] != c) && forall k :: 0 <= k < |s| - |t| ==> s[k] == c
  {
    if s != [] && s[0] == c {
      TrimmedLeft(s[1..], c);
      assert forall k :: 0 < k < |s| ==> s[k] == s[1..][k - 1];
    }
  }

  lemma {:induction false} TrimmedRight(s: string, c: char)
    ensures var t := TrimRight(s, c);
            |t| <= |s| && t == s[..|t|] && (t != "" ==> t[|t| - 1] != c) && forall k :: |t| <= k < |s| ==> s[k] == c
    decreases |s|
  {
    if s != [] && s[|s| - 1] == c {
      TrimmedRight(s[..|s| - 1], c);
    }
  }

  lemma TrimExactly(s: string, c: char)
    ensures IsTrimmed(s, Trim(s, c), c)
  {
    var t := TrimLeft(s, c);
    var u := TrimRight(t, c);
    TrimmedLeft(s, c);
    TrimmedRight(t, c);
    var i := |s| - |t|;
    assert u == s[i..i + |u|];
    assert forall k :: i + |u| <= k < |s| ==> s[k] == t[k - i];
  }

  /** The pieces hold no separator, and joined by it they give the text. */
  lemma {:induction false} SplitExactly(s: string, c: char)
    ensures Join(Split(s, c), c) == s && forall i :: 0 <= i < |Split(s, c)| ==> !Has(Split(s, c)[i], c)
  {
    if s != [] {
      SplitExactly(s[1..], c);
      var r := Split(s[1..], c);
      assert s == [s[0]] + s[1..];
      if s[0] != c {
        assert ([[s[0]] + r[0]] + r[1..])[1..] == r[1..];
      } else {
        assert ([""] + r)[1..] == r;
      }
    }
  }

  /** The key is what stands before the first equals sign, and the value what stands after it. */
  lemma {:induction false} CutExactly(s: string)
    ensures var (k, v) := Cut(s); !Has(k, '=') && if Has(s, '=') then s == k + "=" + v else s == k && v == ""
    decreases |s|
  {
    if s != [] && s[0] != '=' {
      CutExactly(s[1..]);
      assert s == [s[0]] + s[1..];
      assert Has(s, '=') <==> Has(s[1..], '=') by {
        if Has(s, '=') {
          var i :| 0 <= i < |s| && s[i] == '=';
          assert s[1..][i - 1] == '=';
        }
      }
    }
  }

  /** Of two entries for one key the first counts. */
  lemma {:induction false} FirstEntryCounts(pieces: seq<string>, i: nat)
    requires i < |pieces| && forall j :: 0 <= j < i ==> Cut(pieces[j]).0 != Cut(pieces[i]).0
    ensures Cut(pieces[i]).0 in Entries(pieces) && Entries(pieces)[Cut(pieces[i]).0] == Cut(pieces[i]).1
    decreases |pieces|
  {
    hide Cut;
    var before := pieces[..|pieces| - 1];
    if i < |before| {
      FirstEntryCounts(before, i);
    } else {
      OnlyKeysListed(before, Cut(pieces[i]).0);
    }
  }

  lemma {:induction false} OnlyKeysListed(pieces: seq<string>, k: string)
    ensures k in Entries(pieces) <==> exists i :: 0 <= i < |pieces| && Cut(pieces[i]).0 == k
    decreases |pieces|
  {
    hide Cut;
    if pieces != [] {
      var before := pieces[..|pieces| - 1];
      OnlyKeysListed(before, k);
      assert forall i :: 0 <= i < |before| ==> before[i] == pieces[i];
    }
  }

  /** What any line means: without the semicolons and then the commas at its ends it is split at the semicolons, and
      each piece is an entry, of which the first for a key counts. */
  ghost predicate Means(line: string, m: map<string, string>) {
    exists s, t, pieces: seq<string> ::
      && IsTrimmed(line, s, ';') && IsTrimmed(s, t, ',') && pieces != [] && Join(pieces, ';') == t
      && (forall i :: 0 <= i < |pieces| ==> !Has(pieces[i], ';'))
      && if t == "" then m == map[] else EntriesOfAll(pieces, m)
  }

  ghost predicate EntriesOfAll(pieces: seq<string>, m: map<string, string>) {
    && (forall k :: k in m <==> exists i :: 0 <= i < |pieces| && Cut(pieces[i]).0 == k)
    && (forall i :: 0 <= i < |pieces| && (forall j :: 0 <= j < i ==> Cut(pieces[j]).0 != Cut(pieces[i]).0) ==>
          Cut(pieces[i]).0 in m && m[Cut(pieces[i]).0] == Cut(pieces[i]).1)
  }

  lemma EntriesExactly(pieces: seq<string>)
    ensures EntriesOfAll(pieces, Entries(pieces))
  {
    hide Cut, Entries;
    forall k: string
      ensures k in Entries(pieces) <==> exists i :: 0 <= i < |pieces| && Cut(pieces[i]).0 == k
    {
      OnlyKeysListed(pieces, k);
    }
    forall i | 0 <= i < |pieces| && forall j :: 0 <= j < i ==> Cut(pieces[j]).0 != Cut(pieces[i]).0
      ensures Cut(pieces[i]).0 in Entries(pieces) && Entries(pieces)[Cut(pieces[i]).0] == Cut(pieces[i]).1
    {
      FirstEntryCounts(pieces, i);
    }
  }

  lemma AnyLineParsed(line: string)
    ensures Means(line, Parsed(line))
  {
    hide Trim, Split, Entries, EntriesOfAll, IsTrimmed, Has;
    var s := Trim(line, ';');
    var t := Trim(s, ',');
    TrimExactly(line, ';');
    TrimExactly(s, ',');
    SplitExactly(t, ';');
    EntriesExactly(Split(t, ';'));
  }
}
