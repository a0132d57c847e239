/** scripts/migrate_inline.py: hiding raw and comment regions behind NUL-delimited sentinels, and
    putting them back by one replace-all pass per region. */
module Masking {
  import opened PyText

  const NUL := '\U{0}'

  /** A protected region and the ordinary text that follows it. */
  datatype Piece = Piece(hole: string, after: string)

  /** A template cut into ordinary text and protected regions, as the region pattern cuts it. */
  datatype Doc = Doc(lead: string, pieces: seq<Piece>)

  function Plain(ps: seq<Piece>): string {
    if ps == [] then "" else ps[0].hole + ps[0].after + Plain(ps[1..])
  }

  function Text(doc: Doc): string {
    doc.lead + Plain(doc.pieces)
  }

  function Tag(i: nat): string {
    "H" + Dec(i)
  }

  function Sentinel(i: nat): string {
    [NUL] + Tag(i) + [NUL]
  }

  /** Sentinels `i`, `i+1`, ... with the ordinary text between them, then `end`. */
  function Chain(ps: seq<Piece>, i: nat, end: string): string {
    if ps == [] then end else Sentinel(i) + (ps[0].after + Chain(ps[1..], i + 1, end))
  }

  function Masked(doc: Doc): string {
    doc.lead + Chain(doc.pieces, 0, "")
  }

  function Holes(ps: seq<Piece>): seq<string> {
    seq(|ps|, i requires 0 <= i < |ps| => ps[i].hole)
  }

  method Mask(doc: Doc) returns (masked: string, holes: seq<string>)
    ensures masked == Masked(doc) && holes == Holes(doc.pieces)
  {
    masked, holes := doc.lead, [];
    var ps := doc.pieces;
    assert masked + Chain(ps[0..], 0, "") == Masked(doc);
    for i := 0 to |ps|
      invariant |holes| == i && forall j :: 0 <= j < i ==> holes[j] == ps[j].hole
      invariant masked + Chain(ps[i..], i, "") == Masked(doc)
    {
      holes := holes + [ps[i].hole];
      ghost var before, rest := masked, ps[i].after + Chain(ps[i + 1..], i + 1, "");
      assert ps[i..][1..] == ps[i + 1..];
      assert before + (Sentinel(i) + rest) == before + Sentinel(i) + rest;
      masked := masked + Sentinel(|holes| - 1) + ps[i].after;
    }
  }

  /** `text.replace(pat, new)`: leftmost matches first, without overlap. */
  function Replace(s: string, pat: string, new_: string): string
    requires pat != ""
    decreases |s|
  {
    if |s| < |pat| then s
    else if pat <= s then new_ + Replace(s[|pat|..], pat, new_)
    else [s[0]] + Replace(s[1..], pat, new_)
  }

  function UnmaskFrom(text: string, holes: seq<string>, i: nat): string
    requires i <= |holes|
    decreases |holes| - i
  {
    if i == |holes| then text else UnmaskFrom(Replace(text, Sentinel(i), holes[i]), holes, i + 1)
  }

  method Unmask(masked: string, holes: seq<string>) returns (text: string)
    ensures text == UnmaskFrom(masked, holes, 0)
  {
    text := masked;
    for i := 0 to |holes|
      invariant UnmaskFrom(text, holes, i) == UnmaskFrom(masked, holes, 0)
    {
      text := Replace(text, Sentinel(i), holes[i]);
    }
  }

  // ---- one replace pass, NUL by NUL --------------------------------------------

  predicate NoNul(s: string) { NUL !in s }

  lemma ReplaceStep(s: string, pat: string, new_: string)
    requires s != "" && pat != "" && !(pat <= s)
    ensures Replace(s, pat, new_) == [s[0]] + Replace(s[1..], pat, new_)
  {
  }

  /** The pass leaves a stretch alone that lacks the first character of the pattern. */
  lemma {:induction false} ReplaceSkipsAny(p: string, x: string, pat: string, new_: string)
    requires pat != "" && pat[0] !in p
    ensures Replace(p + x, pat, new_) == p + Replace(x, pat, new_)
  {
    if p == "" {
      assert p + x == x;
    } else {
      assert (p + x)[1..] == p[1..] + x && p[0] in p;
      ReplaceStep(p + x, pat, new_);
      ReplaceSkipsAny(p[1..], x, pat, new_);
      assert p == [p[0]] + p[1..];
    }
  }

  lemma ReplaceSkips(p: string, x: string, k: nat, new_: string)
    requires NoNul(p)
    ensures Replace(p + x, Sentinel(k), new_) == p + Replace(x, Sentinel(k), new_)
  {
    ReplaceSkipsAny(p, x, Sentinel(k), new_);
  }

  /** Where a NUL opens a stretch `a` that the next NUL (or the end) closes, the sentinel matches
      exactly when `a` is its tag and the closing NUL is there. */
  lemma SentinelMatches(a: string, x: string, k: nat)
    requires NoNul(a) && (x == "" || x[0] == NUL)
    ensures Sentinel(k) <= [NUL] + (a + x) <==> a == Tag(k) && x != ""
  {
    var s, t := [NUL] + (a + x), Tag(k);
    assert NoNul(t) by { assert Every(Dec(k), IsAsciiDigit); }
    assert forall i :: 0 <= i < |a| ==> s[i + 1] == a[i] && a[i] in a;
    assert forall i :: 0 <= i < |t| ==> Sentinel(k)[i + 1] == t[i] && t[i] in t;
    assert x != "" ==> s[|a| + 1] == NUL;
    if Sentinel(k) <= s {
      assert s[|t| + 1] == Sentinel(k)[|t| + 1] == NUL;
      assert |t| <= |a|;
      assert forall i :: 0 <= i < |t| ==> a[i] == Sentinel(k)[i + 1];
      assert a == t;
    }
  }

  lemma ReplaceAtNul(a: string, x: string, k: nat, new_: string)
    requires NoNul(a) && (x == "" || x[0] == NUL)
    ensures Replace([NUL] + (a + x), Sentinel(k), new_) ==
            if a == Tag(k) && x != "" then new_ + Replace(x[1..], Sentinel(k), new_)
            else [NUL] + (a + Replace(x, Sentinel(k), new_))
  {
    var s, pat := [NUL] + (a + x), Sentinel(k);
    SentinelMatches(a, x, k);
    if a == Tag(k) && x != "" {
      assert s[|pat|..] == x[1..];
    } else {
      assert s[1..] == a + x;
      ReplaceStep(s, pat, new_);
      ReplaceSkips(a, x, k, new_);
    }
  }

  // ---- a broken sentinel stays broken ------------------------------------------

  /** A NUL that no sentinel can ever match: an opening brace comes before the next NUL. */
  predicate StuckAt(e: string, n: int) {
    && 0 < n < |e|
    && e[0] == NUL && e[n] == '{'
    && forall i :: 0 < i < n ==> e[i] != NUL
  }

  ghost predicate Stuck(e: string) {
    exists n :: StuckAt(e, n)
  }

  lemma StuckForever(e: string, k: nat, new_: string)
    requires Stuck(e)
    ensures Stuck(Replace(e, Sentinel(k), new_))
  {
    var n :| StuckAt(e, n);
    var pat := Sentinel(k);
    assert Every(Dec(k), IsAsciiDigit);
    assert forall i :: 0 < i < |pat| - 1 ==> pat[i] == Tag(k)[i - 1] && pat[i] != '{' && pat[i] != NUL;
    assert !(pat <= e) by {
      assert pat[|pat| - 1] == NUL;
    }
    var mid := e[1..n + 1];
    assert NoNul(mid);
    assert e[1..] == mid + e[n + 1..];
    ReplaceSkips(mid, e[n + 1..], k, new_);
    var e' := Replace(e, pat, new_);
    ReplaceStep(e, pat, new_);
    assert e' == [NUL] + (mid + Replace(e[n + 1..], pat, new_));
    assert forall i :: 0 < i <= n ==> e'[i] == mid[i - 1] == e[i];
    assert StuckAt(e', n);
  }

  // ---- one replace pass over a chain of sentinels ------------------------------

  predicate Clean(ps: seq<Piece>) {
    forall i :: 0 <= i < |ps| ==> NoNul(ps[i].hole) && NoNul(ps[i].after) && ps[i].hole != "" && ps[i].hole[0] == '{'
  }

  /** Ordinary text between two sentinels that, with their NULs, spells sentinel `k`. */
  predicate Spells(ps: seq<Piece>, end: string, t: int, k: nat) {
    0 <= t < |ps| && ps[t].after == Tag(k) && (t + 1 < |ps| || end != "")
  }

  ghost predicate Clashes(ps: seq<Piece>, end: string, k: nat) {
    exists t :: Spells(ps, end, t, k)
  }

  lemma ChainOpens(ps: seq<Piece>, i: nat, end: string)
    requires end == "" || end[0] == NUL
    ensures Chain(ps, i, end) == "" <==> ps == [] && end == ""
    ensures Chain(ps, i, end) != "" ==> Chain(ps, i, end)[0] == NUL
  {
  }

  lemma TagsDiffer(i: nat, k: nat)
    ensures NoNul(Tag(i)) && (Tag(i) == Tag(k) ==> i == k)
  {
    assert Every(Dec(i), IsAsciiDigit);
    if Tag(i) == Tag(k) {
      assert Dec(i) == Tag(i)[1..] && Dec(k) == Tag(k)[1..];
      DecInjective(i, k);
    }
  }

  lemma OpenSentinel(i: nat, rest: string)
    ensures Sentinel(i) + rest == [NUL] + (Tag(i) + ([NUL] + rest))
  {
  }

  /** The pass for `k` over sentinel `i` and the text after it. */
  lemma PassSentinel(i: nat, a: string, tail: string, k: nat, new_: string)
    requires i != k && NoNul(a) && (tail == "" || tail[0] == NUL)
    ensures Replace(Sentinel(i) + (a + tail), Sentinel(k), new_) ==
            if a == Tag(k) && tail != "" then [NUL] + (Tag(i) + (new_ + Replace(tail[1..], Sentinel(k), new_)))
            else Sentinel(i) + (a + Replace(tail, Sentinel(k), new_))
  {
    TagsDiffer(i, k);
    var x := [NUL] + (a + tail);
    OpenSentinel(i, a + tail);
    OpenSentinel(i, a + Replace(tail, Sentinel(k), new_));
    ReplaceAtNul(Tag(i), x, k, new_);
    ReplaceAtNul(a, tail, k, new_);
  }

  lemma ClashesUnfolds(ps: seq<Piece>, end: string, k: nat)
    requires ps != []
    ensures Clashes(ps, end, k) <==> Spells(ps, end, 0, k) || Clashes(ps[1..], end, k)
  {
    if t :| Spells(ps, end, t, k) {
      assert t == 0 || Spells(ps[1..], end, t - 1, k);
    }
    if t :| Spells(ps[1..], end, t, k) {
      assert Spells(ps, end, t + 1, k);
    }
  }

  /** Replacing an earlier sentinel `k` in a chain either leaves the chain alone or breaks the
      sentinel before the first text that spells `k`; everything before that point is intact. */
  lemma {:induction false} ReplaceInChain(ps: seq<Piece>, i: nat, end: string, k: nat, new_: string)
    returns (ps': seq<Piece>, end': string)
    requires k < i && Clean(ps)
    requires end == "" || Stuck(end)
    requires new_ != "" && new_[0] == '{'
    ensures Replace(Chain(ps, i, end), Sentinel(k), new_) == Chain(ps', i, end')
    ensures ps' <= ps
    ensures end' == "" <==> end == "" && !Clashes(ps, end, k)
    ensures end' == "" ==> ps' == ps
    ensures end' != "" ==> Stuck(end')
  {
    if ps == [] {
      ps', end' := [], Replace(end, Sentinel(k), new_);
      if end != "" { StuckForever(end, k, new_); }
    } else {
      var a, tail := ps[0].after, Chain(ps[1..], i + 1, end);
      ChainOpens(ps[1..], i + 1, end);
      PassSentinel(i, a, tail, k, new_);
      ClashesUnfolds(ps, end, k);
      if a == Tag(k) && tail != "" {
        ps', end' := BreakHere(i, new_, Replace(tail[1..], Sentinel(k), new_));
      } else {
        var qs, qend := ReplaceInChain(ps[1..], i + 1, end, k, new_);
        ps', end' := ConsChain(ps, i, qs, qend);
      }
    }
  }

  lemma ConsChain(ps: seq<Piece>, i: nat, qs: seq<Piece>, end: string) returns (ps': seq<Piece>, end': string)
    requires ps != [] && qs <= ps[1..]
    ensures ps' == [ps[0]] + qs && end' == end
    ensures ps' <= ps && (qs == ps[1..] ==> ps' == ps)
    ensures Chain(ps', i, end) == Sentinel(i) + (ps[0].after + Chain(qs, i + 1, end))
  {
    ps', end' := [ps[0]] + qs, end;
    assert ps'[1..] == qs;
    assert ps == [ps[0]] + ps[1..];
  }

  lemma BreakHere(i: nat, new_: string, rest: string) returns (ps': seq<Piece>, end': string)
    requires new_ != "" && new_[0] == '{'
    ensures ps' == [] && end' == [NUL] + (Tag(i) + (new_ + rest)) && Stuck(end')
  {
    TagsDiffer(i, i);
    ps', end' := [], [NUL] + (Tag(i) + (new_ + rest));
    assert forall j :: 0 < j <= |Tag(i)| ==> end'[j] == Tag(i)[j - 1];
    assert StuckAt(end', |Tag(i)| + 1);
  }

  // ---- the whole restoration -----------------------------------------------------

  /** Some ordinary text between regions `t` and `t+1` reads `H` and the number of a region
      before `t`. (Numbers count from `i`.) */
  ghost predicate Clash(ps: seq<Piece>, i: nat) {
    exists k: nat, t :: i <= k < i + t && Spells(ps, "", t, k)
  }

  lemma ClashUnfolds(ps: seq<Piece>, i: nat)
    requires ps != []
    ensures Clash(ps, i) <==> Clashes(ps[1..], "", i) || Clash(ps[1..], i + 1)
  {
    if Clash(ps, i) {
      var k: nat, t :| i <= k < i + t && Spells(ps, "", t, k);
      assert Spells(ps[1..], "", t - 1, k);
    }
    if t :| Spells(ps[1..], "", t, i) {
      assert Spells(ps, "", t + 1, i);
    }
    if Clash(ps[1..], i + 1) {
      var k: nat, t :| i + 1 <= k < i + 1 + t && Spells(ps[1..], "", t, k);
      assert Spells(ps, "", t + 1, k);
    }
  }

  lemma RestoreFirst(p: string, ps: seq<Piece>, i: nat, end: string, hole: string)
    requires NoNul(p) && ps != [] && Clean(ps)
    ensures Replace(p + Chain(ps, i, end), Sentinel(i), hole) ==
            p + hole + ps[0].after + Replace(Chain(ps[1..], i + 1, end), Sentinel(i), hole)
  {
    var a, tail := ps[0].after, Chain(ps[1..], i + 1, end);
    var s := Chain(ps, i, end);
    ReplaceSkips(p, s, i, hole);
    assert s[|Sentinel(i)|..] == a + tail;
    ReplaceSkips(a, tail, i, hole);
    Regroup(p, hole, a, Replace(tail, Sentinel(i), hole));
  }

  lemma Regroup(a: string, b: string, c: string, d: string)
    ensures a + (b + (c + d)) == a + b + c + d
    ensures a + (b + c + d) == a + b + c + d
  {
  }

  lemma {:induction false} StaysBroken(p: string, ps: seq<Piece>, i: nat, end: string, holes: seq<string>)
    requires NoNul(p) && Clean(ps) && Stuck(end) && i <= |holes|
    requires forall j :: i <= j < |holes| ==> NoNul(holes[j]) && holes[j] != "" && holes[j][0] == '{'
    ensures !NoNul(UnmaskFrom(p + Chain(ps, i, end), holes, i))
    decreases |holes| - i
  {
    if i == |holes| {
      ChainOpens(ps, i, end);
      assert NUL == (p + Chain(ps, i, end))[|p|];
    } else if ps == [] {
      ReplaceSkips(p, end, i, holes[i]);
      StuckForever(end, i, holes[i]);
      StaysBroken(p, [], i + 1, Replace(end, Sentinel(i), holes[i]), holes);
    } else {
      RestoreFirst(p, ps, i, end, holes[i]);
      assert Clean(ps[1..]);
      var qs, qend := ReplaceInChain(ps[1..], i + 1, end, i, holes[i]);
      StaysBroken(p + holes[i] + ps[0].after, qs, i + 1, qend, holes);
    }
  }

  lemma {:induction false} RestoreChain(p: string, ps: seq<Piece>, i: nat, holes: seq<string>)
    requires NoNul(p) && Clean(ps)
    requires i <= |holes| && |holes| - i == |ps|
    requires forall j :: 0 <= j < |ps| ==> holes[i + j] == ps[j].hole
    ensures var r := UnmaskFrom(p + Chain(ps, i, ""), holes, i);
            if Clash(ps, i) then !NoNul(r) else r == p + Plain(ps)
    decreases |ps|
  {
    if ps == [] {
      return;
    }
    assert holes[i + 0] == ps[0].hole;
    assert forall j :: i <= j < |holes| ==> holes[j] == ps[j - i].hole;
    RestoreFirst(p, ps, i, "", holes[i]);
    ClashUnfolds(ps, i);
    assert Clean(ps[1..]);
    var qs, qend := ReplaceInChain(ps[1..], i + 1, "", i, holes[i]);
    var p' := p + ps[0].hole + ps[0].after;
    if qend == "" {
      RestoreChain(p', ps[1..], i + 1, holes);
      Regroup(p, ps[0].hole, ps[0].after, Plain(ps[1..]));
    } else {
      StaysBroken(p', qs, i + 1, qend, holes);
    }
  }

  lemma {:induction false} PlainNoNul(ps: seq<Piece>)
    requires Clean(ps)
    ensures NoNul(Plain(ps))
  {
    if ps != [] {
      assert Clean(ps[1..]);
      PlainNoNul(ps[1..]);
    }
  }

  /** Unmasking a masked template gives the template back exactly when no text between two
      regions spells the sentinel of an earlier region. */
  lemma RoundTrip(doc: Doc)
    requires NoNul(doc.lead) && Clean(doc.pieces)
    ensures UnmaskFrom(Masked(doc), Holes(doc.pieces), 0) == Text(doc) <==> !Clash(doc.pieces, 0)
  {
    RestoreChain(doc.lead, doc.pieces, 0, Holes(doc.pieces));
    PlainNoNul(doc.pieces);
  }

  /** The smallest template that is not restored: three comments, with `H0` between the last two. */
  lemma RoundTripFails()
    ensures var c := "{#-#}";
            var doc := Doc("", [Piece(c, ""), Piece(c, "H0"), Piece(c, "")]);
            UnmaskFrom(Masked(doc), Holes(doc.pieces), 0) != Text(doc)
  {
    var c := "{#-#}";
    var doc := Doc("", [Piece(c, ""), Piece(c, "H0"), Piece(c, "")]);
    assert Dec(0) == "0";
    assert Spells(doc.pieces, "", 1, 0);
    RoundTrip(doc);
  }
}
