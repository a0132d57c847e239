/** app/validators.py: the port-list canonicaliser and the validators that accept its output. */
module Ports {
  import opened Common
  import opened PyText

  const MAX_PORT := 65535

  /** `ValueError` becomes `Rejected`. */
  datatype Outcome = Accepted(text: string) | Rejected

  datatype Entry = Single(port: nat) | Span(lo: nat, hi: nat) {
    function First(): nat { if Single? then port else lo }
    function Last(): nat { if Single? then port else hi }
    predicate InBounds() { 1 <= First() <= Last() <= MAX_PORT }
  }

  // ---- what a port string means -------------------------------------------

  /** `tok` is a numeral, or two numerals around one `:` or `-`. */
  ghost predicate Names(tok: string, e: Entry) {
    || (tok != "" && AllDigits(tok) && e == Single(Value(tok)))
    || exists k :: SplitsAt(tok, k) && e == Span(Value(tok[..k]), Value(tok[k + 1..]))
  }

  ghost predicate SplitsAt(tok: string, k: int) {
    && 0 < k < |tok| - 1
    && (tok[k] == ':' || tok[k] == '-')
    && AllDigits(tok[..k]) && AllDigits(tok[k + 1..])
  }

  predicate Blank(piece: string) { Every(piece, IsSpace) }

  ghost predicate Holds(piece: string, e: Entry) {
    exists core :: Surrounds(piece, core) && Names(core, e)
  }

  ghost predicate Covers(piece: string, port: nat) {
    exists e :: Holds(piece, e) && e.First() <= port <= e.Last()
  }

  /** `port` belongs to the set of ports that `text` lists between its commas. */
  ghost predicate Denotes(text: string, port: nat) {
    exists i :: 0 <= i < |Split(text, ',')| && Covers(Split(text, ',')[i], port)
  }

  /** The pieces hold the entries `es`, in order; blank pieces hold none. */
  ghost predicate HoldAll(pieces: seq<string>, es: seq<Entry>) {
    if pieces == [] then es == []
    else if Blank(pieces[0]) then HoldAll(pieces[1..], es)
    else es != [] && Holds(pieces[0], es[0]) && HoldAll(pieces[1..], es[1..])
  }

  ghost predicate Lists(text: string, es: seq<Entry>) {
    HoldAll(Split(text, ','), es)
  }

  // ---- normalize_ports -----------------------------------------------------

  /** The non-blank comma-separated pieces, each stripped. */
  function Tokens(text: string): seq<string> {
    NonBlank(Split(Strip(text), ','))
  }

  function NonBlank(pieces: seq<string>): seq<string> {
    if pieces == [] then []
    else
      var t := Strip(pieces[0]);
      (if t == "" then [] else [t]) + NonBlank(pieces[1..])
  }


  /** Length of the leading run of digits. */
  function DigitRun(s: string): (n: nat)
    ensures n <= |s| && AllDigits(s[..n])
    ensures n < |s| ==> !IsDigit(s[n])
  {
    if s == "" || !IsDigit(s[0]) then 0
    else
      var n := DigitRun(s[1..]);
      assert forall k :: 0 < k <= n ==> s[k] == s[1..][..n][k - 1];
      1 + n
  }

  /** The pattern `^\d+([:\-]\d+)?$` on stripped text. */
  predicate Matches(tok: string) {
    var n := DigitRun(tok);
    n > 0 && (n == |tok| || ((tok[n] == ':' || tok[n] == '-') && n + 1 < |tok| && AllDigits(tok[n + 1..])))
  }

  lemma MatchSplits(tok: string)
    requires Matches(tok)
    ensures AllDigits(tok) <==> DigitRun(tok) == |tok|
    ensures (':' in tok || '-' in tok) <==> DigitRun(tok) < |tok|
    ensures DigitRun(tok) < |tok| ==>
              Head(tok, if ':' in tok then ':' else '-') == DigitRun(tok) && SplitsAt(tok, DigitRun(tok))
  {
    var n := DigitRun(tok);
    assert !IsDigit(':') && !IsDigit('-');
    assert forall k :: 0 <= k < n ==> tok[k] == tok[..n][k];
    assert forall k :: n < k < |tok| ==> tok[k] == tok[n + 1..][k - n - 1];
  }

  /** One pass of the loop over tokens: the pattern test, the split at the separator found, the
      bounds test. `None` stands for the raised error. */
  function ReadToken(tok: string): (e: Option<Entry>) {
    if !Matches(tok) then None
    else
      MatchSplits(tok);
      if '-' in tok || ':' in tok then
        var k := Head(tok, if ':' in tok then ':' else '-');
        var lo, hi := Value(tok[..k]), Value(tok[k + 1..]);
        if 1 <= lo <= hi <= MAX_PORT then Some(Span(lo, hi)) else None
      else
        var port := Value(tok);
        if 1 <= port <= MAX_PORT then Some(Single(port)) else None
  }

  function Render(e: Entry): string {
    match e
    case Single(port) => Dec(port)
    case Span(lo, hi) => Dec(lo) + ":" + Dec(hi)
  }

  function ReadAll(toks: seq<string>): (es: Option<seq<Entry>>)
    ensures es.Some? ==> |es.value| == |toks|
  {
    if toks == [] then Some([])
    else
      var rest := ReadAll(toks[..|toks| - 1]);
      var last := ReadToken(toks[|toks| - 1]);
      if rest.None? || last.None? then None else Some(rest.value + [last.value])
  }

  function RenderAll(es: seq<Entry>): (ts: seq<string>)
    ensures |ts| == |es| && forall i :: 0 <= i < |es| ==> ts[i] == Render(es[i])
  {
    if es == [] then [] else RenderAll(es[..|es| - 1]) + [Render(es[|es| - 1])]
  }

  function Canonical(value: string, allowEmpty: bool): Outcome {
    var toks := Tokens(value);
    if toks == [] then (if allowEmpty then Accepted("") else Rejected)
    else
      var es := ReadAll(toks);
      if es.None? then Rejected else Accepted(Join(RenderAll(es.value), ','))
  }

  method NormalizePorts(value: string, allowEmpty: bool) returns (r: Outcome)
    ensures r == Canonical(value, allowEmpty)
  {
    var raw := Strip(value);
    if raw == "" {
      EmptyText();
      return if allowEmpty then Accepted("") else Rejected;
    }
    var parts := NonBlank(Split(raw, ','));
    if parts == [] {
      return if allowEmpty then Accepted("") else Rejected;
    }
    var normalized: seq<string> := [];
    ghost var es: seq<Entry> := [];
    assert parts[..0] == [];
    for i := 0 to |parts|
      invariant |es| == i && ReadAll(parts[..i]) == Some(es)
      invariant normalized == RenderAll(es)
    {
      var e := ReadToken(parts[i]);
      ReadAllStep(parts, i);
      if e.None? {
        ReadAllStuck(parts, i + 1);
        return Rejected;
      }
      normalized := normalized + [Render(e.value)];
      es := es + [e.value];
      assert es[..|es| - 1] == es[..i];
    }
    assert parts[..|parts|] == parts;
    r := Accepted(Join(normalized, ','));
  }

  lemma ReadAllStep(toks: seq<string>, i: nat)
    requires i < |toks|
    ensures ReadAll(toks[..i + 1]) ==
            if ReadAll(toks[..i]).None? || ReadToken(toks[i]).None? then None
            else Some(ReadAll(toks[..i]).value + [ReadToken(toks[i]).value])
  {
    assert toks[..i + 1][..i] == toks[..i];
  }

  lemma {:induction false} ReadAllStuck(toks: seq<string>, n: nat)
    requires n <= |toks| && ReadAll(toks[..n]).None?
    ensures ReadAll(toks).None?
  {
    if n < |toks| {
      assert toks[..|toks| - 1][..n] == toks[..n];
      ReadAllStuck(toks[..|toks| - 1], n);
    } else {
      assert toks[..n] == toks;
    }
  }

  // ---- the loop reads what the string means ---------------------------------

  lemma SplitPointIsDigitRun(tok: string, k: nat)
    requires SplitsAt(tok, k)
    ensures DigitRun(tok) == k
  {
    var n := DigitRun(tok);
    assert !IsDigit(tok[k]);
    assert forall i :: 0 <= i < k ==> tok[i] == tok[..k][i];
    assert forall i :: 0 <= i < n ==> tok[i] == tok[..n][i];
  }

  lemma RunsToEnd(tok: string)
    requires AllDigits(tok)
    ensures DigitRun(tok) == |tok|
  {
  }

  lemma SingleShape(tok: string, e: Entry)
    requires Names(tok, e) && e.Single?
    ensures AllDigits(tok) && e == Single(Value(tok))
  {
  }

  lemma SpanShape(tok: string, e: Entry)
    requires Names(tok, e) && e.Span?
    ensures var k := DigitRun(tok); SplitsAt(tok, k) && e == Span(Value(tok[..k]), Value(tok[k + 1..]))
  {
    var k :| SplitsAt(tok, k) && e == Span(Value(tok[..k]), Value(tok[k + 1..]));
    SplitPointIsDigitRun(tok, k);
  }

  lemma ReadIsNamed(tok: string)
    requires ReadToken(tok).Some?
    ensures Names(tok, ReadToken(tok).value) && ReadToken(tok).value.InBounds()
  {
    MatchSplits(tok);
    if ReadToken(tok).value.Span? {
      assert SplitsAt(tok, DigitRun(tok));
    }
  }

  lemma NamedIsRead(tok: string, e: Entry)
    requires Names(tok, e) && e.InBounds()
    ensures ReadToken(tok) == Some(e)
  {
    if e.Single? {
      SingleShape(tok, e);
      RunsToEnd(tok);
    } else {
      SpanShape(tok, e);
    }
    MatchSplits(tok);
  }

  lemma ReadTokenIsNames(tok: string, e: Entry)
    ensures ReadToken(tok) == Some(e) <==> Names(tok, e) && e.InBounds()
  {
    if ReadToken(tok) == Some(e) {
      ReadIsNamed(tok);
    }
    if Names(tok, e) && e.InBounds() {
      NamedIsRead(tok, e);
    }
  }

  ghost predicate ReadsAs(toks: seq<string>, es: seq<Entry>) {
    |toks| == |es| && forall i :: 0 <= i < |es| ==> ReadToken(toks[i]) == Some(es[i])
  }

  lemma {:induction false} ReadAllSound(toks: seq<string>)
    requires ReadAll(toks).Some?
    ensures ReadsAs(toks, ReadAll(toks).value)
  {
    if toks != [] {
      ReadAllSound(toks[..|toks| - 1]);
    }
  }

  lemma {:induction false} ReadAllExact(toks: seq<string>, es: seq<Entry>)
    requires ReadsAs(toks, es)
    ensures ReadAll(toks) == Some(es)
  {
    if toks != [] {
      var n := |toks| - 1;
      ReadAllExact(toks[..n], es[..n]);
      assert es == es[..n] + [es[n]];
    }
  }

  lemma {:induction false} ReadAllComplete(toks: seq<string>)
    requires forall i :: 0 <= i < |toks| ==> ReadToken(toks[i]).Some?
    ensures ReadAll(toks).Some?
  {
    if toks != [] {
      ReadAllComplete(toks[..|toks| - 1]);
    }
  }

  // ---- the pieces that are read -----------------------------------------------

  lemma BlankIsStripped(piece: string)
    ensures Blank(piece) <==> Strip(piece) == ""
  {
    var lead, trail := StripPads(piece);
    if Blank(piece) {
      StripUnpads(piece, "", "");
      assert piece + "" + "" == piece;
    }
  }

  lemma NonBlankFirst(piece: string, pieces: seq<string>)
    ensures NonBlank([piece] + pieces) == (if Blank(piece) then [] else [Strip(piece)]) + NonBlank(pieces)
  {
    BlankIsStripped(piece);
    assert ([piece] + pieces)[1..] == pieces;
  }

  lemma NoComma(s: string)
    requires Every(s, IsSpace)
    ensures ',' !in s
  {
    assert !IsSpace(',');
  }

  lemma SameFirst(piece: string, piece': string, rest: seq<string>)
    requires Strip(piece) == Strip(piece')
    ensures NonBlank([piece] + rest) == NonBlank([piece'] + rest)
  {
    assert ([piece] + rest)[1..] == rest && ([piece'] + rest)[1..] == rest;
  }

  lemma LeadUnread(lead: string, s: string)
    requires Every(lead, IsSpace)
    ensures NonBlank(Split(lead + s, ',')) == NonBlank(Split(s, ','))
  {
    NoComma(lead);
    var first, rest := SplitAfterLead(lead, s, ',');
    StripPadded(lead, first, "");
    assert lead + first + "" == lead + first;
    SameFirst(first, lead + first, rest);
  }

  lemma {:induction false} TrailUnread(s: string, trail: string)
    requires Every(trail, IsSpace)
    ensures NonBlank(Split(s + trail, ',')) == NonBlank(Split(s, ','))
    decreases |s|
  {
    NoComma(trail);
    if ',' in s {
      var first, rest := SplitBeforeTrail(s, trail, ',');
      TrailUnread(rest, trail);
      NonBlankFirst(first, Split(rest, ','));
      NonBlankFirst(first, Split(rest + trail, ','));
    } else {
      FirstPiece(s, "", ',');
      FirstPiece(s + trail, "", ',');
      assert "" + s + trail == s + trail;
      StripPadded("", s, trail);
      SameFirst(s, s + trail, []);
    }
  }

  /** The strip before the split loses no piece. */
  lemma TokensArePieces(text: string)
    ensures Tokens(text) == NonBlank(Split(text, ','))
  {
    var lead, trail := StripPads(text);
    TrailUnread(lead + Strip(text), trail);
    LeadUnread(lead, Strip(text));
  }

  lemma NoEntryInBlank(e: Entry)
    ensures !Names("", e)
  {
  }

  ghost predicate NamesAll(toks: seq<string>, es: seq<Entry>) {
    |es| == |toks| && forall i :: 0 <= i < |es| ==> Names(toks[i], es[i])
  }

  lemma HoldAllFirst(piece: string, rest: seq<string>, es: seq<Entry>)
    ensures HoldAll([piece] + rest, es) <==>
              if Blank(piece) then HoldAll(rest, es)
              else es != [] && Holds(piece, es[0]) && HoldAll(rest, es[1..])
  {
    assert ([piece] + rest)[1..] == rest;
  }

  lemma {:induction false} HoldAllIsNamesAll(pieces: seq<string>, es: seq<Entry>)
    ensures HoldAll(pieces, es) <==> NamesAll(NonBlank(pieces), es)
  {
    if pieces != [] {
      var piece, rest := pieces[0], pieces[1..];
      assert pieces == [piece] + rest;
      NonBlankFirst(piece, rest);
      HoldAllFirst(piece, rest, es);
      if Blank(piece) {
        HoldAllIsNamesAll(rest, es);
        assert NonBlank(pieces) == NonBlank(rest);
      } else if es != [] {
        HoldAllIsNamesAll(rest, es[1..]);
        HoldsIsNames(piece, es[0]);
        NamesAllCons(Strip(piece), NonBlank(rest), es);
      }
    }
  }

  lemma NamesAllCons(t: string, rest: seq<string>, es: seq<Entry>)
    requires es != []
    ensures NamesAll([t] + rest, es) <==> Names(t, es[0]) && NamesAll(rest, es[1..])
  {
    var toks := [t] + rest;
    assert toks[0] == t && forall i :: 0 < i < |toks| ==> toks[i] == rest[i - 1];
    if NamesAll(toks, es) {
      forall i | 0 <= i < |es| - 1 ensures Names(rest[i], es[1..][i]) {
        assert Names(toks[i + 1], es[i + 1]);
      }
    }
    if Names(t, es[0]) && NamesAll(rest, es[1..]) {
      forall i | 0 <= i < |es| ensures Names(toks[i], es[i]) {
        assert i > 0 ==> Names(rest[i - 1], es[1..][i - 1]);
      }
    }
  }

  lemma HoldsIsNames(piece: string, e: Entry)
    ensures Holds(piece, e) <==> Names(Strip(piece), e)
  {
    SurroundsIsStrip(piece, Strip(piece));
    if Holds(piece, e) {
      var core :| Surrounds(piece, core) && Names(core, e);
      SurroundsIsStrip(piece, core);
    }
  }

  lemma ListsIsNamesAll(text: string, es: seq<Entry>)
    ensures Lists(text, es) <==> NamesAll(Tokens(text), es)
  {
    TokensArePieces(text);
    HoldAllIsNamesAll(Split(text, ','), es);
  }

  ghost predicate NamesPorts(tok: string) {
    exists e :: Names(tok, e) && e.InBounds()
  }

  lemma ReadTokenAccepts(tok: string)
    ensures ReadToken(tok).Some? <==> NamesPorts(tok)
  {
    if ReadToken(tok).Some? {
      ReadTokenIsNames(tok, ReadToken(tok).value);
    }
    if NamesPorts(tok) {
      var e :| Names(tok, e) && e.InBounds();
      ReadTokenIsNames(tok, e);
    }
  }

  ghost predicate PieceOk(piece: string) {
    Blank(piece) || exists e :: Holds(piece, e) && e.InBounds()
  }

  ghost predicate AllOk(pieces: seq<string>) {
    forall i :: 0 <= i < |pieces| ==> PieceOk(pieces[i])
  }

  predicate AllBlank(pieces: seq<string>) {
    forall i :: 0 <= i < |pieces| ==> Blank(pieces[i])
  }

  predicate AllRead(toks: seq<string>) {
    forall i :: 0 <= i < |toks| ==> ReadToken(toks[i]).Some?
  }

  lemma AllReadCons(tok: string, rest: seq<string>)
    ensures AllRead([tok] + rest) <==> ReadToken(tok).Some? && AllRead(rest)
  {
    var toks := [tok] + rest;
    assert toks[0] == tok && toks[1..] == rest;
    assert forall i :: 0 < i < |toks| ==> toks[i] == rest[i - 1];
    assert forall i :: 0 <= i < |rest| ==> rest[i] == toks[i + 1];
  }

  lemma PiecesCons(piece: string, rest: seq<string>)
    ensures AllOk([piece] + rest) <==> PieceOk(piece) && AllOk(rest)
    ensures AllBlank([piece] + rest) <==> Blank(piece) && AllBlank(rest)
  {
    var pieces := [piece] + rest;
    assert pieces[0] == piece && pieces[1..] == rest;
    assert forall i :: 0 < i < |pieces| ==> pieces[i] == rest[i - 1];
    assert forall i :: 0 <= i < |rest| ==> rest[i] == pieces[i + 1];
  }

  lemma PieceReads(piece: string)
    requires !Blank(piece)
    ensures PieceOk(piece) <==> ReadToken(Strip(piece)).Some?
  {
    ReadTokenAccepts(Strip(piece));
    if NamesPorts(Strip(piece)) {
      var e :| Names(Strip(piece), e) && e.InBounds();
      HoldsIsNames(piece, e);
    }
    if PieceOk(piece) {
      var e :| Holds(piece, e) && e.InBounds();
      HoldsIsNames(piece, e);
    }
  }

  lemma {:induction false} PiecesRead(pieces: seq<string>)
    ensures AllOk(pieces) <==> AllRead(NonBlank(pieces))
    ensures AllBlank(pieces) <==> NonBlank(pieces) == []
  {
    if pieces != [] {
      var first, rest := pieces[0], pieces[1..];
      assert pieces == [first] + rest;
      PiecesCons(first, rest);
      NonBlankFirst(first, rest);
      PiecesRead(rest);
      if !Blank(first) {
        PieceReads(first);
        AllReadCons(Strip(first), NonBlank(rest));
        assert NonBlank(pieces) == [Strip(first)] + NonBlank(rest);
      } else {
        assert NonBlank(pieces) == NonBlank(rest);
        assert PieceOk(first);
      }
    }
  }

  /** Acceptance, in both directions: every piece between the commas is blank or names ports within
      1..65535 in ascending order, and nothing but blanks passes only when the caller allows it. */
  lemma AcceptedIffWellFormed(value: string, allowEmpty: bool)
    ensures Canonical(value, allowEmpty).Accepted? <==>
            (AllBlank(Split(value, ',')) ==> allowEmpty) && AllOk(Split(value, ','))
  {
    TokensArePieces(value);
    PiecesRead(Split(value, ','));
    var toks := Tokens(value);
    if AllRead(toks) {
      ReadAllComplete(toks);
    }
    if ReadAll(toks).Some? {
      ReadAllSound(toks);
    }
  }

  // ---- the canonical form ----------------------------------------------------

  /** A comma-joined list of plain numerals and `lo:hi` pairs without leading zeros. */
  ghost predicate IsCanonical(text: string, es: seq<Entry>) {
    text == Join(RenderAll(es), ',') && AllInBounds(es)
  }

  predicate AllInBounds(es: seq<Entry>) {
    forall i :: 0 <= i < |es| ==> es[i].InBounds()
  }

  /** Neither blank nor list separator. */
  predicate Solid(t: string) {
    t != "" && Every(t, NotListSep)
  }

  lemma RenderReads(e: Entry)
    requires e.InBounds()
    ensures Names(Render(e), e) && ReadToken(Render(e)) == Some(e)
  {
    var t := Render(e);
    match e {
      case Single(port) =>
        ValueDec(port);
      case Span(lo, hi) =>
        ValueDec(lo);
        ValueDec(hi);
        var k := |Dec(lo)|;
        assert t[..k] == Dec(lo) && t[k + 1..] == Dec(hi);
        assert SplitsAt(t, k);
    }
    ReadTokenIsNames(t, e);
  }

  lemma RenderSolid(e: Entry)
    ensures Solid(Render(e))
  {
    match e {
      case Single(port) =>
        assert Every(Dec(port), IsAsciiDigit);
      case Span(lo, hi) =>
        assert Every(Dec(lo), IsAsciiDigit) && Every(Dec(hi), IsAsciiDigit);
    }
  }

  lemma SolidTrimmed(t: string)
    requires t != "" && Every(t, NotSpace)
    ensures Strip(t) == t
  {
    StripTrimmed(t);
  }

  lemma RenderAllReads(es: seq<Entry>)
    requires AllInBounds(es)
    ensures ReadAll(RenderAll(es)) == Some(es)
  {
    forall i | 0 <= i < |es| ensures ReadToken(RenderAll(es)[i]) == Some(es[i]) {
      RenderReads(es[i]);
    }
    ReadAllExact(RenderAll(es), es);
  }

  ghost predicate AllSolid(ts: seq<string>) {
    forall i :: 0 <= i < |ts| ==> Solid(ts[i])
  }

  lemma {:induction false} NonBlankKeeps(pieces: seq<string>)
    requires Free(pieces, ',') && AllSolid(pieces)
    ensures NonBlank(pieces) == pieces
  {
    if pieces != [] {
      SolidTrimmed(pieces[0]);
      assert AllSolid(pieces[1..]);
      NonBlankKeeps(pieces[1..]);
    }
  }

  lemma TokensOfJoin(ts: seq<string>)
    requires ts != [] && AllSolid(ts)
    ensures Join(ts, ',') != "" && Strip(Join(ts, ',')) == Join(ts, ',') && Tokens(Join(ts, ',')) == ts
  {
    var text := Join(ts, ',');
    forall i | 0 <= i < |ts| ensures Every(ts[i], NotSpace) && ',' !in ts[i] {
      assert Solid(ts[i]);
    }
    JoinEvery(ts, ',', NotSpace);
    assert text != "" by { assert Solid(ts[0]); }
    SolidTrimmed(text);
    SplitJoin(ts, ',');
    NonBlankKeeps(ts);
  }

  lemma CanonicalTokens(text: string, es: seq<Entry>)
    requires es != [] && IsCanonical(text, es)
    ensures text != "" && Strip(text) == text && Tokens(text) == RenderAll(es)
  {
    forall i | 0 <= i < |es| ensures Solid(RenderAll(es)[i]) {
      RenderSolid(es[i]);
    }
    TokensOfJoin(RenderAll(es));
  }

  /** The output is in canonical form: its entries are those of the input, in order. */
  lemma AcceptedIsCanonical(value: string, allowEmpty: bool) returns (es: seq<Entry>)
    requires Canonical(value, allowEmpty).Accepted?
    ensures IsCanonical(Canonical(value, allowEmpty).text, es) && Lists(value, es)
  {
    var toks := Tokens(value);
    es := [];
    if toks != [] {
      es := ReadAll(toks).value;
      ReadAllSound(toks);
      forall i | 0 <= i < |es| ensures Names(toks[i], es[i]) && es[i].InBounds() {
        ReadTokenIsNames(toks[i], es[i]);
      }
    }
    ListsIsNamesAll(value, es);
  }

  lemma NamesUnique(tok: string, e: Entry, e': Entry)
    requires Names(tok, e) && Names(tok, e')
    ensures e == e'
  {
    if e.Single? { SingleShape(tok, e); RunsToEnd(tok); } else { SpanShape(tok, e); }
    if e'.Single? { SingleShape(tok, e'); RunsToEnd(tok); } else { SpanShape(tok, e'); }
  }

  ghost predicate SomeCovers(pieces: seq<string>, port: nat) {
    exists i :: 0 <= i < |pieces| && Covers(pieces[i], port)
  }

  ghost predicate SomeIncludes(es: seq<Entry>, port: nat) {
    exists i :: 0 <= i < |es| && es[i].First() <= port <= es[i].Last()
  }

  lemma PieceCovers(piece: string, e: Entry, port: nat)
    requires Holds(piece, e)
    ensures Covers(piece, port) <==> e.First() <= port <= e.Last()
  {
    HoldsIsNames(piece, e);
    if Covers(piece, port) {
      var f :| Holds(piece, f) && f.First() <= port <= f.Last();
      HoldsIsNames(piece, f);
      NamesUnique(Strip(piece), e, f);
    }
  }

  lemma BlankCovers(piece: string, port: nat)
    requires Blank(piece)
    ensures !Covers(piece, port)
  {
    BlankIsStripped(piece);
    if Covers(piece, port) {
      var e :| Holds(piece, e) && e.First() <= port <= e.Last();
      HoldsIsNames(piece, e);
    }
  }

  lemma {:induction false} HeldPorts(pieces: seq<string>, es: seq<Entry>, port: nat)
    requires HoldAll(pieces, es)
    ensures SomeCovers(pieces, port) <==> SomeIncludes(es, port)
  {
    if pieces != [] {
      var rest := pieces[1..];
      assert pieces == [pieces[0]] + rest;
      assert SomeCovers(pieces, port) <==> Covers(pieces[0], port) || SomeCovers(rest, port);
      if Blank(pieces[0]) {
        BlankCovers(pieces[0], port);
        HeldPorts(rest, es, port);
      } else {
        PieceCovers(pieces[0], es[0], port);
        HeldPorts(rest, es[1..], port);
        assert es == [es[0]] + es[1..];
        assert SomeIncludes(es, port) <==> es[0].First() <= port <= es[0].Last() || SomeIncludes(es[1..], port);
      }
    }
  }

  lemma CanonicalLists(text: string, es: seq<Entry>)
    requires IsCanonical(text, es)
    ensures Lists(text, es)
  {
    if es == [] {
      EmptyText();
    } else {
      CanonicalTokens(text, es);
      forall i | 0 <= i < |es| ensures Names(Tokens(text)[i], es[i]) {
        RenderReads(es[i]);
      }
    }
    ListsIsNamesAll(text, es);
  }

  lemma EmptyText()
    ensures Tokens("") == []
  {
    assert Split("", ',') == [""];
    assert NonBlank([""]) == NonBlank([""][1..]);
  }

  /** The accepted output lists exactly the ports the input lists. */
  lemma SamePorts(value: string, allowEmpty: bool, port: nat)
    requires Canonical(value, allowEmpty).Accepted?
    ensures Denotes(Canonical(value, allowEmpty).text, port) <==> Denotes(value, port)
  {
    var out := Canonical(value, allowEmpty).text;
    var es := AcceptedIsCanonical(value, allowEmpty);
    CanonicalLists(out, es);
    HeldPorts(Split(value, ','), es, port);
    HeldPorts(Split(out, ','), es, port);
    assert Denotes(out, port) <==> SomeCovers(Split(out, ','), port);
    assert Denotes(value, port) <==> SomeCovers(Split(value, ','), port);
  }

  /** `pieces` are `cores`, in order, with any white space around each and any blank pieces between. */
  ghost predicate PaddingOf(pieces: seq<string>, cores: seq<string>)
    decreases |pieces|
  {
    if pieces == [] then cores == []
    else
      || (Blank(pieces[0]) && PaddingOf(pieces[1..], cores))
      || (cores != [] && cores[0] != "" && Surrounds(pieces[0], cores[0]) && PaddingOf(pieces[1..], cores[1..]))
  }

  lemma {:induction false} PaddingUnread(pieces: seq<string>, cores: seq<string>)
    requires PaddingOf(pieces, cores) && Free(pieces, ',')
    ensures NonBlank(pieces) == cores && Free(cores, ',')
  {
    if pieces != [] {
      var piece, rest := pieces[0], pieces[1..];
      assert pieces == [piece] + rest && Free(rest, ',');
      NonBlankFirst(piece, rest);
      BlankIsStripped(piece);
      if Blank(piece) && PaddingOf(rest, cores) {
        PaddingUnread(rest, cores);
      } else {
        SurroundsIsStrip(piece, cores[0]);
        PaddingUnread(rest, cores[1..]);
        assert cores == [cores[0]] + cores[1..];
        var lead, trail := StripPads(piece);
        assert ',' !in piece;
        assert ',' !in cores[0];
      }
    }
  }

  lemma {:induction false} CoresPlain(cores: seq<string>)
    requires forall i :: 0 <= i < |cores| ==> cores[i] != "" && Trimmed(cores[i])
    ensures NonBlank(cores) == cores
  {
    if cores != [] {
      StripTrimmed(cores[0]);
      CoresPlain(cores[1..]);
      assert cores == [cores[0]] + cores[1..];
    }
  }

  lemma {:induction false} CoresTrimmed(pieces: seq<string>, cores: seq<string>)
    requires PaddingOf(pieces, cores)
    ensures forall i :: 0 <= i < |cores| ==> cores[i] != "" && Trimmed(cores[i])
  {
    if pieces != [] {
      if Blank(pieces[0]) && PaddingOf(pieces[1..], cores) {
        CoresTrimmed(pieces[1..], cores);
      } else {
        CoresTrimmed(pieces[1..], cores[1..]);
        assert forall i :: 0 < i < |cores| ==> cores[i] == cores[1..][i - 1];
      }
    }
  }

  lemma TokensOfPieces(pieces: seq<string>)
    requires Free(pieces, ',')
    ensures Tokens(Join(pieces, ',')) == NonBlank(pieces)
  {
    TokensArePieces(Join(pieces, ','));
    if pieces == [] {
      EmptyText();
    } else {
      SplitJoin(pieces, ',');
    }
  }

  /** White space around the entries and blank pieces between them make no difference. */
  lemma PaddingIgnored(pieces: seq<string>, cores: seq<string>, allowEmpty: bool)
    requires PaddingOf(pieces, cores) && Free(pieces, ',')
    ensures Canonical(Join(pieces, ','), allowEmpty) == Canonical(Join(cores, ','), allowEmpty)
  {
    PaddingUnread(pieces, cores);
    CoresTrimmed(pieces, cores);
    CoresPlain(cores);
    TokensOfPieces(pieces);
    TokensOfPieces(cores);
    SameTokens(Join(pieces, ','), Join(cores, ','), allowEmpty);
  }

  lemma SameTokens(text: string, text': string, allowEmpty: bool)
    requires Tokens(text) == Tokens(text')
    ensures Canonical(text, allowEmpty) == Canonical(text', allowEmpty)
  {
  }

  /** Normalising a normalised string changes nothing. */
  lemma Idempotent(value: string, allowEmpty: bool)
    requires Canonical(value, allowEmpty).Accepted?
    ensures Canonical(Canonical(value, allowEmpty).text, allowEmpty) == Canonical(value, allowEmpty)
  {
    var out := Canonical(value, allowEmpty).text;
    var es := AcceptedIsCanonical(value, allowEmpty);
    if es == [] {
      EmptyText();
    } else {
      CanonicalTokens(out, es);
      RenderAllReads(es);
    }
  }

  // ---- validate_port_range / validate_port_list ------------------------------

  /** The pattern `^(\d{1,5})(?:[:\-](\d{1,5}))?$` on stripped text. */
  predicate RangeShape(v: string) {
    var n := DigitRun(v);
    && 1 <= n <= 5
    && (n == |v| || ((v[n] == ':' || v[n] == '-') && 1 <= |v| - n - 1 <= 5 && AllDigits(v[n + 1..])))
  }

  /** With the bounds tests. */
  predicate PortRangeOk(v: string) {
    && RangeShape(v)
    && var n := DigitRun(v);
       var start := Value(v[..n]);
       var end := if n < |v| then Value(v[n + 1..]) else start;
       && 1 <= start <= MAX_PORT && 1 <= end <= MAX_PORT
       && start <= end
  }

  function ValidatePortRange(value: string, allowEmpty: bool): Outcome {
    var v := Strip(value);
    if v == "" then (if allowEmpty then Accepted(v) else Rejected)
    else if PortRangeOk(v) then Accepted(v)
    else Rejected
  }

  /** `v` names `e` with numerals of at most five digits. */
  ghost predicate NamesShortly(v: string, e: Entry) {
    || (v != "" && AllDigits(v) && |v| <= 5 && e == Single(Value(v)))
    || exists k :: ShortSplit(v, k) && e == Span(Value(v[..k]), Value(v[k + 1..]))
  }

  ghost predicate ShortSplit(v: string, k: int) {
    SplitsAt(v, k) && k <= 5 && |v| - k - 1 <= 5
  }

  ghost predicate NamesRange(v: string) {
    exists e :: NamesShortly(v, e) && e.InBounds()
  }

  lemma SingleOk(v: string)
    requires DigitRun(v) == |v|
    ensures PortRangeOk(v) <==> 1 <= |v| <= 5 && 1 <= Value(v) <= MAX_PORT
  {
    assert v[..|v|] == v;
  }

  lemma OkSplits(v: string)
    requires RangeShape(v) && DigitRun(v) < |v|
    ensures ShortSplit(v, DigitRun(v))
  {
  }

  lemma SpanOk(v: string, lo: nat, hi: nat)
    requires var k := DigitRun(v); ShortSplit(v, k) && lo == Value(v[..k]) && hi == Value(v[k + 1..])
    ensures PortRangeOk(v) <==> 1 <= lo <= hi <= MAX_PORT
  {
  }

  lemma OkNamesRange(v: string)
    requires PortRangeOk(v)
    ensures NamesRange(v)
  {
    var k := DigitRun(v);
    if k == |v| {
      SingleOk(v);
      assert NamesShortly(v, Single(Value(v)));
    } else {
      OkSplits(v);
      SpanOk(v, Value(v[..k]), Value(v[k + 1..]));
      assert NamesShortly(v, Span(Value(v[..k]), Value(v[k + 1..])));
    }
  }

  lemma SpanNamedOk(v: string, e: Entry, k: int)
    requires ShortSplit(v, k) && e == Span(Value(v[..k]), Value(v[k + 1..])) && e.InBounds()
    ensures PortRangeOk(v)
  {
    SplitPointIsDigitRun(v, k);
    SpanOk(v, e.lo, e.hi);
  }

  lemma NamedRangeOk(v: string, e: Entry)
    requires NamesShortly(v, e) && e.InBounds()
    ensures PortRangeOk(v)
  {
    match e
    case Single(_) =>
      RunsToEnd(v);
      SingleOk(v);
    case Span(_, _) =>
      var k :| ShortSplit(v, k) && e == Span(Value(v[..k]), Value(v[k + 1..]));
      SpanNamedOk(v, e, k);
  }

  lemma RangeOkIff(v: string)
    ensures PortRangeOk(v) <==> NamesRange(v)
  {
    if PortRangeOk(v) {
      OkNamesRange(v);
    }
    if NamesRange(v) {
      var e :| NamesShortly(v, e) && e.InBounds();
      NamedRangeOk(v, e);
    }
  }

  /** One port or an ascending range within 1..65535, without the white space around it; blank text passes only
      when the caller allows it. */
  lemma PortRangeIff(value: string, allowEmpty: bool)
    ensures ValidatePortRange(value, allowEmpty) in {Accepted(Strip(value)), Rejected}
    ensures ValidatePortRange(value, allowEmpty).Accepted? <==>
              if Blank(value) then allowEmpty else NamesRange(Strip(value))
  {
    BlankIsStripped(value);
    RangeOkIff(Strip(value));
  }

  predicate IsListSep(c: char) { c == ',' || IsSpace(c) }

  predicate NotListSep(c: char) { !IsListSep(c) }

  /** Length of the leading stretch free of list separators. */
  function WordLength(s: string): (n: nat)
    ensures n <= |s|
    ensures forall k :: 0 <= k < n ==> !IsListSep(s[k])
    ensures n < |s| ==> IsListSep(s[n])
  {
    if s == "" || IsListSep(s[0]) then 0 else 1 + WordLength(s[1..])
  }

  /** The non-empty pieces of `re.split(r"[,\s]+", s)`. */
  function Words(s: string): seq<string>
    decreases |s|
  {
    if s == "" then []
    else if IsListSep(s[0]) then Words(s[1..])
    else
      var n := WordLength(s);
      [s[..n]] + Words(s[n..])
  }

  predicate AllRanges(words: seq<string>) {
    forall i :: 0 <= i < |words| ==> ValidatePortRange(words[i], false).Accepted?
  }

  function ValidatePortList(value: string, allowEmpty: bool): Outcome {
    var v := Strip(value);
    if v == "" then (if allowEmpty then Accepted(v) else Rejected)
    else if AllRanges(Words(v)) then Accepted(v)
    else Rejected
  }

  /** `s[i..j]` is a stretch without list separators that none can be added to. */
  predicate IsWord(s: string, i: int, j: int) {
    && 0 <= i < j <= |s| && Every(s[i..j], NotListSep)
    && (i == 0 || IsListSep(s[i - 1])) && (j == |s| || IsListSep(s[j]))
  }

  ghost predicate HasWord(s: string, w: string) {
    exists i, j :: IsWord(s, i, j) && s[i..j] == w
  }

  lemma WordOpens(s: string, i: int, j: int)
    requires IsWord(s, i, j)
    ensures forall k :: i <= k < j ==> !IsListSep(s[k])
  {
    assert forall k :: i <= k < j ==> s[k] == s[i..j][k - i];
  }

  lemma HasWordAfterSep(s: string, w: string)
    requires s != "" && IsListSep(s[0])
    ensures HasWord(s, w) <==> HasWord(s[1..], w)
  {
    if i, j :| IsWord(s, i, j) && s[i..j] == w {
      WordOpens(s, i, j);
      assert s[1..][i - 1..j - 1] == s[i..j];
      assert IsWord(s[1..], i - 1, j - 1);
    }
    if i, j :| IsWord(s[1..], i, j) && s[1..][i..j] == w {
      assert s[i + 1..j + 1] == s[1..][i..j];
      assert IsWord(s, i + 1, j + 1);
    }
  }

  lemma HasWordFirst(s: string, w: string)
    requires s != "" && !IsListSep(s[0])
    ensures HasWord(s, w) <==> w == s[..WordLength(s)] || HasWord(s[WordLength(s)..], w)
  {
    var n := WordLength(s);
    assert s[0..n] == s[..n] && IsWord(s, 0, n);
    if i, j :| IsWord(s, i, j) && s[i..j] == w {
      WordPlace(s, i, j);
    }
    if i, j :| IsWord(s[n..], i, j) && s[n..][i..j] == w {
      WordMoves(s, n, i, j);
    }
  }

  lemma WordPlace(s: string, i: int, j: int)
    requires IsWord(s, i, j)
    ensures var n := WordLength(s);
            if i == 0 then j == n else i > n && IsWord(s[n..], i - n, j - n) && s[n..][i - n..j - n] == s[i..j]
  {
    var n := WordLength(s);
    WordOpens(s, i, j);
    if i > 0 {
      SliceOfRest(s, n, i, j);
    }
  }

  lemma SliceOfRest(s: string, n: nat, i: int, j: int)
    requires n < i <= j <= |s|
    ensures s[n..][i - n..j - n] == s[i..j] && s[n..][i - n - 1] == s[i - 1]
    ensures j < |s| ==> s[n..][j - n] == s[j]
  {
  }

  lemma WordMoves(s: string, n: nat, i: int, j: int)
    requires n <= |s| && (n < |s| ==> IsListSep(s[n])) && IsWord(s[n..], i, j)
    ensures IsWord(s, i + n, j + n) && s[i + n..j + n] == s[n..][i..j]
  {
    var t := s[n..];
    assert s[i + n..j + n] == t[i..j];
    assert t[i..j][0] == t[i] == s[n + i];
    assert i > 0 ==> t[i - 1] == s[i + n - 1];
    assert j < |t| ==> t[j] == s[j + n];
  }

  /** The words of a text are all of these and nothing else. */
  lemma {:induction false} WordsAre(s: string, w: string)
    ensures w in Words(s) <==> HasWord(s, w)
    decreases |s|
  {
    if s != "" {
      if IsListSep(s[0]) {
        HasWordAfterSep(s, w);
        WordsAre(s[1..], w);
      } else {
        HasWordFirst(s, w);
        WordsAre(s[WordLength(s)..], w);
      }
    }
  }

  /** The list validator takes any text whose words are ports or ranges, separated by commas or white space. */
  lemma PortListIff(value: string, allowEmpty: bool)
    ensures ValidatePortList(value, allowEmpty) in {Accepted(Strip(value)), Rejected}
    ensures ValidatePortList(value, allowEmpty).Accepted? <==>
              if Blank(value) then allowEmpty
              else forall w :: HasWord(Strip(value), w) ==> NamesRange(w)
  {
    var v := Strip(value);
    BlankIsStripped(value);
    forall w | w in Words(v) || HasWord(v, w)
      ensures w in Words(v) && HasWord(v, w) && (ValidatePortRange(w, false).Accepted? <==> NamesRange(w))
    {
      WordsAre(v, w);
      WordIsSolid(v, w);
      PortRangeIff(w, false);
      BlankIsStripped(w);
    }
  }

  lemma WordIsSolid(s: string, w: string)
    requires HasWord(s, w)
    ensures w != "" && Strip(w) == w
  {
    SolidTrimmed(w);
  }

  lemma FirstWord(t: string, rest: string)
    requires Solid(t) && (rest == "" || IsListSep(rest[0]))
    ensures Words(t + rest) == [t] + Words(rest)
  {
    var s := t + rest;
    assert forall k :: 0 <= k < |t| ==> s[k] == t[k] && !IsListSep(t[k]);
    assert rest != "" ==> s[|t|] == rest[0];
    assert WordLength(s) == |t|;
    assert s[..|t|] == t && s[|t|..] == rest;
  }

  lemma {:induction false} WordsOfJoin(ts: seq<string>)
    requires ts != [] && AllSolid(ts)
    ensures Words(Join(ts, ',')) == ts
  {
    var t := ts[0];
    assert Solid(t);
    assert ts == [t] + ts[1..];
    if |ts| == 1 {
      FirstWord(t, "");
      assert t + "" == t;
    } else {
      var tail := Join(ts[1..], ',');
      WordsOfJoin(ts[1..]);
      assert t + [','] + tail == t + ([','] + tail);
      FirstWord(t, [','] + tail);
      assert ([','] + tail)[1..] == tail;
    }
  }

  lemma NumeralWidth(n: nat)
    requires n <= MAX_PORT
    ensures 1 <= |Dec(n)| <= 5 && AllDigits(Dec(n)) && Value(Dec(n)) == n
  {
    assert Pow10(5) == 100000;
    DecLength(n, 5);
    ValueDec(n);
  }

  lemma RenderIsPortRange(e: Entry)
    requires e.InBounds()
    ensures ValidatePortRange(Render(e), false).Accepted?
  {
    RenderSolid(e);
    SolidTrimmed(Render(e));
    match e
    case Single(port) => NumeralIsPortRange(port);
    case Span(lo, hi) => PairIsPortRange(lo, hi);
  }

  lemma NumeralIsPortRange(port: nat)
    requires 1 <= port <= MAX_PORT
    ensures PortRangeOk(Dec(port))
  {
    var t := Dec(port);
    NumeralWidth(port);
    assert DigitRun(t) == |t| && t[..|t|] == t;
  }

  lemma PairIsPortRange(lo: nat, hi: nat)
    requires 1 <= lo <= hi <= MAX_PORT
    ensures PortRangeOk(Dec(lo) + ":" + Dec(hi))
  {
    var t, k := Dec(lo) + ":" + Dec(hi), |Dec(lo)|;
    NumeralWidth(lo);
    NumeralWidth(hi);
    assert t[..k] == Dec(lo) && t[k + 1..] == Dec(hi);
    SplitPointIsDigitRun(t, k);
  }

  /** The form-field validator accepts every normalised string, unchanged. */
  lemma PortListAcceptsCanonical(value: string, allowEmpty: bool)
    requires Canonical(value, allowEmpty).Accepted?
    ensures ValidatePortList(Canonical(value, allowEmpty).text, allowEmpty) == Canonical(value, allowEmpty)
  {
    var out := Canonical(value, allowEmpty).text;
    var es := AcceptedIsCanonical(value, allowEmpty);
    if es != [] {
      CanonicalTokens(out, es);
      forall i | 0 <= i < |es|
        ensures Solid(RenderAll(es)[i]) && ValidatePortRange(RenderAll(es)[i], false).Accepted?
      {
        RenderSolid(es[i]);
        RenderIsPortRange(es[i]);
      }
      WordsOfJoin(RenderAll(es));
    }
  }

  /** The converse fails: the list validator also takes blank-separated ports, ... */
  lemma PortListTakesBlanks(a: Entry, b: Entry, allowEmpty: bool)
    requires a.InBounds() && b.InBounds()
    ensures ValidatePortList(Render(a) + " " + Render(b), allowEmpty).Accepted?
  {
    var t, u := Render(a), Render(b);
    RenderSolid(a);
    RenderSolid(b);
    RenderIsPortRange(a);
    RenderIsPortRange(b);
    SpacedWords(t, u);
    RangesListed(t + " " + u, [t, u], allowEmpty);
  }

  lemma RangesListed(v: string, words: seq<string>, allowEmpty: bool)
    requires v != "" && Strip(v) == v && Words(v) == words && AllRanges(words)
    ensures ValidatePortList(v, allowEmpty).Accepted?
  {
  }

  lemma SpacedWords(t: string, u: string)
    requires Solid(t) && Solid(u)
    ensures Strip(t + " " + u) == t + " " + u && Words(t + " " + u) == [t, u]
  {
    var v := t + " " + u;
    assert v[0] == t[0] && v[|v| - 1] == u[|u| - 1];
    StripTrimmed(v);
    WordsOfTwo(t, u);
  }

  /** ... which the canonicaliser refuses. */
  lemma CanonicaliserRefusesBlanks(a: Entry, b: Entry, allowEmpty: bool)
    ensures Canonical(Render(a) + " " + Render(b), allowEmpty) == Rejected
  {
    var v := Render(a) + " " + Render(b);
    RenderSolid(a);
    RenderSolid(b);
    StripTrimmed(v);
    assert Head(v, ',') == |v|;
    assert NonBlank([v]) == [v] + NonBlank([v][1..]);
    BlankNeverMatches(v, |Render(a)|);
    ReadAllStep([v], 0);
    assert [v][..1] == [v];
  }

  lemma WordsOfTwo(t: string, u: string)
    requires Solid(t) && Solid(u)
    ensures Words(t + " " + u) == [t, u]
  {
    FirstWord(u, "");
    assert u + "" == u;
    FirstWord(t, " " + u);
    assert (" " + u)[1..] == u;
    assert t + " " + u == t + (" " + u);
  }

  lemma BlankNeverMatches(tok: string, k: nat)
    requires k < |tok| && tok[k] == ' '
    ensures !Matches(tok)
  {
    var n := DigitRun(tok);
    assert !IsDigit(' ');
    assert forall i :: 0 <= i < n ==> tok[i] == tok[..n][i];
    assert forall i :: n < i < |tok| ==> tok[i] == tok[n + 1..][i - n - 1];
  }
}
