/** The handful of Python `str` operations the modelled code relies on, with the laws
    (round trips, idempotence) that the other modules use. */
module PyText {

  /** `str.isspace()`; the same set as `\s` in a `str` regular expression. */
  predicate IsSpace(c: char) {
    || '\t' <= c <= '\r'
    || '\U{1c}' <= c <= ' '
    || c == '\U{85}' || c == '\U{a0}' || c == '\U{1680}'
    || '\U{2000}' <= c <= '\U{200a}'
    || c == '\U{2028}' || c == '\U{2029}' || c == '\U{202f}' || c == '\U{205f}' || c == '\U{3000}'
  }

  predicate NotSpace(c: char) { !IsSpace(c) }

  predicate Every(s: string, ok: char -> bool) {
    forall i :: 0 <= i < |s| ==> ok(s[i])
  }

  /** No piece contains `sep`. */
  predicate Free(parts: seq<string>, sep: char) {
    forall i :: 0 <= i < |parts| ==> sep !in parts[i]
  }

  function LStrip(s: string): string {
    if s != "" && IsSpace(s[0]) then LStrip(s[1..]) else s
  }

  function RStrip(s: string): string {
    if s != "" && IsSpace(s[|s| - 1]) then RStrip(s[..|s| - 1]) else s
  }

  /** `str.strip()` */
  function Strip(s: string): string {
    RStrip(LStrip(s))
  }

  /** Stripped text: what `strip` returns and leaves alone. */
  predicate Trimmed(s: string) {
    s == "" || (!IsSpace(s[0]) && !IsSpace(s[|s| - 1]))
  }

  lemma {:induction false} LStripSuffix(s: string)
    ensures LStrip(s) == "" || !IsSpace(LStrip(s)[0])
    ensures |LStrip(s)| <= |s| && LStrip(s) == s[|s| - |LStrip(s)|..]
  {
    if s != "" && IsSpace(s[0]) {
      LStripSuffix(s[1..]);
    }
  }

  lemma {:induction false} RStripPrefix(s: string)
    ensures RStrip(s) == "" || !IsSpace(RStrip(s)[|RStrip(s)| - 1])
    ensures |RStrip(s)| <= |s| && RStrip(s) == s[..|RStrip(s)|]
  {
    if s != "" && IsSpace(s[|s| - 1]) {
      RStripPrefix(s[..|s| - 1]);
    }
  }

  lemma StripTrimmed(s: string)
    ensures Trimmed(Strip(s))
    ensures Trimmed(s) ==> Strip(s) == s
  {
    LStripSuffix(s);
    RStripPrefix(LStrip(s));
  }

  lemma {:induction false} LeadDropped(lead: string, s: string)
    requires Every(lead, IsSpace) && (s == "" || !IsSpace(s[0]))
    ensures LStrip(lead + s) == s
  {
    if lead == "" {
      assert lead + s == s;
    } else {
      assert (lead + s)[1..] == lead[1..] + s;
      LeadDropped(lead[1..], s);
    }
  }

  lemma {:induction false} TrailDropped(s: string, trail: string)
    requires Every(trail, IsSpace) && (s == "" || !IsSpace(s[|s| - 1]))
    ensures RStrip(s + trail) == s
  {
    if trail == "" {
      assert s + trail == s;
    } else {
      var n := |trail| - 1;
      assert (s + trail)[..|s| + n] == s + trail[..n];
      TrailDropped(s, trail[..n]);
    }
  }

  /** White space around trimmed text is what `strip` removes, ... */
  lemma StripUnpads(lead: string, core: string, trail: string)
    requires Every(lead, IsSpace) && Every(trail, IsSpace) && Trimmed(core)
    ensures Strip(lead + core + trail) == core
  {
    if core == "" {
      LeadDropped(lead + trail, "");
      assert lead + core + trail == lead + trail + "";
    } else {
      assert lead + core + trail == lead + (core + trail);
      LeadDropped(lead, core + trail);
      TrailDropped(core, trail);
    }
  }

  lemma {:induction false} LStripPads(s: string) returns (lead: string)
    ensures s == lead + LStrip(s) && Every(lead, IsSpace)
  {
    lead := "";
    if s != "" && IsSpace(s[0]) {
      var l := LStripPads(s[1..]);
      lead := [s[0]] + l;
    }
  }

  lemma {:induction false} RStripPads(s: string) returns (trail: string)
    ensures s == RStrip(s) + trail && Every(trail, IsSpace)
  {
    trail := "";
    if s != "" && IsSpace(s[|s| - 1]) {
      var l := RStripPads(s[..|s| - 1]);
      trail := l + [s[|s| - 1]];
    }
  }

  /** ... and it removes nothing but white space, at the two ends only. */
  lemma StripPads(s: string) returns (lead: string, trail: string)
    ensures s == lead + Strip(s) + trail && Every(lead, IsSpace) && Every(trail, IsSpace)
    ensures Trimmed(Strip(s))
  {
    lead := LStripPads(s);
    trail := RStripPads(LStrip(s));
    StripTrimmed(s);
  }

  /** `piece` is the trimmed text `core`, with white space or nothing on either side. */
  ghost predicate Surrounds(piece: string, core: string) {
    && Trimmed(core)
    && exists lead, trail :: Every(lead, IsSpace) && Every(trail, IsSpace) && piece == lead + core + trail
  }

  lemma SurroundsIsStrip(piece: string, core: string)
    ensures Surrounds(piece, core) <==> core == Strip(piece)
  {
    if Surrounds(piece, core) {
      var lead, trail :|
        Every(lead, IsSpace) && Every(trail, IsSpace) && piece == lead + core + trail;
      StripUnpads(lead, core, trail);
    }
    var lead, trail := StripPads(piece);
  }

  lemma StripPadded(lead: string, s: string, trail: string)
    requires Every(lead, IsSpace) && Every(trail, IsSpace)
    ensures Strip(lead + s + trail) == Strip(s)
  {
    var l, t := StripPads(s);
    assert lead + s + trail == (lead + l) + Strip(s) + (t + trail);
    StripUnpads(lead + l, Strip(s), t + trail);
  }

  function LowerChar(c: char): char {
    if 'A' <= c <= 'Z' then c + ' ' else c
  }

  /** `str.lower()` on ASCII. */
  function Lower(s: string): (t: string) {
    if s == "" then "" else [LowerChar(s[0])] + Lower(s[1..])
  }

  /** Only the capitals change, each to the small letter 32 places on. */
  lemma {:induction false} LowerIs(s: string)
    ensures |Lower(s)| == |s|
    ensures forall i :: 0 <= i < |s| ==>
              Lower(s)[i] == if 'A' <= s[i] <= 'Z' then (s[i] as int + 32) as char else s[i]
  {
    if s != "" {
      LowerIs(s[1..]);
    }
  }

  /** `s` reads `word`, a word of small letters, in any mixture of capitals and small letters. */
  predicate Spells(s: string, word: string) {
    |s| == |word| && forall i :: 0 <= i < |s| ==> s[i] == word[i] || s[i] as int + 32 == word[i] as int
  }

  lemma LowerSpells(s: string, word: string)
    requires Every(word, IsSmall)
    ensures Lower(s) == word <==> Spells(s, word)
  {
    LowerIs(s);
    if Spells(s, word) {
      forall i | 0 <= i < |s| ensures Lower(s)[i] == word[i] {
        assert IsSmall(word[i]);
      }
    }
  }

  predicate IsSmall(c: char) { 'a' <= c <= 'z' }

  /** Length of the text before the first `sep`. */
  function Head(s: string, sep: char): (n: nat)
    ensures n <= |s|
    ensures forall k :: 0 <= k < n ==> s[k] != sep
    ensures n < |s| ==> s[n] == sep
  {
    if s == "" || s[0] == sep then 0 else 1 + Head(s[1..], sep)
  }

  /** `s.split(sep)` for a one-character separator: always at least one piece. */
  function Split(s: string, sep: char): (parts: seq<string>)
    ensures parts != []
    ensures Free(parts, sep)
    decreases |s|
  {
    var n := Head(s, sep);
    if n == |s| then [s] else [s[..n]] + Split(s[n + 1..], sep)
  }

  /** `sep.join(parts)` */
  function Join(parts: seq<string>, sep: char): string {
    if parts == [] then ""
    else if |parts| == 1 then parts[0]
    else parts[0] + [sep] + Join(parts[1..], sep)
  }

  lemma FirstPiece(p: string, rest: string, sep: char)
    requires sep !in p
    ensures Split(p, sep) == [p]
    ensures Split(p + [sep] + rest, sep) == [p] + Split(rest, sep)
  {
    var s := p + [sep] + rest;
    assert s[|p|] == sep && s[..|p|] == p && s[|p| + 1..] == rest;
    assert forall k :: 0 <= k < |p| ==> s[k] == p[k] && p[k] in p;
    assert Head(s, sep) == |p|;
  }

  lemma FirstCut(s: string, sep: char) returns (p: string, rest: string)
    requires sep in s
    ensures sep !in p && s == p + [sep] + rest
  {
    var n := Head(s, sep);
    p, rest := s[..n], s[n + 1..];
  }

  lemma Regroup(a: string, b: string, c: string, d: string)
    ensures a + (b + c + d) == a + b + c + d && b + c + d + a == b + c + (d + a)
  {
  }

  lemma SplitAfterLead(lead: string, s: string, sep: char) returns (first: string, rest: seq<string>)
    requires sep !in lead
    ensures Split(s, sep) == [first] + rest && Split(lead + s, sep) == [lead + first] + rest
  {
    if sep in s {
      var p, r := FirstCut(s, sep);
      FirstPiece(p, r, sep);
      FirstPiece(lead + p, r, sep);
      Regroup(lead, p, [sep], r);
      first, rest := p, Split(r, sep);
    } else {
      FirstPiece(s, "", sep);
      FirstPiece(lead + s, "", sep);
      first, rest := s, [];
    }
  }

  lemma SplitBeforeTrail(s: string, trail: string, sep: char) returns (first: string, rest: string)
    requires sep in s && sep !in trail
    ensures |rest| < |s|
    ensures Split(s, sep) == [first] + Split(rest, sep)
    ensures Split(s + trail, sep) == [first] + Split(rest + trail, sep)
  {
    first, rest := FirstCut(s, sep);
    FirstPiece(first, rest, sep);
    FirstPiece(first, rest + trail, sep);
    Regroup(trail, first, [sep], rest);
  }

  lemma {:induction false} SplitJoin(parts: seq<string>, sep: char)
    requires parts != []
    requires Free(parts, sep)
    ensures Split(Join(parts, sep), sep) == parts
  {
    assert parts == [parts[0]] + parts[1..];
    if |parts| == 1 {
      FirstPiece(parts[0], "", sep);
    } else {
      FirstPiece(parts[0], Join(parts[1..], sep), sep);
      SplitJoin(parts[1..], sep);
    }
  }

  lemma JoinCons(p: string, tail: seq<string>, sep: char)
    requires tail != []
    ensures Join([p] + tail, sep) == p + [sep] + Join(tail, sep)
  {
    assert ([p] + tail)[1..] == tail;
  }

  lemma CutAt(s: string, n: nat)
    requires n < |s|
    ensures s[..n] + [s[n]] + s[n + 1..] == s
  {
  }

  lemma {:induction false} JoinSplit(s: string, sep: char)
    ensures Join(Split(s, sep), sep) == s
    decreases |s|
  {
    var n := Head(s, sep);
    if n < |s| {
      var tail := Split(s[n + 1..], sep);
      assert Split(s, sep) == [s[..n]] + tail;
      JoinSplit(s[n + 1..], sep);
      JoinCons(s[..n], tail, sep);
      CutAt(s, n);
    }
  }

  lemma {:induction false} JoinEvery(parts: seq<string>, sep: char, ok: char -> bool)
    requires ok(sep)
    requires forall i :: 0 <= i < |parts| ==> Every(parts[i], ok)
    ensures Every(Join(parts, sep), ok)
  {
    if |parts| > 1 {
      JoinEvery(parts[1..], sep, ok);
    }
  }

  // ---- decimal numerals ----------------------------------------------------

  /** First code point of every non-ASCII block of ten decimal digits (Unicode category Nd),
      which `\d` matches and `int()` reads. */
  const OTHER_ZEROS: seq<int> := [
    0x660, 0x6f0, 0x7c0, 0x966, 0x9e6, 0xa66, 0xae6, 0xb66, 0xbe6, 0xc66, 0xce6, 0xd66, 0xde6,
    0xe50, 0xed0, 0xf20, 0x1040, 0x1090, 0x17e0, 0x1810, 0x1946, 0x19d0, 0x1a80, 0x1a90, 0x1b50,
    0x1bb0, 0x1c40, 0x1c50, 0xa620, 0xa8d0, 0xa900, 0xa9d0, 0xa9f0, 0xaa50, 0xabf0, 0xff10,
    0x104a0, 0x10d30, 0x11066, 0x110f0, 0x11136, 0x111d0, 0x112f0, 0x11450, 0x114d0, 0x11650,
    0x116c0, 0x11730, 0x118e0, 0x11950, 0x11c50, 0x11d50, 0x11da0, 0x16a60, 0x16ac0, 0x16b50,
    0x1d7ce, 0x1d7d8, 0x1d7e2, 0x1d7ec, 0x1d7f6, 0x1e140, 0x1e2f0, 0x1e950, 0x1fbf0]

  /** The zero of the digit block holding `code`, searched from entry `i`; -1 when there is none. */
  function BlockZero(code: int, i: nat): (z: int)
    ensures z == -1 || z <= code <= z + 9
    decreases |OTHER_ZEROS| - i, code
  {
    if i >= |OTHER_ZEROS| then -1
    else if OTHER_ZEROS[i] <= code <= OTHER_ZEROS[i] + 9 then OTHER_ZEROS[i]
    else BlockZero(code, i + 1)
  }

  predicate IsAsciiDigit(c: char) { '0' <= c <= '9' }

  predicate IsDigit(c: char) {
    '0' <= c <= '9' || (c as int >= 0x660 && BlockZero(c as int, 0) >= 0)
  }

  function DigitValue(c: char): (v: nat)
    requires IsDigit(c)
    ensures v <= 9
  {
    if '0' <= c <= '9' then c as int - '0' as int else c as int - BlockZero(c as int, 0)
  }

  predicate AllDigits(s: string) {
    forall k :: 0 <= k < |s| ==> IsDigit(s[k])
  }

  /** `int(s)` on a digit string (0 for the empty one, which callers never pass). */
  function Value(s: string): nat
    requires AllDigits(s)
  {
    if s == "" then 0 else 10 * Value(s[..|s| - 1]) + DigitValue(s[|s| - 1])
  }

  /** A digit is worth its distance from the zero of its block. */
  lemma {:induction false} BlockZeroHolds(code: int, i: nat)
    requires BlockZero(code, i) != -1
    ensures BlockZero(code, i) in OTHER_ZEROS
    decreases |OTHER_ZEROS| - i
  {
    if i < |OTHER_ZEROS| && !(OTHER_ZEROS[i] <= code <= OTHER_ZEROS[i] + 9) {
      BlockZeroHolds(code, i + 1);
    }
  }

  lemma DigitsConcat(s: string, t: string)
    ensures AllDigits(s + t) <==> AllDigits(s) && AllDigits(t)
  {
    if AllDigits(s + t) {
      assert forall k :: 0 <= k < |s| ==> s[k] == (s + t)[k];
      assert forall k :: 0 <= k < |t| ==> t[k] == (s + t)[|s| + k];
    }
  }

  lemma ValueSnoc(s: string, c: char)
    requires AllDigits(s) && IsDigit(c)
    ensures AllDigits(s + [c]) && Value(s + [c]) == 10 * Value(s) + DigitValue(c)
  {
    assert (s + [c])[..|s|] == s;
  }

  /** Each digit weighs ten times the one after it. */
  lemma {:induction false} ValueConcat(s: string, t: string)
    requires AllDigits(s) && AllDigits(t)
    ensures AllDigits(s + t) && Value(s + t) == Value(s) * Pow10(|t|) + Value(t)
  {
    DigitsConcat(s, t);
    if t == "" {
      assert s + t == s;
    } else {
      var n := |t| - 1;
      var c := t[n];
      assert t == t[..n] + [c];
      assert AllDigits(t[..n]);
      ValueConcat(s, t[..n]);
      ValueSnoc(t[..n], c);
      ValueSnoc(s + t[..n], c);
      assert s + t == s + t[..n] + [c];
      TimesTen(Value(s), Pow10(n), Value(t[..n]), DigitValue(c));
      assert Pow10(|t|) == 10 * Pow10(n);
    }
  }

  lemma TimesTen(v: nat, p: nat, w: nat, d: nat)
    ensures 10 * (v * p + w) + d == v * (10 * p) + (10 * w + d)
  {
  }

  /** `str(n)` */
  function Dec(n: nat): (s: string)
    ensures s != "" && Every(s, IsAsciiDigit)
    ensures |s| > 1 ==> s[0] != '0'
  {
    var last := ('0' as int + n % 10) as char;
    if n < 10 then [last] else Dec(n / 10) + [last]
  }

  lemma {:induction false} ValueDec(n: nat)
    ensures AllDigits(Dec(n)) && Value(Dec(n)) == n
  {
    if n >= 10 {
      ValueDec(n / 10);
      assert Dec(n)[..|Dec(n)| - 1] == Dec(n / 10);
    }
  }

  lemma DecInjective(m: nat, n: nat)
    requires Dec(m) == Dec(n)
    ensures m == n
  {
    ValueDec(m);
    ValueDec(n);
  }

  lemma {:induction false} DecLength(n: nat, width: nat)
    requires n < Pow10(width) && width > 0
    ensures |Dec(n)| <= width
  {
    if n >= 10 {
      DecLength(n / 10, width - 1);
    }
  }

  function Pow10(k: nat): (p: nat)
    ensures p > 0
  {
    if k == 0 then 1 else 10 * Pow10(k - 1)
  }
}
