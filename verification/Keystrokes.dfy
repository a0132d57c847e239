/** routes/terminal.py: rebuilding the command lines of a console session from its raw input
    bytes, for the audit log. */
module Keystrokes {
  import opened Common
  import opened PyText

  const ESC: byte := 0x1b
  const CMD_LIMIT := 1000

  datatype Token = Escape | Submit | Erase | Kill | Abort | Ignored | Type(c: char)

  /** What is handed to the audit log, before secrets are redacted. */
  datatype Entry = Ran(cmd: string) | Aborted(cmd: string)

  datatype State = State(buf: string, log: seq<Entry>)

  // ---- from bytes to tokens ---------------------------------------------------

  function Key(b: byte): Token
    requires b != ESC
  {
    if b == 0x0d || b == 0x0a then Submit
    else if b == 0x08 || b == 0x7f then Erase
    else if b == 0x15 then Kill
    else if b == 0x03 then Abort
    else if b < 0x20 && b != 0x09 then Ignored
    else Type(b as char)
  }

  predicate Opens(b: byte) { b == 0x5b || b == 0x4f }

  predicate Closes(b: byte) { 0x40 <= b <= 0x7e }

  /** First position at or after `i` that holds a final byte of a control sequence. */
  function FinalAt(data: seq<byte>, i: nat): (f: nat)
    requires i <= |data|
    ensures i <= f <= |data|
    ensures f < |data| ==> Closes(data[f])
    decreases |data| - i
  {
    if i == |data| || Closes(data[i]) then i else FinalAt(data, i + 1)
  }

  /** The escape sequence opened at `i` is finished within `data`. */
  predicate Finished(data: seq<byte>, i: nat) {
    i + 1 < |data| && (Opens(data[i + 1]) ==> FinalAt(data, i + 2) < |data|)
  }

  function EscapeEnd(data: seq<byte>, i: nat): (e: nat)
    requires i < |data|
    ensures i < e <= |data|
    ensures !Finished(data, i) ==> e == |data|
  {
    if i + 1 < |data| && Opens(data[i + 1]) then
      var f := FinalAt(data, i + 2);
      if f < |data| then f + 1 else f
    else i + 1
  }

  function First(data: seq<byte>, i: nat): Token
    requires i < |data|
  {
    if data[i] == ESC then Escape else Key(data[i])
  }

  function Next(data: seq<byte>, i: nat): (j: nat)
    requires i < |data|
    ensures i < j <= |data|
  {
    if data[i] == ESC then EscapeEnd(data, i) else i + 1
  }

  function Tokens(data: seq<byte>, i: nat): seq<Token>
    requires i <= |data|
    decreases |data| - i
  {
    if i == |data| then [] else [First(data, i)] + Tokens(data, Next(data, i))
  }

  // ---- the line editor --------------------------------------------------------

  function RStripCrLf(s: string): string {
    if s != "" && (s[|s| - 1] == '\r' || s[|s| - 1] == '\n') then RStripCrLf(s[..|s| - 1]) else s
  }

  function Line(buf: string): string {
    var cmd := Strip(RStripCrLf(buf));
    if |cmd| <= CMD_LIMIT then cmd else cmd[..CMD_LIMIT]
  }

  function Emitted(buf: string, aborted: bool): seq<Entry> {
    if Line(buf) == "" then [] else [if aborted then Aborted(Line(buf)) else Ran(Line(buf))]
  }

  function Apply(st: State, t: Token): State {
    match t
    case Escape => st
    case Ignored => st
    case Submit => State("", st.log + Emitted(st.buf, false))
    case Abort => State("", st.log + Emitted(st.buf, true))
    case Kill => st.(buf := "")
    case Erase => if st.buf == "" then st else st.(buf := st.buf[..|st.buf| - 1])
    case Type(c) => st.(buf := st.buf + [c])
  }

  function Replay(st: State, ts: seq<Token>): State
    decreases |ts|
  {
    if ts == [] then st else Replay(Apply(st, ts[0]), ts[1..])
  }

  lemma ReplayUnfolds(st: State, data: seq<byte>, i: nat)
    requires i < |data|
    ensures Replay(st, Tokens(data, i)) == Replay(Apply(st, First(data, i)), Tokens(data, Next(data, i)))
  {
    assert Tokens(data, i) == [First(data, i)] + Tokens(data, Next(data, i));
  }

  class Recorder {
    var buf: string
    var log: seq<Entry>

    constructor ()
      ensures buf == "" && log == []
    {
      buf, log := "", [];
    }

    function Now(): State
      reads this
    {
      State(buf, log)
    }

    method Emit(aborted: bool)
      modifies this
      ensures buf == "" && log == old(log) + Emitted(old(buf), aborted)
    {
      var cmd := Strip(RStripCrLf(buf));
      buf := "";
      if cmd == "" {
        return;
      }
      var text := if |cmd| <= CMD_LIMIT then cmd else cmd[..CMD_LIMIT];
      log := log + [if aborted then Aborted(text) else Ran(text)];
    }

    /** The escape branch: the ESC byte and any control sequence it opens. */
    static method SkipEscape(data: seq<byte>, at: nat) returns (i: nat)
      requires at < |data|
      ensures i == EscapeEnd(data, at)
    {
      i := at + 1;
      if i < |data| && Opens(data[i]) {
        i := i + 1;
        while i < |data| && !Closes(data[i])
          invariant at + 2 <= i <= |data|
          invariant FinalAt(data, i) == FinalAt(data, at + 2)
        {
          i := i + 1;
        }
        if i < |data| {
          i := i + 1;
        }
      }
    }

    /** The remaining branches, for one byte outside escape sequences. */
    method Press(b: byte)
      requires b != ESC
      modifies this
      ensures Now() == Apply(old(Now()), Key(b))
    {
      if b == 0x0d || b == 0x0a {
        Emit(false);
      } else if b == 0x08 || b == 0x7f {
        if buf != "" {
          buf := buf[..|buf| - 1];
        }
      } else if b == 0x15 {
        buf := "";
      } else if b == 0x03 {
        Emit(true);
      } else if b < 0x20 && b != 0x09 {
      } else {
        buf := buf + [b as char];
      }
    }

    /** Whatever the bytes, the recorder ends as the line editor does on their tokens. */
    method Feed(data: seq<byte>)
      modifies this
      ensures Now() == Replay(old(Now()), Tokens(data, 0))
    {
      var i := 0;
      while i < |data|
        invariant i <= |data|
        invariant Replay(Now(), Tokens(data, i)) == Replay(old(Now()), Tokens(data, 0))
      {
        ReplayUnfolds(Now(), data, i);
        if data[i] == ESC {
          i := SkipEscape(data, i);
        } else {
          Press(data[i]);
          i := i + 1;
        }
      }
    }

    /** Disconnect: a half-typed line is recorded as aborted. */
    method Close()
      modifies this
      ensures buf == "" && log == old(log) + Emitted(old(buf), true)
    {
      if buf != "" {
        Emit(true);
      } else {
        assert Strip(RStripCrLf("")) == "";
      }
    }
  }

  // ---- chunking ---------------------------------------------------------------

  /** Reading from `i`, the data stop inside an escape sequence. */
  predicate EndsOpen(data: seq<byte>, i: nat)
    requires i <= |data|
    decreases |data| - i
  {
    i < |data| && ((data[i] == ESC && !Finished(data, i)) || EndsOpen(data, Next(data, i)))
  }

  lemma {:induction false} FinalShift(a: seq<byte>, b: seq<byte>, j: nat)
    requires j <= |b|
    ensures FinalAt(a + b, |a| + j) == |a| + FinalAt(b, j)
    decreases |b| - j
  {
    if j < |b| && !Closes(b[j]) {
      assert (a + b)[|a| + j] == b[j];
      FinalShift(a, b, j + 1);
    }
  }

  lemma {:induction false} FinalWithin(a: seq<byte>, b: seq<byte>, i: nat)
    requires i <= |a| && FinalAt(a, i) < |a|
    ensures FinalAt(a + b, i) == FinalAt(a, i)
    decreases |a| - i
  {
    assert (a + b)[i] == a[i];
    if !Closes(a[i]) {
      FinalWithin(a, b, i + 1);
    }
  }

  lemma StepShift(a: seq<byte>, b: seq<byte>, j: nat)
    requires j < |b|
    ensures First(a + b, |a| + j) == First(b, j) && Next(a + b, |a| + j) == |a| + Next(b, j)
  {
    assert (a + b)[|a| + j] == b[j];
    if j + 1 < |b| && Opens(b[j + 1]) {
      assert (a + b)[|a| + j + 1] == b[j + 1];
      FinalShift(a, b, j + 2);
    }
  }

  lemma StepWithin(a: seq<byte>, b: seq<byte>, i: nat)
    requires i < |a| && (a[i] == ESC ==> Finished(a, i))
    ensures First(a + b, i) == First(a, i) && Next(a + b, i) == Next(a, i)
  {
    assert (a + b)[i] == a[i];
    if a[i] == ESC {
      assert (a + b)[i + 1] == a[i + 1];
      if Opens(a[i + 1]) {
        FinalWithin(a, b, i + 2);
      }
    }
  }

  lemma TokensUnfold(data: seq<byte>, i: nat)
    requires i < |data|
    ensures Tokens(data, i) == [First(data, i)] + Tokens(data, Next(data, i))
  {
  }

  lemma {:induction false} TokensShift(a: seq<byte>, b: seq<byte>, ab: seq<byte>, j: nat)
    requires j <= |b| && ab == a + b
    ensures Tokens(ab, |a| + j) == Tokens(b, j)
    decreases |b| - j
  {
    if j < |b| {
      StepShift(a, b, j);
      TokensUnfold(b, j);
      TokensUnfold(ab, |a| + j);
      TokensShift(a, b, ab, Next(b, j));
    }
  }

  lemma {:induction false} TokensConcat(a: seq<byte>, b: seq<byte>, i: nat)
    requires i <= |a| && !EndsOpen(a, i)
    ensures Tokens(a + b, i) == Tokens(a, i) + Tokens(b, 0)
    decreases |a| - i
  {
    if i == |a| {
      TokensShift(a, b, a + b, 0);
    } else {
      StepWithin(a, b, i);
      TokensConcat(a, b, Next(a, i));
      var first := [First(a, i)];
      assert first + (Tokens(a, Next(a, i)) + Tokens(b, 0)) == first + Tokens(a, Next(a, i)) + Tokens(b, 0);
    }
  }

  lemma {:induction false} ReplayConcat(st: State, ts: seq<Token>, us: seq<Token>)
    ensures Replay(st, ts + us) == Replay(Replay(st, ts), us)
    decreases |ts|
  {
    if ts == [] {
      assert ts + us == us;
    } else {
      assert (ts + us)[1..] == ts[1..] + us;
      ReplayConcat(Apply(st, ts[0]), ts[1..], us);
    }
  }

  function FeedOne(st: State, data: seq<byte>): State {
    Replay(st, Tokens(data, 0))
  }

  function FeedAll(st: State, chunks: seq<seq<byte>>): State
    decreases |chunks|
  {
    if chunks == [] then st else FeedAll(FeedOne(st, chunks[0]), chunks[1..])
  }

  function Concat(chunks: seq<seq<byte>>): seq<byte> {
    if chunks == [] then [] else chunks[0] + Concat(chunks[1..])
  }

  /** However the network cuts the input, as long as no cut falls inside an escape sequence, the
      record is that of the uncut input. */
  lemma {:induction false} ChunksDoNotMatter(st: State, chunks: seq<seq<byte>>)
    requires forall k :: 0 <= k < |chunks| - 1 ==> !EndsOpen(chunks[k], 0)
    ensures FeedAll(st, chunks) == FeedOne(st, Concat(chunks))
    decreases |chunks|
  {
    if chunks != [] {
      var head, tail := chunks[0], chunks[1..];
      ChunksDoNotMatter(FeedOne(st, head), tail);
      if tail == [] {
        assert head + Concat(tail) == head;
      } else {
        TokensConcat(head, Concat(tail), 0);
        ReplayConcat(st, Tokens(head, 0), Tokens(Concat(tail), 0));
      }
    }
  }

  ghost predicate SplitsSafely(a: seq<byte>) {
    forall st: State, b: seq<byte> :: FeedOne(FeedOne(st, a), b) == FeedOne(st, a + b)
  }

  /** The cut must be outside escape sequences: after any other prefix, the bytes `[A` typed next
      are recorded as text when they come in their own chunk, and swallowed otherwise. */
  lemma {:induction false} OpenPrefixDiffers(a: seq<byte>, i: nat)
    requires i <= |a| && EndsOpen(a, i)
    ensures var b: seq<byte> := [0x5b, 0x41];
            Tokens(a + b, i) == Tokens(a, i) || Tokens(a + b, i) == Tokens(a, i) + [Type('A')]
    decreases |a| - i
  {
    var b: seq<byte> := [0x5b, 0x41];
    if a[i] == ESC && !Finished(a, i) {
      OpenTail(a, i);
    } else {
      StepWithin(a, b, i);
      OpenPrefixDiffers(a, Next(a, i));
      var first := [First(a, i)];
      assert first + (Tokens(a, Next(a, i)) + [Type('A')]) == first + Tokens(a, Next(a, i)) + [Type('A')];
    }
  }

  lemma OpenTail(a: seq<byte>, i: nat)
    requires i < |a| && a[i] == ESC && !Finished(a, i)
    ensures var b: seq<byte> := [0x5b, 0x41];
            Tokens(a, i) == [Escape] &&
            (Tokens(a + b, i) == [Escape] || Tokens(a + b, i) == [Escape, Type('A')])
  {
    var b: seq<byte> := [0x5b, 0x41];
    var ab := a + b;
    assert ab[i] == a[i] && ab[|a|] == 0x5b && ab[|a| + 1] == 0x41;
    if i + 1 == |a| {
      assert FinalAt(ab, i + 2) == i + 2;
      assert Next(ab, i) == |ab|;
    } else {
      FinalBeyond(a, b, i + 2);
      assert ab[i + 1] == a[i + 1];
      assert Next(ab, i) == |a| + 1 && Next(ab, |a| + 1) == |ab|;
      assert Tokens(ab, |a| + 1) == [Type('A')] + Tokens(ab, |ab|);
    }
  }

  lemma {:induction false} FinalBeyond(a: seq<byte>, b: seq<byte>, i: nat)
    requires i <= |a| && FinalAt(a, i) == |a| && b != [] && Closes(b[0])
    ensures FinalAt(a + b, i) == |a|
    decreases |a| - i
  {
    if i < |a| {
      assert (a + b)[i] == a[i];
      FinalBeyond(a, b, i + 1);
    } else {
      assert (a + b)[i] == b[0];
    }
  }

  /** A chunk boundary is harmless for every session and every continuation exactly when it does
      not fall inside an escape sequence. */
  lemma SplitsSafelyIff(a: seq<byte>)
    ensures SplitsSafely(a) <==> !EndsOpen(a, 0)
  {
    if EndsOpen(a, 0) {
      OpenPrefixBreaks(State("", []), a);
    } else {
      forall st: State, b: seq<byte>
        ensures FeedOne(FeedOne(st, a), b) == FeedOne(st, a + b)
      {
        TokensConcat(a, b, 0);
        ReplayConcat(st, Tokens(a, 0), Tokens(b, 0));
      }
    }
  }

  lemma OpenPrefixBreaks(st: State, a: seq<byte>)
    requires EndsOpen(a, 0)
    ensures var b: seq<byte> := [0x5b, 0x41];
            |FeedOne(FeedOne(st, a), b).buf| > |FeedOne(st, a + b).buf|
  {
    var b: seq<byte> := [0x5b, 0x41];
    var mid := FeedOne(st, a);
    OpenPrefixDiffers(a, 0);
    ReplayConcat(st, Tokens(a, 0), [Type('A')]);
    assert Replay(mid, [Type('A')]) == Apply(mid, Type('A'));
    ReplayUnfolds(mid, b, 0);
    ReplayUnfolds(Apply(mid, Type('[')), b, 1);
  }

  // ---- what the line buffer holds ----------------------------------------------

  predicate Printable(c: char) {
    c == '\t' || (' ' <= c && c as int < 256 && c as int != 0x7f)
  }

  lemma {:induction false} BufferPrintable(st: State, data: seq<byte>, i: nat)
    requires i <= |data| && Every(st.buf, Printable)
    ensures Every(Replay(st, Tokens(data, i)).buf, Printable)
    decreases |data| - i
  {
    if i < |data| {
      ReplayUnfolds(st, data, i);
      BufferPrintable(Apply(st, First(data, i)), data, Next(data, i));
    }
  }

  /** So the extra strip of line ends never finds any: a recorded command is the stripped buffer,
      cut at 1000 characters. */
  lemma RecordedIsStripped(buf: string)
    requires Every(buf, Printable)
    ensures RStripCrLf(buf) == buf
    ensures Line(buf) <= Strip(buf) && |Line(buf)| <= CMD_LIMIT
    ensures |Strip(buf)| <= CMD_LIMIT ==> Line(buf) == Strip(buf)
  {
  }

  /** The text on the line after `ts`, read backwards: each erase still pending cancels the
      nearest character before it, and nothing before the last line end matters. */
  function Survivors(ts: seq<Token>, pending: nat): string {
    if ts == [] then ""
    else
      var rest := ts[..|ts| - 1];
      match ts[|ts| - 1]
      case Escape => Survivors(rest, pending)
      case Ignored => Survivors(rest, pending)
      case Erase => Survivors(rest, pending + 1)
      case Type(c) => if pending > 0 then Survivors(rest, pending - 1) else Survivors(rest, 0) + [c]
      case Submit => ""
      case Kill => ""
      case Abort => ""
  }

  /** The log entries due after `ts`: one per non-blank line submitted or aborted. */
  function Due(ts: seq<Token>): seq<Entry> {
    if ts == [] then []
    else
      var rest := ts[..|ts| - 1];
      Due(rest) +
      match ts[|ts| - 1]
      case Submit => Emitted(Survivors(rest, 0), false)
      case Abort => Emitted(Survivors(rest, 0), true)
      case _ => []
  }

  function Chop(s: string, n: nat): string {
    if n == 0 then s else if n >= |s| then "" else s[..|s| - n]
  }

  lemma ReplayLast(st: State, ts: seq<Token>)
    requires ts != []
    ensures Replay(st, ts) == Apply(Replay(st, ts[..|ts| - 1]), ts[|ts| - 1])
  {
    var rest, last := ts[..|ts| - 1], ts[|ts| - 1];
    assert ts == rest + [last];
    ReplayConcat(st, rest, [last]);
    assert Replay(Replay(st, rest), [last]) == Apply(Replay(st, rest), last);
  }

  /** The forward editor and the backward reading agree on the line buffer ... */
  lemma {:induction false} BufferIsSurvivors(ts: seq<Token>, pending: nat)
    ensures Survivors(ts, pending) == Chop(Replay(State("", []), ts).buf, pending)
  {
    if ts != [] {
      var rest, last := ts[..|ts| - 1], ts[|ts| - 1];
      ReplayLast(State("", []), ts);
      match last {
        case Escape => BufferIsSurvivors(rest, pending);
        case Ignored => BufferIsSurvivors(rest, pending);
        case Erase => BufferIsSurvivors(rest, pending + 1);
        case Type(c) => BufferIsSurvivors(rest, if pending > 0 then pending - 1 else 0);
        case _ =>
      }
    }
  }

  /** ... and on everything recorded. */
  lemma {:induction false} LogIsDue(ts: seq<Token>)
    ensures Replay(State("", []), ts).log == Due(ts)
  {
    if ts != [] {
      ReplayLast(State("", []), ts);
      BufferIsSurvivors(ts[..|ts| - 1], 0);
      LogIsDue(ts[..|ts| - 1]);
    }
  }

  // ---- what the operator's bytes mean -------------------------------------------------------------

  /** Bytes that type themselves: TAB, blank to tilde, and everything above DEL. */
  predicate IsText(b: byte) {
    b == 0x09 || 0x20 <= b <= 0x7e || b > 0x7f
  }

  function Text(data: seq<byte>): (s: string)
    ensures |s| == |data|
  {
    seq(|data|, i requires 0 <= i < |data| => data[i] as char)
  }

  lemma FeedByte(st: State, b: byte, rest: seq<byte>)
    requires b != ESC
    ensures FeedOne(st, [b] + rest) == FeedOne(Apply(st, Key(b)), rest)
  {
    var data := [b] + rest;
    TokensConcat([b], rest, 0);
    ReplayConcat(st, Tokens([b], 0), Tokens(rest, 0));
    assert Tokens([b], 0) == [Key(b)] + Tokens([b], 1);
    assert Replay(st, [Key(b)]) == Apply(st, Key(b));
  }

  /** Typed text collects on the line. */
  lemma {:induction false} TextIsTyped(st: State, data: seq<byte>, rest: seq<byte>)
    requires forall i :: 0 <= i < |data| ==> IsText(data[i])
    ensures FeedOne(st, data + rest) == FeedOne(st.(buf := st.buf + Text(data)), rest)
    decreases |data|
  {
    if data == [] {
      assert data + rest == rest && st.buf + Text(data) == st.buf;
    } else {
      var b, more := data[0], data[1..];
      FeedByte(st, b, more + rest);
      TextIsTyped(st.(buf := st.buf + [b as char]), more, rest);
      assert [b] + (more + rest) == data + rest;
      assert (st.buf + [b as char]) + Text(more) == st.buf + Text(data);
    }
  }

  /** The record of a line: stripped, cut to 1000 characters from the front, nothing if blank. */
  predicate RecordOf(line: string, aborted: bool, entries: seq<Entry>) {
    if Strip(line) == "" then entries == []
    else
      && |entries| == 1
      && var cmd := if |Strip(line)| <= 1000 then Strip(line) else Strip(line)[..1000];
         entries[0] == if aborted then Aborted(cmd) else Ran(cmd)
  }

  lemma EmittedIsRecord(line: string, aborted: bool)
    requires Every(line, Printable)
    ensures RecordOf(line, aborted, Emitted(line, aborted))
  {
    RecordedIsStripped(line);
  }

  lemma TextPrintable(data: seq<byte>)
    requires forall i :: 0 <= i < |data| ==> IsText(data[i])
    ensures Every(Text(data), Printable)
  {
  }

  /** A line typed at an empty recorder and ended by Enter is recorded as run, and by Ctrl-C as aborted, and the
      line is empty again. */
  lemma LineIsRecorded(log: seq<Entry>, data: seq<byte>, end: byte)
    requires (forall i :: 0 <= i < |data| ==> IsText(data[i])) && end in {0x0d, 0x0a, 0x03}
    ensures var st := FeedOne(State("", log), data + [end]);
            && st.buf == "" && log <= st.log && RecordOf(Text(data), end == 0x03, st.log[|log|..])
  {
    TextIsTyped(State("", log), data, [end]);
    assert "" + Text(data) == Text(data);
    var typed := State(Text(data), log);
    FeedByte(typed, end, []);
    assert [end] + [] == [end] && Tokens([], 0) == [];
    TextPrintable(data);
    EmittedIsRecord(Text(data), end == 0x03);
  }

  /** Ctrl-U empties the line and records nothing. */
  lemma KillForgets(st: State)
    ensures FeedOne(st, [0x15]) == State("", st.log)
  {
    FeedByte(st, 0x15, []);
    assert [0x15 as byte] + [] == [0x15];
  }

  /** Backspace and DEL take back the last character, if any. */
  lemma EraseTakesBack(st: State, b: byte)
    requires b in {0x08, 0x7f}
    ensures FeedOne(st, [b]) == State(if st.buf == "" then "" else st.buf[..|st.buf| - 1], st.log)
  {
    FeedByte(st, b, []);
    assert [b] + [] == [b];
  }

  /** Every other control byte does nothing. */
  lemma ControlIsIgnored(st: State, b: byte)
    requires b < 0x20 && b !in {0x03, 0x08, 0x09, 0x0a, 0x0d, 0x15, 0x1b}
    ensures FeedOne(st, [b]) == st
  {
    FeedByte(st, b, []);
    assert [b] + [] == [b];
  }

  lemma {:induction false} FinalIsAt(data: seq<byte>, i: nat, f: nat)
    requires i <= f < |data| && 0x40 <= data[f] <= 0x7e
    requires forall k :: i <= k < f ==> !(0x40 <= data[k] <= 0x7e)
    ensures FinalAt(data, i) == f
    decreases f - i
  {
    if i < f {
      FinalIsAt(data, i + 1, f);
    }
  }

  /** A whole control sequence, ESC with `[` or `O`, parameters and a final byte, does nothing. */
  lemma SequenceIsSkipped(st: State, opener: byte, params: seq<byte>, final: byte)
    requires opener in {0x5b, 0x4f} && 0x40 <= final <= 0x7e
    requires forall k :: 0 <= k < |params| ==> !(0x40 <= params[k] <= 0x7e)
    ensures FeedOne(st, [0x1b, opener] + params + [final]) == st
  {
    var data: seq<byte> := [0x1b, opener] + params + [final];
    var f := |params| + 2;
    assert data[f] == final && forall k :: 2 <= k < f ==> data[k] == params[k - 2];
    FinalIsAt(data, 2, f);
    assert Next(data, 0) == |data|;
    assert Tokens(data, 0) == [Escape] + Tokens(data, |data|);
    assert Tokens(data, |data|) == [];
    assert Replay(st, [Escape]) == Replay(Apply(st, Escape), []);
  }

  /** A lone ESC hides itself only: a byte that opens no sequence counts as if it came alone. */
  lemma LoneEscape(st: State, b: byte)
    requires b !in {0x1b, 0x5b, 0x4f}
    ensures FeedOne(st, [0x1b, b]) == FeedOne(st, [b])
  {
    var data: seq<byte> := [0x1b, b];
    ReplayUnfolds(st, data, 0);
    assert Next(data, 0) == 1;
    assert Tokens(data, 1) == [Key(b)] + Tokens(data, 2);
    assert Tokens([b], 0) == [Key(b)] + Tokens([b], 1);
  }
}
