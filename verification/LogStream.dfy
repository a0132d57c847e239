/** routes/status.py: the live log stream, a consumer that polls the event table behind an id cursor. */
module LogStream {
  import opened Common
  import opened PyText

  const BATCH := 200

  /** Decoded details: an object, perhaps marked `soc_origin`; something falsy, blank or undecodable; or a
      truthy value that is no object. */
  datatype Payload = Object(soc: bool) | Empty | Stray

  /** `category` and `severity` are empty when NULL. */
  datatype Row = Row(id: int, soc: bool, category: string, severity: string, payload: Payload)

  /** Empty sets filter nothing. */
  datatype Filter = Filter(categories: set<string>, severities: set<string>, showSoc: bool)

  /** `Fault`: reading `soc_origin` off a value that is no object raises, and the poll ends there. */
  datatype Verdict = Emit | Skip | Fault

  function Judge(f: Filter, r: Row): Verdict {
    if !f.showSoc && r.soc then Skip
    else if f.categories != {} && r.category !in f.categories then Skip
    else if f.severities != {} && (if r.severity == "" then "info" else r.severity) !in f.severities then Skip
    else if !f.showSoc && r.payload.Stray? then Fault
    else if !f.showSoc && r.payload.Object? && r.payload.soc then Skip
    else Emit
  }

  /** What the viewer asked for: an event of the chosen categories and severities that bears no SOC mark,
      unless SOC events were asked for too. */
  predicate Wanted(f: Filter, r: Row) {
    && (f.categories == {} || r.category in f.categories)
    && (f.severities == {} || (if r.severity == "" then "info" else r.severity) in f.severities)
    && (f.showSoc || (!r.soc && r.payload != Object(true)))
  }

  /** The code cannot look for a mark in details that are no object. */
  predicate Unreadable(f: Filter, r: Row) {
    !f.showSoc && r.payload.Stray?
  }

  lemma EmitIff(f: Filter, r: Row)
    ensures Judge(f, r) == Emit <==> Wanted(f, r) && !Unreadable(f, r)
  {
  }

  /** `?hide_soc=0` from a superuser. */
  function ShowSoc(hideSoc: Option<string>, superuser: bool): bool {
    && hideSoc.Some?
    && Lower(Strip(hideSoc.value)) in ["0", "false", "no"]
    && superuser
  }

  /** The text is a zero, or reads no or false, whatever the letters' case and the white space around it. */
  predicate Declines(text: string) {
    var v := Strip(text);
    v == "0" || Spells(v, "no") || Spells(v, "false")
  }

  lemma ShowSocIff(hideSoc: Option<string>, superuser: bool)
    ensures ShowSoc(hideSoc, superuser) <==> superuser && hideSoc.Some? && Declines(hideSoc.value)
    ensures !ShowSoc(Some(""), superuser) && !ShowSoc(Some("1"), superuser)
  {
    if hideSoc.Some? {
      LowerDeclines(Strip(hideSoc.value));
    }
    StripTrimmed("");
    StripTrimmed("1");
    LowerDeclines(Strip(""));
    LowerDeclines(Strip("1"));
  }

  lemma LowerDeclines(v: string)
    ensures Lower(v) in ["0", "false", "no"] <==> v == "0" || Spells(v, "no") || Spells(v, "false")
    ensures v == "" || v == "1" ==> Lower(v) !in ["0", "false", "no"]
  {
    var w := Lower(v);
    LowerSpells(v, "no");
    LowerSpells(v, "false");
    LowerIs(v);
    assert w == "0" <==> v == "0" by {
      assert w == "0" ==> v[0] == '0';
      assert v == "0" ==> w[0] == '0';
    }
    assert w in ["0", "false", "no"] <==> w == "0" || w == "false" || w == "no";
  }

  /** Which rows a stream emits, skips or faults on. */
  type Judgement = Row -> Verdict

  function Judging(f: Filter): Judgement {
    (r: Row) => Judge(f, r)
  }

  predicate Sorted(table: seq<Row>) {
    forall i, j :: 0 <= i < j < |table| ==> table[i].id < table[j].id
  }

  /** The events to deliver with `lo < id <= hi`, in table order. */
  function Visible(judge: Judgement, table: seq<Row>, lo: int, hi: int): seq<Row> {
    if table == [] then []
    else
      var r := table[|table| - 1];
      Visible(judge, table[..|table| - 1], lo, hi) + if lo < r.id <= hi && judge(r) == Emit then [r] else []
  }

  lemma {:induction false} VisibleNone(judge: Judgement, table: seq<Row>, lo: int, hi: int)
    requires forall i :: 0 <= i < |table| ==> !(lo < table[i].id <= hi)
    ensures Visible(judge, table, lo, hi) == []
  {
    if table != [] {
      VisibleNone(judge, table[..|table| - 1], lo, hi);
    }
  }

  lemma {:induction false} VisibleSplits(judge: Judgement, table: seq<Row>, lo: int, mid: int, hi: int)
    requires Sorted(table) && lo <= mid <= hi
    ensures Visible(judge, table, lo, hi) == Visible(judge, table, lo, mid) + Visible(judge, table, mid, hi)
  {
    if table != [] {
      VisibleSplits(judge, table[..|table| - 1], lo, mid, hi);
      if table[|table| - 1].id <= mid {
        VisibleNone(judge, table[..|table| - 1], mid, hi);
      }
    }
  }

  /** The next row past the cursor is the only one delivered by moving the cursor onto it. */
  lemma {:induction false} VisibleNext(judge: Judgement, table: seq<Row>, at: nat, lo: int)
    requires Sorted(table) && at < |table| && lo < table[at].id
    requires at == 0 || table[at - 1].id <= lo
    ensures Visible(judge, table, lo, table[at].id) == if judge(table[at]) == Emit then [table[at]] else []
    decreases |table|
  {
    var init := table[..|table| - 1];
    if at == |table| - 1 {
      VisibleNone(judge, init, lo, table[at].id);
    } else {
      VisibleNext(judge, init, at, lo);
    }
  }

  lemma {:induction false} VisibleMembers(judge: Judgement, table: seq<Row>, lo: int, hi: int, r: Row)
    ensures r in Visible(judge, table, lo, hi) <==> r in table && lo < r.id <= hi && judge(r) == Emit
  {
    if table != [] {
      var init, last := table[..|table| - 1], table[|table| - 1];
      VisibleMembers(judge, init, lo, hi, r);
      assert r in table <==> r in init || r == last;
    }
  }

  lemma {:induction false} VisibleSorted(judge: Judgement, table: seq<Row>, lo: int, hi: int)
    requires Sorted(table)
    ensures Sorted(Visible(judge, table, lo, hi))
  {
    if table != [] {
      var init := table[..|table| - 1];
      VisibleSorted(judge, init, lo, hi);
      var v := Visible(judge, init, lo, hi);
      forall k | 0 <= k < |v| ensures v[k].id < table[|table| - 1].id {
        VisibleMembers(judge, init, lo, hi, v[k]);
        var i :| 0 <= i < |init| && init[i] == v[k];
        assert table[i].id < table[|table| - 1].id;
      }
    }
  }

  /** Exactly the visible rows of the window, each once, in id order. */
  lemma VisibleIsExact(judge: Judgement, table: seq<Row>, lo: int, hi: int)
    requires Sorted(table)
    ensures var v := Visible(judge, table, lo, hi);
            && Sorted(v)
            && forall r :: r in v <==> r in table && lo < r.id <= hi && judge(r) == Emit
  {
    VisibleSorted(judge, table, lo, hi);
    forall r ensures r in Visible(judge, table, lo, hi) <==> r in table && lo < r.id <= hi && judge(r) == Emit {
      VisibleMembers(judge, table, lo, hi, r);
    }
  }

  lemma VisibleExtends(judge: Judgement, table: seq<Row>, lo: int, last: int, at: nat)
    requires Sorted(table) && at < |table| && lo <= last < table[at].id
    requires at == 0 || table[at - 1].id <= last
    ensures Visible(judge, table, lo, table[at].id) ==
            Visible(judge, table, lo, last) + if judge(table[at]) == Emit then [table[at]] else []
  {
    VisibleNext(judge, table, at, last);
    VisibleSplits(judge, table, lo, last, table[at].id);
  }

  // ---- one poll ----------------------------------------------------------------------------

  /** Rows at or below the cursor. */
  function Behind(table: seq<Row>, last: int): (n: nat)
    ensures n <= |table|
    ensures n > 0 ==> table[n - 1].id <= last
    ensures n < |table| ==> table[n].id > last
  {
    BehindFrom(table, last, 0)
  }

  function BehindFrom(table: seq<Row>, last: int, i: nat): (n: nat)
    requires i <= |table|
    ensures i <= n <= |table|
    ensures n > i ==> table[n - 1].id <= last
    ensures n < |table| ==> table[n].id > last
    decreases |table| - i
  {
    if i == |table| || table[i].id > last then i else BehindFrom(table, last, i + 1)
  }

  lemma BehindIs(table: seq<Row>, last: int, n: nat)
    requires Sorted(table) && n <= |table|
    requires n > 0 ==> table[n - 1].id <= last
    requires n < |table| ==> last < table[n].id
    ensures Behind(table, last) == n
  {
  }

  /** How many of the `n` rows from `at` a poll goes through: up to and including the first fault. */
  function Through(judge: Judgement, table: seq<Row>, at: nat, n: nat): (c: nat)
    requires at + n <= |table|
    ensures c <= n
    decreases n
  {
    if n == 0 then 0
    else if judge(table[at]) == Fault then 1
    else 1 + Through(judge, table, at + 1, n - 1)
  }

  lemma {:induction false} ThroughStopsAtFault(judge: Judgement, table: seq<Row>, at: nat, n: nat)
    requires at + n <= |table|
    ensures var c := Through(judge, table, at, n);
            && (forall i :: at <= i < at + c - 1 ==> judge(table[i]) != Fault)
            && (c < n ==> c > 0 && judge(table[at + c - 1]) == Fault)
    decreases n
  {
    if n > 0 && judge(table[at]) != Fault {
      ThroughStopsAtFault(judge, table, at + 1, n - 1);
    }
  }

  /** Rows the query returns when `at` rows are behind the cursor. */
  function Size(table: seq<Row>, at: nat): (n: nat)
    requires at <= |table|
    ensures n <= BATCH && at + n <= |table|
  {
    if |table| - at < BATCH then |table| - at else BATCH
  }

  function Consumed(judge: Judgement, table: seq<Row>, at: nat): (c: nat)
    requires at <= |table|
    ensures at + c <= |table|
  {
    Through(judge, table, at, Size(table, at))
  }

  /** The cursor after a poll. */
  function Cursor(judge: Judgement, table: seq<Row>, last: int): int {
    At(table, last, Consumed(judge, table, Behind(table, last)))
  }

  /** The cursor `c` rows further on. */
  function At(table: seq<Row>, last: int, c: nat): int
    requires Behind(table, last) + c <= |table|
  {
    if c == 0 then last else table[Behind(table, last) + c - 1].id
  }

  /** A poll from `start`, having sent `before`, went through `k` of its rows and met no fault. */
  predicate Midway(judge: Judgement, table: seq<Row>, before: seq<Row>, start: int, k: nat, last: int, sent: seq<Row>) {
    var at := Behind(table, start);
    var n := Size(table, at);
    && k <= n && start <= last == At(table, start, k)
    && sent == before + Visible(judge, table, start, last)
    && Through(judge, table, at, n) == k + Through(judge, table, at + k, n - k)
  }

  /** The outcome of a poll. */
  predicate Polled(judge: Judgement, table: seq<Row>, before: seq<Row>, start: int, last: int, sent: seq<Row>) {
    start <= last == Cursor(judge, table, start) && sent == before + Visible(judge, table, start, last)
  }

  lemma MidwayStarts(judge: Judgement, table: seq<Row>, before: seq<Row>, start: int)
    ensures Midway(judge, table, before, start, 0, start, before)
  {
    VisibleNone(judge, table, start, start);
  }

  lemma MidwayEnds(judge: Judgement, table: seq<Row>, before: seq<Row>, start: int, last: int, sent: seq<Row>)
    requires Midway(judge, table, before, start, Size(table, Behind(table, start)), last, sent)
    ensures Polled(judge, table, before, start, last, sent)
  {
  }

  lemma MidwayNext(judge: Judgement, table: seq<Row>, before: seq<Row>, start: int, k: nat, last: int,
                   sent: seq<Row>, r: Row)
    requires Sorted(table) && Midway(judge, table, before, start, k, last, sent)
    requires k < Size(table, Behind(table, start)) && r == table[Behind(table, start) + k]
    ensures var next := sent + if judge(r) == Emit then [r] else [];
            if judge(r) == Fault then Polled(judge, table, before, start, r.id, next)
            else Midway(judge, table, before, start, k + 1, r.id, next)
  {
    VisibleExtends(judge, table, start, last, Behind(table, start) + k);
    assert At(table, start, k + 1) == r.id;
  }

  class Stream {
    var last: int
    var sent: seq<Row>

    /** `since_id` 0 starts at the newest event. */
    constructor (table: seq<Row>, sinceId: int)
      requires Sorted(table)
      ensures sent == [] && last == if sinceId == 0 then Newest(table) else sinceId
    {
      last := if sinceId == 0 then Newest(table) else sinceId;
      sent := [];
    }

    /** `SELECT ... WHERE id > ? ORDER BY id LIMIT 200` */
    method Select(table: seq<Row>) returns (rows: seq<Row>)
      requires Sorted(table)
      ensures |rows| == Size(table, Behind(table, last))
      ensures forall k :: 0 <= k < |rows| ==> rows[k] == table[Behind(table, last) + k]
    {
      var at := 0;
      while at < |table| && table[at].id <= last
        invariant at <= |table|
        invariant at > 0 ==> table[at - 1].id <= last
      {
        at := at + 1;
      }
      BehindIs(table, last, at);
      rows := if |table| - at < BATCH then table[at..] else table[at..at + BATCH];
    }

    /** One pass of the loop; a fault ends the poll with the cursor already past the faulty row. */
    method Poll(judge: Judgement, table: seq<Row>)
      requires Sorted(table)
      modifies this
      ensures Polled(judge, table, old(sent), old(last), last, sent)
    {
      ghost var start, before := last, sent;
      var rows := Select(table);
      MidwayStarts(judge, table, before, start);
      for k := 0 to |rows|
        invariant Midway(judge, table, before, start, k, last, sent)
      {
        var r := rows[k];
        MidwayNext(judge, table, before, start, k, last, sent, r);
        last := r.id;
        match judge(r)
        case Emit => sent := sent + [r];
        case Skip =>
        case Fault => return;
      }
      MidwayEnds(judge, table, before, start, last, sent);
    }
  }

  function Newest(table: seq<Row>): int {
    if table == [] then 0 else table[|table| - 1].id
  }

  /** The newest id: no row has a higher one, and some row has it unless there is none. */
  lemma NewestIsMax(table: seq<Row>)
    requires Sorted(table)
    ensures forall i :: 0 <= i < |table| ==> table[i].id <= Newest(table)
    ensures if table == [] then Newest(table) == 0 else exists i :: 0 <= i < |table| && table[i].id == Newest(table)
  {
    assert table != [] ==> table[|table| - 1].id == Newest(table);
  }

  /** A poll moves the cursor by what it consumed. */
  lemma CursorMoves(judge: Judgement, table: seq<Row>, last: int)
    requires Sorted(table)
    ensures Cursor(judge, table, last) >= last
    ensures var at := Behind(table, last);
            Behind(table, Cursor(judge, table, last)) == at + Consumed(judge, table, at)
  {
    var at := Behind(table, last);
    var c := Consumed(judge, table, at);
    if c > 0 {
      BehindIs(table, Cursor(judge, table, last), at + c);
    }
  }

  // ---- whole runs ------------------------------------------------------------------------------

  datatype State = State(table: seq<Row>, last: int, sent: seq<Row>)

  datatype Event = Append(row: Row) | Poll

  predicate Enabled(s: State, e: Event) {
    e.Append? ==> forall i :: 0 <= i < |s.table| ==> s.table[i].id < e.row.id
  }

  function Step(judge: Judgement, s: State, e: Event): State {
    match e
    case Append(row) => s.(table := s.table + [row])
    case Poll =>
      var last := Cursor(judge, s.table, s.last);
      s.(last := last, sent := s.sent + Visible(judge, s.table, s.last, last))
  }

  predicate Delivered(judge: Judgement, start: int, s: State) {
    && Sorted(s.table) && start <= s.last
    && (s.last != start ==> exists i :: 0 <= i < |s.table| && s.table[i].id == s.last)
    && s.sent == Visible(judge, s.table, start, s.last)
  }

  lemma StepDelivers(judge: Judgement, start: int, s: State, e: Event)
    requires Delivered(judge, start, s) && Enabled(s, e)
    ensures Delivered(judge, start, Step(judge, s, e))
  {
    match e
    case Append(row) => AppendDelivers(judge, start, s, row);
    case Poll =>
      CursorMoves(judge, s.table, s.last);
      CursorInTable(judge, s.table, s.last);
      VisibleSplits(judge, s.table, start, s.last, Cursor(judge, s.table, s.last));
  }

  lemma AppendDelivers(judge: Judgement, start: int, s: State, row: Row)
    requires Delivered(judge, start, s) && Enabled(s, Append(row))
    ensures Delivered(judge, start, s.(table := s.table + [row]))
  {
    var table := s.table + [row];
    assert table[..|s.table|] == s.table && table[|s.table|] == row;
    if s.last != start {
      var i :| 0 <= i < |s.table| && s.table[i].id == s.last;
      assert table[i].id == s.last;
    }
  }

  lemma CursorInTable(judge: Judgement, table: seq<Row>, last: int)
    ensures var next := Cursor(judge, table, last);
            next == last || exists i :: 0 <= i < |table| && table[i].id == next
  {
  }

  ghost predicate Runs(judge: Judgement, s: State, events: seq<Event>, t: State)
    decreases |events|
  {
    if events == [] then s == t
    else Enabled(s, events[0]) && Runs(judge, Step(judge, s, events[0]), events[1..], t)
  }

  lemma {:induction false} RunDelivers(judge: Judgement, start: int, s: State, events: seq<Event>, t: State)
    requires Delivered(judge, start, s) && Runs(judge, s, events, t)
    ensures Delivered(judge, start, t)
    decreases |events|
  {
    if events != [] {
      StepDelivers(judge, start, s, events[0]);
      RunDelivers(judge, start, Step(judge, s, events[0]), events[1..], t);
    }
  }

  /** Whatever appends fall between polls, the stream has sent each visible event up to its cursor exactly
      once, in id order, and nothing else. */
  lemma ExactlyOnce(judge: Judgement, table: seq<Row>, start: int, events: seq<Event>, t: State)
    requires Sorted(table) && Runs(judge, State(table, start, []), events, t)
    ensures Sorted(t.sent)
    ensures forall r :: r in t.sent <==> r in t.table && start < r.id <= t.last && judge(r) == Emit
  {
    VisibleNone(judge, table, start, start);
    RunDelivers(judge, start, State(table, start, []), events, t);
    VisibleIsExact(judge, t.table, start, t.last);
  }

  /** The wanted events up to the cursor are exactly those sent, unless the cursor passed one whose details
      are no object: it is lost, and only such events are. */
  lemma WantedDeliveredIff(f: Filter, table: seq<Row>, start: int, events: seq<Event>, t: State)
    requires Sorted(table) && Runs(Judging(f), State(table, start, []), events, t)
    ensures forall r :: r in t.sent ==> r in t.table && start < r.id <= t.last && Wanted(f, r)
    ensures forall r :: r in t.table && start < r.id <= t.last && Wanted(f, r) ==> (r in t.sent <==> !Unreadable(f, r))
    ensures (forall r :: r in t.table && start < r.id <= t.last && Wanted(f, r) ==> r in t.sent) <==>
              forall r :: r in t.table && start < r.id <= t.last && Wanted(f, r) ==> !Unreadable(f, r)
  {
    ExactlyOnce(Judging(f), table, start, events, t);
    forall r: Row ensures Judging(f)(r) == Emit <==> Wanted(f, r) && !Unreadable(f, r) {
      EmitIff(f, r);
    }
  }

  /** One poll loses such an event for good. */
  lemma UnreadableEventIsLost(f: Filter, r: Row)
    requires Wanted(f, r) && Unreadable(f, r)
    ensures Step(Judging(f), State([r], r.id - 1, []), Poll) == State([r], r.id, [])
  {
    BehindIs([r], r.id - 1, 0);
    assert Through(Judging(f), [r], 0, 1) == 1;
    VisibleNext(Judging(f), [r], 0, r.id - 1);
  }

  /** No event of SOC origin reaches anyone but a superuser who asked for them. */
  lemma SocEventsStayHidden(f: Filter, table: seq<Row>, start: int, events: seq<Event>, t: State,
                            hideSoc: Option<string>, superuser: bool, r: Row)
    requires Sorted(table) && Runs(Judging(f), State(table, start, []), events, t)
    requires f.showSoc == ShowSoc(hideSoc, superuser)
    requires r in t.sent && (r.soc || r.payload == Object(true))
    ensures superuser && hideSoc.Some? && Declines(hideSoc.value)
  {
    ShowSocIff(hideSoc, superuser);
    ExactlyOnce(Judging(f), table, start, events, t);
    assert Judging(f)(r) == Emit;
  }

  // ---- catching up -----------------------------------------------------------------------------

  /** The cursor after `k` polls without appends, and its place in the table. */
  function Polls(judge: Judgement, table: seq<Row>, last: int, k: nat): int
    decreases k
  {
    if k == 0 then last else Polls(judge, table, Cursor(judge, table, last), k - 1)
  }

  function Place(judge: Judgement, table: seq<Row>, at: nat, k: nat): (p: nat)
    requires at <= |table|
    ensures p <= |table|
    decreases k
  {
    if k == 0 then at else Place(judge, table, at + Consumed(judge, table, at), k - 1)
  }

  lemma {:induction false} PollsPlace(judge: Judgement, table: seq<Row>, last: int, k: nat)
    requires Sorted(table)
    ensures Behind(table, Polls(judge, table, last, k)) == Place(judge, table, Behind(table, last), k)
    decreases k
  {
    if k > 0 {
      CursorMoves(judge, table, last);
      PollsPlace(judge, table, Cursor(judge, table, last), k - 1);
    }
  }

  /** Faulty rows from `at` on. */
  function Faults(judge: Judgement, table: seq<Row>, at: nat): nat
    requires at <= |table|
    decreases |table| - at
  {
    if at == |table| then 0
    else (if judge(table[at]) == Fault then 1 else 0) + Faults(judge, table, at + 1)
  }

  lemma {:induction false} FaultsPassed(judge: Judgement, table: seq<Row>, at: nat, n: nat)
    requires at + n <= |table|
    ensures var c := Through(judge, table, at, n);
            Faults(judge, table, at + c) <= Faults(judge, table, at) - if c < n then 1 else 0
    decreases n
  {
    if n > 0 && judge(table[at]) != Fault {
      FaultsPassed(judge, table, at + 1, n - 1);
    }
  }

  lemma {:induction false} PlaceReachesEnd(judge: Judgement, table: seq<Row>, at: nat, k: nat)
    requires at <= |table| && BATCH * (k - Faults(judge, table, at)) >= |table| - at
    ensures Place(judge, table, at, k) == |table|
    decreases k
  {
    FaultsPassed(judge, table, at, Size(table, at));
    if k > 0 {
      PlaceReachesEnd(judge, table, at + Consumed(judge, table, at), k - 1);
    }
  }

  /** `k` polls drain any backlog of at most `200 * k` rows, less a poll for every faulty row. */
  lemma PollsDrain(judge: Judgement, table: seq<Row>, last: int, k: nat)
    requires Sorted(table)
    requires BATCH * (k - Faults(judge, table, Behind(table, last))) >= |table| - Behind(table, last)
    ensures Behind(table, Polls(judge, table, last, k)) == |table|
  {
    PollsPlace(judge, table, last, k);
    PlaceReachesEnd(judge, table, Behind(table, last), k);
  }

  lemma {:induction false} PlaceWithoutFaults(judge: Judgement, table: seq<Row>, at: nat, k: nat)
    requires at <= |table| && Faults(judge, table, at) == 0
    ensures Place(judge, table, at, k) == if at + BATCH * k <= |table| then at + BATCH * k else |table|
    decreases k
  {
    FaultsPassed(judge, table, at, Size(table, at));
    if k > 0 {
      PlaceWithoutFaults(judge, table, at + Consumed(judge, table, at), k - 1);
    }
  }

  /** Without faulty rows the bound is exact: `ceil(n / 200)` polls, no fewer. */
  lemma PollsDrainIff(judge: Judgement, table: seq<Row>, last: int, k: nat)
    requires Sorted(table) && Faults(judge, table, Behind(table, last)) == 0
    ensures Behind(table, Polls(judge, table, last, k)) == |table| <==> BATCH * k >= |table| - Behind(table, last)
  {
    PollsPlace(judge, table, last, k);
    PlaceWithoutFaults(judge, table, Behind(table, last), k);
  }

  /** A poll catches up exactly when its batch holds the whole backlog and no fault cuts it short. */
  lemma CaughtUpIff(judge: Judgement, table: seq<Row>, last: int)
    requires Sorted(table)
    ensures var at := Behind(table, last);
            Behind(table, Cursor(judge, table, last)) == |table| <==>
              |table| - at <= BATCH && forall i :: at <= i < |table| - 1 ==> judge(table[i]) != Fault
  {
    CursorMoves(judge, table, last);
    ThroughStopsAtFault(judge, table, Behind(table, last), Size(table, Behind(table, last)));
  }

  /** A faulty row keeps a backlog of two from being read in one poll. */
  lemma FaultDelays(judge: Judgement, a: Row, b: Row)
    requires a.id < b.id && judge(a) == Fault
    ensures Behind([a, b], Cursor(judge, [a, b], a.id - 1)) == 1
  {
    BehindIs([a, b], a.id - 1, 0);
    CursorMoves(judge, [a, b], a.id - 1);
    assert Through(judge, [a, b], 0, 2) == 1;
  }
}
