/** The sliding-window sign-in gates over the shared failure table (routes/auth.py,
    routes/soc_portal.py), and the bound one gate puts on any stretch of attempts. */
module Throttle {
  import opened Common

  /** `time.time()` on a running system: past the first second of the epoch, so that no stored
      time is falsy. */
  type Moment = t: real | t >= 1.0 witness 1.0

  /** A row of `login_failures`. */
  datatype Failure = Failure(addr: string, at: Moment, username: Option<string>)

  datatype Key = Address(addr: string) | Account(name: string)

  predicate Hits(f: Failure, key: Key) {
    match key
    case Address(addr) => f.addr == addr
    case Account(name) => f.username == Some(name)
  }

  /** `failed_at` of the rows a key selects, in insertion order. */
  function Times(rows: seq<Failure>, key: Key): seq<Moment> {
    if rows == [] then []
    else
      var last := rows[|rows| - 1];
      Times(rows[..|rows| - 1], key) + if Hits(last, key) then [last.at] else []
  }

  /** `COUNT(*) ... WHERE failed_at > ?` */
  function CountAfter(ts: seq<Moment>, after: real): nat {
    if ts == [] then 0
    else CountAfter(ts[..|ts| - 1], after) + if ts[|ts| - 1] > after then 1 else 0
  }

  /** `MAX(failed_at)` */
  function Latest(ts: seq<Moment>): Option<Moment> {
    if ts == [] then None
    else
      var rest, last := Latest(ts[..|ts| - 1]), ts[|ts| - 1];
      if rest.Some? && rest.value > last then rest else Some(last)
  }

  /** A gate trips at `threshold` failures within `window` seconds; it then refuses for `block`
      seconds after the latest failure, or (no `block`) as long as it stays tripped. */
  datatype Gate = Gate(threshold: int, block: Option<int>, window: int)

  predicate Barred(ts: seq<Moment>, g: Gate, now: Moment) {
    && CountAfter(ts, now - g.window as real) >= g.threshold
    && (g.block.Some? ==> Latest(ts).Some? && now - Latest(ts).value < g.block.value as real)
  }

  function Drop(rows: seq<Failure>, key: Key): seq<Failure> {
    if rows == [] then []
    else
      var last := rows[|rows| - 1];
      Drop(rows[..|rows| - 1], key) + if Hits(last, key) then [] else [last]
  }

  lemma {:induction false} DropRemovesKey(rows: seq<Failure>, key: Key)
    ensures Times(Drop(rows, key), key) == []
  {
    if rows != [] {
      var rest, last := rows[..|rows| - 1], rows[|rows| - 1];
      DropRemovesKey(rest, key);
      if Hits(last, key) {
        assert Drop(rows, key) == Drop(rest, key);
      } else {
        TimesAppend(Drop(rest, key), last, key);
      }
    }
  }

  lemma {:induction false} DropIsExact(rows: seq<Failure>, key: Key, f: Failure)
    ensures f in Drop(rows, key) <==> f in rows && !Hits(f, key)
  {
    if rows != [] {
      DropIsExact(rows[..|rows| - 1], key, f);
    }
  }

  lemma TimesAppend(rows: seq<Failure>, f: Failure, key: Key)
    ensures Times(rows + [f], key) == Times(rows, key) + if Hits(f, key) then [f.at] else []
  {
    assert (rows + [f])[..|rows|] == rows;
  }

  /** An address key selects the rows of its address, an account key those of its name, and a row without a
      name only counts for its address. */
  lemma RowIsSeenBy(rows: seq<Failure>, addr: string, at: Moment, username: Option<string>, key: string)
    ensures Times(rows + [Failure(addr, at, username)], Address(key)) ==
            Times(rows, Address(key)) + if addr == key then [at] else []
    ensures Times(rows + [Failure(addr, at, username)], Account(key)) ==
            Times(rows, Account(key)) + if username == Some(key) then [at] else []
  {
    TimesAppend(rows, Failure(addr, at, username), Address(key));
    TimesAppend(rows, Failure(addr, at, username), Account(key));
  }

  // ---- counting ----------------------------------------------------------------

  lemma CountAppend(ts: seq<Moment>, t: Moment, after: real)
    ensures CountAfter(ts + [t], after) == CountAfter(ts, after) + if t > after then 1 else 0
  {
    assert (ts + [t])[..|ts|] == ts;
  }

  lemma {:induction false} CountMonotone(ts: seq<Moment>, ts': seq<Moment>, after: real)
    requires ts <= ts'
    ensures CountAfter(ts, after) <= CountAfter(ts', after)
  {
    if |ts| < |ts'| {
      CountMonotone(ts, ts'[..|ts'| - 1], after);
    } else {
      assert ts == ts';
    }
  }

  lemma {:induction false} CountAll(ts: seq<Moment>, after: real)
    requires forall i :: 0 <= i < |ts| ==> ts[i] > after
    ensures CountAfter(ts, after) == |ts|
  {
    if ts != [] {
      CountAll(ts[..|ts| - 1], after);
    }
  }

  /** The latest failure is one of them, and none is later. */
  lemma {:induction false} LatestIsMax(ts: seq<Moment>)
    ensures Latest(ts).None? <==> ts == []
    ensures Latest(ts).Some? ==> Latest(ts).value in ts && forall i :: 0 <= i < |ts| ==> ts[i] <= Latest(ts).value
  {
    if ts != [] {
      LatestIsMax(ts[..|ts| - 1]);
    }
  }

  lemma {:induction false} LatestCounted(ts: seq<Moment>, after: real)
    requires CountAfter(ts, after) > 0
    ensures Latest(ts).Some? && Latest(ts).value > after
  {
    if ts[|ts| - 1] <= after {
      LatestCounted(ts[..|ts| - 1], after);
    }
  }

  // ---- the bound -----------------------------------------------------------------

  function RecentOnes(ts: seq<Moment>, after: real): set<nat> {
    set i: nat | i < |ts| && ts[i] > after
  }

  lemma {:induction false} CountIsRecent(ts: seq<Moment>, after: real)
    ensures CountAfter(ts, after) == |RecentOnes(ts, after)|
  {
    if ts != [] {
      var init, n := ts[..|ts| - 1], |ts| - 1;
      CountIsRecent(init, after);
      assert RecentOnes(ts, after) == RecentOnes(init, after) + if ts[n] > after then {n} else {};
    }
  }

  /** A gate refuses exactly while at least `threshold` failures are younger than its window and, if it blocks for
      a time, some failure is younger than that. */
  lemma BarredIff(ts: seq<Moment>, g: Gate, now: Moment)
    ensures Barred(ts, g, now) <==>
              && |RecentOnes(ts, now - g.window as real)| >= g.threshold
              && (g.block.Some? ==> exists i :: 0 <= i < |ts| && now - ts[i] < g.block.value as real)
  {
    CountIsRecent(ts, now - g.window as real);
    LatestIsMax(ts);
  }

  predicate Ascending(ts: seq<Moment>) {
    forall i, j :: 0 <= i <= j < |ts| ==> ts[i] <= ts[j]
  }

  /** `past` (failures let through by the gate, oldest first) are all among the rows counted. */
  ghost predicate Counted(past: seq<Moment>, ts: seq<Moment>) {
    forall x: real :: CountAfter(past, x) <= CountAfter(ts, x)
  }

  /** From the `threshold`-th on, a failure let through within one window of the first comes at
      least `block` seconds after the one before, and not at all when the gate has no `block`. */
  ghost predicate Spaced(past: seq<Moment>, g: Gate) {
    forall i :: 0 < g.threshold <= i < |past| && past[i] - past[0] < g.window as real ==>
      g.block.Some? && past[i] - past[i - 1] >= g.block.value as real
  }

  /** The latest counted row is no older than the last failure let through. */
  lemma LatestCoversPast(past: seq<Moment>, ts: seq<Moment>)
    requires past != [] && Counted(past, ts)
    ensures Latest(ts).Some? && Latest(ts).value >= past[|past| - 1]
  {
    var last := past[|past| - 1];
    CountAppend(past[..|past| - 1], last, 0.0);
    assert past == past[..|past| - 1] + [last];
    LatestCounted(ts, 0.0);
    var latest := Latest(ts).value;
    if latest < last {
      CountAppend(past[..|past| - 1], last, latest);
      LatestCounted(ts, latest);
    }
  }

  lemma GapAfterThreshold(past: seq<Moment>, ts: seq<Moment>, g: Gate, now: Moment, at: Moment)
    requires Ascending(past) && Counted(past, ts) && !Barred(ts, g, now) && now <= at
    requires 0 < g.threshold <= |past| && at - past[0] < g.window as real
    ensures g.block.Some? && at - past[|past| - 1] >= g.block.value as real
  {
    CountAll(past, now - g.window as real);
    assert CountAfter(ts, now - g.window as real) >= g.threshold;
    LatestCoversPast(past, ts);
  }

  /** One more attempt: checked at `now` against the rows `ts`, and failed at `at`. */
  lemma LetThrough(past: seq<Moment>, ts: seq<Moment>, g: Gate, now: Moment, at: Moment)
    requires Ascending(past) && Counted(past, ts) && Spaced(past, g)
    requires past != [] ==> past[|past| - 1] <= now
    requires now <= at && !Barred(ts, g, now)
    ensures Ascending(past + [at]) && Spaced(past + [at], g)
  {
    if 0 < g.threshold <= |past| && at - past[0] < g.window as real {
      GapAfterThreshold(past, ts, g, now, at);
    }
  }

  /** One step of a run as a gate sees it: the counted times before and after, and, for an attempt
      it let through that then failed, when it was checked and when the failure was recorded. */
  datatype Seen = Seen(checked: Moment, failed: Option<Moment>, after: seq<Moment>, end: Moment)

  ghost predicate Observed(obs: seq<Seen>, g: Gate, now: Moment, ts: seq<Moment>)
    decreases |obs|
  {
    obs == [] ||
    var o := obs[0];
    && now <= o.end
    && (o.failed.None? ==> ts <= o.after)
    && (o.failed.Some? ==>
          && now <= o.checked <= o.failed.value <= o.end
          && !Barred(ts, g, o.checked) && o.after == ts + [o.failed.value])
    && Observed(obs[1..], g, o.end, o.after)
  }

  function FailureOf(o: Seen): seq<Moment> {
    if o.failed.Some? then [o.failed.value] else []
  }

  function Failures(obs: seq<Seen>): seq<Moment> {
    if obs == [] then [] else FailureOf(obs[0]) + Failures(obs[1..])
  }

  lemma CountedGrows(past: seq<Moment>, ts: seq<Moment>, ts': seq<Moment>)
    requires Counted(past, ts) && ts <= ts'
    ensures Counted(past, ts')
  {
    forall x: real ensures CountAfter(past, x) <= CountAfter(ts', x) {
      CountMonotone(ts, ts', x);
    }
  }

  lemma CountedAppend(past: seq<Moment>, ts: seq<Moment>, t: Moment)
    requires Counted(past, ts)
    ensures Counted(past + [t], ts + [t])
  {
    forall x: real ensures CountAfter(past + [t], x) <= CountAfter(ts + [t], x) {
      CountAppend(past, t, x);
      CountAppend(ts, t, x);
    }
  }

  /** Everything known about the failures so far. */
  ghost predicate Tracked(past: seq<Moment>, g: Gate, now: Moment, ts: seq<Moment>) {
    && Ascending(past) && Spaced(past, g) && Counted(past, ts)
    && (past != [] ==> past[|past| - 1] <= now)
  }

  lemma TrackStep(past: seq<Moment>, g: Gate, now: Moment, ts: seq<Moment>, o: Seen)
    requires Tracked(past, g, now, ts) && Observed([o], g, now, ts)
    ensures Tracked(past + FailureOf(o), g, o.end, o.after)
  {
    if o.failed.Some? {
      LetThrough(past, ts, g, o.checked, o.failed.value);
      CountedAppend(past, ts, o.failed.value);
    } else {
      CountedGrows(past, ts, o.after);
      assert past + FailureOf(o) == past;
    }
  }

  /** `past` and then the failures of `obs`, one by one. */
  function Extended(past: seq<Moment>, obs: seq<Seen>): seq<Moment>
    decreases |obs|
  {
    if obs == [] then past else Extended(past + FailureOf(obs[0]), obs[1..])
  }

  lemma {:induction false} ExtendedIs(past: seq<Moment>, obs: seq<Seen>)
    ensures Extended(past, obs) == past + Failures(obs)
    decreases |obs|
  {
    if obs != [] {
      ExtendedIs(past + FailureOf(obs[0]), obs[1..]);
      Assoc(past, FailureOf(obs[0]), Failures(obs[1..]));
    }
  }

  lemma {:induction false} FailuresTracked(obs: seq<Seen>, g: Gate, now: Moment, ts: seq<Moment>, past: seq<Moment>)
    returns (end: Moment, after: seq<Moment>)
    requires Observed(obs, g, now, ts) && Tracked(past, g, now, ts)
    ensures Tracked(Extended(past, obs), g, end, after)
    decreases |obs|
  {
    if obs == [] {
      end, after := now, ts;
    } else {
      TrackStep(past, g, now, ts, obs[0]);
      end, after := FailuresTracked(obs[1..], g, obs[0].end, obs[0].after, past + FailureOf(obs[0]));
    }
  }

  /** Failures let through by a gate within one window of each other leave room for fewer than
      `window` seconds of blocking; a gate without `block` never lets through more than its
      threshold. */
  ghost predicate WithinBound(ts: seq<Moment>, g: Gate) {
    |ts| > g.threshold > 0 && ts[|ts| - 1] - ts[0] < g.window as real ==>
      g.block.Some? && (|ts| - g.threshold) * g.block.value < g.window
  }

  lemma ObservedBound(obs: seq<Seen>, g: Gate, now: Moment, ts: seq<Moment>)
    requires Observed(obs, g, now, ts)
    ensures WithinBound(Failures(obs), g)
  {
    assert CountAfter([], 0.0) == 0;
    assert Tracked([], g, now, ts);
    var end, after := FailuresTracked(obs, g, now, ts, []);
    ExtendedIs([], obs);
    assert [] + Failures(obs) == Failures(obs);
    SpacedBound(Failures(obs), g);
  }

  lemma {:induction false} GapsAddUp(past: seq<Moment>, g: Gate, m: nat)
    requires Ascending(past) && Spaced(past, g) && g.block.Some?
    requires 0 < g.threshold && g.threshold - 1 + m < |past|
    requires past[|past| - 1] - past[0] < g.window as real
    ensures past[g.threshold - 1 + m] - past[g.threshold - 1] >= (m * g.block.value) as real
  {
    if m > 0 {
      GapsAddUp(past, g, m - 1);
      var i := g.threshold - 1 + m;
      assert past[i] <= past[|past| - 1];
      assert past[i] - past[i - 1] >= g.block.value as real;
      assert m * g.block.value == (m - 1) * g.block.value + g.block.value;
    }
  }

  lemma SpacedBound(past: seq<Moment>, g: Gate)
    requires Ascending(past) && Spaced(past, g)
    ensures WithinBound(past, g)
  {
    if |past| > g.threshold > 0 && past[|past| - 1] - past[0] < g.window as real {
      assert past[g.threshold] <= past[|past| - 1];
      GapsAddUp(past, g, |past| - g.threshold);
    }
  }
}
