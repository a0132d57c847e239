/** app/migrations.py (v34, v35) and routes/soc_portal.py: filling event columns of old rows from their
    JSON details, stamping uuids, and keying analyst actions by uuid. */
module Backfill {
  import opened Common
  import opened PyText
  import opened EventFields

  // ---- event rows ----------------------------------------------------------------------------

  /** `uuid` is empty when NULL or blank. */
  datatype Row = Row(id: int, ts: string, uuid: string, details: string, fields: Fields)

  /** What the loop below does with one row: decode its details, build a tuple, bind it. */
  datatype Job = Job(parse: string -> Option<Val>, build: Details -> Option<Fields>, bind: Fields -> Option<Fields>)

  /** The job of v34. */
  function Migration(env: Env): Job {
    Job(env.parse, (d: Details) => Backfilled(env, d), (f: Fields) => if f.Bindable() then Some(f.Kept()) else None)
  }

  /** `json.loads(details or "{}") or {}`, or `{}` when that fails or is no object. */
  function DetailsOf(job: Job, r: Row): Details {
    if r.details == "" then map[]
    else
      var v := job.parse(r.details);
      if v.Some? && v.value.Dict? then v.value.entries else map[]
  }

  /** Details that decode to an object are used as they are; blank, undecodable or any other details count as an
      object without keys. */
  lemma DetailsAre(job: Job, r: Row, m: Details)
    ensures DetailsOf(job, r) == m <==>
              || (r.details != "" && job.parse(r.details) == Some(Dict(m)))
              || (m == map[] && (r.details == "" || forall d :: job.parse(r.details) != Some(Dict(d))))
  {
    if r.details != "" && job.parse(r.details).Some? && job.parse(r.details).value.Dict? {
      var d := job.parse(r.details).value.entries;
      assert job.parse(r.details) == Some(Dict(d));
    }
  }

  /** The row selection of the field backfill. */
  predicate Unfilled(r: Row) {
    && r.fields.plain[SOURCE_TYPE] == Null && r.fields.plain[SRC_IP] == Null && r.fields.plain[DST_IP] == Null
    && r.fields.plain[DOMAIN] == Null && r.fields.plain[RULE_ID] == Null
  }

  /** The updated row; `None` when building or binding the tuple raises. */
  function Fill(job: Job, r: Row): Option<Row> {
    var f := job.build(DetailsOf(job, r));
    if f.None? then None
    else
      var g := job.bind(f.value);
      if g.None? then None else Some(r.(fields := g.value))
  }

  predicate Sorted(rows: seq<Row>) {
    forall i, j :: 0 <= i < j < |rows| ==> rows[i].id < rows[j].id
  }

  predicate Selected(r: Row, last: int) {
    r.id > last && Unfilled(r)
  }

  /** What the whole backfill makes of a row. */
  function Written(job: Job, r: Row): Row {
    if Selected(r, 0) && Fill(job, r).Some? then Fill(job, r).value else r
  }

  /** A row once the cursor has reached `upto`. */
  function Passed(job: Job, r: Row, upto: int): Row {
    if r.id <= upto then Written(job, r) else r
  }

  predicate AllPassed(job: Job, rows: seq<Row>, upto: int, rs: seq<Row>) {
    |rs| == |rows| && forall i :: 0 <= i < |rows| ==> rs[i] == Passed(job, rows[i], upto)
  }

  predicate AllWritten(job: Job, rows: seq<Row>, rs: seq<Row>) {
    |rs| == |rows| && forall i :: 0 <= i < |rows| ==> rs[i] == Written(job, rows[i])
  }

  /** No selected row is one the backfill chokes on. */
  predicate Fillable(job: Job, rows: seq<Row>) {
    forall i :: 0 <= i < |rows| && Selected(rows[i], 0) ==> Fill(job, rows[i]).Some?
  }

  /** A backfill cut short: some rows are written, the others as they were. */
  predicate PartlyWritten(job: Job, rows: seq<Row>, half: seq<Row>) {
    |half| == |rows| && forall i :: 0 <= i < |rows| ==> half[i] == rows[i] || half[i] == Written(job, rows[i])
  }

  /** A backfill cut short anywhere and then run again ends where an undisturbed one ends; running a
      finished one again changes nothing. */
  lemma InterruptedBackfillConverges(job: Job, rows: seq<Row>, half: seq<Row>, rerun: seq<Row>)
    requires PartlyWritten(job, rows, half) && AllWritten(job, half, rerun)
    ensures AllWritten(job, rows, rerun)
    ensures Fillable(job, rows) ==> Fillable(job, half)
    ensures AllWritten(job, rerun, rerun)
  {
    forall i | 0 <= i < |rows|
      ensures rerun[i] == Written(job, rows[i]) && Written(job, rerun[i]) == rerun[i]
      ensures Selected(half[i], 0) ==> Selected(rows[i], 0) && Fill(job, half[i]) == Fill(job, rows[i])
    {
      FillKeepsSource(job, rows[i]);
      FillKeepsSource(job, half[i]);
    }
  }

  lemma FillKeepsSource(job: Job, r: Row)
    ensures var w := Written(job, r);
            && w.id == r.id && w.details == r.details && w.uuid == r.uuid && w.ts == r.ts
            && Written(job, w) == w
            && (Selected(r, 0) ==> Fill(job, w) == Fill(job, r))
  {
    if Selected(r, 0) && Fill(job, r).Some? {
      assert DetailsOf(job, Fill(job, r).value) == DetailsOf(job, r);
    }
  }

  // ---- what the rows of v34 make of it ---------------------------------------------------------

  /** A row is written exactly when its details can be stored. */
  lemma FilledIff(env: Env, r: Row)
    ensures Fill(Migration(env), r).Some? <==>
              var d := DetailsOf(Migration(env), r); Storable(env, d) && Binds(Pick(d, RAW))
  {
    BackfillableIff(env, DetailsOf(Migration(env), r));
  }

  /** The migration gets through exactly when the details of every row it selects can be stored. */
  lemma FillableIff(env: Env, rows: seq<Row>)
    ensures Fillable(Migration(env), rows) <==>
              forall i :: 0 <= i < |rows| && Selected(rows[i], 0) ==>
                var d := DetailsOf(Migration(env), rows[i]); Storable(env, d) && Binds(Pick(d, RAW))
  {
    forall i | 0 <= i < |rows|
      ensures Fill(Migration(env), rows[i]).Some? <==>
                var d := DetailsOf(Migration(env), rows[i]); Storable(env, d) && Binds(Pick(d, RAW))
    {
      FilledIff(env, rows[i]);
    }
  }

  /** One old event whose source address is a list keeps the migration from ever getting through. */
  lemma ListStopsMigration(env: Env, rows: seq<Row>, i: nat, address: Val)
    requires i < |rows| && Selected(rows[i], 0) && address.List?
    requires DetailsOf(Migration(env), rows[i]) == map["src_ip" := address]
    ensures !Fillable(Migration(env), rows)
  {
    var d := DetailsOf(Migration(env), rows[i]);
    PicksFirstPresent(d, COLUMNS[SRC_IP], 0);
    assert Pick(d, COLUMNS[SRC_IP]) == address;
    FilledIff(env, rows[i]);
  }

  /** What `log_event` stores for details `d`, which it enriches first; `None` when no row results. */
  function Logged(env: Env, enrich: Details -> Details, d: Details): Option<Fields> {
    var f := Extracted(env, enrich(d));
    if f.Some? && f.value.Bindable() then Some(f.value.Kept()) else None
  }

  /** A row the migration writes, whose details are those once logged, holds what logging stores for them,
      `raw` aside. */
  lemma WrittenAsLogged(env: Env, enrich: Details -> Details, d: Details, r: Row)
    requires Selected(r, 0) && Fill(Migration(env), r).Some? && DetailsOf(Migration(env), r) == enrich(d)
    ensures var w := Written(Migration(env), r);
            && w == r.(fields := w.fields)
            && Logged(env, enrich, d).Some?
            && w.fields.(raw := Null) == Logged(env, enrich, d).value.(raw := Null)
  {
    FilledIff(env, r);
    LoggableIff(env, enrich(d));
    BackfilledEqualsLogged(env, enrich(d));
  }

  /** SQLite stores a value as it is, a float that is no number as NULL. */
  predicate Keeps(v: Val, kept: Val) {
    kept == if v == Real(NotANumber) then Null else v
  }

  predicate KeepsAll(f: Fields, kept: Fields) {
    && (forall i :: 0 <= i < 17 ==> Keeps(f.plain[i], kept.plain[i]))
    && Keeps(f.srcPort, kept.srcPort) && Keeps(f.dstPort, kept.dstPort)
    && Keeps(f.socOrigin, kept.socOrigin) && Keeps(f.raw, kept.raw)
  }

  /** A written row holds, column by column, the entries of its details under the names of the column. */
  lemma WrittenColumns(env: Env, r: Row) returns (f: Fields)
    requires Selected(r, 0) && Fill(Migration(env), r).Some?
    ensures var d := DetailsOf(Migration(env), r);
            && Columns(env, d, f) && f.raw == Lookup(d, RAW_NAMES)
            && Written(Migration(env), r) == r.(fields := Written(Migration(env), r).fields)
            && KeepsAll(f, Written(Migration(env), r).fields)
  {
    var d := DetailsOf(Migration(env), r);
    CopiesFillColumns(env, d);
    f := Backfilled(env, d).value;
  }

  /** No such entry, or one stored as NULL. */
  predicate Lacks(d: Details, names: seq<string>) {
    Lookup(d, names) in {Null, Real(NotANumber)}
  }

  /** A written row is selected again exactly if its details name no source type, source or destination address,
      domain or rule. */
  lemma SelectedAgainIff(env: Env, r: Row)
    requires Selected(r, 0) && Fill(Migration(env), r).Some?
    ensures var d := DetailsOf(Migration(env), r);
            Selected(Written(Migration(env), r), 0) <==>
              && Lacks(d, ["source_type", "collector"]) && Lacks(d, ["src_ip", "source_ip", "client_ip"])
              && Lacks(d, ["dst_ip", "dest_ip", "destination_ip"]) && Lacks(d, ["domain", "query"])
              && Lacks(d, ["rule_id"])
  {
    var f := WrittenColumns(env, r);
    TestedNames();
  }

  lemma TestedNames()
    ensures PLAIN_NAMES[SOURCE_TYPE] == ["source_type", "collector"] && PLAIN_NAMES[DOMAIN] == ["domain", "query"]
    ensures PLAIN_NAMES[SRC_IP] == ["src_ip", "source_ip", "client_ip"] && PLAIN_NAMES[RULE_ID] == ["rule_id"]
    ensures PLAIN_NAMES[DST_IP] == ["dst_ip", "dest_ip", "destination_ip"]
  {
  }

  // ---- the cursor ----------------------------------------------------------------------------

  /** Positions below `n` of the rows a query from cursor `last` selects. */
  function Matches(rows: seq<Row>, last: int, n: nat): (ps: seq<nat>)
    requires n <= |rows|
  {
    if n == 0 then []
    else Matches(rows, last, n - 1) + if Selected(rows[n - 1], last) then [n - 1] else []
  }

  predicate Ascends(ps: seq<nat>) {
    forall k, m :: 0 <= k < m < |ps| ==> ps[k] < ps[m]
  }

  lemma {:induction false} MatchesAre(rows: seq<Row>, last: int, n: nat)
    requires n <= |rows|
    ensures Ascends(Matches(rows, last, n))
    ensures forall i :: i in Matches(rows, last, n) <==> 0 <= i < n && Selected(rows[i], last)
  {
    if n > 0 {
      MatchesAre(rows, last, n - 1);
      var before := Matches(rows, last, n - 1);
      assert forall k :: 0 <= k < |before| ==> before[k] in before;
    }
  }

  /** Rows beyond the cursor are as they were at the start. */
  lemma {:induction false} MatchesUntouched(job: Job, start: seq<Row>, rows: seq<Row>, last: int, n: nat)
    requires n <= |start| && AllPassed(job, start, last, rows)
    ensures Matches(rows, last, n) == Matches(start, last, n)
  {
    if n > 0 {
      MatchesUntouched(job, start, rows, last, n - 1);
      FillKeepsSource(job, start[n - 1]);
    }
  }

  lemma {:induction false} NoMatches(rows: seq<Row>, last: int, n: nat)
    requires n <= |rows| && forall i :: 0 <= i < n ==> !Selected(rows[i], last)
    ensures Matches(rows, last, n) == []
  {
    if n > 0 {
      NoMatches(rows, last, n - 1);
    }
  }

  /** After a batch ending at position `at`, what is selected from the old cursor is the batch followed by
      what is selected from the new one. */
  lemma {:induction false} MatchesSplit(rows: seq<Row>, last: int, upto: nat, at: nat, n: nat)
    requires Sorted(rows) && upto <= n <= |rows| && at < upto && Selected(rows[at], last)
    requires forall i :: at < i < upto ==> !Selected(rows[i], last)
    ensures Matches(rows, last, n) == Matches(rows, last, upto) + Matches(rows, rows[at].id, n)
    decreases n
  {
    if n == upto {
      NoMatches(rows, rows[at].id, n);
    } else {
      MatchesSplit(rows, last, upto, at, n - 1);
    }
  }

  lemma LastOfMatches(rows: seq<Row>, last: int, upto: nat)
    requires upto <= |rows| && Matches(rows, last, upto) != []
    ensures var ps := Matches(rows, last, upto);
            var at := ps[|ps| - 1];
            at < upto && Selected(rows[at], last) && forall i :: at < i < upto ==> !Selected(rows[i], last)
  {
    MatchesAre(rows, last, upto);
    var ps := Matches(rows, last, upto);
    assert ps[|ps| - 1] in ps;
  }

  /** The batch written from cursor `last` takes every row to the new cursor. */
  lemma BatchPasses(job: Job, start: seq<Row>, before: seq<Row>, after: seq<Row>, last: int, upto: nat)
    requires last >= 0 && Sorted(start) && AllPassed(job, start, last, before) && upto <= |start|
    requires |after| == |start| && Matches(start, last, upto) != []
    requires forall i :: 0 <= i < |start| && i !in Matches(start, last, upto) ==> after[i] == before[i]
    requires forall i :: 0 <= i < |start| && i in Matches(start, last, upto) ==> Fill(job, before[i]) == Some(after[i])
    ensures var ps := Matches(start, last, upto);
            ps[|ps| - 1] < |start| && AllPassed(job, start, start[ps[|ps| - 1]].id, after)
  {
    var ps := Matches(start, last, upto);
    MatchesAre(start, last, upto);
    LastOfMatches(start, last, upto);
    var at := ps[|ps| - 1];
    forall i | 0 <= i < |start|
      ensures after[i] == Passed(job, start[i], start[at].id)
    {
      FillKeepsSource(job, start[i]);
    }
  }

  /** `after` is `before` with the rows at `ps` filled. */
  predicate Updated(job: Job, before: seq<Row>, after: seq<Row>, ps: seq<nat>) {
    && |after| == |before|
    && (forall i :: 0 <= i < |before| && i in ps ==> Fill(job, before[i]) == Some(after[i]))
    && (forall i :: 0 <= i < |before| && i !in ps ==> after[i] == before[i])
  }

  lemma UpdateOne(job: Job, before: seq<Row>, now: seq<Row>, ps: seq<nat>, k: nat, f: Fields)
    requires Ascends(ps) && k < |ps| && ps[k] < |before| && Updated(job, before, now, ps[..k])
    requires Fill(job, before[ps[k]]) == Some(before[ps[k]].(fields := f))
    ensures now[ps[k]] == before[ps[k]]
    ensures Updated(job, before, now[ps[k] := now[ps[k]].(fields := f)], ps[..k + 1])
  {
    assert ps[..k + 1] == ps[..k] + [ps[k]];
    assert ps[k] !in ps[..k];
  }

  /** The loop's invariant: `done` lists the positions written so far. */
  predicate Progress(job: Job, start: seq<Row>, rows: seq<Row>, last: int, done: seq<nat>) {
    && last >= 0 && AllPassed(job, start, last, rows)
    && done + Matches(start, last, |start|) == Matches(start, 0, |start|)
    && forall i :: 0 <= i < |start| && i in done ==> Fill(job, start[i]).Some?
  }

  lemma CutShort(job: Job, start: seq<Row>, before: seq<Row>, now: seq<Row>, last: int, upto: nat, n: nat)
    requires last >= 0 && AllPassed(job, start, last, before) && upto <= |start| && n <= |Matches(start, last, upto)|
    requires Updated(job, before, now, Matches(start, last, upto)[..n])
    ensures PartlyWritten(job, start, now)
  {
    var ps := Matches(start, last, upto);
    MatchesAre(start, last, upto);
    forall i | 0 <= i < |start| ensures now[i] == start[i] || now[i] == Written(job, start[i]) {
      if i in ps[..n] {
        assert i in ps;
      }
    }
  }

  lemma Advances(job: Job, start: seq<Row>, before: seq<Row>, after: seq<Row>, last: int, upto: nat,
                 ps: seq<nat>, done: seq<nat>)
    requires Sorted(start) && Progress(job, start, before, last, done)
    requires upto <= |start| && ps == Matches(start, last, upto) && ps != [] && Updated(job, before, after, ps)
    ensures ps[|ps| - 1] < upto
    ensures var cursor := start[ps[|ps| - 1]].id;
            && Progress(job, start, after, cursor, done + ps)
            && Matches(start, last, |start|) == ps + Matches(start, cursor, |start|)
  {
    LastOfMatches(start, last, upto);
    var at := ps[|ps| - 1];
    MatchesAre(start, last, upto);
    MatchesSplit(start, last, upto, at, |start|);
    BatchPasses(job, start, before, after, last, upto);
    assert done + (ps + Matches(start, start[at].id, |start|)) == (done + ps) + Matches(start, start[at].id, |start|);
    assert forall i :: 0 <= i < |start| && i in ps ==> before[i] == start[i];
  }

  lemma InBatch(job: Job, start: seq<Row>, rows: seq<Row>, last: int, upto: nat, ps: seq<nat>)
    requires last >= 0 && AllPassed(job, start, last, rows) && upto <= |start| && ps == Matches(start, last, upto)
    ensures forall k :: 0 <= k < |ps| ==> ps[k] < upto && rows[ps[k]] == start[ps[k]] && Selected(start[ps[k]], 0)
  {
    MatchesAre(start, last, upto);
    assert forall k :: 0 <= k < |ps| ==> ps[k] in ps;
  }

  lemma Finishes(job: Job, start: seq<Row>, rows: seq<Row>, last: int, done: seq<nat>)
    requires Progress(job, start, rows, last, done) && Matches(start, last, |start|) == []
    ensures Fillable(job, start) && AllWritten(job, start, rows) && done == Matches(start, 0, |start|)
  {
    MatchesAre(start, 0, |start|);
    MatchesAre(start, last, |start|);
    assert forall i :: 0 <= i < |start| ==> !Selected(start[i], last);
    assert forall i :: 0 <= i < |start| && Selected(start[i], 0) ==> i in done;
  }

  // ---- stamping uuids --------------------------------------------------------------------------

  /** `uuid4` values: never blank, never repeated, never one already in the table. */
  ghost predicate Fresh(supply: nat -> string, rows: seq<Row>) {
    && (forall n :: supply(n) != "")
    && (forall m, n | supply(m) == supply(n) :: m == n)
    && (forall n, i :: 0 <= i < |rows| ==> supply(n) != rows[i].uuid)
  }

  /** Only blank uuids were replaced, by the first `used` of the supply, each at most once. */
  ghost predicate Stamped(supply: nat -> string, start: seq<Row>, now: seq<Row>, used: nat) {
    && |now| == |start|
    && (forall i :: 0 <= i < |now| ==> now[i] == start[i].(uuid := now[i].uuid))
    && (forall i :: 0 <= i < |now| && start[i].uuid != "" ==> now[i] == start[i])
    && (forall n, i :: n >= used && 0 <= i < |now| ==> supply(n) != now[i].uuid)
    && NothingShared(start, now)
    && used + |Blank(now)| == |Blank(start)|
  }

  /** Two rows share a uuid only if they did at the start. */
  predicate NothingShared(start: seq<Row>, now: seq<Row>)
    requires |now| == |start|
  {
    forall i, j :: 0 <= i < j < |now| && now[i].uuid == now[j].uuid != "" ==>
      start[i].uuid == now[i].uuid == start[j].uuid
  }

  /** Stamping cut short anywhere and run again, by another process, ends with every row stamped, old uuids
      standing, and nothing shared that was not before: all distinct if the old ones were. */
  lemma InterruptedStampingConverges(first: nat -> string, again: nat -> string, start: seq<Row>, half: seq<Row>,
                                     now: seq<Row>, m: nat, n: nat)
    requires Stamped(first, start, half, m) && Stamped(again, half, now, n) && Blank(now) == {}
    ensures forall i :: 0 <= i < |now| ==> now[i].uuid != "" && now[i] == start[i].(uuid := now[i].uuid)
    ensures forall i :: 0 <= i < |now| && start[i].uuid != "" ==> now[i] == start[i]
    ensures NothingShared(start, now)
    ensures UuidsDistinct(start) ==> UuidsDistinct(now)
  {
    assert forall i: nat :: i < |now| && now[i].uuid == "" ==> i in Blank(now);
    forall i, j | 0 <= i < j < |now| && now[i].uuid == now[j].uuid != ""
      ensures start[i].uuid == now[i].uuid == start[j].uuid
    {
      assert half[i].uuid == half[j].uuid != "";
    }
  }

  predicate UuidsDistinct(rows: seq<Row>) {
    forall i, j :: 0 <= i < j < |rows| && rows[i].uuid != "" ==> rows[i].uuid != rows[j].uuid
  }

  function Blank(rows: seq<Row>): set<nat> {
    set i: nat | i < |rows| && rows[i].uuid == ""
  }

  lemma StampOne(supply: nat -> string, start: seq<Row>, now: seq<Row>, used: nat, p: nat)
    requires Fresh(supply, start) && Stamped(supply, start, now, used) && p < |now| && now[p].uuid == ""
    ensures Stamped(supply, start, now[p := now[p].(uuid := supply(used))], used + 1)
  {
    var next := now[p := now[p].(uuid := supply(used))];
    assert Blank(next) == Blank(now) - {p};
    assert p in Blank(now);
  }

  // ---- the two loops over the table -----------------------------------------------------------

  class Events {
    var rows: seq<Row>

    constructor (rows: seq<Row>)
      ensures this.rows == rows
    {
      this.rows := rows;
    }

    /** `SELECT id ... LIMIT ?` without an order: any rows that lack a uuid. */
    method SelectBlank(limit: nat) returns (ps: seq<nat>)
      requires limit >= 1
      ensures Ascends(ps) && forall k :: 0 <= k < |ps| ==> ps[k] < |rows| && rows[ps[k]].uuid == ""
      ensures |ps| <= limit && (ps == [] ==> Blank(rows) == {})
    {
      ps := [];
      var i := 0;
      while i < |rows| && |ps| < limit
        invariant i <= |rows| && |ps| <= limit && Ascends(ps)
        invariant forall k :: 0 <= k < |ps| ==> ps[k] < i && rows[ps[k]].uuid == ""
        invariant ps == [] ==> forall k :: 0 <= k < i ==> rows[k].uuid != ""
      {
        if rows[i].uuid == "" {
          ps := ps + [i];
        }
        i := i + 1;
      }
    }

    /** The uuid loop ends with every row stamped: old uuids stand, each new one is used once, and no two
        rows share a uuid that did not share one before. */
    method StampUuids(supply: nat -> string, limit: nat) returns (used: nat)
      requires limit >= 1 && Fresh(supply, rows)
      modifies this
      ensures Stamped(supply, old(rows), rows, used) && used == |Blank(old(rows))|
      ensures forall i :: 0 <= i < |rows| ==> rows[i].uuid != ""
    {
      used := 0;
      ghost var start := rows;
      while true
        invariant Stamped(supply, start, rows, used)
        decreases |Blank(rows)|
      {
        var ps := SelectBlank(limit);
        if ps == [] {
          break;
        }
        ghost var before := used;
        for k := 0 to |ps|
          invariant Stamped(supply, start, rows, used) && used == before + k
          invariant forall m :: k <= m < |ps| ==> ps[m] < |rows| && rows[ps[m]].uuid == ""
        {
          StampOne(supply, start, rows, used, ps[k]);
          rows := rows[ps[k] := rows[ps[k]].(uuid := supply(used))];
          used := used + 1;
        }
      }
      assert forall i: nat :: i < |rows| && rows[i].uuid == "" ==> i in Blank(rows);
    }

    /** `SELECT ... WHERE id > ? AND ... ORDER BY id LIMIT ?`, as positions in the table. */
    method Select(last: int, batch: nat) returns (ps: seq<nat>, upto: nat)
      requires batch >= 1
      ensures upto <= |rows| && |ps| <= batch && ps == Matches(rows, last, upto)
      ensures |ps| < batch ==> upto == |rows|
    {
      ps, upto := [], 0;
      while upto < |rows| && |ps| < batch
        invariant upto <= |rows| && |ps| <= batch && ps == Matches(rows, last, upto)
      {
        if Selected(rows[upto], last) {
          ps := ps + [upto];
        }
        upto := upto + 1;
      }
    }

    /** One batch: build every tuple, then update every row. */
    method Update(job: Job, ps: seq<nat>) returns (ok: bool)
      requires Ascends(ps) && forall k :: 0 <= k < |ps| ==> ps[k] < |rows|
      modifies this
      ensures ok <==> forall k :: 0 <= k < |ps| ==> Fill(job, old(rows)[ps[k]]).Some?
      ensures ok ==> Updated(job, old(rows), rows, ps)
      ensures (exists k :: 0 <= k < |ps| && job.build(DetailsOf(job, old(rows)[ps[k]])).None?) ==> rows == old(rows)
      ensures exists n :: 0 <= n <= |ps| && Updated(job, old(rows), rows, ps[..n])
    {
      var updates: seq<Fields> := [];
      assert Updated(job, rows, rows, ps[..0]);
      for k := 0 to |ps|
        invariant |updates| == k
        invariant forall m :: 0 <= m < k ==> Some(updates[m]) == job.build(DetailsOf(job, rows[ps[m]]))
      {
        var f := job.build(DetailsOf(job, rows[ps[k]]));
        if f.None? {
          return false;
        }
        updates := updates + [f.value];
      }
      for k := 0 to |ps|
        invariant Updated(job, old(rows), rows, ps[..k])
        invariant forall m :: 0 <= m < k ==> Fill(job, old(rows)[ps[m]]).Some?
      {
        var g := job.bind(updates[k]);
        if g.None? {
          return false;
        }
        UpdateOne(job, old(rows), rows, ps, k, g.value);
        rows := rows[ps[k] := rows[ps[k]].(fields := g.value)];
      }
      assert ps[..|ps|] == ps;
      ok := true;
    }

    /** The field backfill, for any batch size: every selected row is rewritten exactly once, in id
        order, and no other row is touched; it fails exactly when some selected row cannot be
        written. */
    method BackfillFields(job: Job, batch: nat) returns (ok: bool, written: seq<nat>)
      requires batch >= 1 && Sorted(rows)
      modifies this
      ensures ok <==> Fillable(job, old(rows))
      ensures ok ==> AllWritten(job, old(rows), rows) && written == Matches(old(rows), 0, |old(rows)|)
      ensures PartlyWritten(job, old(rows), rows)
    {
      var last := 0;
      written := [];
      ghost var start := rows;
      while true
        invariant Progress(job, start, rows, last, written)
        decreases |Matches(start, last, |start|)|
      {
        MatchesUntouched(job, start, rows, last, |start|);
        var ps, upto := Select(last, batch);
        MatchesUntouched(job, start, rows, last, upto);
        if ps == [] {
          break;
        }
        MatchesAre(start, last, upto);
        InBatch(job, start, rows, last, upto, ps);
        ghost var before, cursor := rows, last;
        last := rows[ps[|ps| - 1]].id;
        ok := Update(job, ps);
        if !ok {
          ghost var n :| 0 <= n <= |ps| && Updated(job, before, rows, ps[..n]);
          CutShort(job, start, before, rows, cursor, upto, n);
          return;
        }
        Advances(job, start, before, rows, cursor, upto, ps, written);
        written := written + ps;
        if |ps| < batch {
          break;
        }
      }
      Finishes(job, start, rows, last, written);
      ok := true;
    }
  }

  // ---- v35 and the route that resolves legacy keys ----------------------------------------------

  /** A row of `siem_alert_actions` or `siem_alert_assignments`; `key` is a timestamp, `uuid` is empty
      when NULL or blank. */
  datatype Action = Action(key: Option<string>, uuid: string)

  /** `SELECT event_uuid ... WHERE ts = ? ORDER BY id DESC LIMIT 1` over rows in id order. */
  function Latest(rows: seq<Row>, ts: string): string {
    if rows == [] then ""
    else if rows[|rows| - 1].ts == ts then rows[|rows| - 1].uuid
    else Latest(rows[..|rows| - 1], ts)
  }

  /** v35's `UPDATE`, for one row. */
  function Keyed(rows: seq<Row>, a: Action): Action {
    if a.uuid == "" && a.key.Some? then a.(uuid := Latest(rows, a.key.value)) else a
  }

  /** `_resolve_event_uuid`; absent fields are empty. */
  function Resolve(rows: seq<Row>, uuid: string, key: string): string {
    if Strip(uuid) != "" then Strip(uuid)
    else if Strip(key) == "" then ""
    else Latest(rows, Strip(key))
  }

  predicate Carries(rows: seq<Row>, ts: string) {
    exists i :: 0 <= i < |rows| && rows[i].ts == ts
  }

  /** The last row with the timestamp, if any. */
  lemma {:induction false} LatestAt(rows: seq<Row>, ts: string) returns (i: int)
    ensures -1 <= i < |rows| && Latest(rows, ts) == if i == -1 then "" else rows[i].uuid
    ensures i >= 0 ==> rows[i].ts == ts
    ensures forall j :: i < j < |rows| ==> rows[j].ts != ts
  {
    i := |rows| - 1;
    if rows != [] && rows[i].ts != ts {
      var init := rows[..i];
      i := LatestAt(init, ts);
      assert forall j :: 0 <= j < |init| ==> init[j] == rows[j];
    }
  }

  lemma LatestIsHighest(rows: seq<Row>, ts: string)
    requires Sorted(rows)
    ensures if Carries(rows, ts)
            then exists i :: 0 <= i < |rows| && rows[i].ts == ts && Latest(rows, ts) == rows[i].uuid
                             && forall j :: 0 <= j < |rows| && rows[j].ts == ts ==> rows[j].id <= rows[i].id
            else Latest(rows, ts) == ""
  {
    var i := LatestAt(rows, ts);
  }

  lemma LatestCarried(rows: seq<Row>, ts: string)
    requires forall i :: 0 <= i < |rows| ==> rows[i].uuid != ""
    ensures Latest(rows, ts) != "" <==> Carries(rows, ts)
  {
    var i := LatestAt(rows, ts);
  }

  lemma LatestDiffer(rows: seq<Row>, ts: string, other: string)
    requires UuidsDistinct(rows) && ts != other && Carries(rows, ts) && Carries(rows, other)
    requires forall i :: 0 <= i < |rows| ==> rows[i].uuid != ""
    ensures Latest(rows, ts) != Latest(rows, other)
  {
    var i := LatestAt(rows, ts);
    var j := LatestAt(rows, other);
    assert rows[i].ts != rows[j].ts;
  }

  /** Once v34 has stamped every event, uniquely, v35 keys a row exactly when an event has its timestamp, and
      running it again changes nothing. Its key is the one the route resolves for a key that is neither blank
      nor padded; for any other, only when no event has that timestamp, padded or not. */
  lemma KeyedAsResolved(rows: seq<Row>, a: Action)
    requires a.uuid == "" && a.key.Some? && UuidsDistinct(rows)
    requires forall i :: 0 <= i < |rows| ==> rows[i].uuid != ""
    ensures var k := a.key.value;
            && (Keyed(rows, a).uuid != "" <==> Carries(rows, k))
            && Keyed(rows, Keyed(rows, a)) == Keyed(rows, a)
            && (Keyed(rows, a).uuid == Resolve(rows, "", k) <==>
                  || (Strip(k) == k && k != "")
                  || (!Carries(rows, k) && (Strip(k) == "" || !Carries(rows, Strip(k)))))
  {
    var k := a.key.value;
    LatestCarried(rows, k);
    LatestCarried(rows, Strip(k));
    if Strip(k) != k && Carries(rows, k) && Carries(rows, Strip(k)) {
      LatestDiffer(rows, k, Strip(k));
    }
  }

  /** A row that has a key already, or no timestamp, stays; a uuid the client sends is taken as it is, stripped. */
  lemma KeyedElsewhere(rows: seq<Row>, a: Action, uuid: string, key: string)
    ensures a.uuid != "" || a.key.None? ==> Keyed(rows, a) == a
    ensures Keyed(rows, a).key == a.key
    ensures Strip(uuid) != "" ==> Resolve(rows, uuid, key) == Strip(uuid)
  {
  }

  /** A padded key of an existing timestamp: the migration leaves it unkeyed, the route resolves it. */
  lemma PaddedKeyMissed(r: Row)
    requires r.ts == "t" && r.uuid != ""
    ensures Keyed([r], Action(Some(" t"), "")).uuid == "" && Resolve([r], "", " t") == r.uuid
  {
    var rows := [r];
    assert " t"[1..] == "t" && Strip("") == "";
    assert Strip(" t") == "t" by {
      assert LStrip(" t") == LStrip("t") == "t";
      assert RStrip("t") == "t";
    }
    assert |" t"| != |"t"|;
    assert rows[|rows| - 1] == r && rows[..|rows| - 1] == [];
    assert Latest(rows, " t") == Latest([], " t") == "";
    assert Latest(rows, "t") == r.uuid;
  }

  /** An event imported without a timestamp keys an action with a blank key, which the route never resolves. */
  lemma BlankKeyKeyed(r: Row)
    requires r.ts == "" && r.uuid != ""
    ensures Keyed([r], Action(Some(""), "")).uuid == r.uuid && Resolve([r], "", "") == ""
  {
  }
}
