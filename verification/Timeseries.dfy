/** app/audit_log.py: pivoting grouped event counts into one series per severity. */
module Timeseries {
  import opened Common

  /** One row of the grouped query; an empty bucket or severity is NULL or blank. */
  datatype Group = Group(bucket: string, severity: string, count: nat) {
    function Label(): string { if severity == "" then "info" else severity }
  }

  /** SQLite's order on ASCII text. */
  predicate Before(a: string, b: string) {
    b != "" && (a == "" || a[0] < b[0] || (a[0] == b[0] && Before(a[1..], b[1..])))
  }

  /** `a` and `b` agree up to `k`, where `a` ends or has the smaller character. */
  predicate SmallerAt(a: string, b: string, k: int) {
    && 0 <= k <= |a| && k < |b| && a[..k] == b[..k]
    && (k == |a| || a[k] < b[k])
  }

  lemma FirstAgrees(a: string, b: string, k: int)
    requires SmallerAt(a, b, k)
    ensures k > 0 ==> a[0] == b[0]
  {
    if k > 0 {
      assert a[..k][0] == a[0] && b[..k][0] == b[0];
    }
  }

  /** It is the order of the first difference. */
  lemma {:induction false} BeforeIff(a: string, b: string)
    ensures Before(a, b) <==> exists k :: SmallerAt(a, b, k)
  {
    if a == "" || b == "" || a[0] != b[0] {
      if b != "" && (a == "" || a[0] < b[0]) {
        assert SmallerAt(a, b, 0);
      }
      forall k | SmallerAt(a, b, k) ensures k <= 0 {
        FirstAgrees(a, b, k);
      }
    } else {
      BeforeIff(a[1..], b[1..]);
      if k :| SmallerAt(a[1..], b[1..], k) {
        assert a[..k + 1] == [a[0]] + a[1..][..k] && b[..k + 1] == [b[0]] + b[1..][..k];
        assert SmallerAt(a, b, k + 1);
      }
      if k :| SmallerAt(a, b, k) {
        assert a[1..][..k - 1] == a[..k][1..] && b[1..][..k - 1] == b[..k][1..];
        assert SmallerAt(a[1..], b[1..], k - 1);
      }
    }
  }

  /** `ORDER BY b` */
  predicate Ordered(rows: seq<Group>) {
    forall i, j :: 0 <= i < j < |rows| ==> rows[i].bucket == rows[j].bucket || Before(rows[i].bucket, rows[j].bucket)
  }

  predicate Ascending(bs: seq<string>) {
    forall i, j :: 0 <= i < j < |bs| ==> Before(bs[i], bs[j])
  }

  /** The non-blank buckets, each once, in order of appearance. */
  function Buckets(rows: seq<Group>): seq<string> {
    if rows == [] then []
    else
      var bs, b := Buckets(rows[..|rows| - 1]), rows[|rows| - 1].bucket;
      if b == "" || b in bs then bs else bs + [b]
  }

  /** `buckets[-limit:]` when there are more than `limit`; 0 keeps all. */
  function Recent(bs: seq<string>, limit: nat): seq<string> {
    if limit != 0 && |bs| > limit then bs[|bs| - limit..] else bs
  }

  /** At most `limit` buckets are kept, every one of them later than every one left out, and none is left out
      without need. */
  lemma RecentIsLatest(bs: seq<string>, limit: nat)
    requires Ascending(bs)
    ensures var kept := Recent(bs, limit);
            && |kept| == (if limit == 0 || |bs| < limit then |bs| else limit)
            && (forall b :: b in kept ==> b in bs)
            && forall b, c :: b in bs && b !in kept && c in kept ==> Before(b, c)
  {
    var kept := Recent(bs, limit);
    var cut := |bs| - |kept|;
    forall b, c | b in bs && b !in kept && c in kept ensures Before(b, c) {
      var i :| 0 <= i < |bs| && bs[i] == b;
      var k :| 0 <= k < |kept| && kept[k] == c;
      assert bs[cut + k] == c;
      assert forall j :: cut <= j < |bs| ==> kept[j - cut] == bs[j];
    }
  }

  function Labels(rows: seq<Group>): set<string> {
    set i | 0 <= i < |rows| && rows[i].bucket != "" :: rows[i].Label()
  }

  /** What the chart holds at (`b`, `name`): the count of the last row put there, or 0. */
  function Cell(rows: seq<Group>, b: string, name: string): nat {
    if rows == [] then 0
    else
      var r := rows[|rows| - 1];
      if r.bucket == b && r.Label() == name then r.count else Cell(rows[..|rows| - 1], b, name)
  }

  type Key = (string, string)

  method Pivot(rows: seq<Group>, limit: nat) returns (buckets: seq<string>, series: map<string, seq<nat>>)
    ensures buckets == Recent(Buckets(rows), limit)
    ensures series.Keys == Labels(rows)
    ensures forall s :: s in series ==> |series[s]| == |buckets|
    ensures forall s, k :: s in series && 0 <= k < |buckets| ==> series[s][k] == Cell(rows, buckets[k], s)
  {
    buckets := [];
    var counts: map<Key, nat>, labels: set<string> := map[], {};
    for i := 0 to |rows|
      invariant buckets == Buckets(rows[..i])
      invariant labels == Labels(rows[..i])
      invariant forall b, s :: b != "" ==> Cell(rows[..i], b, s) == if (b, s) in counts then counts[(b, s)] else 0
    {
      var r := rows[i];
      assert rows[..i + 1][..i] == rows[..i] && rows[..i + 1][i] == r;
      LabelsGrow(rows[..i], r);
      if r.bucket == "" {
        continue;
      }
      if r.bucket !in buckets {
        buckets := buckets + [r.bucket];
      }
      labels := labels + {r.Label()};
      counts := counts[(r.bucket, r.Label()) := r.count];
    }
    assert rows[..|rows|] == rows;
    BucketsAre(rows);
    if limit != 0 && |buckets| > limit {
      buckets := buckets[|buckets| - limit..];
    }
    var kept := buckets;
    series := map s | s in labels ::
      seq(|kept|, k requires 0 <= k < |kept| => if (kept[k], s) in counts then counts[(kept[k], s)] else 0);
  }

  lemma LabelsGrow(rows: seq<Group>, r: Group)
    ensures Labels(rows + [r]) == Labels(rows) + if r.bucket == "" then {} else {r.Label()}
  {
    var all := rows + [r];
    assert forall i :: 0 <= i < |rows| ==> all[i] == rows[i];
    assert all[|rows|] == r;
  }

  lemma {:induction false} BucketsAre(rows: seq<Group>)
    ensures "" !in Buckets(rows) && Distinct(Buckets(rows))
    ensures forall b :: b in Buckets(rows) <==> b != "" && exists i :: 0 <= i < |rows| && rows[i].bucket == b
  {
    if rows != [] {
      var init, r := rows[..|rows| - 1], rows[|rows| - 1];
      BucketsAre(init);
      forall b
        ensures b in Buckets(rows) <==> b != "" && exists i :: 0 <= i < |rows| && rows[i].bucket == b
      {
        if i :| 0 <= i < |rows| && rows[i].bucket == b {
          assert i < |init| ==> init[i].bucket == b;
        }
      }
    }
  }

  /** The chart's buckets run forward in time. */
  lemma {:induction false} BucketsAscend(rows: seq<Group>, limit: nat)
    requires Ordered(rows)
    ensures Ascending(Buckets(rows)) && Ascending(Recent(Buckets(rows), limit))
  {
    if rows != [] {
      var init, r := rows[..|rows| - 1], rows[|rows| - 1];
      BucketsAscend(init, limit);
      BucketsAre(init);
      var bs := Buckets(init);
      if r.bucket != "" && r.bucket !in bs {
        forall k | 0 <= k < |bs| ensures Before(bs[k], r.bucket) {
          assert bs[k] in bs;
          var i :| 0 <= i < |init| && init[i].bucket == bs[k];
          assert rows[i] == init[i];
        }
      }
    }
  }

  // ---- conservation -----------------------------------------------------------------------

  function Column(rows: seq<Group>, bs: seq<string>, name: string): nat {
    if bs == [] then 0 else Cell(rows, bs[0], name) + Column(rows, bs[1..], name)
  }

  /** The sum of every cell of the chart. */
  function Grid(rows: seq<Group>, bs: seq<string>, labels: seq<string>): nat
    decreases |labels|
  {
    if labels == [] then 0 else Column(rows, bs, labels[0]) + Grid(rows, bs, labels[1..])
  }

  /** Events counted by the rows of the kept buckets. */
  function Counted(rows: seq<Group>, bs: seq<string>): nat {
    if rows == [] then 0
    else
      var r := rows[|rows| - 1];
      Counted(rows[..|rows| - 1], bs) + if r.bucket in bs then r.count else 0
  }

  /** Events of kept rows that a later row with the same bucket and label overwrites. */
  function Overwritten(rows: seq<Group>, bs: seq<string>): nat {
    if rows == [] then 0
    else
      var r := rows[|rows| - 1];
      Overwritten(rows[..|rows| - 1], bs)
        + if r.bucket in bs then Cell(rows[..|rows| - 1], r.bucket, r.Label()) else 0
  }

  lemma {:induction false} ColumnGrows(rows: seq<Group>, r: Group, bs: seq<string>, name: string)
    requires Distinct(bs)
    ensures Column(rows + [r], bs, name) == Column(rows, bs, name)
              + if r.bucket in bs && r.Label() == name then r.count - Cell(rows, r.bucket, name) else 0
  {
    assert (rows + [r])[..|rows|] == rows && (rows + [r])[|rows|] == r;
    if bs != [] {
      ColumnGrows(rows, r, bs[1..], name);
      assert bs == [bs[0]] + bs[1..];
    }
  }

  lemma {:induction false} GridGrows(rows: seq<Group>, r: Group, bs: seq<string>, labels: seq<string>)
    requires Distinct(bs) && Distinct(labels)
    ensures Grid(rows + [r], bs, labels) == Grid(rows, bs, labels)
              + if r.bucket in bs && r.Label() in labels then r.count - Cell(rows, r.bucket, r.Label()) else 0
    decreases |labels|
  {
    if labels != [] {
      ColumnGrows(rows, r, bs, labels[0]);
      GridGrows(rows, r, bs, labels[1..]);
      assert labels == [labels[0]] + labels[1..];
    }
  }

  lemma {:induction false} EmptyGrid(bs: seq<string>, labels: seq<string>)
    ensures Grid([], bs, labels) == 0
    decreases |labels|
  {
    if labels != [] {
      EmptyColumn(bs, labels[0]);
      EmptyGrid(bs, labels[1..]);
    }
  }

  lemma {:induction false} EmptyColumn(bs: seq<string>, name: string)
    ensures Column([], bs, name) == 0
  {
    if bs != [] {
      EmptyColumn(bs[1..], name);
    }
  }

  /** Every label of a row in a kept bucket has a series. */
  predicate Covers(labels: seq<string>, rows: seq<Group>, bs: seq<string>) {
    forall i :: 0 <= i < |rows| && rows[i].bucket in bs ==> rows[i].Label() in labels
  }

  lemma {:induction false} CellsPlusOverwritten(rows: seq<Group>, bs: seq<string>, labels: seq<string>)
    requires Distinct(bs) && Distinct(labels) && Covers(labels, rows, bs)
    ensures Grid(rows, bs, labels) + Overwritten(rows, bs) == Counted(rows, bs)
  {
    if rows == [] {
      EmptyGrid(bs, labels);
    } else {
      var init, r := rows[..|rows| - 1], rows[|rows| - 1];
      assert Covers(labels, init, bs) by {
        assert forall i :: 0 <= i < |init| ==> init[i] == rows[i];
      }
      CellsPlusOverwritten(init, bs, labels);
      GridGrows(init, r, bs, labels);
      assert rows == init + [r];
    }
  }

  /** Two rows of one kept bucket share a label: NULL, blank and `info` are one label. */
  predicate Clash(rows: seq<Group>, bs: seq<string>) {
    exists i, j :: 0 <= i < j < |rows| && SameCell(rows[i], rows[j]) && rows[j].bucket in bs
  }

  predicate SameCell(q: Group, r: Group) {
    q.bucket == r.bucket && q.Label() == r.Label()
  }

  lemma {:induction false} CellHoldsLast(rows: seq<Group>, b: string, name: string)
    requires forall i :: 0 <= i < |rows| ==> rows[i].count > 0
    ensures Cell(rows, b, name) > 0 <==> exists i :: 0 <= i < |rows| && rows[i].bucket == b && rows[i].Label() == name
  {
    if rows != [] {
      var init := rows[..|rows| - 1];
      assert forall i :: 0 <= i < |init| ==> init[i] == rows[i];
      CellHoldsLast(init, b, name);
      if i :| 0 <= i < |rows| && rows[i].bucket == b && rows[i].Label() == name {
        assert i < |init| ==> init[i].bucket == b && init[i].Label() == name;
      }
    }
  }

  lemma {:induction false} OverwrittenIffClash(rows: seq<Group>, bs: seq<string>)
    requires forall i :: 0 <= i < |rows| ==> rows[i].count > 0
    ensures Overwritten(rows, bs) > 0 <==> Clash(rows, bs)
  {
    if rows != [] {
      var init, r := rows[..|rows| - 1], rows[|rows| - 1];
      assert forall i :: 0 <= i < |init| ==> init[i] == rows[i];
      OverwrittenIffClash(init, bs);
      CellHoldsLast(init, r.bucket, r.Label());
      if i, j :| 0 <= i < j < |rows| && SameCell(rows[i], rows[j]) && rows[j].bucket in bs {
        assert j < |init| ==> SameCell(init[i], init[j]) && init[j].bucket in bs;
      }
      if Overwritten(init, bs) > 0 {
        var i, j :| 0 <= i < j < |init| && SameCell(init[i], init[j]) && init[j].bucket in bs;
        assert SameCell(rows[i], rows[j]) && rows[j].bucket in bs;
      } else if r.bucket in bs && Cell(init, r.bucket, r.Label()) > 0 {
        var i :| 0 <= i < |init| && init[i].bucket == r.bucket && init[i].Label() == r.Label();
        assert SameCell(rows[i], rows[|init|]);
      }
    }
  }

  /** The series are those of `Labels`, each once, in any order. */
  ghost predicate Lists(labels: seq<string>, rows: seq<Group>) {
    Distinct(labels) && (forall s :: s in labels <==> s in Labels(rows))
  }

  lemma RecentKept(rows: seq<Group>, limit: nat, labels: seq<string>)
    requires Lists(labels, rows)
    ensures var bs := Recent(Buckets(rows), limit);
            Distinct(bs) && Covers(labels, rows, bs)
  {
    BucketsAre(rows);
    var bs := Recent(Buckets(rows), limit);
    forall i | 0 <= i < |rows| && rows[i].bucket in bs ensures rows[i].Label() in labels {
      assert rows[i].bucket in Buckets(rows);
      assert rows[i].Label() in Labels(rows);
    }
  }

  /** The chart's cells sum to the events of its buckets, unless two rows of a kept bucket fall under one
      label; then it shows strictly fewer. */
  lemma ChartConserves(rows: seq<Group>, limit: nat, labels: seq<string>)
    requires forall i :: 0 <= i < |rows| ==> rows[i].count > 0
    requires Lists(labels, rows)
    ensures var bs := Recent(Buckets(rows), limit);
            var shown, counted := Grid(rows, bs, labels), Counted(rows, bs);
            shown <= counted && (shown == counted <==> !Clash(rows, bs))
  {
    var bs := Recent(Buckets(rows), limit);
    RecentKept(rows, limit, labels);
    CellsPlusOverwritten(rows, bs, labels);
    OverwrittenIffClash(rows, bs);
  }

  /** A NULL severity beside `info` loses the first count. */
  lemma NullSeverityHidesEvents(b: string, m: nat, n: nat)
    requires b != ""
    ensures var rows := [Group(b, "", m), Group(b, "info", n)];
            Grid(rows, [b], ["info"]) == n && Counted(rows, [b]) == m + n
  {
    var rows := [Group(b, "", m), Group(b, "info", n)];
    assert rows[..1] == [rows[0]];
    assert [b][1..] == [] && ["info"][1..] == [];
    assert Column(rows, [b], "info") == Cell(rows, b, "info") + Column(rows, [], "info");
    assert Counted(rows[..1], [b]) == m;
  }
}
