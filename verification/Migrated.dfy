/** app/migrations.py: what the shipped migrations make of the rows of events and of analyst actions, however
    often they are interrupted. */
module Migrated {
  import opened Common
  import opened Statements
  import opened Migrations
  import opened Catalogue
  import B = Backfill

  // ---- one migration ---------------------------------------------------------------------------

  predicate SameRows(st: Store, st': Store) {
    st'.events == st.events && st'.actions == st.actions
  }

  lemma StepKeepsRows(env: Env, s: Stmt, st: Store)
    requires !Touches(s) && Exec(env, s, st).Some?
    ensures SameRows(st, Exec(env, s, st).value)
  {
  }

  lemma {:induction false} PrefixKeepsRows(env: Env, l: seq<Stmt>, j: nat, st: Store)
    requires j <= |l| && After(Executing(env), l, j, st).Some?
    requires forall i :: 0 <= i < j ==> !Touches(l[i])
    ensures SameRows(st, After(Executing(env), l, j, st).value)
  {
    if j > 0 {
      PrefixKeepsRows(env, l, j - 1, st);
      StepKeepsRows(env, l[j - 1], After(Executing(env), l, j - 1, st).value);
    }
  }

  lemma PlainKeepsRows(env: Env, m: Migration, st: Store)
    requires Untouching(m.build) && Untouching(m.columns) && Untouching(m.rest)
    requires After(Executing(env), m.Statements(), |m.Statements()|, st).Some?
    ensures SameRows(st, After(Executing(env), m.Statements(), |m.Statements()|, st).value)
  {
    PrefixKeepsRows(env, m.Statements(), |m.Statements()|, st);
  }

  function Imported(env: Env, events: seq<B.Row>): seq<B.Row> {
    if events == [] then env.log else events
  }

  lemma ImportStage(env: Env, st: Store)
    requires var l := V22().Statements(); After(Executing(env), l, |l|, st).Some?
    ensures var l := V22().Statements();
            var st' := After(Executing(env), l, |l|, st).value;
            st'.events == Imported(env, st.events) && st'.actions == st.actions
  {
    var l := V22().Statements();
    assert |l| == 6 && l[5] == ImportEvents;
    PrefixKeepsRows(env, l, 5, st);
  }

  // ---- v34 -----------------------------------------------------------------------------------------

  function BackfilledRow(env: Env, r: B.Row, i: nat): B.Row {
    B.Written(env.job, StampedRow(env, r, i))
  }

  function BackfilledRows(env: Env, events: seq<B.Row>): seq<B.Row> {
    seq(|events|, i requires 0 <= i < |events| => BackfilledRow(env, events[i], i))
  }

  /** Neither backfill minds the other. */
  lemma UuidApart(job: B.Job, r: B.Row, u: string)
    ensures B.Written(job, r.(uuid := u)) == B.Written(job, r).(uuid := u)
    ensures B.Selected(r.(uuid := u), 0) == B.Selected(r, 0)
    ensures B.Fill(job, r.(uuid := u)).Some? == B.Fill(job, r).Some?
  {
    assert B.DetailsOf(job, r.(uuid := u)) == B.DetailsOf(job, r);
  }

  const ADDED := |[UUID] + FIELDS|

  /** Row `i` when the first `j` statements of v34 have run. */
  predicate RowAt(env: Env, n: nat, j: nat, i: nat, r: B.Row, now: B.Row) {
    && now == (if j > ADDED + n + 1 + i then BackfilledRow(env, r, i)
               else if j > ADDED + i then StampedRow(env, r, i) else r)
    && (j > ADDED + n + 1 + i && B.Selected(r, 0) ==> B.Fill(env.job, r).Some?)
  }

  predicate RowsAt(env: Env, n: nat, j: nat, events: seq<B.Row>, now: seq<B.Row>) {
    |now| == |events| && forall i :: 0 <= i < |events| ==> RowAt(env, n, j, i, events[i], now[i])
  }

  /** The statement at position `j` of v34. */
  predicate IsStep(n: nat, j: nat, s: Stmt) {
    if ADDED <= j < ADDED + n + 1 then s == StampAt(j - ADDED)
    else if ADDED + n + 1 <= j < ADDED + 2 * (n + 1) then s == FillAt(j - ADDED - n - 1)
    else !Touches(s)
  }

  lemma V34At(n: nat, j: nat)
    requires j < |V34(n).Statements()|
    ensures IsStep(n, j, V34(n).Statements()[j])
  {
    var l, p := V34(n).Statements(), ADDED + 2 * (n + 1);
    assert Untouching(EventIndexes());
    assert j < ADDED ==> l[j] == Columns(EVENTS, [UUID] + FIELDS, false)[j];
    assert j >= p ==> l[j] == EventIndexes()[j - p];
  }

  lemma BackfillStep(env: Env, n: nat, j: nat, s: Stmt, events: seq<B.Row>, st: Store)
    requires IsStep(n, j, s) && |events| <= n && RowsAt(env, n, j, events, st.events)
    requires Exec(env, s, st).Some?
    ensures var st' := Exec(env, s, st).value;
            RowsAt(env, n, j + 1, events, st'.events) && st'.actions == st.actions
  {
    var st' := Exec(env, s, st).value;
    if Touches(s) {
      forall i | 0 <= i < |events| ensures RowAt(env, n, j + 1, i, events[i], st'.events[i]) {
        assert RowAt(env, n, j, i, events[i], st.events[i]);
        UuidApart(env.job, events[i], StampedRow(env, events[i], i).uuid);
      }
    } else {
      StepKeepsRows(env, s, st);
      forall i | 0 <= i < |events| ensures RowAt(env, n, j + 1, i, events[i], st'.events[i]) {
        assert RowAt(env, n, j, i, events[i], st.events[i]);
      }
    }
  }

  lemma {:induction false} BackfillPrefix(env: Env, n: nat, j: nat, st: Store)
    requires j <= |V34(n).Statements()| && |st.events| <= n
    requires After(Executing(env), V34(n).Statements(), j, st).Some?
    ensures var st' := After(Executing(env), V34(n).Statements(), j, st).value;
            RowsAt(env, n, j, st.events, st'.events) && st'.actions == st.actions
  {
    if j > 0 {
      BackfillPrefix(env, n, j - 1, st);
      V34At(n, j - 1);
      BackfillStep(env, n, j - 1, V34(n).Statements()[j - 1], st.events,
                   After(Executing(env), V34(n).Statements(), j - 1, st).value);
    }
  }

  lemma BackfillStage(env: Env, n: nat, st: Store)
    requires |st.events| <= n
    requires var l := V34(n).Statements(); After(Executing(env), l, |l|, st).Some?
    ensures var l := V34(n).Statements();
            var st' := After(Executing(env), l, |l|, st).value;
            && st'.events == BackfilledRows(env, st.events) && st'.actions == st.actions
            && B.Fillable(env.job, st.events)
  {
    var l := V34(n).Statements();
    BackfillPrefix(env, n, |l|, st);
    var now := After(Executing(env), l, |l|, st).value.events;
    forall i | 0 <= i < |st.events|
      ensures now[i] == BackfilledRow(env, st.events[i], i)
      ensures B.Selected(st.events[i], 0) ==> B.Fill(env.job, st.events[i]).Some?
    {
      assert RowAt(env, n, |l|, i, st.events[i], now[i]);
    }
  }

  /** The batch loops leave these rows too, the draws being the uuids the rows were given. */
  lemma LoopsAgree(env: Env, supply: nat -> string, start: seq<B.Row>, mid: seq<B.Row>, end: seq<B.Row>, used: nat)
    requires B.Stamped(supply, start, mid, used) && B.AllWritten(env.job, mid, end)
    ensures end == BackfilledRows(env.(draw := (i: nat) => if i < |mid| then mid[i].uuid else ""), start)
  {
    var drawing := env.(draw := (i: nat) => if i < |mid| then mid[i].uuid else "");
    forall i | 0 <= i < |start| ensures end[i] == BackfilledRow(drawing, start[i], i) {
      assert mid[i] == start[i].(uuid := mid[i].uuid);
      assert StampedRow(drawing, start[i], i) == mid[i];
    }
  }

  // ---- v35 -----------------------------------------------------------------------------------------

  function KeyedTables(events: seq<B.Row>, actions: map<string, seq<B.Action>>): map<string, seq<B.Action>> {
    map t | t in actions :: if t in {ACTIONS, ASSIGNMENTS} then KeyedRows(events, actions[t]) else actions[t]
  }

  /** A row that has a uuid, or no key, stays; any other gets the uuid of the last event whose timestamp is its
      key, or none where there is no such event. */
  predicate KeyedFrom(events: seq<B.Row>, a: B.Action, now: B.Action) {
    && now.key == a.key
    && if a.uuid != "" || a.key.None? then now.uuid == a.uuid
       else if B.Carries(events, a.key.value)
       then exists i :: 0 <= i < |events| && LastWith(events, a.key.value, i) && events[i].uuid == now.uuid
       else now.uuid == ""
  }

  predicate LastWith(events: seq<B.Row>, ts: string, i: int) {
    0 <= i < |events| && events[i].ts == ts && forall j :: i < j < |events| ==> events[j].ts != ts
  }

  predicate AllKeyedFrom(events: seq<B.Row>, old_: seq<B.Action>, now: seq<B.Action>) {
    |now| == |old_| && forall i :: 0 <= i < |now| ==> KeyedFrom(events, old_[i], now[i])
  }

  lemma RowsKeyed(events: seq<B.Row>, rows: seq<B.Action>)
    ensures AllKeyedFrom(events, rows, KeyedRows(events, rows))
  {
    forall i | 0 <= i < |rows| ensures KeyedFrom(events, rows[i], KeyedRows(events, rows)[i]) {
      if rows[i].key.Some? {
        var j := B.LatestAt(events, rows[i].key.value);
        assert j >= 0 ==> LastWith(events, rows[i].key.value, j);
      }
    }
  }

  lemma KeyBoth(st: Store, mid: Store, st': Store)
    requires KeyTable(st, ACTIONS) == Some(mid) && KeyTable(mid, ASSIGNMENTS) == Some(st')
    ensures st'.events == st.events && st'.actions == KeyedTables(st.events, st.actions)
  {
    assert ACTIONS != ASSIGNMENTS by { assert |ACTIONS| != |ASSIGNMENTS|; }
    assert st'.actions == KeyedTables(st.events, st.actions);
  }

  lemma KeyStage(env: Env, st: Store)
    requires var l := V35().Statements(); After(Executing(env), l, |l|, st).Some?
    ensures var l := V35().Statements();
            var st' := After(Executing(env), l, |l|, st).value;
            st'.events == st.events && st'.actions == KeyedTables(st.events, st.actions)
  {
    var l := V35().Statements();
    assert |l| == 6 && l[2] == KeyActions(ACTIONS) && l[3] == KeyActions(ASSIGNMENTS);
    assert !Touches(l[0]) && !Touches(l[1]) && !Touches(l[4]) && !Touches(l[5]);
    KeySteps(env, l, st);
  }

  lemma KeySteps(env: Env, l: seq<Stmt>, st: Store)
    requires |l| == 6 && l[2] == KeyActions(ACTIONS) && l[3] == KeyActions(ASSIGNMENTS)
    requires !Touches(l[0]) && !Touches(l[1]) && !Touches(l[4]) && !Touches(l[5])
    requires After(Executing(env), l, 6, st).Some?
    ensures var st' := After(Executing(env), l, 6, st).value;
            st'.events == st.events && st'.actions == KeyedTables(st.events, st.actions)
  {
    var exec := Executing(env);
    AfterDefined(exec, l, 5, 6, st);
    AfterDefined(exec, l, 4, 5, st);
    AfterDefined(exec, l, 3, 4, st);
    AfterDefined(exec, l, 2, 3, st);
    PrefixKeepsRows(env, l, 2, st);
    var four := After(exec, l, 4, st).value;
    KeyBoth(After(exec, l, 2, st).value, After(exec, l, 3, st).value, four);
    StepKeepsRows(env, l[4], four);
    StepKeepsRows(env, l[5], After(exec, l, 5, st).value);
  }

  // ---- a whole run ---------------------------------------------------------------------------------

  /** The events after migrations `from` to `w - 1`. */
  function EventsAt(env: Env, from: nat, w: nat, events: seq<B.Row>): seq<B.Row> {
    var known := if from <= 22 < w then Imported(env, events) else events;
    if from <= 34 < w then BackfilledRows(env, known) else known
  }

  function ActionsAt(env: Env, from: nat, w: nat, st: Store): map<string, seq<B.Action>> {
    if from <= 35 < w then KeyedTables(EventsAt(env, from, 35, st.events), st.actions) else st.actions
  }

  predicate Tracked(env: Env, from: nat, w: nat, st: Store, st': Store) {
    && st'.events == EventsAt(env, from, w, st.events) && st'.actions == ActionsAt(env, from, w, st)
    && (from <= 34 < w ==> B.Fillable(env.job, EventsAt(env, from, 34, st.events)))
  }

  predicate Fits(env: Env, n: nat, st: Store) {
    |st.events| <= n && |env.log| <= n
  }

  /** What migration `w` makes of the rows. */
  predicate Turned(env: Env, w: nat, st: Store, st': Store) {
    && st'.events == (if w == 22 then Imported(env, st.events)
                      else if w == 34 then BackfilledRows(env, st.events) else st.events)
    && st'.actions == (if w == 35 then KeyedTables(st.events, st.actions) else st.actions)
    && (w == 34 ==> B.Fillable(env.job, st.events))
  }

  lemma TurnedBy(env: Env, n: nat, w: nat, st: Store)
    requires |st.events| <= n
    requires var l := Entry(w, n).Statements(); After(Executing(env), l, |l|, st).Some?
    ensures var l := Entry(w, n).Statements(); Turned(env, w, st, After(Executing(env), l, |l|, st).value)
  {
    if w == 22 {
      ImportStage(env, st);
    } else if w == 34 {
      BackfillStage(env, n, st);
    } else if w == 35 {
      KeyStage(env, st);
    } else {
      OthersArePlain(w, n);
      PlainKeepsRows(env, Entry(w, n), st);
    }
  }

  lemma TrackOne(env: Env, from: nat, w: nat, st: Store, before: Store, after: Store)
    requires from <= w && Tracked(env, from, w, st, before) && Turned(env, w, before, after)
    ensures Tracked(env, from, w + 1, st, after)
  {
  }

  lemma KnownFits(env: Env, n: nat, from: nat, w: nat, st: Store, now: Store)
    requires Fits(env, n, st) && Tracked(env, from, w, st, now)
    ensures |now.events| <= n
  {
  }

  /** Each migration of the plan does to the rows what `Turned` says. */
  ghost predicate Turns(plan: Plan, env: Env, n: nat) {
    forall w: nat, st: Store :: |st.events| <= n && After(plan.exec, plan.steps(w), |plan.steps(w)|, st).Some? ==>
      Turned(env, w, st, After(plan.exec, plan.steps(w), |plan.steps(w)|, st).value)
  }

  lemma ShippedTurns(env: Env, n: nat)
    ensures Turns(Shipped(env, n), env, n)
  {
    var plan := Shipped(env, n);
    forall w: nat, st: Store | |st.events| <= n && After(plan.exec, plan.steps(w), |plan.steps(w)|, st).Some?
      ensures Turned(env, w, st, After(plan.exec, plan.steps(w), |plan.steps(w)|, st).value)
    {
      TurnedBy(env, n, w, st);
    }
  }

  lemma {:induction false} TrackedAlong(plan: Plan, env: Env, n: nat, from: nat, w: nat, st: Store)
    requires Turns(plan, env, n) && from <= w && Fits(env, n, st) && Ideal(plan, from, w, st).Some?
    ensures Tracked(env, from, w, st, Ideal(plan, from, w, st).value)
    decreases w
  {
    if from < w {
      var before := Ideal(plan, from, w - 1, st).value;
      TrackedAlong(plan, env, n, from, w - 1, st);
      KnownFits(env, n, from, w - 1, st, before);
      TrackOne(env, from, w - 1, st, before, Ideal(plan, from, w, st).value);
    }
  }

  /** Failed attempts with these limits, then one that succeeds and leaves `end`. */
  ghost predicate Migrates(env: Env, n: nat, db: Db, fuels: seq<nat>, fuel: nat, end: Store) {
    var plan := Shipped(env, n);
    var o := Attempt(plan, Attempts(plan, db, fuels), fuel);
    o.status == Done && o.db.store == end
  }

  function FirstPending(k: nat): nat {
    if k < FIRST then FIRST else k + 1
  }

  lemma PlanEnds(plan: Plan, k: nat, db: Db, fuels: seq<nat>, fuel: nat)
    requires plan.Sound() && db.versions == UpTo(k) && k <= plan.top
    requires Attempt(plan, Attempts(plan, db, fuels), fuel).status == Done
    ensures Ideal(plan, FirstPending(k), plan.top + 1, db.store)
            == Some(Attempt(plan, Attempts(plan, db, fuels), fuel).db.store)
  {
    var from := StartsOnTrack(plan, k, db);
    MaxUpTo(k);
    var mid := AttemptsStayOnTrack(plan, from, db.store, Place(from, 0), db, fuels);
    DoneIsIdeal(plan, from, db.store, mid, Attempts(plan, db, fuels), fuel);
  }

  lemma EndIsIdeal(env: Env, n: nat, k: nat, db: Db, fuels: seq<nat>, fuel: nat, end: Store)
    requires db.versions == UpTo(k) && k <= CURRENT && Migrates(env, n, db, fuels, fuel, end)
    ensures Ideal(Shipped(env, n), FirstPending(k), CURRENT + 1, db.store) == Some(end)
  {
    ShippedIsSound(env, n);
    PlanEnds(Shipped(env, n), k, db, fuels, fuel);
  }

  /** Whatever failed before it, a successful attempt leaves the events and the analyst actions of one
      undisturbed pass, and there is none while some old event it must fill cannot be stored. */
  lemma RowsConverge(env: Env, n: nat, k: nat, db: Db, fuels: seq<nat>, fuel: nat, end: Store)
    requires db.versions == UpTo(k) && k <= CURRENT && Fits(env, n, db.store) && Migrates(env, n, db, fuels, fuel, end)
    ensures Tracked(env, FirstPending(k), CURRENT + 1, db.store, end)
  {
    EndIsIdeal(env, n, k, db, fuels, fuel, end);
    ShippedTurns(env, n);
    TrackedAlong(Shipped(env, n), env, n, FirstPending(k), CURRENT + 1, db.store);
  }

  /** The events v34 finds. */
  function OldEvents(env: Env, k: nat, st: Store): seq<B.Row> {
    if k < 22 then Imported(env, st.events) else st.events
  }

  /** Uuids drawn for different rows differ from each other and from those already there. */
  ghost predicate Fresh(env: Env, events: seq<B.Row>) {
    && (forall i :: env.draw(i) != "")
    && (forall i, j | env.draw(i) == env.draw(j) :: i == j)
    && (forall i, j :: 0 <= j < |events| ==> env.draw(i) != events[j].uuid)
  }

  lemma BackfilledUuids(env: Env, events: seq<B.Row>)
    requires Fresh(env, events)
    ensures var now := BackfilledRows(env, events);
            && (forall i :: 0 <= i < |now| ==>
                  now[i].uuid != "" && (events[i].uuid != "" ==> now[i].uuid == events[i].uuid))
            && (B.UuidsDistinct(events) ==> B.UuidsDistinct(now))
  {
    var now := BackfilledRows(env, events);
    forall i | 0 <= i < |now| ensures now[i].uuid == StampedRow(env, events[i], i).uuid {
      B.FillKeepsSource(env.job, StampedRow(env, events[i], i));
    }
  }

  /** Every event has a uuid, old ones stand, none repeats that did not, and the columns are those of one
      backfill. */
  predicate AllStamped(env: Env, old_: seq<B.Row>, now: seq<B.Row>) {
    && |now| == |old_|
    && (forall i :: 0 <= i < |now| ==> now[i].uuid != "" && (old_[i].uuid != "" ==> now[i].uuid == old_[i].uuid))
    && (forall i :: 0 <= i < |now| ==> now[i] == B.Written(env.job, old_[i]).(uuid := now[i].uuid))
    && (B.UuidsDistinct(old_) ==> B.UuidsDistinct(now))
  }

  lemma BackfillStamps(env: Env, old_: seq<B.Row>)
    requires Fresh(env, old_)
    ensures AllStamped(env, old_, BackfilledRows(env, old_))
  {
    BackfilledUuids(env, old_);
    var now := BackfilledRows(env, old_);
    forall i | 0 <= i < |now| ensures now[i] == B.Written(env.job, old_[i]).(uuid := now[i].uuid) {
      UuidApart(env.job, old_[i], StampedRow(env, old_[i], i).uuid);
    }
  }

  lemma TrackedEvents(env: Env, k: nat, st: Store, end: Store)
    requires k < 34 && Tracked(env, FirstPending(k), CURRENT + 1, st, end)
    ensures end.events == BackfilledRows(env, OldEvents(env, k, st)) && B.Fillable(env.job, OldEvents(env, k, st))
  {
  }

  lemma TrackedActions(env: Env, k: nat, st: Store, end: Store)
    requires k < 35 && Tracked(env, FirstPending(k), CURRENT + 1, st, end)
    ensures end.actions == KeyedTables(end.events, st.actions)
  {
  }

  /** Once a database older than v34 is migrated, through whatever interruptions, every event is stamped. */
  lemma EveryEventStamped(env: Env, n: nat, k: nat, db: Db, fuels: seq<nat>, fuel: nat, end: Store)
    requires db.versions == UpTo(k) && k < 34 && Fits(env, n, db.store) && Migrates(env, n, db, fuels, fuel, end)
    requires Fresh(env, OldEvents(env, k, db.store))
    ensures AllStamped(env, OldEvents(env, k, db.store), end.events)
  {
    RowsConverge(env, n, k, db, fuels, fuel, end);
    TrackedEvents(env, k, db.store, end);
    BackfillStamps(env, OldEvents(env, k, db.store));
  }

  /** Every analyst action that had no uuid gets that of the latest event with its timestamp. */
  lemma EveryActionKeyed(env: Env, n: nat, k: nat, db: Db, fuels: seq<nat>, fuel: nat, end: Store)
    requires db.versions == UpTo(k) && k < 35 && Fits(env, n, db.store) && Migrates(env, n, db, fuels, fuel, end)
    ensures end.actions == KeyedTables(end.events, db.store.actions)
    ensures end.actions.Keys == db.store.actions.Keys
    ensures forall t :: t in end.actions ==>
              if t == "siem_alert_actions" || t == "siem_alert_assignments"
              then AllKeyedFrom(end.events, db.store.actions[t], end.actions[t])
              else end.actions[t] == db.store.actions[t]
  {
    RowsConverge(env, n, k, db, fuels, fuel, end);
    TrackedActions(env, k, db.store, end);
    forall t | t in end.actions && t in {ACTIONS, ASSIGNMENTS}
      ensures AllKeyedFrom(end.events, db.store.actions[t], end.actions[t])
    {
      RowsKeyed(end.events, db.store.actions[t]);
    }
  }

  /** No run of the shipped migrations, however often repeated, gets past an old event that cannot be
      stored. */
  lemma UnstorableEventBlocks(env: Env, n: nat, k: nat, db: Db, fuels: seq<nat>, fuel: nat, end: Store)
    requires db.versions == UpTo(k) && k < 34 && Fits(env, n, db.store)
    requires !B.Fillable(env.job, OldEvents(env, k, db.store))
    ensures !Migrates(env, n, db, fuels, fuel, end)
  {
    if Migrates(env, n, db, fuels, fuel, end) {
      RowsConverge(env, n, k, db, fuels, fuel, end);
      TrackedEvents(env, k, db.store, end);
    }
  }

  // ---- which uuids were drawn does not matter ------------------------------------------------------

  predicate AlikeRow(r: B.Row, q: B.Row) {
    q == r.(uuid := q.uuid) && (q.uuid == "" <==> r.uuid == "")
  }

  predicate AlikeRows(rows: seq<B.Row>, others: seq<B.Row>) {
    |others| == |rows| && forall i :: 0 <= i < |rows| ==> AlikeRow(rows[i], others[i])
  }

  predicate AlikeActions(rows: seq<B.Action>, others: seq<B.Action>) {
    && |others| == |rows|
    && forall i :: 0 <= i < |rows| ==> others[i].key == rows[i].key && (others[i].uuid == "" <==> rows[i].uuid == "")
  }

  /** Equal but for the uuids; the same rows have one. */
  predicate Alike(st: Store, other: Store) {
    && other.tables == st.tables && other.indexes == st.indexes && other.seeds == st.seeds
    && AlikeRows(st.events, other.events)
    && other.actions.Keys == st.actions.Keys
    && forall t :: t in st.actions ==> AlikeActions(st.actions[t], other.actions[t])
  }

  ghost predicate Draws(env: Env, other: Env) {
    other == env.(draw := other.draw) && forall i :: env.draw(i) != "" && other.draw(i) != ""
  }

  lemma {:induction false} LatestAlike(rows: seq<B.Row>, others: seq<B.Row>, ts: string)
    requires AlikeRows(rows, others)
    ensures B.Latest(rows, ts) == "" <==> B.Latest(others, ts) == ""
  {
    if rows != [] {
      assert AlikeRow(rows[|rows| - 1], others[|rows| - 1]);
      LatestAlike(rows[..|rows| - 1], others[..|rows| - 1], ts);
    }
  }

  lemma KeysAlike(st: Store, other: Store, t: string)
    requires Alike(st, other) && KeyTable(st, t).Some? && KeyTable(other, t).Some?
    ensures Alike(KeyTable(st, t).value, KeyTable(other, t).value)
  {
    if t in st.actions {
      forall ts: string ensures B.Latest(st.events, ts) == "" <==> B.Latest(other.events, ts) == "" {
        LatestAlike(st.events, other.events, ts);
      }
      assert AlikeActions(KeyedRows(st.events, st.actions[t]), KeyedRows(other.events, other.actions[t]));
    }
  }

  lemma RowsAlike(env: Env, other: Env, s: Stmt, st: Store, st2: Store)
    requires Draws(env, other) && Alike(st, st2) && (s.StampAt? || s.FillAt?)
    requires Exec(env, s, st).Some? && Exec(other, s, st2).Some?
    ensures Alike(Exec(env, s, st).value, Exec(other, s, st2).value)
  {
    if s.i < |st.events| {
      assert AlikeRow(st.events[s.i], st2.events[s.i]);
      UuidApart(env.job, st.events[s.i], st2.events[s.i].uuid);
    }
  }

  lemma ExecAlike(env: Env, other: Env, s: Stmt, st: Store, st2: Store)
    requires Draws(env, other) && Alike(st, st2) && Exec(env, s, st).Some? && Exec(other, s, st2).Some?
    ensures Alike(Exec(env, s, st).value, Exec(other, s, st2).value)
  {
    match s
    case StampAt(_) => RowsAlike(env, other, s, st, st2);
    case FillAt(_) => RowsAlike(env, other, s, st, st2);
    case KeyActions(t) => KeysAlike(st, st2, t);
    case _ =>
  }

  lemma {:induction false} AfterAlike(env: Env, other: Env, l: seq<Stmt>, j: nat, st: Store, st2: Store)
    requires Draws(env, other) && Alike(st, st2) && j <= |l|
    requires After(Executing(env), l, j, st).Some? && After(Executing(other), l, j, st2).Some?
    ensures Alike(After(Executing(env), l, j, st).value, After(Executing(other), l, j, st2).value)
  {
    if j > 0 {
      AfterAlike(env, other, l, j - 1, st, st2);
      ExecAlike(env, other, l[j - 1], After(Executing(env), l, j - 1, st).value,
                After(Executing(other), l, j - 1, st2).value);
    }
  }

  lemma AlikeItself(st: Store)
    ensures Alike(st, st)
  {
  }

  /** The two plans take alike stores to alike stores. */
  ghost predicate AlikeSteps(plan: Plan, other: Plan) {
    forall w: nat, st: Store, st2: Store :: TakesAlike(plan, other, w, st, st2)
  }

  ghost predicate TakesAlike(plan: Plan, other: Plan, w: nat, st: Store, st2: Store) {
    var a := After(plan.exec, plan.steps(w), |plan.steps(w)|, st);
    var b := After(other.exec, other.steps(w), |other.steps(w)|, st2);
    Alike(st, st2) && a.Some? && b.Some? ==> Alike(a.value, b.value)
  }

  lemma ShippedAlike(env: Env, other: Env, n: nat)
    requires Draws(env, other)
    ensures AlikeSteps(Shipped(env, n), Shipped(other, n))
  {
    forall w: nat, st: Store, st2: Store ensures TakesAlike(Shipped(env, n), Shipped(other, n), w, st, st2) {
      var l := Entry(w, n).Statements();
      if Alike(st, st2) && After(Executing(env), l, |l|, st).Some? && After(Executing(other), l, |l|, st2).Some? {
        AfterAlike(env, other, l, |l|, st, st2);
      }
    }
  }

  lemma {:induction false} IdealAlike(plan: Plan, other: Plan, from: nat, w: nat, st: Store)
    requires AlikeSteps(plan, other) && Ideal(plan, from, w, st).Some? && Ideal(other, from, w, st).Some?
    ensures Alike(Ideal(plan, from, w, st).value, Ideal(other, from, w, st).value)
    decreases w
  {
    if from < w {
      IdealAlike(plan, other, from, w - 1, st);
      assert TakesAlike(plan, other, w - 1, Ideal(plan, from, w - 1, st).value, Ideal(other, from, w - 1, st).value);
    } else {
      AlikeItself(st);
    }
  }

  /** What holds of attempts holds of start-ups: they migrate the bootstrapped database. */
  lemma StartUpsMigrate(env: Env, n: nat, k: nat, db: Db, us: seq<StartUp>, fuel: nat, end: Store)
    requires db.versions == UpTo(k) && k <= CURRENT && AllOrderly(us)
    requires StartUps(Shipped(env, n), db, us).Some? ==>
               var o := Attempt(Shipped(env, n), Whole(StartUps(Shipped(env, n), db, us).value), fuel);
               o.status == Done && o.db.store == end
    ensures Migrates(env, n, Whole(db), Fuels(us), fuel, end)
    ensures Whole(db).versions == UpTo(AtLeast(k, INSERTS)) && Whole(db).store == db.store
  {
    ShippedIsSound(env, n);
    var k' := StartUpsAre(Shipped(env, n), k, db, us);
    WholeIs(k, db);
  }

  /** Two histories of one database, interrupted differently and drawing different uuids, end alike. */
  lemma DrawsDoNotMatter(env: Env, other: Env, n: nat, k: nat, db: Db, fuels: seq<nat>, fuel: nat, end: Store,
                         fuels2: seq<nat>, fuel2: nat, end2: Store)
    requires db.versions == UpTo(k) && k <= CURRENT && Draws(env, other)
    requires Migrates(env, n, db, fuels, fuel, end) && Migrates(other, n, db, fuels2, fuel2, end2)
    ensures Alike(end, end2)
  {
    EndIsIdeal(env, n, k, db, fuels, fuel, end);
    EndIsIdeal(other, n, k, db, fuels2, fuel2, end2);
    ShippedAlike(env, other, n);
    IdealAlike(Shipped(env, n), Shipped(other, n), FirstPending(k), CURRENT + 1, db.store);
  }
}
