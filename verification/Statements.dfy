/** app/migrations.py: the guarded statements migrations are made of, what each does to tables, indexes and
    rows, and when a list of them can be cut short and started over. */
module Statements {
  import opened Common
  import B = Backfill

  /** A `strict` statement raises where a lenient one (wrapped in `try`/`except`) is skipped. */
  datatype Stmt =
    | CreateTable(table: string)
    | AddColumn(table: string, col: string, strict: bool)
    | RenameColumn(table: string, old_: string, new_: string)
    | CreateIndex(name: string, table: string, cols: seq<string>, strict: bool)
      /** A unique index on the uuids of events. */
    | UniqueUuids(name: string)
      /** Default rows and flags of configuration tables, written only where they are missing. */
    | Seed(key: string, table: string, cols: seq<string>)
      /** v22: the audit log is read into an empty events table. */
    | ImportEvents
      /** v34 at row `i` of the events table: a missing uuid, then empty columns. Past the last row each is
          the query that finds nothing left. */
    | StampAt(i: nat)
    | FillAt(i: nat)
      /** v35: `UPDATE` of one table of analyst actions. */
    | KeyActions(table: string)

  /** Columns that CREATE TABLE texts declare, the rows read from the audit log, the uuid a row is given when
      it is stamped, and the field backfill of one row. */
  datatype Env = Env(columns: string -> set<string>, log: seq<B.Row>, draw: nat -> string, job: B.Job)

  datatype Store = Store(
    tables: map<string, set<string>>, indexes: set<string>, seeds: set<string>,
    events: seq<B.Row>, actions: map<string, seq<B.Action>>)

  const EVENTS := "events"
  const UUID := "event_uuid"
  const KEY := "event_key"
  const TS := "ts"

  /** Columns the field backfill reads and writes. */
  const FIELDS: seq<string> :=
    ["source_type", "source_name", "src_ip", "src_port", "dst_ip", "dst_port", "protocol", "interface",
     "direction", "hostname", "mac", "domain", "url", "rule_id", "rule_name", "policy_id", "policy_name",
     "mitre_tactic", "mitre_technique", "soc_origin", "raw"]

  /** The table and its columns are there. */
  predicate Ready(st: Store, table: string, cols: seq<string>) {
    table in st.tables && forall i :: 0 <= i < |cols| ==> cols[i] in st.tables[table]
  }

  function StampedRow(env: Env, r: B.Row, i: nat): B.Row {
    if r.uuid == "" then r.(uuid := env.draw(i)) else r
  }

  function KeyedRows(events: seq<B.Row>, rows: seq<B.Action>): seq<B.Action> {
    seq(|rows|, i requires 0 <= i < |rows| => B.Keyed(events, rows[i]))
  }

  // ---- effect on the schema ----------------------------------------------------------------

  function Create(env: Env, st: Store, t: string): Store {
    if t in st.tables then st else st.(tables := st.tables[t := env.columns(t)])
  }

  function Add(st: Store, t: string, c: string, strict: bool): Option<Store> {
    if t in st.tables then Some(st.(tables := st.tables[t := st.tables[t] + {c}]))
    else if strict then None else Some(st)
  }

  function Rename(st: Store, t: string, a: string, b: string): Store {
    if t in st.tables && a in st.tables[t] && b !in st.tables[t]
    then st.(tables := st.tables[t := st.tables[t] - {a} + {b}]) else st
  }

  function Index(st: Store, name: string, allowed: bool, strict: bool): Option<Store> {
    if name in st.indexes then Some(st)
    else if allowed then Some(st.(indexes := st.indexes + {name}))
    else if strict then None else Some(st)
  }

  // ---- effect on rows ------------------------------------------------------------------------

  function SeedIn(st: Store, key: string, ready: bool): Option<Store> {
    if key in st.seeds then Some(st) else if ready then Some(st.(seeds := st.seeds + {key})) else None
  }

  function Import(env: Env, st: Store): Option<Store> {
    if EVENTS !in st.tables then None
    else if st.events == [] then Some(st.(events := env.log))
    else Some(st)
  }

  function Stamp(env: Env, st: Store, i: nat): Option<Store> {
    if !Ready(st, EVENTS, [UUID]) then None
    else if i >= |st.events| then Some(st)
    else Some(st.(events := st.events[i := StampedRow(env, st.events[i], i)]))
  }

  function FillRow(env: Env, st: Store, i: nat): Option<Store> {
    if !Ready(st, EVENTS, FIELDS) then None
    else if i >= |st.events| || !B.Selected(st.events[i], 0) then Some(st)
    else
      var r := B.Fill(env.job, st.events[i]);
      if r.None? then None else Some(st.(events := st.events[i := r.value]))
  }

  function KeyTable(st: Store, t: string): Option<Store> {
    if !Ready(st, t, [KEY, UUID]) || !Ready(st, EVENTS, [TS, UUID]) then None
    else if t !in st.actions then Some(st)
    else Some(st.(actions := st.actions[t := KeyedRows(st.events, st.actions[t])]))
  }

  /** One statement; `None` when it raises. */
  function Exec(env: Env, s: Stmt, st: Store): Option<Store> {
    match s
    case CreateTable(t) => Some(Create(env, st, t))
    case AddColumn(t, c, strict) => Add(st, t, c, strict)
    case RenameColumn(t, a, b) => Some(Rename(st, t, a, b))
    case CreateIndex(name, t, cols, strict) => Index(st, name, Ready(st, t, cols), strict)
    case UniqueUuids(name) => Index(st, name, Ready(st, EVENTS, [UUID]) && B.UuidsDistinct(st.events), true)
    case Seed(key, t, cols) => SeedIn(st, key, Ready(st, t, cols))
    case ImportEvents => Import(env, st)
    case StampAt(i) => Stamp(env, st, i)
    case FillAt(i) => FillRow(env, st, i)
    case KeyActions(t) => KeyTable(st, t)
  }

  // ---- starting over ----------------------------------------------------------------------------

  type Executor = (Stmt, Store) -> Option<Store>

  function Executing(env: Env): Executor {
    (s: Stmt, st: Store) => Exec(env, s, st)
  }

  /** The store after the first `n` statements of `l`. */
  function After(exec: Executor, l: seq<Stmt>, n: nat, st: Store): Option<Store>
    requires n <= |l|
  {
    if n == 0 then Some(st)
    else
      var before := After(exec, l, n - 1, st);
      if before.None? then None else exec(l[n - 1], before.value)
  }

  /** Executing `s` again changes nothing. */
  predicate Settled(exec: Executor, s: Stmt, st: Store) {
    exec(s, st) == Some(st)
  }

  /** Whatever ran of the list, running that much again changes nothing. */
  ghost predicate Restartable(exec: Executor, l: seq<Stmt>) {
    forall i: nat, n: nat, st ::
      i < n <= |l| && After(exec, l, n, st).Some? ==> Settled(exec, l[i], After(exec, l, n, st).value)
  }

  /** A later statement `t` of the same migration cannot give `s` something to do again. */
  predicate Compatible(s: Stmt, t: Stmt) {
    match s
    case CreateTable(_) => true
    case Seed(_, _, _) => true
    case ImportEvents => true
    case UniqueUuids(_) => true
    case AddColumn(tb, c, _) =>
      && !(t.CreateTable? && t.table == tb)
      && !(t.RenameColumn? && t.table == tb && t.old_ == c)
    case RenameColumn(tb, a, b) =>
      && !(t.CreateTable? && t.table == tb)
      && !(t.AddColumn? && t.table == tb && t.col == a)
      && !(t.RenameColumn? && t.table == tb && (t.new_ == a || t.old_ == b))
    case CreateIndex(_, tb, cols, strict) =>
      strict || (&& !(t.CreateTable? && t.table == tb)
                 && !(t.AddColumn? && t.table == tb && t.col in cols)
                 && !(t.RenameColumn? && t.table == tb && t.new_ in cols))
    case StampAt(_) => !t.ImportEvents? && !(t.RenameColumn? && t.table == EVENTS)
    case FillAt(_) => !t.ImportEvents? && !(t.RenameColumn? && t.table == EVENTS)
    case KeyActions(tb) =>
      !t.ImportEvents? && !t.StampAt? && !(t.RenameColumn? && t.table in {EVENTS, tb})
  }

  predicate Harmonious(l: seq<Stmt>) {
    forall i, j :: 0 <= i < j < |l| ==> Compatible(l[i], l[j])
  }

  lemma SettledByAdd(st: Store, t: string, c: string, strict: bool)
    requires Add(st, t, c, strict).Some?
    ensures var st' := Add(st, t, c, strict).value; Add(st', t, c, strict) == Some(st')
  {
    if t in st.tables {
      var st' := Add(st, t, c, strict).value;
      assert st'.tables[t] + {c} == st'.tables[t];
      assert st'.tables[t := st'.tables[t]] == st'.tables;
    }
  }

  lemma SettledBySeed(st: Store, key: string, ready: bool)
    requires SeedIn(st, key, ready).Some?
    ensures var st' := SeedIn(st, key, ready).value; key in st'.seeds
  {
  }

  lemma SettledByRows(env: Env, s: Stmt, st: Store)
    requires s.ImportEvents? || s.StampAt? || s.FillAt?
    requires Exec(env, s, st).Some?
    ensures var st' := Exec(env, s, st).value; Exec(env, s, st') == Some(st')
  {
    var st' := Exec(env, s, st).value;
    match s
    case ImportEvents =>
    case StampAt(i) =>
      assert i < |st'.events| ==> st'.events[i := st'.events[i]] == st'.events;
    case FillAt(i) =>
      if i < |st.events| {
        B.FillKeepsSource(env.job, st.events[i]);
        assert st'.events[i := st'.events[i]] == st'.events;
      }
  }

  lemma SettledByKeys(st: Store, t: string)
    requires KeyTable(st, t).Some?
    ensures var st' := KeyTable(st, t).value; KeyTable(st', t) == Some(st')
  {
    var st' := KeyTable(st, t).value;
    if t in st.actions {
      assert KeyedRows(st'.events, st'.actions[t]) == st'.actions[t];
      assert st'.actions[t := st'.actions[t]] == st'.actions;
    }
  }

  lemma SettledByExec(env: Env, s: Stmt, st: Store)
    requires Exec(env, s, st).Some?
    ensures Exec(env, s, Exec(env, s, st).value) == Some(Exec(env, s, st).value)
  {
    match s
    case AddColumn(t, c, strict) => SettledByAdd(st, t, c, strict);
    case Seed(key, t, cols) => SettledBySeed(st, key, Ready(st, t, cols));
    case KeyActions(t) => SettledByKeys(st, t);
    case CreateTable(t) =>
    case RenameColumn(t, a, b) =>
    case CreateIndex(name, t, cols, strict) =>
    case UniqueUuids(name) =>
    case _ => SettledByRows(env, s, st);
  }

  lemma TablesGrow(env: Env, t: Stmt, st: Store, tb: string)
    requires Exec(env, t, st).Some? && tb in st.tables
    ensures var st' := Exec(env, t, st).value;
            && tb in st'.tables
            && (!(t.RenameColumn? && t.table == tb) ==> st.tables[tb] <= st'.tables[tb])
  {
  }

  lemma StaysReady(env: Env, t: Stmt, st: Store, tb: string, cols: seq<string>)
    requires Exec(env, t, st).Some? && Ready(st, tb, cols) && !(t.RenameColumn? && t.table == tb)
    ensures Ready(Exec(env, t, st).value, tb, cols)
  {
    TablesGrow(env, t, st, tb);
  }

  /** What any statement but the import leaves of a row. */
  predicate RowKept(env: Env, t: Stmt, i: nat, r: B.Row, r': B.Row) {
    && r'.id == r.id && r'.ts == r.ts && r'.details == r.details
    && (r.uuid != "" || !t.StampAt? ==> r'.uuid == r.uuid)
    && (r'.fields == r.fields || (t == FillAt(i) && B.Selected(r, 0) && B.Fill(env.job, r) == Some(r')))
  }

  lemma RowsKept(env: Env, t: Stmt, st: Store)
    requires Exec(env, t, st).Some? && !t.ImportEvents?
    ensures var st' := Exec(env, t, st).value;
            && |st'.events| == |st.events|
            && forall i :: 0 <= i < |st.events| ==> RowKept(env, t, i, st.events[i], st'.events[i])
  {
    if t.FillAt? && t.i < |st.events| {
      B.FillKeepsSource(env.job, st.events[t.i]);
    }
  }

  lemma StampStays(env: Env, i: nat, t: Stmt, st: Store)
    requires Stamp(env, st, i) == Some(st) && Compatible(StampAt(i), t) && Exec(env, t, st).Some?
    ensures var st' := Exec(env, t, st).value; Stamp(env, st', i) == Some(st')
  {
    var st' := Exec(env, t, st).value;
    StaysReady(env, t, st, EVENTS, [UUID]);
    RowsKept(env, t, st);
    if i < |st.events| {
      assert st.events[i] == st.events[i := StampedRow(env, st.events[i], i)][i];
      assert RowKept(env, t, i, st.events[i], st'.events[i]);
      assert st'.events[i := st'.events[i]] == st'.events;
    }
  }

  lemma FillStays(env: Env, i: nat, t: Stmt, st: Store)
    requires FillRow(env, st, i) == Some(st) && Compatible(FillAt(i), t) && Exec(env, t, st).Some?
    ensures var st' := Exec(env, t, st).value; FillRow(env, st', i) == Some(st')
  {
    var st' := Exec(env, t, st).value;
    StaysReady(env, t, st, EVENTS, FIELDS);
    RowsKept(env, t, st);
    if i < |st.events| {
      var r, r' := st.events[i], st'.events[i];
      assert RowKept(env, t, i, r, r');
      assert B.Selected(r, 0) ==> r == st.events[i := B.Fill(env.job, r).value][i];
      assert B.DetailsOf(env.job, r') == B.DetailsOf(env.job, r);
      assert st'.events[i := st'.events[i]] == st'.events;
    }
  }

  /** Statements that leave uuids alone leave every key as it is. */
  lemma {:induction false} LatestKept(rows: seq<B.Row>, rows': seq<B.Row>, ts: string)
    requires |rows'| == |rows|
    requires forall i :: 0 <= i < |rows| ==> rows'[i].ts == rows[i].ts && rows'[i].uuid == rows[i].uuid
    ensures B.Latest(rows', ts) == B.Latest(rows, ts)
  {
    if rows != [] {
      LatestKept(rows[..|rows| - 1], rows'[..|rows| - 1], ts);
    }
  }

  lemma KeyStays(env: Env, tb: string, t: Stmt, st: Store)
    requires KeyTable(st, tb) == Some(st) && Compatible(KeyActions(tb), t) && Exec(env, t, st).Some?
    ensures var st' := Exec(env, t, st).value; KeyTable(st', tb) == Some(st')
  {
    var st' := Exec(env, t, st).value;
    StaysReady(env, t, st, tb, [KEY, UUID]);
    StaysReady(env, t, st, EVENTS, [TS, UUID]);
    if tb in st.actions {
      assert st.actions[tb] == st.actions[tb := KeyedRows(st.events, st.actions[tb])][tb];
      if t == KeyActions(tb) {
        SettledByKeys(st, tb);
      } else {
        RowsKept(env, t, st);
        assert st'.actions[tb] == st.actions[tb];
        forall ts: string ensures B.Latest(st'.events, ts) == B.Latest(st.events, ts) {
          LatestKept(st.events, st'.events, ts);
        }
        assert KeyedRows(st'.events, st'.actions[tb]) == KeyedRows(st.events, st.actions[tb]);
        assert st'.actions[tb := st'.actions[tb]] == st'.actions;
      }
    }
  }

  lemma AddStays(env: Env, tb: string, c: string, strict: bool, t: Stmt, st: Store)
    requires Add(st, tb, c, strict) == Some(st) && Compatible(AddColumn(tb, c, strict), t) && Exec(env, t, st).Some?
    ensures var st' := Exec(env, t, st).value; Add(st', tb, c, strict) == Some(st')
  {
    var st' := Exec(env, t, st).value;
    if tb in st.tables {
      assert c in st.tables[tb] by {
        assert st.tables[tb] == st.tables[tb := st.tables[tb] + {c}][tb];
      }
      TablesGrow(env, t, st, tb);
      assert c in st'.tables[tb];
      assert st'.tables[tb] + {c} == st'.tables[tb];
      assert st'.tables[tb := st'.tables[tb]] == st'.tables;
    }
  }

  lemma RenameStays(env: Env, tb: string, a: string, b: string, t: Stmt, st: Store)
    requires Rename(st, tb, a, b) == st && Compatible(RenameColumn(tb, a, b), t) && Exec(env, t, st).Some?
    ensures var st' := Exec(env, t, st).value; Rename(st', tb, a, b) == st'
  {
    assert tb in st.tables && a in st.tables[tb] ==> b in Rename(st, tb, a, b).tables[tb];
  }

  /** A settled statement stays settled through a compatible one. */
  lemma StaysSettled(env: Env, s: Stmt, t: Stmt, st: Store)
    requires Exec(env, s, st) == Some(st) && Compatible(s, t) && Exec(env, t, st).Some?
    ensures Exec(env, s, Exec(env, t, st).value) == Some(Exec(env, t, st).value)
  {
    match s
    case AddColumn(tb, c, strict) => AddStays(env, tb, c, strict, t, st);
    case RenameColumn(tb, a, b) => RenameStays(env, tb, a, b, t, st);
    case StampAt(i) => StampStays(env, i, t, st);
    case FillAt(i) => FillStays(env, i, t, st);
    case KeyActions(tb) => KeyStays(env, tb, t, st);
    case _ => OthersStay(env, s, t, st);
  }

  lemma OthersStay(env: Env, s: Stmt, t: Stmt, st: Store)
    requires s.CreateTable? || s.CreateIndex? || s.UniqueUuids? || s.Seed? || s.ImportEvents?
    requires Exec(env, s, st) == Some(st) && Compatible(s, t) && Exec(env, t, st).Some?
    ensures Exec(env, s, Exec(env, t, st).value) == Some(Exec(env, t, st).value)
  {
    var st' := Exec(env, t, st).value;
    match s
    case CreateTable(tb) =>
      assert tb in Create(env, st, tb).tables;
    case CreateIndex(name, tb, cols, strict) =>
      assert Ready(st, tb, cols) ==> name in Index(st, name, Ready(st, tb, cols), strict).value.indexes;
    case UniqueUuids(name) =>
      assert name in Exec(env, s, st).value.indexes;
    case Seed(key, tb, cols) =>
      assert key in Exec(env, s, st).value.seeds;
    case ImportEvents =>
      TablesGrow(env, t, st, EVENTS);
      if st.events != [] {
        RowsAmid(env, t, st);
      }
    case _ =>
  }

  lemma RowsAmid(env: Env, t: Stmt, st: Store)
    requires st.events != [] && Exec(env, t, st).Some?
    ensures Exec(env, t, st).value.events != []
  {
  }

  lemma {:induction false} PrefixSettled(env: Env, l: seq<Stmt>, i: nat, n: nat, st: Store)
    requires Harmonious(l) && i < n <= |l| && After(Executing(env), l, n, st).Some?
    ensures Settled(Executing(env), l[i], After(Executing(env), l, n, st).value)
    decreases n
  {
    var before := After(Executing(env), l, n - 1, st).value;
    if i == n - 1 {
      SettledByExec(env, l[i], before);
    } else {
      PrefixSettled(env, l, i, n - 1, st);
      StaysSettled(env, l[i], l[n - 1], before);
    }
  }

  /** Harmony is what restarting takes. */
  lemma HarmoniousRestarts(env: Env, l: seq<Stmt>)
    requires Harmonious(l)
    ensures Restartable(Executing(env), l)
  {
    forall i: nat, n: nat, st | i < n <= |l| && After(Executing(env), l, n, st).Some?
      ensures Settled(Executing(env), l[i], After(Executing(env), l, n, st).value)
    {
      PrefixSettled(env, l, i, n, st);
    }
  }
}
