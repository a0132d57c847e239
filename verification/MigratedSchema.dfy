/** app/migrations.py: which tables, columns, indexes and seeds a successful run leaves, told from the list of
    statements alone. */
module MigratedSchema {
  import opened Common
  import opened Statements
  import opened Migrations
  import opened Catalogue
  import opened Migrated
  import B = Backfill

  // ---- one statement --------------------------------------------------------------------------

  /** The statement adds this column, or renames it, or renames another to it. */
  predicate TouchesColumn(s: Stmt, t: string, c: string) {
    || (s.AddColumn? && s.table == t && s.col == c)
    || Renames(s, t, c)
  }

  predicate Renames(s: Stmt, t: string, c: string) {
    s.RenameColumn? && s.table == t && (s.old_ == c || s.new_ == c)
  }

  predicate Adds(s: Stmt, t: string, c: string) {
    s.AddColumn? && s.table == t && s.col == c
  }

  lemma StepTable(env: Env, s: Stmt, st: Store, t: string)
    requires Exec(env, s, st).Some?
    ensures t in Exec(env, s, st).value.tables <==> t in st.tables || s == CreateTable(t)
  {
  }

  lemma StepColumn(env: Env, s: Stmt, st: Store, t: string, c: string)
    requires Exec(env, s, st).Some? && t in Exec(env, s, st).value.tables && !Renames(s, t, c)
    ensures c in Exec(env, s, st).value.tables[t] <==>
              if t in st.tables then c in st.tables[t] || Adds(s, t, c) else c in env.columns(t)
  {
  }

  lemma StepRename(env: Env, st: Store, t: string, a: string, b: string)
    requires t in st.tables
    ensures var st' := Exec(env, RenameColumn(t, a, b), st).value;
            && t in st'.tables
            && (b in st'.tables[t] <==> a in st.tables[t] || b in st.tables[t])
            && (a in st'.tables[t] <==> a in st.tables[t] && b in st.tables[t])
  {
  }

  lemma StepSeed(env: Env, s: Stmt, st: Store, key: string)
    requires Exec(env, s, st).Some?
    ensures key in Exec(env, s, st).value.seeds <==> key in st.seeds || (s.Seed? && s.key == key)
  {
  }

  predicate Indexes(s: Stmt, name: string) {
    (s.CreateIndex? || s.UniqueUuids?) && s.name == name
  }

  lemma StepIndex(env: Env, s: Stmt, st: Store, name: string)
    requires Exec(env, s, st).Some?
    ensures name in Exec(env, s, st).value.indexes <==>
              || name in st.indexes
              || (Indexes(s, name) && (s.UniqueUuids? || s.strict || Ready(st, s.table, s.cols)))
  {
  }

  /** The table is there with each of these columns. */
  predicate Holds(st: Store, t: string, cols: seq<string>) {
    t in st.tables && forall c :: c in cols ==> c in st.tables[t]
  }

  /** A new index, and a new default row, need the table and every column they name. */
  lemma NewNeedsColumns(env: Env, st: Store, name: string, t: string, cols: seq<string>, strict: bool)
    ensures name !in st.indexes ==>
              var r := Exec(env, CreateIndex(name, t, cols, strict), st);
              && (r.None? <==> strict && !Holds(st, t, cols))
              && (r.Some? ==> (name in r.value.indexes <==> Holds(st, t, cols)))
    ensures name !in st.seeds ==> (Exec(env, Seed(name, t, cols), st).None? <==> !Holds(st, t, cols))
  {
    assert Ready(st, t, cols) <==> Holds(st, t, cols);
  }

  /** The unique index of v34 raises exactly if it is not there yet and two events share a uuid, or the column is
      missing. */
  lemma UniqueIndexIff(env: Env, st: Store, name: string)
    ensures Exec(env, UniqueUuids(name), st).None? <==>
              && name !in st.indexes
              && !(Holds(st, EVENTS, [UUID]) && B.UuidsDistinct(st.events))
    ensures Exec(env, UniqueUuids(name), st).Some? ==> name in Exec(env, UniqueUuids(name), st).value.indexes
  {
    assert Ready(st, EVENTS, [UUID]) <==> Holds(st, EVENTS, [UUID]);
  }

  // ---- a list of statements ---------------------------------------------------------------------

  function At(env: Env, l: seq<Stmt>, j: nat, st: Store): Option<Store>
    requires j <= |l|
  {
    After(Executing(env), l, j, st)
  }

  /** The table is there before statement `i`: from the start, or created by an earlier one. */
  predicate Present(l: seq<Stmt>, st: Store, i: nat, t: string)
    requires i <= |l|
  {
    t in st.tables || exists m :: 0 <= m < i && l[m] == CreateTable(t)
  }

  lemma {:induction false} TableIs(env: Env, l: seq<Stmt>, j: nat, st: Store, t: string)
    requires j <= |l| && At(env, l, j, st).Some?
    ensures t in At(env, l, j, st).value.tables <==> Present(l, st, j, t)
  {
    if j > 0 {
      TableIs(env, l, j - 1, st, t);
      StepTable(env, l[j - 1], At(env, l, j - 1, st).value, t);
    }
  }

  /** The columns a table starts out with. */
  function Base(env: Env, st: Store, t: string): set<string> {
    if t in st.tables then st.tables[t] else env.columns(t)
  }

  predicate AddedBefore(l: seq<Stmt>, st: Store, j: nat, t: string, c: string)
    requires j <= |l|
  {
    exists i :: 0 <= i < j && Adds(l[i], t, c) && Present(l, st, i, t)
  }

  lemma {:induction false} ColumnIs(env: Env, l: seq<Stmt>, j: nat, st: Store, t: string, c: string)
    requires j <= |l| && At(env, l, j, st).Some? && t in At(env, l, j, st).value.tables
    requires forall i :: 0 <= i < j ==> !Renames(l[i], t, c)
    ensures c in At(env, l, j, st).value.tables[t] <==> c in Base(env, st, t) || AddedBefore(l, st, j, t, c)
  {
    if j > 0 {
      var before := At(env, l, j - 1, st).value;
      TableIs(env, l, j - 1, st, t);
      StepColumn(env, l[j - 1], before, t, c);
      if t in before.tables {
        ColumnIs(env, l, j - 1, st, t, c);
      } else {
        NotAdded(l, st, j, t, c);
      }
    }
  }

  /** Nothing is added to a table that was not there before the last statement. */
  lemma NotAdded(l: seq<Stmt>, st: Store, j: nat, t: string, c: string)
    requires 0 < j <= |l| && !Present(l, st, j - 1, t)
    ensures !AddedBefore(l, st, j, t, c)
  {
    forall i | 0 <= i < j ensures !Present(l, st, i, t) {
    }
  }

  lemma {:induction false} ColumnStays(env: Env, l: seq<Stmt>, i: nat, j: nat, st: Store, t: string, c: string)
    requires i <= j <= |l| && At(env, l, i, st).Some? && At(env, l, j, st).Some?
    requires t in At(env, l, i, st).value.tables
    requires forall m :: i <= m < j ==> !TouchesColumn(l[m], t, c)
    ensures t in At(env, l, j, st).value.tables
    ensures c in At(env, l, j, st).value.tables[t] <==> c in At(env, l, i, st).value.tables[t]
    decreases j
  {
    if i < j {
      AfterDefined(Executing(env), l, j - 1, j, st);
      ColumnStays(env, l, i, j - 1, st, t, c);
      var before := At(env, l, j - 1, st).value;
      StepTable(env, l[j - 1], before, t);
      StepColumn(env, l[j - 1], before, t, c);
    }
  }

  /** A rename that is alone in touching its columns. */
  predicate SoleRename(l: seq<Stmt>, i: nat, t: string, a: string, b: string) {
    && i < |l| && l[i] == RenameColumn(t, a, b)
    && forall m :: 0 <= m < |l| && m != i ==> !TouchesColumn(l[m], t, a) && !TouchesColumn(l[m], t, b)
  }

  lemma BaseStays(env: Env, l: seq<Stmt>, i: nat, st: Store, t: string, c: string)
    requires i <= |l| && At(env, l, i, st).Some? && t in At(env, l, i, st).value.tables
    requires forall m :: 0 <= m < i ==> !TouchesColumn(l[m], t, c)
    ensures c in At(env, l, i, st).value.tables[t] <==> c in Base(env, st, t)
  {
    ColumnIs(env, l, i, st, t, c);
  }

  lemma RenamedIs(env: Env, l: seq<Stmt>, i: nat, st: Store, t: string, a: string, b: string)
    requires SoleRename(l, i, t, a, b) && Present(l, st, i, t) && At(env, l, |l|, st).Some?
    ensures var end := At(env, l, |l|, st).value;
            && t in end.tables
            && (b in end.tables[t] <==> a in Base(env, st, t) || b in Base(env, st, t))
            && (a in end.tables[t] <==> a in Base(env, st, t) && b in Base(env, st, t))
  {
    AfterDefined(Executing(env), l, i + 1, |l|, st);
    AfterDefined(Executing(env), l, i, i + 1, st);
    TableIs(env, l, i, st, t);
    BaseStays(env, l, i, st, t, a);
    BaseStays(env, l, i, st, t, b);
    StepRename(env, At(env, l, i, st).value, t, a, b);
    ColumnStays(env, l, i + 1, |l|, st, t, a);
    ColumnStays(env, l, i + 1, |l|, st, t, b);
  }

  lemma {:induction false} SeedIs(env: Env, l: seq<Stmt>, j: nat, st: Store, key: string)
    requires j <= |l| && At(env, l, j, st).Some?
    ensures key in At(env, l, j, st).value.seeds <==>
              key in st.seeds || exists i :: 0 <= i < j && l[i].Seed? && l[i].key == key
  {
    if j > 0 {
      SeedIs(env, l, j - 1, st, key);
      StepSeed(env, l[j - 1], At(env, l, j - 1, st).value, key);
    }
  }

  /** A statement that demands its index. */
  predicate DemandsIndex(s: Stmt, name: string) {
    Indexes(s, name) && (s.UniqueUuids? || s.strict)
  }

  lemma {:induction false} IndexIs(env: Env, l: seq<Stmt>, j: nat, st: Store, name: string)
    requires j <= |l| && At(env, l, j, st).Some?
    ensures name in st.indexes || (exists i :: 0 <= i < j && DemandsIndex(l[i], name)) ==>
              name in At(env, l, j, st).value.indexes
    ensures name in At(env, l, j, st).value.indexes ==>
              name in st.indexes || exists i :: 0 <= i < j && Indexes(l[i], name)
  {
    if j > 0 {
      IndexIs(env, l, j - 1, st, name);
      StepIndex(env, l[j - 1], At(env, l, j - 1, st).value, name);
    }
  }

  // ---- the pending migrations as one list ----------------------------------------------------------

  function Pending(plan: Plan, from: nat, w: nat): seq<Stmt>
    decreases w
  {
    if w <= from then [] else Pending(plan, from, w - 1) + plan.steps(w - 1)
  }

  lemma {:induction false} AfterPrefix(exec: Executor, a: seq<Stmt>, b: seq<Stmt>, j: nat, st: Store)
    requires j <= |a|
    ensures After(exec, a + b, j, st) == After(exec, a, j, st)
  {
    if j > 0 {
      AfterPrefix(exec, a, b, j - 1, st);
    }
  }

  lemma {:induction false} AfterConcat(exec: Executor, a: seq<Stmt>, b: seq<Stmt>, j: nat, st: Store)
    requires j <= |b| && After(exec, a, |a|, st).Some?
    ensures After(exec, a + b, |a| + j, st) == After(exec, b, j, After(exec, a, |a|, st).value)
  {
    if j == 0 {
      AfterPrefix(exec, a, b, |a|, st);
    } else {
      AfterConcat(exec, a, b, j - 1, st);
      assert (a + b)[|a| + j - 1] == b[j - 1];
    }
  }

  lemma {:induction false} IdealIsAfter(plan: Plan, from: nat, w: nat, st: Store)
    requires Ideal(plan, from, w, st).Some?
    ensures After(plan.exec, Pending(plan, from, w), |Pending(plan, from, w)|, st) == Ideal(plan, from, w, st)
    decreases w
  {
    if from < w {
      IdealIsAfter(plan, from, w - 1, st);
      var a, b := Pending(plan, from, w - 1), plan.steps(w - 1);
      AfterConcat(plan.exec, a, b, |b|, st);
    }
  }

  lemma {:induction false} PendingHolds(plan: Plan, from: nat, w: nat, v: nat, s: Stmt) returns (i: nat)
    requires from <= v < w && s in plan.steps(v)
    ensures i < |Pending(plan, from, w)| && Pending(plan, from, w)[i] == s
    decreases w
  {
    var a, b := Pending(plan, from, w - 1), plan.steps(w - 1);
    if v == w - 1 {
      var m :| 0 <= m < |b| && b[m] == s;
      i := |a| + m;
    } else {
      i := PendingHolds(plan, from, w - 1, v, s);
    }
  }

  lemma {:induction false} PendingComesFrom(plan: Plan, from: nat, w: nat, i: nat) returns (v: nat)
    requires i < |Pending(plan, from, w)|
    ensures from <= v < w && Pending(plan, from, w)[i] in plan.steps(v)
    decreases w
  {
    var a := Pending(plan, from, w - 1);
    if i < |a| {
      v := PendingComesFrom(plan, from, w - 1, i);
    } else {
      v := w - 1;
    }
  }

  /** What a successful run from version `k` executes. */
  function Executed(env: Env, n: nat, k: nat): seq<Stmt> {
    Pending(Shipped(env, n), FirstPending(k), CURRENT + 1)
  }

  lemma EndIsAfter(env: Env, n: nat, k: nat, db: Db, fuels: seq<nat>, fuel: nat, end: Store)
    requires db.versions == UpTo(k) && k <= CURRENT && Migrates(env, n, db, fuels, fuel, end)
    ensures At(env, Executed(env, n, k), |Executed(env, n, k)|, db.store) == Some(end)
  {
    EndIsIdeal(env, n, k, db, fuels, fuel, end);
    IdealIsAfter(Shipped(env, n), FirstPending(k), CURRENT + 1, db.store);
  }

  /** Whatever failed before it, a successful run leaves exactly the tables there were and those its statements
      create, with the seeds and at least the indexes they demand, and no others. */
  lemma TablesAfter(env: Env, n: nat, k: nat, db: Db, fuels: seq<nat>, fuel: nat, end: Store)
    requires db.versions == UpTo(k) && k <= CURRENT && Migrates(env, n, db, fuels, fuel, end)
    ensures var l := Executed(env, n, k);
            && (forall t :: t in end.tables <==> t in db.store.tables || CreateTable(t) in l)
            && (forall key :: key in end.seeds <==> key in db.store.seeds || Seeded(l, key))
            && (forall name :: name in db.store.indexes || Demanded(l, name) ==> name in end.indexes)
            && (forall name :: name in end.indexes ==> name in db.store.indexes || Named(l, name))
  {
    var l := Executed(env, n, k);
    EndIsAfter(env, n, k, db, fuels, fuel, end);
    forall t ensures t in end.tables <==> t in db.store.tables || CreateTable(t) in l {
      TableIs(env, l, |l|, db.store, t);
    }
    forall key ensures key in end.seeds <==> key in db.store.seeds || Seeded(l, key) {
      SeedIs(env, l, |l|, db.store, key);
    }
    forall name
      ensures name in db.store.indexes || Demanded(l, name) ==> name in end.indexes
      ensures name in end.indexes ==> name in db.store.indexes || Named(l, name)
    {
      IndexIs(env, l, |l|, db.store, name);
    }
  }

  predicate Seeded(l: seq<Stmt>, key: string) {
    exists i :: 0 <= i < |l| && l[i].Seed? && l[i].key == key
  }

  predicate Demanded(l: seq<Stmt>, name: string) {
    exists i :: 0 <= i < |l| && DemandsIndex(l[i], name)
  }

  predicate Named(l: seq<Stmt>, name: string) {
    exists i :: 0 <= i < |l| && Indexes(l[i], name)
  }

  /** Not one of the four column names of the renames of v11. */
  predicate Unrenamed(t: string, c: string) {
    t != CERTIFICATES || c !in {RENAMES[0].0, RENAMES[0].1, RENAMES[1].0, RENAMES[1].1}
  }

  lemma ExecutedRenames(env: Env, n: nat, k: nat, i: nat)
    requires i < |Executed(env, n, k)| && Executed(env, n, k)[i].RenameColumn?
    ensures IsKnownRename(Executed(env, n, k)[i])
  {
    var s := Executed(env, n, k)[i];
    var v := PendingComesFrom(Shipped(env, n), FirstPending(k), CURRENT + 1, i);
    var l := Entry(v, n).Statements();
    var m :| 0 <= m < |l| && l[m] == s;
    if v == 11 {
      V11Renames(m);
    } else {
      OthersSpare(v, n);
    }
  }

  /** Every other column of a table is there afterwards exactly if the table had it, or was created with it, or
      a statement added it while the table was there. */
  lemma ColumnsAfter(env: Env, n: nat, k: nat, db: Db, fuels: seq<nat>, fuel: nat, end: Store, t: string, c: string)
    requires db.versions == UpTo(k) && k <= CURRENT && Migrates(env, n, db, fuels, fuel, end)
    requires t in end.tables && Unrenamed(t, c)
    ensures var l := Executed(env, n, k);
            c in end.tables[t] <==> c in Base(env, db.store, t) || AddedBefore(l, db.store, |l|, t, c)
  {
    var l := Executed(env, n, k);
    EndIsAfter(env, n, k, db, fuels, fuel, end);
    forall i | 0 <= i < |l| ensures !Renames(l[i], t, c) {
      if l[i].RenameColumn? {
        ExecutedRenames(env, n, k, i);
      }
    }
    ColumnIs(env, l, |l|, db.store, t, c);
  }

  /** In particular, what a pending migration adds to a table there from the start stays. */
  lemma AddedColumnStays(env: Env, n: nat, k: nat, db: Db, fuels: seq<nat>, fuel: nat, end: Store,
                         v: nat, t: string, c: string, strict: bool)
    requires db.versions == UpTo(k) && k <= CURRENT && Migrates(env, n, db, fuels, fuel, end)
    requires FirstPending(k) <= v <= CURRENT && AddColumn(t, c, strict) in Entry(v, n).Statements()
    requires t in db.store.tables && Unrenamed(t, c)
    ensures t in end.tables && c in end.tables[t]
  {
    TablesAfter(env, n, k, db, fuels, fuel, end);
    ColumnsAfter(env, n, k, db, fuels, fuel, end, t, c);
    var i := PendingHolds(Shipped(env, n), FirstPending(k), CURRENT + 1, v, AddColumn(t, c, strict));
    var l := Executed(env, n, k);
    assert Adds(l[i], t, c) && Present(l, db.store, i, t);
  }

  /** A demanding statement of a successful run found what it demands; the others never raise. */
  lemma DemandsMet(env: Env, l: seq<Stmt>, i: nat, st: Store, t: string, c: string)
    requires i < |l| && At(env, l, |l|, st).Some? && l[i] == AddColumn(t, c, true)
    ensures Present(l, st, i, t)
  {
    AfterDefined(Executing(env), l, i + 1, |l|, st);
    AfterDefined(Executing(env), l, i, i + 1, st);
    TableIs(env, l, i, st, t);
  }

  lemma LenientNeverRaises(env: Env, s: Stmt, st: Store)
    requires s.CreateTable? || s.RenameColumn? || ((s.AddColumn? || s.CreateIndex?) && !s.strict)
    ensures Exec(env, s, st).Some?
  {
  }

  // ---- the two renames of v11 ------------------------------------------------------------------------

  lemma {:induction false} PendingPrefix(plan: Plan, from: nat, u: nat, w: nat)
    requires u <= w
    ensures Pending(plan, from, u) <= Pending(plan, from, w)
    decreases w
  {
    if u < w && from < w {
      PendingPrefix(plan, from, u, w - 1);
    }
  }

  lemma {:induction false} PendingLater(plan: Plan, from: nat, u: nat, w: nat, i: nat) returns (v: nat)
    requires u <= w && |Pending(plan, from, u)| <= i < |Pending(plan, from, w)|
    ensures u <= v < w && Pending(plan, from, w)[i] in plan.steps(v)
    decreases w
  {
    var a := Pending(plan, from, w - 1);
    if i < |a| {
      v := PendingLater(plan, from, u, w - 1, i);
    } else {
      v := w - 1;
    }
  }

  /** Migration `u` renames `a` to `a'` and `b` to `b'` and adds `c`, all in table `t`, whose columns no other
      migration touches. */
  ghost predicate Renamer(plan: Plan, u: nat, t: string, a: string, a': string, b: string, b': string, c: string) {
    && plan.steps(u) == [RenameColumn(t, a, a'), RenameColumn(t, b, b'), AddColumn(t, c, false)]
    && a != b && a != b' && a' != b && a' != b' && c !in {a, a', b, b'}
    && forall v: nat, i ::
         v != u && 0 <= i < |plan.steps(v)| && Changes(plan.steps(v)[i]) ==> plan.steps(v)[i].table != t
  }

  /** Where its statements start. */
  function Offset(plan: Plan, from: nat, u: nat): nat {
    |Pending(plan, from, u)|
  }

  lemma RenamerAt(plan: Plan, from: nat, u: nat, w: nat)
    requires from <= u < w && |plan.steps(u)| == 3
    ensures var p, l := Offset(plan, from, u), Pending(plan, from, w);
            p + 3 <= |l| && l[p..p + 3] == plan.steps(u) && Offset(plan, from, u + 1) == p + 3
  {
    PendingPrefix(plan, from, u + 1, w);
    assert Pending(plan, from, u + 1) == Pending(plan, from, u) + plan.steps(u);
  }

  lemma RenamerAlone(plan: Plan, from: nat, u: nat, w: nat, m: nat,
                     t: string, a: string, a': string, b: string, b': string,
                     c: string)
    requires Renamer(plan, u, t, a, a', b, b', c) && from <= u < w && m < |Pending(plan, from, w)|
    requires m < Offset(plan, from, u) || m >= Offset(plan, from, u) + 3
    ensures Changes(Pending(plan, from, w)[m]) ==> Pending(plan, from, w)[m].table != t
  {
    RenamerAt(plan, from, u, w);
    var v;
    if m < Offset(plan, from, u) {
      PendingPrefix(plan, from, u, w);
      v := PendingComesFrom(plan, from, u, m);
    } else {
      v := PendingLater(plan, from, u + 1, w, m);
    }
    var i :| 0 <= i < |plan.steps(v)| && plan.steps(v)[i] == Pending(plan, from, w)[m];
  }

  /** Statement `i` renames `x` to `y`; the two others of its migration, and all others, stay off them. */
  lemma SoleAt(l: seq<Stmt>, p: nat, i: nat, t: string, x: string, y: string)
    requires p + 3 <= |l| && p <= i < p + 3 && l[i] == RenameColumn(t, x, y)
    requires forall m :: p <= m < p + 3 && m != i ==> !TouchesColumn(l[m], t, x) && !TouchesColumn(l[m], t, y)
    requires forall m :: 0 <= m < |l| && (m < p || m >= p + 3) && Changes(l[m]) ==> l[m].table != t
    ensures SoleRename(l, i, t, x, y)
  {
    forall m | 0 <= m < |l| && m != i ensures !TouchesColumn(l[m], t, x) && !TouchesColumn(l[m], t, y) {
    }
  }

  lemma RenamerSole(plan: Plan, from: nat, u: nat, w: nat,
                    t: string, a: string, a': string, b: string, b': string, c: string)
    requires Renamer(plan, u, t, a, a', b, b', c) && from <= u < w
    ensures SoleRename(Pending(plan, from, w), Offset(plan, from, u), t, a, a')
    ensures SoleRename(Pending(plan, from, w), Offset(plan, from, u) + 1, t, b, b')
  {
    var l, p := Pending(plan, from, w), Offset(plan, from, u);
    RenamerAt(plan, from, u, w);
    forall m | 0 <= m < |l| && (m < p || m >= p + 3) && Changes(l[m]) ensures l[m].table != t {
      RenamerAlone(plan, from, u, w, m, t, a, a', b, b', c);
    }
    RenamerTriple(l, p, plan.steps(u), t, a, a', b, b', c);
  }

  lemma RenamerTriple(l: seq<Stmt>, p: nat, s: seq<Stmt>,
                      t: string, a: string, a': string, b: string, b': string, c: string)
    requires s == [RenameColumn(t, a, a'), RenameColumn(t, b, b'), AddColumn(t, c, false)]
    requires p + 3 <= |l| && l[p..p + 3] == s
    requires a != b && a != b' && a' != b && a' != b' && c !in {a, a', b, b'}
    requires forall m :: 0 <= m < |l| && (m < p || m >= p + 3) && Changes(l[m]) ==> l[m].table != t
    ensures SoleRename(l, p, t, a, a') && SoleRename(l, p + 1, t, b, b')
  {
    assert l[p] == l[p..p + 3][0] && l[p + 1] == l[p..p + 3][1] && l[p + 2] == l[p..p + 3][2];
    SoleAt(l, p, p, t, a, a');
    SoleAt(l, p, p + 1, t, b, b');
  }

  /** The columns two names share after a rename of one to the other. */
  predicate Moved(before: set<string>, after: set<string>, x: string, y: string) {
    (y in after <==> x in before || y in before) && (x in after <==> x in before && y in before)
  }

  lemma RenamerAfter(plan: Plan, env: Env, from: nat, u: nat, w: nat, st: Store, end: Store,
                     t: string, a: string, a': string, b: string, b': string, c: string)
    requires Renamer(plan, u, t, a, a', b, b', c) && from <= u < w && t in st.tables
    requires At(env, Pending(plan, from, w), |Pending(plan, from, w)|, st) == Some(end)
    ensures t in end.tables
    ensures Moved(st.tables[t], end.tables[t], a, a') && Moved(st.tables[t], end.tables[t], b, b')
  {
    var l, p := Pending(plan, from, w), Offset(plan, from, u);
    RenamerSole(plan, from, u, w, t, a, a', b, b', c);
    RenamedIs(env, l, p, st, t, a, a');
    RenamedIs(env, l, p + 1, st, t, b, b');
  }

  lemma ShippedSpares(env: Env, n: nat, v: nat, i: nat)
    requires v != 11 && i < |Shipped(env, n).steps(v)| && Changes(Shipped(env, n).steps(v)[i])
    ensures Shipped(env, n).steps(v)[i].table != CERTIFICATES
  {
    OthersSpare(v, n);
    assert Shipped(env, n).steps(v) == Entry(v, n).Statements();
  }

  lemma V11Is(env: Env, n: nat)
    ensures Shipped(env, n).steps(11) == [RenameColumn(CERTIFICATES, RENAMES[0].0, RENAMES[0].1),
                                          RenameColumn(CERTIFICATES, RENAMES[1].0, RENAMES[1].1),
                                          AddColumn(CERTIFICATES, REVOKED, false)]
  {
    assert Shipped(env, n).steps(11) == V11().Statements();
  }

  lemma ShippedRenamer(env: Env, n: nat)
    ensures Renamer(Shipped(env, n), 11, CERTIFICATES, RENAMES[0].0, RENAMES[0].1, RENAMES[1].0, RENAMES[1].1, REVOKED)
  {
    var plan := Shipped(env, n);
    RenameTexts();
    V11Is(env, n);
    forall v: nat, i | v != 11 && 0 <= i < |plan.steps(v)| && Changes(plan.steps(v)[i])
      ensures plan.steps(v)[i].table != CERTIFICATES
    {
      ShippedSpares(env, n, v, i);
    }
  }

  const REVOKED := "revoked_at"

  lemma RenameTexts()
    ensures RENAMES[0].0 != RENAMES[1].0 && RENAMES[0].0 != RENAMES[1].1 && RENAMES[0].1 != RENAMES[1].0
    ensures RENAMES[0].1 != RENAMES[1].1 && REVOKED !in {RENAMES[0].0, RENAMES[0].1, RENAMES[1].0, RENAMES[1].1}
  {
    assert |RENAMES[0].0| == 11 && |RENAMES[0].1| == 15 && |RENAMES[1].0| == 13 && |RENAMES[1].1| == 6;
    assert |REVOKED| == 10;
  }

  /** Each rename of v11 leaves the new name where either was, and the old one only where both were. */
  lemma RenamedAfter(env: Env, n: nat, k: nat, db: Db, fuels: seq<nat>, fuel: nat, end: Store)
    requires db.versions == UpTo(k) && k < 11 && Migrates(env, n, db, fuels, fuel, end)
    requires CERTIFICATES in db.store.tables
    ensures CERTIFICATES in end.tables
    ensures var before, after := db.store.tables[CERTIFICATES], end.tables[CERTIFICATES];
            Moved(before, after, RENAMES[0].0, RENAMES[0].1) && Moved(before, after, RENAMES[1].0, RENAMES[1].1)
  {
    EndIsAfter(env, n, k, db, fuels, fuel, end);
    ShippedRenamer(env, n);
    RenamerAfter(Shipped(env, n), env, FirstPending(k), 11, CURRENT + 1, db.store, end,
                 CERTIFICATES, RENAMES[0].0, RENAMES[0].1, RENAMES[1].0, RENAMES[1].1, REVOKED);
  }
}
