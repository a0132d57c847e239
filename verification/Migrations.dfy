/** app/migrations.py, app/database.py: numbered schema migrations over a version table, failed
    attempts and reruns included. */
module Migrations {
  import opened Common
  import opened Statements

  const FIRST := 2
  const BOOTSTRAPPED := 16

  /** Rerunning a migration from the start after its first `m` statements retraces nothing: the
      first `m` do nothing, the rest continue. */
  lemma {:induction false} Resume(exec: Executor, l: seq<Stmt>, m: nat, n: nat, st: Store)
    requires Restartable(exec, l) && m <= |l| && n <= |l| && After(exec, l, m, st).Some?
    ensures After(exec, l, n, After(exec, l, m, st).value) == After(exec, l, if n <= m then m else n, st)
    decreases n
  {
    if n > 0 {
      Resume(exec, l, m, n - 1, st);
      if n <= m {
        assert Settled(exec, l[n - 1], After(exec, l, m, st).value);
        assert After(exec, l, n - 1, After(exec, l, m, st).value) == After(exec, l, m, st);
      }
    }
  }

  // ---- the runner ------------------------------------------------------------------------

  /** The rows of `schema_version` in insertion order, and the store. */
  datatype Db = Db(versions: seq<nat>, store: Store)

  /** The newest version this release knows, and the statements of each migration. */
  datatype Plan = Plan(top: nat, exec: Executor, steps: nat -> seq<Stmt>) {
    ghost predicate Sound() {
      top >= BOOTSTRAPPED && forall v: nat :: Restartable(exec, steps(v))
    }
  }

  /** `COALESCE(MAX(version), 0)` */
  function Max(versions: seq<nat>): (m: nat) {
    if versions == [] then 0
    else
      var rest, last := Max(versions[..|versions| - 1]), versions[|versions| - 1];
      if rest > last then rest else last
  }

  /** `INSERT OR IGNORE` */
  function InsertOrIgnore(versions: seq<nat>, v: nat): seq<nat> {
    if v in versions then versions else versions + [v]
  }

  datatype Status = Done | Failed | Refused

  /** What one call of the runner leaves behind and returns. */
  datatype Outcome = Outcome(db: Db, applied: seq<nat>, status: Status)

  /** Statements `j` and later of `l`, with `fuel` statements to go before the process or the
      database fails: how far it gets and what is left of `fuel`. */
  function Execute(exec: Executor, l: seq<Stmt>, j: nat, st: Store, fuel: nat): (r: (Store, nat, nat))
    requires j <= |l|
    ensures j <= r.1 <= |l|
    decreases |l| - j
  {
    if j == |l| || fuel == 0 || exec(l[j], st).None? then (st, j, fuel)
    else Execute(exec, l, j + 1, exec(l[j], st).value, fuel - 1)
  }

  /** One turn of the runner's loop: the migration, then the version row, then the commit. It
      takes one more step than there are statements; stopped earlier, it leaves a prefix of them
      behind. Third component: what is left of `fuel`. */
  function Turn(plan: Plan, v: nat, db: Db, fuel: nat): (Db, bool, nat) {
    var r := Execute(plan.exec, plan.steps(v), 0, db.store, fuel);
    if r.1 < |plan.steps(v)| || r.2 == 0 then (db.(store := r.0), false, 0)
    else (Db(InsertOrIgnore(db.versions, v), r.0), true, r.2 - 1)
  }

  /** Migrations `v` to the newest. */
  function RunFrom(plan: Plan, v: nat, db: Db, fuel: nat): Outcome
    decreases plan.top + 1 - v
  {
    if v > plan.top then Outcome(db, [], Done)
    else
      var turn := Turn(plan, v, db, fuel);
      if !turn.1 then Outcome(turn.0, [], Failed)
      else
        var rest := RunFrom(plan, v + 1, turn.0, turn.2);
        rest.(applied := [v] + rest.applied)
  }

  /** First pending version. */
  function Start(versions: seq<nat>): nat {
    if Max(versions) + 1 < FIRST then FIRST else Max(versions) + 1
  }

  function Attempt(plan: Plan, db: Db, fuel: nat): Outcome {
    if Max(db.versions) > plan.top then Outcome(db, [], Refused)
    else RunFrom(plan, Start(db.versions), db, fuel)
  }

  /** `init_db` on a database at version `now`: the first `n` of its inserts for the versions a
      fresh install skips; `None` when a primary key collides. */
  function Bootstrap(versions: seq<nat>, now: nat, n: nat): Option<seq<nat>>
    requires n <= BOOTSTRAPPED - FIRST + 1
  {
    if n == 0 then Some(versions)
    else
      var before, v := Bootstrap(versions, now, n - 1), FIRST + n - 1;
      if before.None? then None
      else if now >= v then before
      else if v in before.value then None
      else Some(before.value + [v])
  }

  class Runner {
    var versions: seq<nat>
    var store: Store

    constructor (db: Db)
      ensures Now() == db
    {
      versions, store := db.versions, db.store;
    }

    function Now(): Db
      reads this
    {
      Db(versions, store)
    }

    /** One migration function; true when it runs to its end. */
    method Apply(exec: Executor, l: seq<Stmt>, fuel: nat) returns (ok: bool, left: nat)
      modifies this`store
      ensures var (st, j, rest) := Execute(exec, l, 0, old(store), fuel);
              store == st && left == rest && ok == (j == |l|)
    {
      left := fuel;
      for j := 0 to |l|
        invariant Execute(exec, l, j, store, left) == Execute(exec, l, 0, old(store), fuel)
      {
        var next := exec(l[j], store);
        if left == 0 || next.None? {
          return false, left;
        }
        store, left := next.value, left - 1;
      }
      ok := true;
    }

    method ApplyAndRecord(plan: Plan, v: nat, fuel: nat) returns (ok: bool, left: nat)
      modifies this
      ensures (Now(), ok, left) == Turn(plan, v, old(Now()), fuel)
    {
      ok, left := Apply(plan.exec, plan.steps(v), fuel);
      if !ok || left == 0 {
        return false, 0;
      }
      versions, left := InsertOrIgnore(versions, v), left - 1;
    }

    method ApplyAll(plan: Plan, start: nat, fuel: nat) returns (applied: seq<nat>, status: Status)
      modifies this
      ensures Outcome(Now(), applied, status) == RunFrom(plan, start, old(Now()), fuel)
    {
      var v, left := start, fuel;
      ghost var goal := RunFrom(plan, v, Now(), left);
      applied := [];
      while v <= plan.top
        invariant goal == Prepend(applied, RunFrom(plan, v, Now(), left))
        decreases plan.top + 1 - v
      {
        RunUnfolds(plan, v, Now(), left, applied);
        var ok;
        ok, left := ApplyAndRecord(plan, v, left);
        if !ok {
          return applied, Failed;
        }
        applied := applied + [v];
        v := v + 1;
      }
      status := Done;
    }

    method RunMigrations(plan: Plan, fuel: nat) returns (applied: seq<nat>, status: Status)
      modifies this
      ensures Outcome(Now(), applied, status) == Attempt(plan, old(Now()), fuel)
    {
      if Max(versions) > plan.top {
        return [], Refused;
      }
      applied, status := ApplyAll(plan, Start(versions), fuel);
    }
  }

  function Prepend(applied: seq<nat>, o: Outcome): Outcome {
    o.(applied := applied + o.applied)
  }

  lemma RunUnfolds(plan: Plan, v: nat, db: Db, fuel: nat, applied: seq<nat>)
    requires v <= plan.top
    ensures var turn := Turn(plan, v, db, fuel);
            Prepend(applied, RunFrom(plan, v, db, fuel)) ==
            if !turn.1 then Outcome(turn.0, applied, Failed)
            else Prepend(applied + [v], RunFrom(plan, v + 1, turn.0, turn.2))
  {
    var turn := Turn(plan, v, db, fuel);
    if turn.1 {
      var rest := RunFrom(plan, v + 1, turn.0, turn.2).applied;
      assert applied + ([v] + rest) == applied + [v] + rest;
    }
  }

  // ---- the version table is an initial segment ------------------------------------------------

  /** Versions 2 to `k`, in order. */
  function UpTo(k: nat): seq<nat> {
    if k < FIRST then [] else UpTo(k - 1) + [k]
  }

  lemma {:induction false} UpToHolds(k: nat, v: nat)
    ensures v in UpTo(k) <==> FIRST <= v <= k
  {
    if k >= FIRST {
      UpToHolds(k - 1, v);
    }
  }

  lemma {:induction false} MaxUpTo(k: nat)
    ensures Max(UpTo(k)) == if k < FIRST then 0 else k
  {
    if k >= FIRST {
      MaxUpTo(k - 1);
    }
  }

  /** Versions `v` to `w`, in order. */
  function Range(v: nat, w: nat): seq<nat>
    decreases w + 1 - v
  {
    if v > w then [] else [v] + Range(v + 1, w)
  }

  /** From version `v - 1` on, an attempt only ever appends the next versions; it returns exactly
      those, and reports success exactly when it reached the current one. */
  lemma TurnContiguous(plan: Plan, v: nat, db: Db, fuel: nat)
    requires FIRST <= v && db.versions == UpTo(v - 1)
    ensures var turn := Turn(plan, v, db, fuel); turn.0.versions == UpTo(if turn.1 then v else v - 1)
  {
    UpToHolds(v - 1, v);
  }

  lemma {:induction false} RunFromContiguous(plan: Plan, v: nat, db: Db, fuel: nat) returns (k: nat)
    requires FIRST <= v <= plan.top + 1 && db.versions == UpTo(v - 1)
    ensures v - 1 <= k <= plan.top
    ensures var o := RunFrom(plan, v, db, fuel);
            && o.db.versions == UpTo(k)
            && o.applied == Range(v, k)
            && o.status == if k == plan.top then Done else Failed
    decreases plan.top + 1 - v
  {
    k := v - 1;
    if v <= plan.top {
      var turn := Turn(plan, v, db, fuel);
      TurnContiguous(plan, v, db, fuel);
      if turn.1 {
        k := RunFromContiguous(plan, v + 1, turn.0, turn.2);
      }
    }
  }

  lemma {:induction false} BootstrapContiguous(k: nat, n: nat)
    requires n <= BOOTSTRAPPED - FIRST + 1
    ensures Bootstrap(UpTo(k), Max(UpTo(k)), n) == Some(UpTo(if k < FIRST + n - 1 then FIRST + n - 1 else k))
  {
    MaxUpTo(k);
    if n > 0 {
      BootstrapContiguous(k, n - 1);
      UpToHolds(if k < FIRST + n - 2 then FIRST + n - 2 else k, FIRST + n - 1);
    } else {
      assert k < FIRST - 1 ==> UpTo(k) == UpTo(FIRST - 1);
    }
  }

  /** Start-up steps of any number of processes, one after another, each allowed to fail. */
  datatype Step = Boot(n: nat) | Migrate(fuel: nat)

  predicate Legal(step: Step) {
    step.Boot? ==> step.n <= BOOTSTRAPPED - FIRST + 1
  }

  function Next(plan: Plan, db: Db, step: Step): Option<Db>
    requires Legal(step)
  {
    match step
    case Boot(n) =>
      var versions := Bootstrap(db.versions, Max(db.versions), n);
      if versions.None? then None else Some(db.(versions := versions.value))
    case Migrate(fuel) => Some(Attempt(plan, db, fuel).db)
  }

  predicate LegalSteps(steps: seq<Step>) {
    forall i :: 0 <= i < |steps| ==> Legal(steps[i])
  }

  /** `None` once an insert has collided. */
  function Run(plan: Plan, db: Db, steps: seq<Step>): Option<Db>
    requires LegalSteps(steps)
    decreases |steps|
  {
    if steps == [] then Some(db)
    else
      var next := Next(plan, db, steps[0]);
      if next.None? then None else Run(plan, next.value, steps[1..])
  }

  /** Every start-up history from an empty version table keeps it an initial segment, and no
      bootstrap insert ever collides. */
  lemma {:induction false} VersionsContiguous(plan: Plan, db: Db, steps: seq<Step>, k: nat) returns (k': nat)
    requires plan.Sound() && LegalSteps(steps) && db.versions == UpTo(k) && k <= plan.top
    ensures k <= k' <= plan.top
    ensures var end := Run(plan, db, steps);
            end.Some? && end.value.versions == UpTo(k') && Max(end.value.versions) == if k' < FIRST then 0 else k'
    decreases |steps|
  {
    k' := k;
    MaxUpTo(k);
    if steps != [] {
      match steps[0] {
        case Boot(n) =>
          BootstrapContiguous(k, n);
          k' := if k < FIRST + n - 1 then FIRST + n - 1 else k;
        case Migrate(fuel) =>
          var v := if k < FIRST then FIRST else k + 1;
          assert UpTo(v - 1) == UpTo(k);
          k' := RunFromContiguous(plan, v, db, fuel);
      }
      k' := VersionsContiguous(plan, Next(plan, db, steps[0]).value, steps[1..], k');
    }
  }

  /** On an initial segment a successful run returns exactly the missing versions, in order. */
  lemma SuccessfulRunReturnsPending(plan: Plan, db: Db, fuel: nat, k: nat)
    requires db.versions == UpTo(k) && k <= plan.top && plan.top >= FIRST
    requires Attempt(plan, db, fuel).status == Done
    ensures Attempt(plan, db, fuel).applied == Range(if k < FIRST then FIRST else k + 1, plan.top)
    ensures Attempt(plan, db, fuel).db.versions == UpTo(plan.top)
  {
    MaxUpTo(k);
    var v := if k < FIRST then FIRST else k + 1;
    assert UpTo(v - 1) == UpTo(k);
    var w := RunFromContiguous(plan, v, db, fuel);
  }

  /** Rerun on an up-to-date database, the runner returns nothing and changes nothing. */
  lemma UpToDateIsNoOp(plan: Plan, db: Db, fuel: nat)
    requires db.versions == UpTo(plan.top) && plan.top >= FIRST
    ensures Attempt(plan, db, fuel) == Outcome(db, [], Done)
  {
    MaxUpTo(plan.top);
  }

  /** A database from a newer release is refused and left as it was. */
  lemma NewerDatabaseRefused(plan: Plan, db: Db, fuel: nat, v: nat)
    requires v in db.versions && v > plan.top
    ensures Attempt(plan, db, fuel) == Outcome(db, [], Refused)
  {
    MaxCovers(db.versions, v);
  }

  lemma {:induction false} MaxCovers(versions: seq<nat>, v: nat)
    requires v in versions
    ensures v <= Max(versions)
  {
    if v != versions[|versions| - 1] {
      MaxCovers(versions[..|versions| - 1], v);
    }
  }

  // ---- crash and rerun converges ------------------------------------------------------------

  /** The store an undisturbed run reaches after migrations `from` to `v - 1`. */
  function Ideal(plan: Plan, from: nat, v: nat, st: Store): Option<Store>
    decreases v
  {
    if v <= from then Some(st)
    else
      var before := Ideal(plan, from, v - 1, st);
      if before.None? then None else After(plan.exec, plan.steps(v - 1), |plan.steps(v - 1)|, before.value)
  }

  /** A place on the track of an undisturbed run: after migration `v - 1` and the first `j`
      statements of migration `v`. */
  datatype Place = Place(v: nat, j: nat)

  /** `db` is what an undisturbed run from `origin` has at `at`. */
  ghost predicate OnTrack(plan: Plan, from: nat, origin: Store, at: Place, db: Db) {
    && FIRST <= from <= at.v <= plan.top + 1
    && (at.v == plan.top + 1 ==> at.j == 0)
    && at.j <= |plan.steps(at.v)|
    && db.versions == UpTo(at.v - 1)
    && Ideal(plan, from, at.v, origin).Some?
    && After(plan.exec, plan.steps(at.v), at.j, Ideal(plan, from, at.v, origin).value) == Some(db.store)
  }

  lemma {:induction false} ExecuteIsAfter(exec: Executor, l: seq<Stmt>, j: nat, origin: Store, st: Store, fuel: nat)
    requires j <= |l| && After(exec, l, j, origin) == Some(st)
    ensures var r := Execute(exec, l, j, st, fuel); After(exec, l, r.1, origin) == Some(r.0)
    decreases |l| - j
  {
    if !(j == |l| || fuel == 0 || exec(l[j], st).None?) {
      ExecuteIsAfter(exec, l, j + 1, origin, exec(l[j], st).value, fuel - 1);
    }
  }

  /** Rerunning the migration in progress, however far it gets this time, stays on the track. */
  lemma OneMigration(plan: Plan, from: nat, origin: Store, at: Place, db: Db, fuel: nat) returns (at': Place)
    requires plan.Sound() && OnTrack(plan, from, origin, at, db) && at.v <= plan.top
    ensures var l := plan.steps(at.v);
            var r := Execute(plan.exec, l, 0, db.store, fuel);
            && at'.v == at.v && OnTrack(plan, from, origin, at', db.(store := r.0))
            && (r.1 == |l| ==> at'.j == |l|)
  {
    var l := plan.steps(at.v);
    var r := Execute(plan.exec, l, 0, db.store, fuel);
    ExecuteIsAfter(plan.exec, l, 0, db.store, db.store, fuel);
    assert Restartable(plan.exec, l);
    Resume(plan.exec, l, at.j, r.1, Ideal(plan, from, at.v, origin).value);
    at' := Place(at.v, if r.1 <= at.j then at.j else r.1);
  }

  lemma TurnStaysOnTrack(plan: Plan, from: nat, origin: Store, at: Place, db: Db, fuel: nat) returns (at': Place)
    requires plan.Sound() && OnTrack(plan, from, origin, at, db) && at.v <= plan.top
    ensures OnTrack(plan, from, origin, at', Turn(plan, at.v, db, fuel).0)
    ensures Turn(plan, at.v, db, fuel).1 ==> at' == Place(at.v + 1, 0)
  {
    at' := OneMigration(plan, from, origin, at, db, fuel);
    if Turn(plan, at.v, db, fuel).1 {
      UpToHolds(at.v - 1, at.v);
      at' := Place(at.v + 1, 0);
      assert Ideal(plan, from, at.v + 1, origin) == Some(Turn(plan, at.v, db, fuel).0.store);
    }
  }

  lemma {:induction false} RunStaysOnTrack(plan: Plan, from: nat, origin: Store, at: Place, db: Db, fuel: nat)
    returns (at': Place)
    requires plan.Sound() && OnTrack(plan, from, origin, at, db)
    ensures OnTrack(plan, from, origin, at', RunFrom(plan, at.v, db, fuel).db)
    ensures RunFrom(plan, at.v, db, fuel).status == Done ==> at' == Place(plan.top + 1, 0)
    decreases plan.top + 1 - at.v
  {
    at' := at;
    if at.v <= plan.top {
      var turn := Turn(plan, at.v, db, fuel);
      at' := TurnStaysOnTrack(plan, from, origin, at, db, fuel);
      if turn.1 {
        at' := RunStaysOnTrack(plan, from, origin, at', turn.0, turn.2);
      }
    }
  }

  /** An attempt that starts on the undisturbed track, wherever, ends on it. */
  lemma AttemptStaysOnTrack(plan: Plan, from: nat, origin: Store, at: Place, db: Db, fuel: nat)
    returns (at': Place)
    requires plan.Sound() && OnTrack(plan, from, origin, at, db)
    ensures var o := Attempt(plan, db, fuel);
            && OnTrack(plan, from, origin, at', o.db)
            && (o.status == Done ==> at' == Place(plan.top + 1, 0))
  {
    MaxUpTo(at.v - 1);
    assert Start(db.versions) == at.v;
    at' := RunStaysOnTrack(plan, from, origin, at, db, fuel);
  }

  function Attempts(plan: Plan, db: Db, fuels: seq<nat>): Db
    decreases |fuels|
  {
    if fuels == [] then db
    else Attempts(plan, Attempt(plan, db, fuels[0]).db, fuels[1..])
  }

  lemma {:induction false} AttemptsStayOnTrack(plan: Plan, from: nat, origin: Store, at: Place, db: Db, fuels: seq<nat>)
    returns (at': Place)
    requires plan.Sound() && OnTrack(plan, from, origin, at, db)
    ensures OnTrack(plan, from, origin, at', Attempts(plan, db, fuels))
    decreases |fuels|
  {
    if fuels == [] {
      at' := at;
    } else {
      var next := AttemptStaysOnTrack(plan, from, origin, at, db, fuels[0]);
      at' := AttemptsStayOnTrack(plan, from, origin, next, Attempt(plan, db, fuels[0]).db, fuels[1..]);
    }
  }

  /** Any number of failed attempts, each stopped anywhere, followed by a successful one, ends in
      the same database as one undisturbed run. */
  lemma CrashAndRerunConverges(plan: Plan, k: nat, db: Db, fuels: seq<nat>, fuel: nat, once: nat)
    requires plan.Sound() && db.versions == UpTo(k) && k <= plan.top
    requires Attempt(plan, Attempts(plan, db, fuels), fuel).status == Done
    requires Attempt(plan, db, once).status == Done
    ensures Attempt(plan, Attempts(plan, db, fuels), fuel).db == Attempt(plan, db, once).db
  {
    var from := StartsOnTrack(plan, k, db);
    var mid := AttemptsStayOnTrack(plan, from, db.store, Place(from, 0), db, fuels);
    DoneIsIdeal(plan, from, db.store, mid, Attempts(plan, db, fuels), fuel);
    DoneIsIdeal(plan, from, db.store, Place(from, 0), db, once);
  }

  lemma {:induction false} ExecuteAll(exec: Executor, l: seq<Stmt>, j: nat, origin: Store, st: Store, fuel: nat)
    requires j <= |l| && After(exec, l, j, origin) == Some(st) && After(exec, l, |l|, origin).Some?
    requires fuel >= |l| - j
    ensures Execute(exec, l, j, st, fuel) == (After(exec, l, |l|, origin).value, |l|, fuel - (|l| - j))
    decreases |l| - j
  {
    if j < |l| {
      AfterDefined(exec, l, j + 1, |l|, origin);
      ExecuteAll(exec, l, j + 1, origin, exec(l[j], st).value, fuel - 1);
    }
  }

  lemma {:induction false} AfterDefined(exec: Executor, l: seq<Stmt>, m: nat, n: nat, st: Store)
    requires m <= n <= |l| && After(exec, l, n, st).Some?
    ensures After(exec, l, m, st).Some?
    decreases n
  {
    if m < n {
      AfterDefined(exec, l, m, n - 1, st);
    }
  }

  lemma {:induction false} IdealDefined(plan: Plan, from: nat, v: nat, w: nat, st: Store)
    requires v <= w && Ideal(plan, from, w, st).Some?
    ensures Ideal(plan, from, v, st).Some?
    decreases w
  {
    if v < w {
      IdealDefined(plan, from, v, w - 1, st);
    }
  }

  /** Steps an undisturbed run takes from migration `v` on. */
  function Effort(plan: Plan, v: nat): nat
    decreases plan.top + 1 - v
  {
    if v > plan.top then 0 else |plan.steps(v)| + 1 + Effort(plan, v + 1)
  }

  lemma UndisturbedTurn(plan: Plan, from: nat, origin: Store, v: nat, db: Db, fuel: nat)
    requires OnTrack(plan, from, origin, Place(v, 0), db) && v <= plan.top
    requires Ideal(plan, from, v + 1, origin).Some? && fuel > |plan.steps(v)|
    ensures var turn := Turn(plan, v, db, fuel);
            && turn.1 && turn.2 == fuel - |plan.steps(v)| - 1
            && OnTrack(plan, from, origin, Place(v + 1, 0), turn.0)
  {
    ExecuteAll(plan.exec, plan.steps(v), 0, db.store, db.store, fuel);
    UpToHolds(v - 1, v);
  }

  lemma {:induction false} UndisturbedRunSucceeds(plan: Plan, from: nat, origin: Store, v: nat, db: Db)
    requires OnTrack(plan, from, origin, Place(v, 0), db)
    requires Ideal(plan, from, plan.top + 1, origin).Some?
    ensures RunFrom(plan, v, db, Effort(plan, v)).status == Done
    decreases plan.top + 1 - v
  {
    if v <= plan.top {
      IdealDefined(plan, from, v + 1, plan.top + 1, origin);
      UndisturbedTurn(plan, from, origin, v, db, Effort(plan, v));
      UndisturbedRunSucceeds(plan, from, origin, v + 1, Turn(plan, v, db, Effort(plan, v)).0);
    }
  }

  /** A database whose version table is an initial segment is at the start of its own track. */
  lemma StartsOnTrack(plan: Plan, k: nat, db: Db) returns (from: nat)
    requires db.versions == UpTo(k) && k <= plan.top && plan.top >= FIRST
    ensures OnTrack(plan, from, db.store, Place(from, 0), db)
    ensures from == Start(db.versions) && Max(db.versions) <= plan.top
  {
    from := if k < FIRST then FIRST else k + 1;
    MaxUpTo(k);
    assert UpTo(k) == UpTo(from - 1);
  }

  /** If some attempt after the failed ones succeeds, an undisturbed run of the original database
      succeeds too. */
  lemma UndisturbedRunExists(plan: Plan, k: nat, db: Db, fuels: seq<nat>, fuel: nat) returns (once: nat)
    requires plan.Sound() && db.versions == UpTo(k) && k <= plan.top
    requires Attempt(plan, Attempts(plan, db, fuels), fuel).status == Done
    ensures Attempt(plan, db, once).status == Done
  {
    var from := StartsOnTrack(plan, k, db);
    var mid := AttemptsStayOnTrack(plan, from, db.store, Place(from, 0), db, fuels);
    DoneIsIdeal(plan, from, db.store, mid, Attempts(plan, db, fuels), fuel);
    UndisturbedRunSucceeds(plan, from, db.store, from, db);
    once := Effort(plan, from);
  }

  lemma DoneIsIdeal(plan: Plan, from: nat, origin: Store, at: Place, db: Db, fuel: nat)
    requires plan.Sound() && OnTrack(plan, from, origin, at, db)
    requires Attempt(plan, db, fuel).status == Done
    ensures var ideal := Ideal(plan, from, plan.top + 1, origin);
            ideal.Some? && Attempt(plan, db, fuel).db == Db(UpTo(plan.top), ideal.value)
  {
    var end := AttemptStaysOnTrack(plan, from, origin, at, db, fuel);
  }

  /** Both halves together: the undisturbed run exists and has the same outcome. */
  lemma Converges(plan: Plan, k: nat, db: Db, fuels: seq<nat>, fuel: nat) returns (once: nat)
    requires plan.Sound() && db.versions == UpTo(k) && k <= plan.top
    requires Attempt(plan, Attempts(plan, db, fuels), fuel).status == Done
    ensures Attempt(plan, db, once).status == Done
    ensures Attempt(plan, Attempts(plan, db, fuels), fuel).db == Attempt(plan, db, once).db
  {
    once := UndisturbedRunExists(plan, k, db, fuels, fuel);
    CrashAndRerunConverges(plan, k, db, fuels, fuel, once);
  }

  // ---- start-ups ------------------------------------------------------------------------------

  const INSERTS := BOOTSTRAPPED - FIRST + 1

  /** One start of the application: the bootstrap inserts, and then, if those are all there, an attempt. */
  datatype StartUp = StartUp(inserts: nat, fuel: Option<nat>) {
    predicate Orderly() {
      inserts <= INSERTS && (fuel.Some? ==> inserts == INSERTS)
    }
  }

  function Begin(plan: Plan, db: Db, u: StartUp): Option<Db>
    requires u.Orderly()
  {
    var booted := Next(plan, db, Boot(u.inserts));
    if booted.None? || u.fuel.None? then booted else Next(plan, booted.value, Migrate(u.fuel.value))
  }

  predicate AllOrderly(us: seq<StartUp>) {
    forall i :: 0 <= i < |us| ==> us[i].Orderly()
  }

  function StartUps(plan: Plan, db: Db, us: seq<StartUp>): Option<Db>
    requires AllOrderly(us)
    decreases |us|
  {
    if us == [] then Some(db)
    else
      var next := Begin(plan, db, us[0]);
      if next.None? then None else StartUps(plan, next.value, us[1..])
  }

  /** The attempts among them. */
  function Fuels(us: seq<StartUp>): seq<nat> {
    if us == [] then []
    else (if us[0].fuel.Some? then [us[0].fuel.value] else []) + Fuels(us[1..])
  }

  /** `db` once all bootstrap inserts are there. */
  function Whole(db: Db): Db {
    var versions := Bootstrap(db.versions, Max(db.versions), INSERTS);
    if versions.Some? then db.(versions := versions.value) else db
  }

  function AtLeast(k: nat, n: nat): nat {
    if k < FIRST + n - 1 then FIRST + n - 1 else k
  }

  /** Bootstrap records the versions a fresh install skips without running their statements, on an old
      database too. */
  lemma BootSkipsStatements(plan: Plan, k: nat, db: Db, n: nat)
    requires db.versions == UpTo(k) && n <= INSERTS
    ensures Next(plan, db, Boot(n)) == Some(Db(UpTo(AtLeast(k, n)), db.store))
  {
    BootstrapContiguous(k, n);
  }

  lemma WholeIs(k: nat, db: Db)
    requires db.versions == UpTo(k)
    ensures Whole(db) == Db(UpTo(AtLeast(k, INSERTS)), db.store)
  {
    BootstrapContiguous(k, INSERTS);
  }

  lemma AttemptContiguous(plan: Plan, k: nat, db: Db, fuel: nat) returns (k': nat)
    requires plan.Sound() && db.versions == UpTo(k) && k <= plan.top
    ensures k <= k' <= plan.top && Attempt(plan, db, fuel).db.versions == UpTo(k')
  {
    MaxUpTo(k);
    var v := if k < FIRST then FIRST else k + 1;
    assert UpTo(v - 1) == UpTo(k);
    k' := RunFromContiguous(plan, v, db, fuel);
  }

  lemma BeginIs(plan: Plan, k: nat, db: Db, u: StartUp) returns (k': nat)
    requires plan.Sound() && db.versions == UpTo(k) && k <= plan.top && u.Orderly()
    ensures k' <= plan.top
    ensures var next := Begin(plan, db, u);
            && next.Some? && next.value.versions == UpTo(k')
            && Whole(next.value) == if u.fuel.None? then Whole(db) else Attempt(plan, Whole(db), u.fuel.value).db
  {
    BootSkipsStatements(plan, k, db, u.inserts);
    WholeIs(k, db);
    if u.fuel.None? {
      k' := AtLeast(k, u.inserts);
      WholeIs(k', Db(UpTo(k'), db.store));
    } else {
      k' := WholeAttempt(plan, AtLeast(k, INSERTS), Whole(db), u.fuel.value);
    }
  }

  lemma WholeAttempt(plan: Plan, k: nat, db: Db, fuel: nat) returns (k': nat)
    requires plan.Sound() && db.versions == UpTo(k) && BOOTSTRAPPED <= k <= plan.top
    ensures k' <= plan.top
    ensures var o := Attempt(plan, db, fuel); o.db.versions == UpTo(k') && Whole(o.db) == o.db
  {
    k' := AttemptContiguous(plan, k, db, fuel);
    WholeIs(k', Attempt(plan, db, fuel).db);
  }

  lemma AttemptsCons(plan: Plan, db: Db, fuel: nat, fuels: seq<nat>)
    ensures Attempts(plan, db, [fuel] + fuels) == Attempts(plan, Attempt(plan, db, fuel).db, fuels)
  {
    assert ([fuel] + fuels)[1..] == fuels;
  }

  lemma {:induction false} StartUpsAre(plan: Plan, k: nat, db: Db, us: seq<StartUp>) returns (k': nat)
    requires plan.Sound() && db.versions == UpTo(k) && k <= plan.top && AllOrderly(us)
    ensures k' <= plan.top
    ensures var end := StartUps(plan, db, us);
            end.Some? && end.value.versions == UpTo(k') && Whole(end.value) == Attempts(plan, Whole(db), Fuels(us))
    decreases |us|
  {
    if us == [] {
      k' := k;
    } else {
      var next := Begin(plan, db, us[0]);
      var mid := BeginIs(plan, k, db, us[0]);
      k' := StartUpsAre(plan, mid, next.value, us[1..]);
      if us[0].fuel.Some? {
        AttemptsCons(plan, Whole(db), us[0].fuel.value, Fuels(us[1..]));
      } else {
        assert [] + Fuels(us[1..]) == Fuels(us[1..]);
      }
    }
  }

  /** Whatever start-ups came before, each cut short anywhere, one that succeeds ends in the database of a
      single undisturbed start-up. */
  lemma StartUpsConverge(plan: Plan, k: nat, db: Db, us: seq<StartUp>, fuel: nat) returns (once: nat)
    requires plan.Sound() && db.versions == UpTo(k) && k <= plan.top && AllOrderly(us)
    requires StartUps(plan, db, us).Some? ==> Attempt(plan, Whole(StartUps(plan, db, us).value), fuel).status == Done
    ensures StartUps(plan, db, us).Some?
    ensures Attempt(plan, Whole(db), once).status == Done
    ensures Attempt(plan, Whole(StartUps(plan, db, us).value), fuel).db == Attempt(plan, Whole(db), once).db
  {
    var k' := StartUpsAre(plan, k, db, us);
    WholeIs(k, db);
    once := Converges(plan, AtLeast(k, INSERTS), Whole(db), Fuels(us), fuel);
  }
}
