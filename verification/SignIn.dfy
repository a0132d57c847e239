/** routes/auth.py, routes/soc_portal.py, app/soc_portal_auth.py: both sign-in pages, the
    reauthentication endpoint and the second-factor step, over one failure table and one browser
    session per client. */
module SignIn {
  import opened Common
  import opened Throttle

  const ACCOUNT_LIMIT := 5
  const ACCOUNT_WINDOW := 900
  const PENDING_TTL := 300

  /** Reads `advanced_admin_access`, password hashes, status text and TOTP codes. */
  datatype Env = Env(
    threshold: int, blocktime: int, detection: int,
    whitelisted: string -> bool,
    passwordOk: (string, string) -> bool,
    activeStatus: string -> bool,
    totpOk: (string, string, Moment) -> bool)

  function AddressGate(env: Env): Gate { Gate(env.threshold, Some(env.blocktime), env.detection) }

  const ACCOUNT_GATE := Gate(ACCOUNT_LIMIT, None, ACCOUNT_WINDOW)
  const REAUTH_GATE := Gate(5, Some(300), 600)

  datatype User = User(
    name: string, password: string, status: string, superuser: bool,
    tier: string, groupTiers: seq<string>, totpEnabled: bool, totpSecret: string)

  /** The `users` table with its unique index on the name. */
  datatype Accounts = Accounts(byId: map<nat, User>, ids: map<string, nat>) {
    ghost predicate Valid() {
      forall n :: n in ids ==> ids[n] > 0 && ids[n] in byId && byId[ids[n]].name == n
    }

    function Find(name: string): Option<nat> {
      if name in ids then Some(ids[name]) else None
    }
  }

  // ---- SOC tiers -------------------------------------------------------------------

  function Rank(tier: string): nat {
    if tier == "L1" then 1 else if tier == "L2" then 2 else if tier == "L3" then 3 else 0
  }

  function Best(tiers: seq<string>): string {
    if tiers == [] then ""
    else
      var rest, last := Best(tiers[..|tiers| - 1]), tiers[|tiers| - 1];
      if Rank(last) > Rank(rest) then last else rest
  }

  function SocTier(user: User): Option<string> {
    if user.superuser then Some("L3")
    else
      var best := Best([user.tier] + user.groupTiers);
      if Rank(best) == 0 then None else Some(best)
  }

  lemma {:induction false} BestIsHighest(tiers: seq<string>)
    ensures Rank(Best(tiers)) == 0 || Best(tiers) in tiers
    ensures forall i :: 0 <= i < |tiers| ==> Rank(tiers[i]) <= Rank(Best(tiers))
  {
    if tiers != [] {
      BestIsHighest(tiers[..|tiers| - 1]);
    }
  }

  /** L1 is below L2 and L2 below L3; nothing else is a tier; superusers have L3. */
  lemma TiersRank(user: User, other: string)
    ensures 0 < Rank("L1") < Rank("L2") < Rank("L3")
    ensures other !in {"L1", "L2", "L3"} ==> Rank(other) == 0
    ensures user.superuser ==> SocTier(user) == Some("L3")
  {
  }

  /** The tier a session gets is the highest the user holds, directly or through a group. */
  lemma SocTierIsHighest(user: User, held: string)
    requires held == user.tier || held in user.groupTiers
    ensures SocTier(user) == None ==> Rank(held) == 0
    ensures SocTier(user).Some? ==> Rank(held) <= Rank(SocTier(user).value)
    ensures SocTier(user).Some? && !user.superuser ==>
              SocTier(user).value == user.tier || SocTier(user).value in user.groupTiers
  {
    var all := [user.tier] + user.groupTiers;
    BestIsHighest(all);
    assert all[0] == user.tier && all[1..] == user.groupTiers;
    var i :| 0 <= i < |all| && all[i] == held;
  }

  // ---- sessions ----------------------------------------------------------------------

  /** The session keys the handlers use, each absent or set. */
  datatype Session = Session(
    adminId: Option<nat>, adminName: string, reauthAt: Option<Moment>,
    socId: Option<nat>, socName: Option<string>, socTier: Option<string>,
    pendingId: Option<nat>, pendingName: Option<string>, pendingTier: Option<string>, pendingAt: Option<int>)

  const EMPTY := Session(None, "", None, None, None, None, None, None, None, None)

  function SetPending(s: Session, id: nat, name: string, tier: string, at: Moment): Session {
    s.(pendingId := Some(id), pendingName := Some(name), pendingTier := Some(tier), pendingAt := Some(at.Floor))
  }

  function ClearPending(s: Session): Session {
    s.(pendingId := None, pendingName := None, pendingTier := None, pendingAt := None)
  }

  /** `get_mfa_pending`: a pending step is live for 300 seconds on the truncated start time. */
  predicate PendingLive(s: Session, now: Moment) {
    s.pendingAt.Some? && s.pendingAt.value != 0 && now - s.pendingAt.value as real <= PENDING_TTL as real
  }

  datatype State = State(now: Moment, rows: seq<Failure>, accounts: Accounts, sessions: map<int, Session>)

  function SessionOf(st: State, sid: int): Session {
    if sid in st.sessions then st.sessions[sid] else EMPTY
  }

  /** Requests, each with the clock readings its handler takes, in order. */
  datatype Step =
    | AdminLogin(sid: int, addr: string, name: string, password: string, t1: Moment, t2: Moment, t3: Moment)
    | AdminLogout(sid: int, t3: Moment)
    | Reauth(sid: int, addr: string, password: string, t1: Moment, t3: Moment)
    | SocLogin(sid: int, enabled: bool, addr: string, name: string, password: string,
               t1: Moment, t2: Moment, t3: Moment)
    | SocMfa(sid: int, enabled: bool, addr: string, code: string, t1: Moment, t2: Moment, t3: Moment, t4: Moment)
    | SocLogout(sid: int, t3: Moment)
      /** The client sends this session along, in place of the one its last response set: sessions are signed
          cookies that the client keeps. */
    | Present(sid: int, session: Session, t3: Moment)
      /** Account administration: any change to the users table. */
    | Administer(accounts: Accounts, t3: Moment)

  predicate Legal(st: State, step: Step) {
    match step
    case AdminLogin(_, _, _, _, t1, t2, t3) => st.now <= t1 <= t2 <= t3
    case AdminLogout(_, t3) => st.now <= t3
    case Reauth(_, _, _, t1, t3) => st.now <= t1 <= t3
    case SocLogin(_, _, _, _, _, t1, t2, t3) => st.now <= t1 <= t2 <= t3
    case SocMfa(_, _, _, _, t1, t2, t3, t4) => st.now <= t1 <= t2 <= t3 <= t4
    case SocLogout(_, t3) => st.now <= t3
    case Present(_, _, t3) => st.now <= t3
    case Administer(_, t3) => st.now <= t3
  }

  function Ends(step: Step): Moment {
    if step.SocMfa? then step.t4 else step.t3
  }

  function Blank(name: string): Option<string> {
    if name == "" then None else Some(name)
  }

  predicate AddressBarred(env: Env, rows: seq<Failure>, addr: string, now: Moment) {
    env.threshold > 0 && Barred(Times(rows, Address(addr)), AddressGate(env), now)
  }

  predicate AccountBarred(rows: seq<Failure>, name: string, now: Moment) {
    name != "" && Barred(Times(rows, Account(name)), ACCOUNT_GATE, now)
  }

  function Clear(rows: seq<Failure>, addr: string, name: string): seq<Failure> {
    var rest := Drop(rows, Address(addr));
    if name == "" then rest else Drop(rest, Account(name))
  }

  // ---- the pages ---------------------------------------------------------------------

  /** The gates of both sign-in pages. */
  predicate Gated(env: Env, st: State, addr: string, name: string, t1: Moment, t2: Moment) {
    !env.whitelisted(addr) && (AddressBarred(env, st.rows, addr, t1) || AccountBarred(st.rows, name, t2))
  }

  predicate AdminCredentials(env: Env, st: State, name: string, password: string) {
    var id := st.accounts.Find(name);
    && id.Some? && id.value in st.accounts.byId
    && var user := st.accounts.byId[id.value];
       env.activeStatus(user.status) && env.passwordOk(user.password, password)
  }

  predicate SocCredentials(env: Env, st: State, name: string, password: string) {
    var id := st.accounts.Find(name);
    && id.Some? && id.value in st.accounts.byId
    && var user := st.accounts.byId[id.value];
       user.status == "active" && env.passwordOk(user.password, password)
  }

  /** The account's TOTP seed; empty when the account or the seed is gone. */
  function Secret(accounts: Accounts, id: nat): string {
    if id in accounts.byId then accounts.byId[id].totpSecret else ""
  }

  predicate HasMfa(user: User) { user.totpEnabled && user.totpSecret != "" }

  predicate CodeOk(env: Env, st: State, id: nat, code: string, now: Moment) {
    Secret(st.accounts, id) != "" && env.totpOk(Secret(st.accounts, id), code, now)
  }

  function Record(st: State, addr: string, name: string, at: Moment): State {
    st.(rows := st.rows + [Failure(addr, at, Blank(name))])
  }

  function Put(st: State, sid: int, s: Session): State {
    st.(sessions := st.sessions[sid := s])
  }

  function AfterAdminLogin(env: Env, st: State, sid: int, addr: string, name: string, password: string,
                           t1: Moment, t2: Moment, t3: Moment): State {
    if Gated(env, st, addr, name, t1, t2) then st
    else if AdminCredentials(env, st, name, password) then
      var id := st.accounts.ids[name];
      Put(st.(rows := Drop(Drop(st.rows, Address(addr)), Account(name))), sid,
          SessionOf(st, sid).(adminId := Some(id), adminName := st.accounts.byId[id].name))
    else if env.whitelisted(addr) then st
    else Record(st, addr, name, t3)
  }

  function AfterReauth(env: Env, st: State, sid: int, addr: string, password: string, t1: Moment, t3: Moment): State {
    var s := SessionOf(st, sid);
    if s.adminId.None? || password == "" || s.adminId.value !in st.accounts.byId then st
    else
      var user := st.accounts.byId[s.adminId.value];
      if Barred(Times(st.rows, Account(user.name)), REAUTH_GATE, t1) then Put(st, sid, s.(reauthAt := None))
      else if env.passwordOk(user.password, password) then Put(st, sid, s.(reauthAt := Some(t3)))
      else st.(rows := st.rows + [Failure(addr, t3, Some(user.name))])
  }

  function AfterSocLogin(env: Env, st: State, sid: int, enabled: bool, addr: string, name: string, password: string,
                         t1: Moment, t2: Moment, t3: Moment): State {
    var s := SessionOf(st, sid);
    if !enabled || s.socId.Some? || Gated(env, st, addr, name, t1, t2) then st
    else if !SocCredentials(env, st, name, password) then
      if env.whitelisted(addr) then st else Record(st, addr, name, t3)
    else
      var id := st.accounts.ids[name];
      var user := st.accounts.byId[id];
      var tier := SocTier(user);
      if tier.None? then
        if env.whitelisted(addr) then st else Record(st, addr, name, t3)
      else if HasMfa(user) then Put(st, sid, SetPending(s, id, user.name, tier.value, t3))
      else Put(st.(rows := Clear(st.rows, addr, user.name)), sid,
               s.(socId := Some(id), socName := Some(user.name), socTier := tier))
  }

  function AfterSocMfa(env: Env, st: State, sid: int, enabled: bool, addr: string, code: string,
                       t1: Moment, t2: Moment, t3: Moment, t4: Moment): State {
    var s := SessionOf(st, sid);
    if !enabled then st
    else if !PendingLive(s, t1) then Put(st, sid, ClearPending(s))
    else if s.pendingId.None? then st
    else
      var name := s.pendingName.GetOr("");
      if !CodeOk(env, st, s.pendingId.value, code, t2) then
        var st' := Record(st, addr, name, t3);
        if AccountBarred(st'.rows, name, t4) then Put(st', sid, ClearPending(s)) else st'
      else
        Put(st.(rows := Clear(st.rows, addr, name)), sid,
            ClearPending(s.(socId := s.pendingId, socName := s.pendingName, socTier := s.pendingTier)))
  }

  function Next(env: Env, st: State, step: Step): State {
    var after :=
      match step
      case AdminLogin(sid, addr, name, password, t1, t2, t3) =>
        AfterAdminLogin(env, st, sid, addr, name, password, t1, t2, t3)
      case AdminLogout(sid, _) => Put(st, sid, EMPTY)
      case Reauth(sid, addr, password, t1, t3) => AfterReauth(env, st, sid, addr, password, t1, t3)
      case SocLogin(sid, enabled, addr, name, password, t1, t2, t3) =>
        AfterSocLogin(env, st, sid, enabled, addr, name, password, t1, t2, t3)
      case SocMfa(sid, enabled, addr, code, t1, t2, t3, t4) =>
        AfterSocMfa(env, st, sid, enabled, addr, code, t1, t2, t3, t4)
      case SocLogout(sid, _) =>
        Put(st, sid, ClearPending(SessionOf(st, sid).(socId := None, socName := None, socTier := None)))
      case Present(sid, session, _) => Put(st, sid, session)
      case Administer(accounts, _) => st.(accounts := accounts);
    after.(now := Ends(step))
  }

  // ---- the handlers --------------------------------------------------------------------

  class Service {
    var now: Moment
    var rows: seq<Failure>
    var accounts: Accounts
    var sessions: map<int, Session>

    constructor (accounts: Accounts)
      ensures Now() == State(1.0, [], accounts, map[])
    {
      now, rows, this.accounts, sessions := 1.0, [], accounts, map[];
    }

    function Now(): State
      reads this
    {
      State(now, rows, accounts, sessions)
    }

    method Login(env: Env, sid: int, addr: string, name: string, password: string, t1: Moment, t2: Moment, t3: Moment)
      requires accounts.Valid()
      modifies this`now, this`rows, this`sessions
      ensures Now() == Next(env, old(Now()), AdminLogin(sid, addr, name, password, t1, t2, t3))
    {
      now := t3;
      var white := env.whitelisted(addr);
      if !white && AddressBarred(env, rows, addr, t1) {
        return;
      }
      if !white && AccountBarred(rows, name, t2) {
        return;
      }
      var id := accounts.Find(name);
      if id.Some? {
        var user := accounts.byId[id.value];
        if env.activeStatus(user.status) && env.passwordOk(user.password, password) {
          rows := Drop(rows, Address(addr));
          rows := Drop(rows, Account(name));
          var s := SessionOf(Now(), sid);
          sessions := sessions[sid := s.(adminId := id, adminName := user.name)];
          return;
        }
      }
      if !white {
        rows := rows + [Failure(addr, t3, Blank(name))];
      }
    }

    method Reauthenticate(env: Env, sid: int, addr: string, password: string, t1: Moment, t3: Moment)
      modifies this`now, this`rows, this`sessions
      ensures Now() == Next(env, old(Now()), Reauth(sid, addr, password, t1, t3))
    {
      now := t3;
      var s := SessionOf(Now(), sid);
      if s.adminId.None? || password == "" || s.adminId.value !in accounts.byId {
        return;
      }
      var user := accounts.byId[s.adminId.value];
      var recent := Times(rows, Account(user.name));
      if CountAfter(recent, t1 - REAUTH_GATE.window as real) >= REAUTH_GATE.threshold {
        var last := Latest(recent);
        if last.Some? && t1 - last.value < REAUTH_GATE.block.value as real {
          sessions := sessions[sid := s.(reauthAt := None)];
          return;
        }
      }
      if env.passwordOk(user.password, password) {
        sessions := sessions[sid := s.(reauthAt := Some(t3))];
        return;
      }
      rows := rows + [Failure(addr, t3, Some(user.name))];
    }

    method PortalLogin(env: Env, sid: int, enabled: bool, addr: string, name: string, password: string,
                       t1: Moment, t2: Moment, t3: Moment)
      requires accounts.Valid()
      modifies this`now, this`rows, this`sessions
      ensures Now() == Next(env, old(Now()), SocLogin(sid, enabled, addr, name, password, t1, t2, t3))
    {
      now := t3;
      var s := SessionOf(Now(), sid);
      if !enabled || s.socId.Some? {
        return;
      }
      var white := env.whitelisted(addr);
      if !white {
        if AddressBarred(env, rows, addr, t1) || AccountBarred(rows, name, t2) {
          return;
        }
      }
      var id := accounts.Find(name);
      if id.None? || accounts.byId[id.value].status != "active"
         || !env.passwordOk(accounts.byId[id.value].password, password) {
        if !white {
          rows := rows + [Failure(addr, t3, Blank(name))];
        }
        return;
      }
      var user := accounts.byId[id.value];
      var tier := SocTier(user);
      if tier.None? {
        if !white {
          rows := rows + [Failure(addr, t3, Blank(name))];
        }
      } else if HasMfa(user) {
        sessions := sessions[sid := SetPending(s, id.value, user.name, tier.value, t3)];
      } else {
        sessions := sessions[sid := s.(socId := id, socName := Some(user.name), socTier := tier)];
        rows := Clear(rows, addr, user.name);
      }
    }

    method PortalMfa(env: Env, sid: int, enabled: bool, addr: string, code: string,
                     t1: Moment, t2: Moment, t3: Moment, t4: Moment)
      modifies this`now, this`rows, this`sessions
      ensures Now() == Next(env, old(Now()), SocMfa(sid, enabled, addr, code, t1, t2, t3, t4))
    {
      now := t4;
      if !enabled {
        return;
      }
      var s := SessionOf(Now(), sid);
      if !PendingLive(s, t1) {
        sessions := sessions[sid := ClearPending(s)];
        return;
      }
      if s.pendingId.None? {
        return;
      }
      var id, name := s.pendingId.value, s.pendingName.GetOr("");
      var secret := Secret(accounts, id);
      if secret == "" || !env.totpOk(secret, code, t2) {
        rows := rows + [Failure(addr, t3, Blank(name))];
        if AccountBarred(rows, name, t4) {
          sessions := sessions[sid := ClearPending(s)];
        }
      } else {
        var signedIn := s.(socId := s.pendingId, socName := s.pendingName, socTier := s.pendingTier);
        sessions := sessions[sid := ClearPending(signedIn)];
        rows := Clear(rows, addr, name);
      }
    }
  }

  // ---- runs ------------------------------------------------------------------------------

  ghost predicate LegalRun(env: Env, st: State, steps: seq<Step>)
    decreases |steps|
  {
    steps == [] || (Legal(st, steps[0]) && LegalRun(env, Next(env, st, steps[0]), steps[1..]))
  }

  function Run(env: Env, st: State, steps: seq<Step>): State
    decreases |steps|
  {
    if steps == [] then st else Run(env, Next(env, st, steps[0]), steps[1..])
  }

  function Cookies(st: State): set<(int, Session)> {
    set sid | sid in st.sessions :: (sid, st.sessions[sid])
  }

  /** Clients present sessions that were once set for them (those in `given`, and later ones), or none: cookies
      are not forged. */
  ghost predicate Genuine(env: Env, st: State, given: set<(int, Session)>, steps: seq<Step>)
    decreases |steps|
  {
    steps == [] ||
    (&& (steps[0].Present? ==>
           steps[0].session == EMPTY || (steps[0].sid, steps[0].session) in given + Cookies(st))
     && Genuine(env, Next(env, st, steps[0]), given + Cookies(st), steps[1..]))
  }

  // ---- how many failures a gate lets through ------------------------------------------------

  /** Whose attempts are counted: those a given gate was consulted for. */
  datatype Throttled = ByAddress(addr: string) | ByAccount(name: string) | ByReauth(name: string)

  function KeyOf(who: Throttled): Key {
    match who
    case ByAddress(addr) => Address(addr)
    case ByAccount(name) => Account(name)
    case ByReauth(name) => Account(name)
  }

  function GateOf(env: Env, who: Throttled): Gate {
    match who
    case ByAddress(_) => AddressGate(env)
    case ByAccount(_) => ACCOUNT_GATE
    case ByReauth(_) => REAUTH_GATE
  }

  /** The moment at which `step` records a failure that the gate of `who` had let through. */
  function FailedAttempt(env: Env, st: State, step: Step, who: Throttled): Option<Moment> {
    if |Next(env, st, step).rows| <= |st.rows| then None
    else
      match step
      case AdminLogin(_, addr, name, _, _, _, t3) =>
        if who == ByAddress(addr) || (who == ByAccount(name) && name != "") then Some(t3) else None
      case SocLogin(_, _, addr, name, _, _, _, t3) =>
        if who == ByAddress(addr) || (who == ByAccount(name) && name != "") then Some(t3) else None
      case Reauth(sid, _, _, _, t3) =>
        var id := SessionOf(st, sid).adminId;
        if id.Some? && id.value in st.accounts.byId && who == ByReauth(st.accounts.byId[id.value].name)
        then Some(t3) else None
      case _ => None
  }

  function FailedAttempts(env: Env, st: State, steps: seq<Step>, who: Throttled): seq<Moment>
    decreases |steps|
  {
    if steps == [] then []
    else
      var first := FailedAttempt(env, st, steps[0], who);
      (if first.Some? then [first.value] else []) + FailedAttempts(env, Next(env, st, steps[0]), steps[1..], who)
  }

  /** No step of the run deletes a row of `key`. */
  ghost predicate KeepsRows(env: Env, st: State, steps: seq<Step>, key: Key)
    decreases |steps|
  {
    steps == [] ||
    (&& Times(st.rows, key) <= Times(Next(env, st, steps[0]).rows, key)
     && KeepsRows(env, Next(env, st, steps[0]), steps[1..], key))
  }

  lemma {:induction false} DropLength(rows: seq<Failure>, key: Key)
    ensures |Drop(rows, key)| <= |rows|
  {
    if rows != [] {
      DropLength(rows[..|rows| - 1], key);
    }
  }

  lemma ClearLength(rows: seq<Failure>, addr: string, name: string)
    ensures |Clear(rows, addr, name)| <= |rows|
    ensures |Drop(Drop(rows, Address(addr)), Account(name))| <= |rows|
  {
    DropLength(rows, Address(addr));
    DropLength(Drop(rows, Address(addr)), Account(name));
  }

  /** A step that adds a row for a sign-in attempt adds just that row, past both gates. */
  lemma AdminAttempt(env: Env, st: State, step: Step)
    requires step.AdminLogin? && |Next(env, st, step).rows| > |st.rows|
    ensures Next(env, st, step).rows == st.rows + [Failure(step.addr, step.t3, Blank(step.name))]
    ensures !Gated(env, st, step.addr, step.name, step.t1, step.t2) && !env.whitelisted(step.addr)
  {
    ClearLength(st.rows, step.addr, step.name);
  }

  lemma SocAttempt(env: Env, st: State, step: Step)
    requires step.SocLogin? && |Next(env, st, step).rows| > |st.rows|
    ensures Next(env, st, step).rows == st.rows + [Failure(step.addr, step.t3, Blank(step.name))]
    ensures !Gated(env, st, step.addr, step.name, step.t1, step.t2) && !env.whitelisted(step.addr)
  {
    if SocCredentials(env, st, step.name, step.password) {
      ClearLength(st.rows, step.addr, st.accounts.byId[st.accounts.ids[step.name]].name);
    }
  }

  lemma ReauthAttempt(env: Env, st: State, step: Step, name: string)
    requires step.Reauth? && FailedAttempt(env, st, step, ByReauth(name)).Some?
    ensures Next(env, st, step).rows == st.rows + [Failure(step.addr, step.t3, Some(name))]
    ensures !Barred(Times(st.rows, Account(name)), REAUTH_GATE, step.t1)
  {
  }

  /** How the gate of `who` sees one step. */
  lemma Observe(env: Env, st: State, step: Step, who: Throttled) returns (o: Seen)
    requires Legal(st, step)
    requires Times(st.rows, KeyOf(who)) <= Times(Next(env, st, step).rows, KeyOf(who))
    requires who.ByAddress? ==> env.threshold > 0
    ensures o.failed == FailedAttempt(env, st, step, who)
    ensures o.after == Times(Next(env, st, step).rows, KeyOf(who)) && o.end == Ends(step) && st.now <= o.end
    ensures o.failed.Some? ==>
              && st.now <= o.checked <= o.failed.value <= o.end
              && !Barred(Times(st.rows, KeyOf(who)), GateOf(env, who), o.checked)
              && o.after == Times(st.rows, KeyOf(who)) + [o.failed.value]
  {
    var failed, checked := FailedAttempt(env, st, step, who), st.now;
    if failed.Some? {
      match step {
        case AdminLogin(_, _, _, _, t1, t2, _) =>
          AdminAttempt(env, st, step);
          checked := if who.ByAddress? then t1 else t2;
        case SocLogin(_, _, _, _, _, t1, t2, _) =>
          SocAttempt(env, st, step);
          checked := if who.ByAddress? then t1 else t2;
        case Reauth(_, _, _, t1, _) =>
          ReauthAttempt(env, st, step, who.name);
          checked := t1;
      }
      var rows := Next(env, st, step).rows;
      TimesAppend(st.rows, rows[|rows| - 1], KeyOf(who));
    }
    o := Seen(checked, failed, Times(Next(env, st, step).rows, KeyOf(who)), Ends(step));
  }

  lemma {:induction false} ObserveRun(env: Env, st: State, steps: seq<Step>, who: Throttled) returns (obs: seq<Seen>)
    requires LegalRun(env, st, steps) && KeepsRows(env, st, steps, KeyOf(who))
    requires who.ByAddress? ==> env.threshold > 0
    ensures Observed(obs, GateOf(env, who), st.now, Times(st.rows, KeyOf(who)))
    ensures Failures(obs) == FailedAttempts(env, st, steps, who)
    decreases |steps|
  {
    if steps == [] {
      obs := [];
    } else {
      var o := Observe(env, st, steps[0], who);
      var rest := ObserveRun(env, Next(env, st, steps[0]), steps[1..], who);
      obs := [o] + rest;
      assert obs[1..] == rest;
    }
  }

  /** Whatever else writes to the failure table, in a stretch that deletes none of the key's rows:
      n failures let through by a gate within one window of each other, beyond the threshold,
      satisfy (n - threshold) * block < window. */
  lemma LockoutBound(env: Env, st: State, steps: seq<Step>, who: Throttled)
    requires LegalRun(env, st, steps) && KeepsRows(env, st, steps, KeyOf(who))
    requires who.ByAddress? ==> env.threshold > 0
    ensures WithinBound(FailedAttempts(env, st, steps, who), GateOf(env, who))
  {
    var obs := ObserveRun(env, st, steps, who);
    ObservedBound(obs, GateOf(env, who), st.now, Times(st.rows, KeyOf(who)));
  }

  predicate Within(ts: seq<Moment>, seconds: int) {
    ts != [] ==> (ts[|ts| - 1] as real) - ts[0] < seconds as real
  }

  /** The fixed gates: at most 5 failed sign-ins for one account within 900 seconds, at most 6
      failed reauthentications within 600. */
  lemma FixedGateBounds(env: Env, st: State, steps: seq<Step>, name: string)
    requires LegalRun(env, st, steps) && KeepsRows(env, st, steps, Account(name))
    ensures var ts := FailedAttempts(env, st, steps, ByAccount(name)); Within(ts, 900) ==> |ts| <= 5
    ensures var ts := FailedAttempts(env, st, steps, ByReauth(name)); Within(ts, 600) ==> |ts| <= 6
  {
    LockoutBound(env, st, steps, ByAccount(name));
    LockoutBound(env, st, steps, ByReauth(name));
  }

  // ---- what attempts do to the ledger -------------------------------------------------------

  /** Exactly the rows of this address and of this account are gone. */
  predicate Cleared(before: seq<Failure>, after: seq<Failure>, addr: string, name: string) {
    && (forall i :: 0 <= i < |before| && before[i].addr != addr && before[i].username != Some(name) ==>
          before[i] in after)
    && (forall i :: 0 <= i < |after| ==> after[i] in before && after[i].addr != addr && after[i].username != Some(name))
  }

  lemma ClearIsExact(rows: seq<Failure>, addr: string, name: string)
    ensures Cleared(rows, Drop(Drop(rows, Address(addr)), Account(name)), addr, name)
  {
    forall f: Failure
      ensures f in Drop(Drop(rows, Address(addr)), Account(name)) <==>
                f in rows && f.addr != addr && f.username != Some(name)
    {
      DropIsExact(rows, Address(addr), f);
      DropIsExact(Drop(rows, Address(addr)), Account(name), f);
    }
  }

  /** Every sign-in, with or without a second factor, forgets the failures of its address and account
      and of nobody else. */
  lemma SignInClears(env: Env, st: State, step: Step)
    requires step.SocLogin? || step.SocMfa?
    requires SessionOf(st, step.sid).socId.None? && SessionOf(Next(env, st, step), step.sid).socId.Some?
    ensures var name := SessionOf(Next(env, st, step), step.sid).socName.GetOr("");
            name != "" ==> Cleared(st.rows, Next(env, st, step).rows, step.addr, name)
  {
    ClearIsExact(st.rows, step.addr, SessionOf(Next(env, st, step), step.sid).socName.GetOr(""));
  }

  lemma AdminSignInClears(env: Env, st: State, step: Step)
    requires step.AdminLogin? && AdminCredentials(env, st, step.name, step.password)
    requires !Gated(env, st, step.addr, step.name, step.t1, step.t2)
    ensures Cleared(st.rows, Next(env, st, step).rows, step.addr, step.name)
  {
    ClearIsExact(st.rows, step.addr, step.name);
  }

  /** Every failure a gate let through is one more row for that gate, stamped with its time. */
  lemma FailureIsCounted(env: Env, st: State, step: Step, who: Throttled)
    requires FailedAttempt(env, st, step, who).Some?
    ensures Times(Next(env, st, step).rows, KeyOf(who)) ==
            Times(st.rows, KeyOf(who)) + [FailedAttempt(env, st, step, who).value]
  {
    match step
    case AdminLogin(_, _, _, _, _, _, _) =>
      AdminAttempt(env, st, step);
      TimesAppend(st.rows, Failure(step.addr, step.t3, Blank(step.name)), KeyOf(who));
    case SocLogin(_, _, _, _, _, _, _, _) =>
      SocAttempt(env, st, step);
      TimesAppend(st.rows, Failure(step.addr, step.t3, Blank(step.name)), KeyOf(who));
    case Reauth(_, _, _, _, _) =>
      ReauthAttempt(env, st, step, who.name);
      TimesAppend(st.rows, Failure(step.addr, step.t3, Some(who.name)), KeyOf(who));
  }

  // ---- guessing a code ----------------------------------------------------------------------

  /** The step presents a wrong code for the pending second factor of session `sid`. */
  predicate WrongCode(env: Env, st: State, step: Step, sid: int) {
    && step.SocMfa? && step.sid == sid && step.enabled
    && var s := SessionOf(st, sid);
       PendingLive(s, step.t1) && s.pendingId.Some? && !CodeOk(env, st, s.pendingId.value, step.code, step.t2)
  }

  function WrongCodes(env: Env, st: State, steps: seq<Step>, sid: int): nat
    decreases |steps|
  {
    if steps == [] then 0
    else (if WrongCode(env, st, steps[0], sid) then 1 else 0)
         + WrongCodes(env, Next(env, st, steps[0]), steps[1..], sid)
  }

  /** The pending step of this session is the one for account `name` started at `at`. */
  predicate PendingSince(s: Session, name: string, at: int) {
    s.pendingName == Some(name) && s.pendingAt == Some(at)
  }

  /** No further password step of the session, no pending step presented but this one, and no code checked
      for 600 seconds or more. */
  predicate SamePassword(step: Step, sid: int, name: string, at: int) {
    && !(step.SocLogin? && step.sid == sid)
    && (Presents(step, sid) ==> step.session.pendingAt.None? || PendingSince(step.session, name, at))
    && (step.SocMfa? ==> step.t4 - step.t1 < 600.0)
  }

  predicate OnePassword(steps: seq<Step>, sid: int, name: string, at: int) {
    forall i :: 0 <= i < |steps| ==> SamePassword(steps[i], sid, name, at)
  }

  /** The client presents an earlier session here. */
  predicate Presents(step: Step, sid: int) {
    step.Present? && step.sid == sid
  }

  function Presentations(steps: seq<Step>, sid: int): nat {
    if steps == [] then 0 else (if Presents(steps[0], sid) then 1 else 0) + Presentations(steps[1..], sid)
  }

  lemma PendingStays(env: Env, st: State, step: Step, sid: int)
    requires !(step.SocLogin? && step.sid == sid) && !Presents(step, sid)
    ensures var s, s' := SessionOf(st, sid), SessionOf(Next(env, st, step), sid);
            s'.pendingAt.None? || (s'.pendingAt == s.pendingAt && s'.pendingName == s.pendingName)
  {
  }

  /** At least `c` failures of the account are as recent as `at`. */
  ghost predicate Recent(rows: seq<Failure>, name: string, at: int, c: nat) {
    forall x: real :: x < at as real ==> CountAfter(Times(rows, Account(name)), x) >= c
  }

  lemma WrongCodeRecords(env: Env, st: State, step: Step, sid: int, name: string)
    requires WrongCode(env, st, step, sid) && name != "" && SessionOf(st, sid).pendingName == Some(name)
    ensures var next := Next(env, st, step);
            && next.rows == st.rows + [Failure(step.addr, step.t3, Some(name))]
            && next.now == step.t4 && next.accounts == st.accounts
            && if AccountBarred(next.rows, name, step.t4) then SessionOf(next, sid).pendingAt.None?
               else SessionOf(next, sid) == SessionOf(st, sid)
  {
  }

  lemma RecentGrows(rows: seq<Failure>, addr: string, t: Moment, name: string, at: int, c: nat)
    requires Recent(rows, name, at, c) && at as real <= t
    ensures Recent(rows + [Failure(addr, t, Some(name))], name, at, c + 1)
  {
    var f := Failure(addr, t, Some(name));
    TimesAppend(rows, f, Account(name));
    forall x: real | x < at as real ensures CountAfter(Times(rows + [f], Account(name)), x) >= c + 1 {
      CountAppend(Times(rows, Account(name)), t, x);
    }
  }

  lemma WrongCodeCounts(env: Env, st: State, step: Step, sid: int, name: string, at: int, c: nat)
    requires Legal(st, step) && WrongCode(env, st, step, sid) && name != "" && at as real <= st.now
    requires PendingSince(SessionOf(st, sid), name, at) && Recent(st.rows, name, at, c)
    requires step.t4 - step.t1 < 600.0
    ensures Recent(Next(env, st, step).rows, name, at, c + 1)
    ensures c + 1 >= ACCOUNT_LIMIT ==> SessionOf(Next(env, st, step), sid).pendingAt.None?
  {
    WrongCodeRecords(env, st, step, sid, name);
    RecentGrows(st.rows, step.addr, step.t3, name, at, c);
    assert step.t4 - 900.0 < at as real;
  }

  lemma RecentStays(rows: seq<Failure>, rows': seq<Failure>, name: string, at: int, c: nat)
    requires Recent(rows, name, at, c) && Times(rows, Account(name)) <= Times(rows', Account(name))
    ensures Recent(rows', name, at, c)
  {
    forall x: real | x < at as real ensures CountAfter(Times(rows', Account(name)), x) >= c {
      CountMonotone(Times(rows, Account(name)), Times(rows', Account(name)), x);
    }
  }

  /** Wrong codes still possible after `c` recent failures, with or without a pending step. */
  function Allowance(s: Session, c: nat): nat {
    (if c < ACCOUNT_LIMIT then ACCOUNT_LIMIT - c else 1) - if s.pendingAt.None? then 1 else 0
  }

  lemma GuessStep(env: Env, st: State, step: Step, sid: int, name: string, at: int, c: nat)
    requires Legal(st, step) && SamePassword(step, sid, name, at) && name != "" && at as real <= st.now
    requires Times(st.rows, Account(name)) <= Times(Next(env, st, step).rows, Account(name))
    requires Recent(st.rows, name, at, c)
    requires SessionOf(st, sid).pendingAt.None? || PendingSince(SessionOf(st, sid), name, at)
    ensures var next, guess := Next(env, st, step), WrongCode(env, st, step, sid);
            var c' := if guess then c + 1 else c;
            && Recent(next.rows, name, at, c')
            && (SessionOf(next, sid).pendingAt.None? || PendingSince(SessionOf(next, sid), name, at))
            && (if guess then 1 else 0) + Allowance(SessionOf(next, sid), c')
               <= Allowance(SessionOf(st, sid), c) + if Presents(step, sid) then 1 else 0
  {
    if WrongCode(env, st, step, sid) {
      WrongCodeCounts(env, st, step, sid, name, at, c);
      PendingStays(env, st, step, sid);
    } else {
      RecentStays(st.rows, Next(env, st, step).rows, name, at, c);
      if !Presents(step, sid) {
        PendingStays(env, st, step, sid);
      }
    }
  }

  lemma {:induction false} GuessesLeft(env: Env, st: State, steps: seq<Step>, sid: int, name: string, at: int, c: nat)
    requires LegalRun(env, st, steps) && KeepsRows(env, st, steps, Account(name)) && OnePassword(steps, sid, name, at)
    requires name != "" && at as real <= st.now && Recent(st.rows, name, at, c)
    requires SessionOf(st, sid).pendingAt.None? || PendingSince(SessionOf(st, sid), name, at)
    ensures WrongCodes(env, st, steps, sid) <= Allowance(SessionOf(st, sid), c) + Presentations(steps, sid)
    decreases |steps|
  {
    if steps != [] {
      GuessStep(env, st, steps[0], sid, name, at, c);
      GuessesLeft(env, Next(env, st, steps[0]), steps[1..], sid, name, at,
                  if WrongCode(env, st, steps[0], sid) then c + 1 else c);
    }
  }

  /** The password step of session `sid`: a pending second factor for this account, started at `at`. */
  predicate Awaits(st: State, sid: int, name: string, at: int) {
    PendingSince(SessionOf(st, sid), name, at) && name != "" && at as real <= st.now
  }

  /** One password step allows 5 wrong codes, and one more each time the client presents an earlier session,
      as long as the account's failures are not cleared. Without such presentations the limit is 5. */
  lemma GuessBound(env: Env, st: State, steps: seq<Step>, sid: int, name: string, at: int)
    requires LegalRun(env, st, steps) && OnePassword(steps, sid, name, at) && Awaits(st, sid, name, at)
    requires KeepsRows(env, st, steps, Account(name))
    ensures WrongCodes(env, st, steps, sid) <= ACCOUNT_LIMIT + Presentations(steps, sid)
  {
    GuessesLeft(env, st, steps, sid, name, at, 0);
  }

  function Wrong(sid: int, addr: string, code: string, t: Moment): Step {
    SocMfa(sid, true, addr, code, t, t, t, t)
  }

  /** `k` wrong codes, then `n` times the session `s` and a wrong code. */
  function Guesses(sid: int, s: Session, addr: string, code: string, t: Moment, k: nat, n: nat): seq<Step>
    decreases k + n
  {
    if k > 0 then [Wrong(sid, addr, code, t)] + Guesses(sid, s, addr, code, t, k - 1, n)
    else if n > 0 then [Present(sid, s, t), Wrong(sid, addr, code, t)] + Guesses(sid, s, addr, code, t, 0, n - 1)
    else []
  }

  /** The code is wrong for the pending account at any time. */
  ghost predicate AlwaysWrong(env: Env, st: State, s: Session, code: string) {
    s.pendingId.Some? && forall t: Moment :: !CodeOk(env, st, s.pendingId.value, code, t)
  }

  /** A legal run of genuine sessions after one password step that keeps the account's failures. */
  ghost predicate FairRun(env: Env, st: State, given: set<(int, Session)>, steps: seq<Step>,
                          sid: int, name: string, at: int) {
    && LegalRun(env, st, steps) && Genuine(env, st, given, steps) && KeepsRows(env, st, steps, Account(name))
    && OnePassword(steps, sid, name, at)
  }

  /** A live pending step of `sid`, kept as session `s`, and a code that is always wrong for it. */
  ghost predicate Guessing(env: Env, st: State, s: Session, code: string, name: string, at: int) {
    PendingSince(s, name, at) && name != "" && PendingLive(s, st.now) && AlwaysWrong(env, st, s, code)
  }

  lemma WrongApplies(env: Env, st: State, sid: int, s: Session, addr: string, code: string, name: string, at: int)
    requires Guessing(env, st, s, code, name, at) && SessionOf(st, sid) == s
    ensures Legal(st, Wrong(sid, addr, code, st.now)) && WrongCode(env, st, Wrong(sid, addr, code, st.now), sid)
  {
    assert !CodeOk(env, st, s.pendingId.value, code, st.now);
  }

  lemma WrongAgain(env: Env, st: State, sid: int, s: Session, addr: string, code: string, name: string, at: int)
    requires Guessing(env, st, s, code, name, at) && SessionOf(st, sid) == s
    ensures var step := Wrong(sid, addr, code, st.now);
            var next := Next(env, st, step);
            && Legal(st, step) && WrongCode(env, st, step, sid)
            && Times(next.rows, Account(name)) == Times(st.rows, Account(name)) + [st.now]
            && next.now == st.now && next.accounts == st.accounts
            && (CountAfter(Times(next.rows, Account(name)), st.now - 900.0) < 5 ==> SessionOf(next, sid) == s)
  {
    WrongApplies(env, st, sid, s, addr, code, name, at);
    WrongCodeRecords(env, st, Wrong(sid, addr, code, st.now), sid, name);
    WrongFollows(st, Next(env, st, Wrong(sid, addr, code, st.now)), sid, s, addr, name);
  }

  lemma WrongFollows(st: State, next: State, sid: int, s: Session, addr: string, name: string)
    requires next.rows == st.rows + [Failure(addr, st.now, Some(name))]
    requires !AccountBarred(next.rows, name, st.now) ==> SessionOf(next, sid) == s
    ensures Times(next.rows, Account(name)) == Times(st.rows, Account(name)) + [st.now]
    ensures CountAfter(Times(next.rows, Account(name)), st.now - 900.0) < 5 ==> SessionOf(next, sid) == s
  {
    TimesAppend(st.rows, Failure(addr, st.now, Some(name)), Account(name));
  }

  lemma StillGuessing(env: Env, st: State, next: State, s: Session, code: string, name: string, at: int)
    requires Guessing(env, st, s, code, name, at) && next.now == st.now && next.accounts == st.accounts
    ensures Guessing(env, next, s, code, name, at)
  {
    forall t: Moment ensures !CodeOk(env, next, s.pendingId.value, code, t) {
      assert !CodeOk(env, st, s.pendingId.value, code, t);
    }
  }

  lemma FairCons(env: Env, st: State, given: set<(int, Session)>, step: Step, rest: seq<Step>,
                 sid: int, name: string, at: int)
    requires Legal(st, step) && SamePassword(step, sid, name, at)
    requires step.Present? ==> (step.sid, step.session) in given + Cookies(st)
    requires Times(st.rows, Account(name)) <= Times(Next(env, st, step).rows, Account(name))
    requires FairRun(env, Next(env, st, step), given + Cookies(st), rest, sid, name, at)
    ensures FairRun(env, st, given, [step] + rest, sid, name, at)
    ensures WrongCodes(env, st, [step] + rest, sid) ==
              (if WrongCode(env, st, step, sid) then 1 else 0) + WrongCodes(env, Next(env, st, step), rest, sid)
    ensures Presentations([step] + rest, sid) == (if Presents(step, sid) then 1 else 0) + Presentations(rest, sid)
  {
    var steps := [step] + rest;
    assert steps[0] == step && steps[1..] == rest;
  }

  /** One more round in front: the session presented, then a wrong code. */
  lemma OneRound(env: Env, st: State, given: set<(int, Session)>, sid: int, s: Session, addr: string, code: string,
                 name: string, at: int, mid: State, next: State, rest: seq<Step>)
    requires Guessing(env, st, s, code, name, at) && (sid, s) in given + Cookies(st)
    requires mid == Next(env, st, Present(sid, s, st.now)) && next == Next(env, mid, Wrong(sid, addr, code, st.now))
    requires FairRun(env, next, given + Cookies(st) + Cookies(mid), rest, sid, name, at)
    ensures var steps := [Present(sid, s, st.now), Wrong(sid, addr, code, st.now)] + rest;
            && FairRun(env, st, given, steps, sid, name, at)
            && WrongCodes(env, st, steps, sid) == 1 + WrongCodes(env, next, rest, sid)
            && Presentations(steps, sid) == 1 + Presentations(rest, sid)
  {
    var present, wrong := Present(sid, s, st.now), Wrong(sid, addr, code, st.now);
    assert SessionOf(mid, sid) == s && mid.rows == st.rows;
    StillGuessing(env, st, mid, s, code, name, at);
    WrongAgain(env, mid, sid, s, addr, code, name, at);
    FairCons(env, mid, given + Cookies(st), wrong, rest, sid, name, at);
    FairCons(env, st, given, present, [wrong] + rest, sid, name, at);
    assert [present] + ([wrong] + rest) == [present, wrong] + rest;
  }

  lemma AfterRound(env: Env, st: State, sid: int, s: Session, addr: string, code: string, name: string, at: int)
    requires Guessing(env, st, s, code, name, at)
    ensures var next := Next(env, Next(env, st, Present(sid, s, st.now)), Wrong(sid, addr, code, st.now));
            next.now == st.now && Guessing(env, next, s, code, name, at)
  {
    var mid := Next(env, st, Present(sid, s, st.now));
    StillGuessing(env, st, mid, s, code, name, at);
    WrongAgain(env, mid, sid, s, addr, code, name, at);
    StillGuessing(env, mid, Next(env, mid, Wrong(sid, addr, code, st.now)), s, code, name, at);
  }

  lemma {:induction false} GuessRounds(env: Env, st: State, given: set<(int, Session)>, sid: int, s: Session,
                                       addr: string, code: string, name: string, at: int, n: nat)
    requires Guessing(env, st, s, code, name, at) && (sid, s) in given + Cookies(st)
    ensures var steps := Guesses(sid, s, addr, code, st.now, 0, n);
            && FairRun(env, st, given, steps, sid, name, at)
            && WrongCodes(env, st, steps, sid) == n && Presentations(steps, sid) == n
    decreases n
  {
    if n > 0 {
      var mid := Next(env, st, Present(sid, s, st.now));
      var next := Next(env, mid, Wrong(sid, addr, code, st.now));
      AfterRound(env, st, sid, s, addr, code, name, at);
      GuessRounds(env, next, given + Cookies(st) + Cookies(mid), sid, s, addr, code, name, at, n - 1);
      OneRound(env, st, given, sid, s, addr, code, name, at, mid, next, Guesses(sid, s, addr, code, st.now, 0, n - 1));
    }
  }

  lemma {:induction false} GuessRun(env: Env, st: State, given: set<(int, Session)>, sid: int, s: Session,
                                    addr: string, code: string, name: string, at: int, k: nat, n: nat)
    requires Guessing(env, st, s, code, name, at) && (sid, s) in given + Cookies(st) && k <= 5
    requires k > 0 ==> SessionOf(st, sid) == s
                       && CountAfter(Times(st.rows, Account(name)), st.now - 900.0) == 5 - k
    ensures var steps := Guesses(sid, s, addr, code, st.now, k, n);
            && FairRun(env, st, given, steps, sid, name, at)
            && WrongCodes(env, st, steps, sid) == k + n && Presentations(steps, sid) == n
    decreases k
  {
    if k == 0 {
      GuessRounds(env, st, given, sid, s, addr, code, name, at, n);
    } else {
      var wrong := Wrong(sid, addr, code, st.now);
      var next := Next(env, st, wrong);
      WrongAgain(env, st, sid, s, addr, code, name, at);
      CountAppend(Times(st.rows, Account(name)), st.now, st.now - 900.0);
      StillGuessing(env, st, next, s, code, name, at);
      GuessRun(env, next, given + Cookies(st), sid, s, addr, code, name, at, k - 1, n);
      FairCons(env, st, given, wrong, Guesses(sid, s, addr, code, st.now, k - 1, n), sid, name, at);
    }
  }

  /** The bound is exact: for every number `n` of presentations some run takes that many more than 5 wrong
      codes, because the lockout that the fifth one brings ends only the session, not the checking. */
  lemma GuessBoundIsTight(env: Env, st: State, sid: int, addr: string, code: string, name: string, at: int, n: nat)
    requires Awaits(st, sid, name, at) && PendingLive(SessionOf(st, sid), st.now)
    requires AlwaysWrong(env, st, SessionOf(st, sid), code) && Times(st.rows, Account(name)) == []
    ensures var steps := Guesses(sid, SessionOf(st, sid), addr, code, st.now, 5, n);
            && FairRun(env, st, {}, steps, sid, name, at)
            && Presentations(steps, sid) == n && WrongCodes(env, st, steps, sid) == ACCOUNT_LIMIT + n
  {
    assert (sid, SessionOf(st, sid)) in Cookies(st);
    GuessRun(env, st, {}, sid, SessionOf(st, sid), addr, code, name, at, 5, n);
  }

  // ---- where a SOC session comes from -----------------------------------------------------

  /** What happened, for the record. */
  datatype Fact =
    | PasswordAccepted(sid: int, id: nat, name: string, hash: string, password: string, tier: string, mfa: bool,
                       at: Moment)
    | CodeAccepted(sid: int, id: nat, secret: string, code: string, checkedAt: Moment, at: Moment)

  function Facts(env: Env, st: State, step: Step): seq<Fact> {
    match step
    case SocLogin(sid, enabled, addr, name, password, t1, t2, t3) =>
      if !enabled || SessionOf(st, sid).socId.Some? || Gated(env, st, addr, name, t1, t2)
         || !SocCredentials(env, st, name, password)
      then []
      else
        var id := st.accounts.ids[name];
        var user := st.accounts.byId[id];
        if SocTier(user).None? then []
        else [PasswordAccepted(sid, id, user.name, user.password, password, SocTier(user).value, HasMfa(user), t3)]
    case SocMfa(sid, enabled, addr, code, t1, t2, t3, t4) =>
      var s := SessionOf(st, sid);
      if enabled && PendingLive(s, t1) && s.pendingId.Some? && CodeOk(env, st, s.pendingId.value, code, t2)
      then [CodeAccepted(sid, s.pendingId.value, Secret(st.accounts, s.pendingId.value), code, t1, t2)]
      else []
    case _ => []
  }

  function History(env: Env, st: State, steps: seq<Step>): seq<Fact>
    decreases |steps|
  {
    if steps == [] then [] else Facts(env, st, steps[0]) + History(env, Next(env, st, steps[0]), steps[1..])
  }

  /** Entry `i` is the password step this pending second factor belongs to; the password was right for the
      account's hash. */
  ghost predicate PendingFrom(env: Env, log: seq<Fact>, sid: int, s: Session, i: int) {
    && 0 <= i < |log| && log[i].PasswordAccepted?
    && var f := log[i];
       && f.sid == sid && f.mfa && env.passwordOk(f.hash, f.password)
       && s.pendingId == Some(f.id) && s.pendingName == Some(f.name) && s.pendingTier == Some(f.tier)
       && s.pendingAt == Some(f.at.Floor)
  }

  /** Entry `i` is the password step of the signed-in analyst, with the name and tier fixed then;
      if a second factor was due, a later entry is a code that was right for the account's seed,
      presented no more than 300 seconds after the password. */
  ghost predicate SignedInFrom(env: Env, log: seq<Fact>, sid: int, s: Session, i: int) {
    && 0 <= i < |log| && log[i].PasswordAccepted?
    && var f := log[i];
       && f.sid == sid && env.passwordOk(f.hash, f.password)
       && s.socId == Some(f.id) && s.socName == Some(f.name) && s.socTier == Some(f.tier)
       && (f.mfa ==> exists j :: CodeFollows(env, log, f, i, j))
  }

  ghost predicate CodeFollows(env: Env, log: seq<Fact>, f: Fact, i: int, j: int)
    requires f.PasswordAccepted?
  {
    && 0 <= i < j < |log| && log[j].CodeAccepted?
    && var c := log[j];
       && c.sid == f.sid && c.id == f.id
       && c.secret != "" && env.totpOk(c.secret, c.code, c.at)
       && f.at <= c.checkedAt <= c.at && c.checkedAt - f.at <= PENDING_TTL as real
  }

  predicate NoPending(s: Session) {
    s.pendingId.None? && s.pendingName.None? && s.pendingTier.None? && s.pendingAt.None?
  }

  predicate SignedOut(s: Session) {
    s.socId.None? && s.socName.None? && s.socTier.None?
  }

  ghost predicate Accountable(env: Env, log: seq<Fact>, sid: int, s: Session) {
    && (NoPending(s) || exists i :: PendingFrom(env, log, sid, s, i))
    && (SignedOut(s) || exists i :: SignedInFrom(env, log, sid, s, i))
  }

  ghost predicate Inv(env: Env, st: State, log: seq<Fact>) {
    && (forall sid :: sid in st.sessions ==> Accountable(env, log, sid, st.sessions[sid]))
    && (forall i :: 0 <= i < |log| && log[i].PasswordAccepted? ==> log[i].at <= st.now)
  }

  /** Every session the client was ever given. */
  ghost predicate AllAccountable(env: Env, log: seq<Fact>, given: set<(int, Session)>) {
    forall c :: c in given ==> Accountable(env, log, c.0, c.1)
  }

  lemma LogGrows(env: Env, log: seq<Fact>, more: seq<Fact>, sid: int, s: Session)
    requires Accountable(env, log, sid, s)
    ensures Accountable(env, log + more, sid, s)
  {
    var log' := log + more;
    if !NoPending(s) {
      var i :| PendingFrom(env, log, sid, s, i);
      assert PendingFrom(env, log', sid, s, i);
    }
    if !SignedOut(s) {
      var i :| SignedInFrom(env, log, sid, s, i);
      assert log'[i] == log[i];
      if log[i].mfa {
        var j :| CodeFollows(env, log, log[i], i, j);
        assert CodeFollows(env, log', log[i], i, j);
      }
      assert SignedInFrom(env, log', sid, s, i);
    }
  }

  lemma PasswordStep(env: Env, st: State, log: seq<Fact>, step: Step)
    requires step.SocLogin? && Inv(env, st, log) && Facts(env, st, step) != []
    ensures Accountable(env, log + Facts(env, st, step), step.sid, SessionOf(Next(env, st, step), step.sid))
  {
    var s, log' := SessionOf(st, step.sid), log + Facts(env, st, step);
    var s' := SessionOf(Next(env, st, step), step.sid);
    assert Accountable(env, log, step.sid, s);
    LogGrows(env, log, Facts(env, st, step), step.sid, s);
    if log'[|log|].mfa {
      assert PendingFrom(env, log', step.sid, s', |log|);
    } else {
      assert SignedInFrom(env, log', step.sid, s', |log|);
      if !NoPending(s) {
        var i :| PendingFrom(env, log', step.sid, s, i);
        assert PendingFrom(env, log', step.sid, s', i);
      }
    }
  }

  lemma CodeStep(env: Env, st: State, log: seq<Fact>, step: Step)
    requires step.SocMfa? && Legal(st, step) && Inv(env, st, log) && Facts(env, st, step) != []
    ensures Accountable(env, log + Facts(env, st, step), step.sid, SessionOf(Next(env, st, step), step.sid))
  {
    var s, log' := SessionOf(st, step.sid), log + Facts(env, st, step);
    var s' := SessionOf(Next(env, st, step), step.sid);
    assert Accountable(env, log, step.sid, s);
    var i :| PendingFrom(env, log, step.sid, s, i);
    var f := log[i];
    assert f.at.Floor as real <= f.at;
    assert CodeFollows(env, log', f, i, |log|);
    assert log'[i] == f;
    assert SignedInFrom(env, log', step.sid, s', i);
  }

  predicate SamePending(s: Session, s': Session) {
    && s'.pendingId == s.pendingId && s'.pendingName == s.pendingName
    && s'.pendingTier == s.pendingTier && s'.pendingAt == s.pendingAt
  }

  predicate SameSoc(s: Session, s': Session) {
    s'.socId == s.socId && s'.socName == s.socName && s'.socTier == s.socTier
  }

  /** A request that is neither an accepted password nor an accepted code leaves each group of
      session keys alone or drops it whole. */
  lemma OtherwiseKeepsKeys(env: Env, st: State, step: Step, sid: int)
    requires !Presents(step, sid)
    requires Facts(env, st, step) == [] || (step.SocLogin? && step.sid != sid) || (step.SocMfa? && step.sid != sid)
    ensures var s, s' := SessionOf(st, sid), SessionOf(Next(env, st, step), sid);
            && (NoPending(s') || SamePending(s, s'))
            && (SignedOut(s') || SameSoc(s, s'))
  {
    if step.SocLogin? || step.SocMfa? {
      SocStepKeepsKeys(env, st, step, sid);
    }
  }

  lemma SocStepKeepsKeys(env: Env, st: State, step: Step, sid: int)
    requires step.SocLogin? || step.SocMfa?
    requires Facts(env, st, step) == [] || step.sid != sid
    ensures var s, s' := SessionOf(st, sid), SessionOf(Next(env, st, step), sid);
            && (NoPending(s') || SamePending(s, s'))
            && (SignedOut(s') || SameSoc(s, s'))
  {
  }

  lemma SessionStep(env: Env, st: State, log: seq<Fact>, step: Step, sid: int)
    requires Legal(st, step) && Inv(env, st, log)
    requires step.Present? ==> Accountable(env, log, step.sid, step.session)
    ensures Accountable(env, log + Facts(env, st, step), sid, SessionOf(Next(env, st, step), sid))
  {
    if Facts(env, st, step) != [] && step.SocLogin? && step.sid == sid {
      PasswordStep(env, st, log, step);
    } else if Facts(env, st, step) != [] && step.SocMfa? && step.sid == sid {
      CodeStep(env, st, log, step);
    } else if Presents(step, sid) {
      LogGrows(env, log, Facts(env, st, step), sid, step.session);
    } else {
      var s := SessionOf(st, sid);
      assert Accountable(env, log, sid, s);
      LogGrows(env, log, Facts(env, st, step), sid, s);
      OtherwiseKeepsKeys(env, st, step, sid);
      SameKeys(env, log + Facts(env, st, step), sid, s, SessionOf(Next(env, st, step), sid));
    }
  }

  /** Sessions that keep or drop each group of keys stay accountable. */
  lemma SameKeys(env: Env, log: seq<Fact>, sid: int, s: Session, s': Session)
    requires Accountable(env, log, sid, s)
    requires NoPending(s') || SamePending(s, s')
    requires SignedOut(s') || SameSoc(s, s')
    ensures Accountable(env, log, sid, s')
  {
    if !NoPending(s') {
      var i :| PendingFrom(env, log, sid, s, i);
      assert PendingFrom(env, log, sid, s', i);
    }
    if !SignedOut(s') {
      var i :| SignedInFrom(env, log, sid, s, i);
      assert SignedInFrom(env, log, sid, s', i);
    }
  }

  lemma StepKeepsInv(env: Env, st: State, log: seq<Fact>, step: Step)
    requires Legal(st, step) && Inv(env, st, log)
    requires step.Present? ==> Accountable(env, log, step.sid, step.session)
    ensures Inv(env, Next(env, st, step), log + Facts(env, st, step))
  {
    var st', more := Next(env, st, step), Facts(env, st, step);
    forall sid | sid in st'.sessions ensures Accountable(env, log + more, sid, st'.sessions[sid]) {
      SessionStep(env, st, log, step, sid);
    }
  }

  lemma GivenGrows(env: Env, st: State, log: seq<Fact>, more: seq<Fact>, given: set<(int, Session)>)
    requires Inv(env, st, log) && AllAccountable(env, log, given)
    ensures AllAccountable(env, log + more, given + Cookies(st))
  {
    forall c | c in given + Cookies(st) ensures Accountable(env, log + more, c.0, c.1) {
      LogGrows(env, log, more, c.0, c.1);
    }
  }

  lemma {:induction false} RunKeepsInv(env: Env, st: State, log: seq<Fact>, given: set<(int, Session)>,
                                       steps: seq<Step>)
    requires LegalRun(env, st, steps) && Genuine(env, st, given, steps)
    requires Inv(env, st, log) && AllAccountable(env, log, given)
    ensures Inv(env, Run(env, st, steps), log + History(env, st, steps))
    decreases |steps|
  {
    if steps == [] {
      assert log + [] == log;
    } else {
      var more := Facts(env, st, steps[0]);
      StepKeepsInv(env, st, log, steps[0]);
      GivenGrows(env, st, log, more, given);
      RunKeepsInv(env, Next(env, st, steps[0]), log + more, given + Cookies(st), steps[1..]);
      Assoc(log, more, History(env, Next(env, st, steps[0]), steps[1..]));
    }
  }

  /** Every signed-in analyst and every pending second factor, in every reachable state, goes back
      to one accepted password of that account in that session, and to a timely code if the account
      had a second factor then, even when clients present earlier sessions again. */
  lemma SocSessionsAccountable(env: Env, accounts: Accounts, steps: seq<Step>, sid: int)
    requires LegalRun(env, State(1.0, [], accounts, map[]), steps)
    requires Genuine(env, State(1.0, [], accounts, map[]), {}, steps)
    ensures var start := State(1.0, [], accounts, map[]);
            Accountable(env, History(env, start, steps), sid, SessionOf(Run(env, start, steps), sid))
  {
    var start := State(1.0, [], accounts, map[]);
    RunKeepsInv(env, start, [], {}, steps);
    assert [] + History(env, start, steps) == History(env, start, steps);
  }

  /** Signing out of the admin interface clears the whole session, the SOC sign-in included. */
  lemma AdminLogoutEndsSocSession(env: Env, st: State, sid: int, t: Moment)
    ensures SignedOut(SessionOf(Next(env, st, AdminLogout(sid, t)), sid))
  {
  }
}
