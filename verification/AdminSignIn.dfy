/** routes/auth.py, routes/soc_portal.py: what each sign-in request does to sessions and to the failure table,
    told from accounts and gates, and where every administrator session comes from. */
module AdminSignIn {
  import opened Common
  import opened Throttle
  import opened SignIn

  // ---- who gets through ------------------------------------------------------------------------

  /** No gate stops an attempt on account `name` from `addr`. */
  predicate PastGates(env: Env, st: State, addr: string, name: string, t1: Moment, t2: Moment) {
    env.whitelisted(addr) ||
    (&& (env.threshold > 0 ==>
           !Barred(Times(st.rows, Address(addr)), Gate(env.threshold, Some(env.blocktime), env.detection), t1))
     && (name != "" ==> !Barred(Times(st.rows, Account(name)), Gate(5, None, 900), t2)))
  }

  /** The account of this name, if there is one. */
  predicate Owns(accounts: Accounts, name: string, id: nat) {
    name in accounts.ids && accounts.ids[name] == id && id in accounts.byId
  }

  predicate RightAdmin(env: Env, accounts: Accounts, name: string, password: string, id: nat) {
    && Owns(accounts, name, id)
    && env.activeStatus(accounts.byId[id].status) && env.passwordOk(accounts.byId[id].password, password)
  }

  predicate RightSoc(env: Env, accounts: Accounts, name: string, password: string, id: nat) {
    && Owns(accounts, name, id)
    && accounts.byId[id].status == "active" && env.passwordOk(accounts.byId[id].password, password)
  }

  /** An admin login past the gates with the right password of active account `id`. */
  predicate LogsIn(env: Env, st: State, step: Step, sid: int, id: nat) {
    && step.AdminLogin? && step.sid == sid && PastGates(env, st, step.addr, step.name, step.t1, step.t2)
    && RightAdmin(env, st.accounts, step.name, step.password, id)
  }

  /** A reauthentication, not locked out, with the right password of the account signed in. */
  predicate Reproves(env: Env, st: State, step: Step, sid: int, id: nat) {
    && step.Reauth? && step.sid == sid && SessionOf(st, sid).adminId == Some(id) && id in st.accounts.byId
    && step.password != "" && env.passwordOk(st.accounts.byId[id].password, step.password)
    && !Barred(Times(st.rows, Account(st.accounts.byId[id].name)), Gate(5, Some(300), 600), step.t1)
  }

  // ---- what requests do to sessions ---------------------------------------------------------------

  predicate SameAdmin(s: Session, s': Session) {
    s'.adminId == s.adminId && s'.adminName == s.adminName
  }

  /** A session gets an administrator by such a login alone, with that account's id and name, or by presenting
      an earlier session; signing out is the one way to lose it. */
  lemma AdminChanges(env: Env, st: State, step: Step, sid: int)
    ensures var s, s' := SessionOf(st, sid), SessionOf(Next(env, st, step), sid);
            || SameAdmin(s, s')
            || (Presents(step, sid) && s' == step.session)
            || (step.AdminLogout? && step.sid == sid && s' == EMPTY)
            || exists id :: LogsIn(env, st, step, sid, id)
                            && s'.adminId == Some(id) && s'.adminName == st.accounts.byId[id].name
  {
    if step.AdminLogin? && step.sid == sid && AdminCredentials(env, st, step.name, step.password)
       && !Gated(env, st, step.addr, step.name, step.t1, step.t2) {
      assert LogsIn(env, st, step, sid, st.accounts.ids[step.name]);
    }
  }

  lemma LoginSignsIn(env: Env, st: State, step: Step, sid: int, id: nat)
    requires LogsIn(env, st, step, sid, id)
    ensures var s, s' := SessionOf(st, sid), SessionOf(Next(env, st, step), sid);
            s' == s.(adminId := Some(id), adminName := st.accounts.byId[id].name)
  {
  }

  /** The mark of a reauthentication is set by the right password alone and dropped by a lockout. */
  lemma ReauthChanges(env: Env, st: State, step: Step, sid: int)
    ensures var s, s' := SessionOf(st, sid), SessionOf(Next(env, st, step), sid);
            || s'.reauthAt == s.reauthAt
            || (Presents(step, sid) && s' == step.session)
            || ((step.AdminLogout? || step.Reauth?) && step.sid == sid && s'.reauthAt.None?)
            || exists id :: Reproves(env, st, step, sid, id) && s'.reauthAt == Some(step.t3)
  {
    if step.Reauth? && step.sid == sid && SessionOf(st, sid).adminId.Some? {
      var id := SessionOf(st, sid).adminId.value;
      assert SessionOf(Next(env, st, step), sid).reauthAt == Some(step.t3) ==>
               Reproves(env, st, step, sid, id) || SessionOf(st, sid).reauthAt == Some(step.t3);
    }
  }

  lemma ReauthMarks(env: Env, st: State, step: Step, sid: int, id: nat)
    requires Reproves(env, st, step, sid, id)
    ensures SessionOf(Next(env, st, step), sid) == SessionOf(st, sid).(reauthAt := Some(step.t3))
    ensures Next(env, st, step).rows == st.rows
  {
  }

  /** The right password of an analyst's account signs in with the account's tier, or, where a second factor is
      enabled, awaits it. */
  lemma PortalSignsIn(env: Env, st: State, step: Step, sid: int, id: nat)
    requires step.SocLogin? && step.sid == sid && step.enabled && SessionOf(st, sid).socId.None?
    requires PastGates(env, st, step.addr, step.name, step.t1, step.t2)
    requires RightSoc(env, st.accounts, step.name, step.password, id) && SocTier(st.accounts.byId[id]).Some?
    ensures var s, s' := SessionOf(st, sid), SessionOf(Next(env, st, step), sid);
            var user := st.accounts.byId[id];
            if user.totpEnabled && user.totpSecret != ""
            then s' == s.(pendingId := Some(id), pendingName := Some(user.name), pendingTier := SocTier(user),
                          pendingAt := Some(step.t3.Floor))
            else s' == s.(socId := Some(id), socName := Some(user.name), socTier := SocTier(user))
  {
  }

  /** The right code within 300 seconds signs in as the pending account. */
  lemma CodeSignsIn(env: Env, st: State, step: Step, sid: int)
    requires step.SocMfa? && step.sid == sid && step.enabled
    requires var s := SessionOf(st, sid);
             && s.pendingId.Some? && s.pendingId.value in st.accounts.byId
             && s.pendingAt.Some? && s.pendingAt.value != 0 && step.t1 - s.pendingAt.value as real <= 300.0
             && var secret := st.accounts.byId[s.pendingId.value].totpSecret;
                secret != "" && env.totpOk(secret, step.code, step.t2)
    ensures var s, s' := SessionOf(st, sid), SessionOf(Next(env, st, step), sid);
            s' == s.(socId := s.pendingId, socName := s.pendingName, socTier := s.pendingTier,
                     pendingId := None, pendingName := None, pendingTier := None, pendingAt := None)
  {
  }

  // ---- what requests do to the failure table --------------------------------------------------------

  /** The attempt is refused for its credentials, past both gates. */
  predicate Refused(env: Env, st: State, step: Step) {
    match step
    case AdminLogin(_, addr, name, password, t1, t2, _) =>
      && PastGates(env, st, addr, name, t1, t2)
      && !exists id :: id in st.accounts.byId.Keys && RightAdmin(env, st.accounts, name, password, id)
    case SocLogin(sid, enabled, addr, name, password, t1, t2, _) =>
      && enabled && SessionOf(st, sid).socId.None? && PastGates(env, st, addr, name, t1, t2)
      && !exists id :: id in st.accounts.byId.Keys && RightSoc(env, st.accounts, name, password, id)
                       && SocTier(st.accounts.byId[id]).Some?
    case _ => false
  }

  /** A refused sign-in leaves sessions alone and records exactly one failure, of its address, account and time,
      unless the address is whitelisted; an attempt a gate stops leaves everything alone. */
  lemma RefusedIsRecorded(env: Env, st: State, step: Step)
    requires step.AdminLogin? || step.SocLogin?
    ensures Refused(env, st, step) ==>
              && Next(env, st, step).sessions == st.sessions
              && Next(env, st, step).rows == st.rows + if env.whitelisted(step.addr) then []
                                                       else [Failure(step.addr, step.t3, Blank(step.name))]
    ensures !PastGates(env, st, step.addr, step.name, step.t1, step.t2) ==>
              Next(env, st, step).sessions == st.sessions && Next(env, st, step).rows == st.rows
  {
    if step.name in st.accounts.ids {
      var id := st.accounts.ids[step.name];
      assert id in st.accounts.byId ==> id in st.accounts.byId.Keys;
    }
  }

  // ---- where an administrator session comes from ------------------------------------------------------

  datatype Fact =
    | LoggedIn(sid: int, id: nat, name: string, hash: string, password: string)
    | Reproved(sid: int, id: nat, hash: string, password: string, at: Moment)

  function Facts(env: Env, st: State, step: Step): seq<Fact> {
    if step.AdminLogin? && step.name in st.accounts.ids
       && LogsIn(env, st, step, step.sid, st.accounts.ids[step.name]) then
      var id := st.accounts.ids[step.name];
      [LoggedIn(step.sid, id, st.accounts.byId[id].name, st.accounts.byId[id].password, step.password)]
    else if step.Reauth? && SessionOf(st, step.sid).adminId.Some?
            && Reproves(env, st, step, step.sid, SessionOf(st, step.sid).adminId.value) then
      var id := SessionOf(st, step.sid).adminId.value;
      [Reproved(step.sid, id, st.accounts.byId[id].password, step.password, step.t3)]
    else []
  }

  function History(env: Env, st: State, steps: seq<Step>): seq<Fact>
    decreases |steps|
  {
    if steps == [] then [] else Facts(env, st, steps[0]) + History(env, Next(env, st, steps[0]), steps[1..])
  }

  /** Entry `i` is the login this session's administrator comes from. */
  predicate AdminFrom(env: Env, log: seq<Fact>, sid: int, s: Session, i: int) {
    && 0 <= i < |log| && log[i].LoggedIn? && log[i].sid == sid
    && s.adminId == Some(log[i].id) && s.adminName == log[i].name && env.passwordOk(log[i].hash, log[i].password)
  }

  /** Entry `i` is the reauthentication this session's mark comes from. */
  predicate MarkFrom(env: Env, log: seq<Fact>, sid: int, s: Session, i: int) {
    && 0 <= i < |log| && log[i].Reproved? && log[i].sid == sid
    && s.reauthAt == Some(log[i].at) && env.passwordOk(log[i].hash, log[i].password)
  }

  predicate HasAdmin(env: Env, log: seq<Fact>, sid: int, s: Session) {
    s.adminId.None? || exists i :: 0 <= i < |log| && AdminFrom(env, log, sid, s, i)
  }

  predicate HasMark(env: Env, log: seq<Fact>, sid: int, s: Session) {
    s.reauthAt.None? || exists i :: 0 <= i < |log| && MarkFrom(env, log, sid, s, i)
  }

  predicate Accountable(env: Env, log: seq<Fact>, sid: int, s: Session) {
    HasAdmin(env, log, sid, s) && HasMark(env, log, sid, s)
  }

  predicate AllAccountable(env: Env, log: seq<Fact>, given: set<(int, Session)>) {
    forall c :: c in given ==> Accountable(env, log, c.0, c.1)
  }

  lemma LogGrows(env: Env, log: seq<Fact>, more: seq<Fact>, sid: int, s: Session)
    requires Accountable(env, log, sid, s)
    ensures Accountable(env, log + more, sid, s)
  {
    if s.adminId.Some? {
      var i :| 0 <= i < |log| && AdminFrom(env, log, sid, s, i);
      assert AdminFrom(env, log + more, sid, s, i);
    }
    if s.reauthAt.Some? {
      var i :| 0 <= i < |log| && MarkFrom(env, log, sid, s, i);
      assert MarkFrom(env, log + more, sid, s, i);
    }
  }

  lemma AdminStep(env: Env, st: State, log: seq<Fact>, step: Step, sid: int)
    requires Accountable(env, log, sid, SessionOf(st, sid))
    requires Presents(step, sid) ==> Accountable(env, log, sid, step.session)
    ensures HasAdmin(env, log + Facts(env, st, step), sid, SessionOf(Next(env, st, step), sid))
  {
    var s, s', log' := SessionOf(st, sid), SessionOf(Next(env, st, step), sid), log + Facts(env, st, step);
    LogGrows(env, log, Facts(env, st, step), sid, s);
    AdminChanges(env, st, step, sid);
    if SameAdmin(s, s') {
      if s'.adminId.Some? {
        var i :| 0 <= i < |log'| && AdminFrom(env, log', sid, s, i);
        assert AdminFrom(env, log', sid, s', i);
      }
    } else if Presents(step, sid) {
      LogGrows(env, log, Facts(env, st, step), sid, step.session);
    } else if s'.adminId.Some? {
      var id :| LogsIn(env, st, step, sid, id) && s'.adminId == Some(id) && s'.adminName == st.accounts.byId[id].name;
      assert AdminFrom(env, log', sid, s', |log|);
    }
  }

  lemma MarkStep(env: Env, st: State, log: seq<Fact>, step: Step, sid: int)
    requires Accountable(env, log, sid, SessionOf(st, sid))
    requires Presents(step, sid) ==> Accountable(env, log, sid, step.session)
    ensures HasMark(env, log + Facts(env, st, step), sid, SessionOf(Next(env, st, step), sid))
  {
    var s, s', log' := SessionOf(st, sid), SessionOf(Next(env, st, step), sid), log + Facts(env, st, step);
    LogGrows(env, log, Facts(env, st, step), sid, s);
    ReauthChanges(env, st, step, sid);
    if s'.reauthAt == s.reauthAt {
      if s'.reauthAt.Some? {
        var i :| 0 <= i < |log'| && MarkFrom(env, log', sid, s, i);
        assert MarkFrom(env, log', sid, s', i);
      }
    } else if Presents(step, sid) {
      LogGrows(env, log, Facts(env, st, step), sid, step.session);
    } else if s'.reauthAt.Some? {
      var id :| Reproves(env, st, step, sid, id) && s'.reauthAt == Some(step.t3);
      assert MarkFrom(env, log', sid, s', |log|);
    }
  }

  predicate Inv(env: Env, st: State, log: seq<Fact>) {
    forall sid :: sid in st.sessions ==> Accountable(env, log, sid, st.sessions[sid])
  }

  lemma StepKeepsInv(env: Env, st: State, log: seq<Fact>, step: Step)
    requires Inv(env, st, log) && (step.Present? ==> Accountable(env, log, step.sid, step.session))
    ensures Inv(env, Next(env, st, step), log + Facts(env, st, step))
  {
    var st' := Next(env, st, step);
    forall sid | sid in st'.sessions ensures Accountable(env, log + Facts(env, st, step), sid, st'.sessions[sid]) {
      assert Accountable(env, log, sid, SessionOf(st, sid));
      AdminStep(env, st, log, step, sid);
      MarkStep(env, st, log, step, sid);
    }
  }

  lemma GivenGrows(env: Env, st: State, log: seq<Fact>, more: seq<Fact>, given: set<(int, Session)>)
    requires Inv(env, st, log) && AllAccountable(env, log, given)
    ensures AllAccountable(env, log + more, given + Cookies(st))
  {
    forall c | c in given + Cookies(st) ensures Accountable(env, log + more, c.0, c.1) {
      LogGrows(env, log, more, c.0, c.1);
    }
  }

  lemma {:induction false} RunKeepsInv(env: Env, st: State, log: seq<Fact>, given: set<(int, Session)>,
                                       steps: seq<Step>)
    requires Genuine(env, st, given, steps) && Inv(env, st, log) && AllAccountable(env, log, given)
    ensures Inv(env, Run(env, st, steps), log + History(env, st, steps))
    decreases |steps|
  {
    if steps == [] {
      assert log + [] == log;
    } else {
      var more := Facts(env, st, steps[0]);
      StepKeepsInv(env, st, log, steps[0]);
      GivenGrows(env, st, log, more, given);
      RunKeepsInv(env, Next(env, st, steps[0]), log + more, given + Cookies(st), steps[1..]);
      Assoc(log, more, History(env, Next(env, st, steps[0]), steps[1..]));
    }
  }

  /** In every reachable state, with earlier sessions presented again or not, an administrator session goes back
      to a login in it with the right password of that active account, and its reauthentication mark to a
      right password of the account then signed in. */
  lemma AdminSessionsAccountable(env: Env, accounts: Accounts, steps: seq<Step>, sid: int)
    requires Genuine(env, State(1.0, [], accounts, map[]), {}, steps)
    ensures var start := State(1.0, [], accounts, map[]);
            Accountable(env, History(env, start, steps), sid, SessionOf(Run(env, start, steps), sid))
  {
    var start := State(1.0, [], accounts, map[]);
    RunKeepsInv(env, start, [], {}, steps);
    assert [] + History(env, start, steps) == History(env, start, steps);
  }
}
