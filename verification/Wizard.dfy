/** routes/setup.py and app/auth_utils.py: who may write through the first-boot wizard, and when it counts
    as complete. */
module Wizard {
  import opened Common
  import opened PyText
  import I = Interfaces

  const REAUTH_SECONDS := 300.0

  // ---- completion gate ---------------------------------------------------------------------

  datatype StepResult = StepResult(step: string, ok: bool)

  datatype Verification = Verification(skipped: bool, lanIp: bool, defaultRoute: bool, forwarding: bool,
                                       packetFilter: bool, natRule: bool, resolver: bool, ok: bool)

  /** What the services report during step 4; a service that raises reports a failure. */
  datatype Probe = Probe(rcConf: bool, interfaces: bool, message: string, pendingFlag: bool, services: bool,
                         graphs: bool, verification: Verification, dryRun: bool)

  function Results(p: Probe): seq<StepResult> {
    [StepResult("rc_conf", p.rcConf), StepResult("interfaces", p.interfaces), StepResult("services", p.services),
     StepResult("mrtg", p.graphs), StepResult("verify", p.verification.ok)]
  }

  const REQUIRED: set<string> := {"rc_conf", "interfaces", "services"}

  predicate Contains(s: string, word: string) {
    exists i :: 0 <= i <= |s| - |word| && OccursAt(s, word, i)
  }

  predicate OccursAt(s: string, word: string, i: nat) {
    i + |word| <= |s| && s[i..i + |word|] == word
  }

  /** A DHCP lease is still on its way. */
  predicate LeasePending(p: Probe) {
    (Contains(Lower(p.message), "lease") && Contains(Lower(p.message), "pending")) || p.pendingFlag
  }

  /** Somewhere in the text the word stands, in capitals or small letters. */
  predicate Mentions(text: string, word: string) {
    exists i :: 0 <= i <= |text| - |word| && StandsAt(text, word, i)
  }

  predicate StandsAt(text: string, word: string, i: nat) {
    i + |word| <= |text| && Spells(text[i..i + |word|], word)
  }

  lemma OccursWhereStands(text: string, word: string, i: nat)
    requires i + |word| <= |text| && Every(word, IsSmall)
    ensures |Lower(text)| == |text| && (OccursAt(Lower(text), word, i) <==> StandsAt(text, word, i))
  {
    var part := text[i..i + |word|];
    LowerIs(text);
    LowerIs(part);
    LowerSpells(part, word);
    assert Lower(part) == Lower(text)[i..i + |word|];
  }

  lemma ContainsMentions(text: string, word: string)
    requires Every(word, IsSmall)
    ensures Contains(Lower(text), word) <==> Mentions(text, word)
  {
    LowerIs(text);
    forall i | 0 <= i <= |text| - |word| ensures OccursAt(Lower(text), word, i) <==> StandsAt(text, word, i) {
      OccursWhereStands(text, word, i);
    }
  }

  /** A lease is on its way if the flag says so, or the message mentions both words. */
  lemma LeasePendingIff(p: Probe)
    ensures LeasePending(p) <==>
              p.pendingFlag || (Mentions(p.message, "lease") && Mentions(p.message, "pending"))
  {
    ContainsMentions(p.message, "lease");
    ContainsMentions(p.message, "pending");
  }

  predicate BaseOk(results: seq<StepResult>) {
    forall i :: 0 <= i < |results| && results[i].step in REQUIRED ==> results[i].ok
  }

  predicate CriticalOk(v: Verification) {
    v.skipped || (v.lanIp && v.forwarding && v.packetFilter && v.natRule && v.resolver)
  }

  predicate RouteOk(p: Probe) {
    p.verification.skipped || p.verification.defaultRoute || LeasePending(p)
  }

  predicate OverallOk(p: Probe) {
    BaseOk(Results(p)) && CriticalOk(p.verification) && RouteOk(p) && !p.dryRun
  }

  /** Setup completes exactly when the three required steps succeeded live and, where the kernel could be
      probed, the box routes, filters, translates and resolves. */
  lemma CompletesIff(p: Probe)
    ensures OverallOk(p) <==>
              && p.rcConf && p.interfaces && p.services && !p.dryRun
              && (p.verification.skipped ||
                  (&& p.verification.lanIp && p.verification.forwarding && p.verification.packetFilter
                   && p.verification.natRule && p.verification.resolver
                   && (p.verification.defaultRoute || LeasePending(p))))
  {
    var r := Results(p);
    assert r[0] == StepResult("rc_conf", p.rcConf) && r[1] == StepResult("interfaces", p.interfaces)
        && r[2] == StepResult("services", p.services);
    assert r[3].step !in REQUIRED && r[4].step !in REQUIRED;
  }

  // ---- state and events -------------------------------------------------------------------------

  /** `wanKnown` and `lanKnown`: the ports step 1 stored in the session. */
  datatype Session = Session(
    user: Option<string>, authorized: bool, reauthAt: Option<real>, wanKnown: I.Clean, lanKnown: I.Clean)

  const FRESH := Session(None, false, None, "", "")

  /** `passwords` holds each account's hash, `tokenFile` the text of the claim token file, `net` what is stored
      of the two interfaces. */
  datatype State = State(
    superusers: set<string>, passwords: map<string, string>, tokenFile: Option<string>, complete: bool,
    sessions: map<nat, Session>, net: I.State)
  {
    function Of(sid: nat): Session {
      if sid in sessions then sessions[sid] else FRESH
    }

    function Put(sid: nat, s: Session): State {
      this.(sessions := sessions[sid := s])
    }

    predicate IsSuperuser(sid: nat) {
      Of(sid).user.Some? && Of(sid).user.value in superusers
    }

    /** A blank file is no token. */
    function Token(): Option<string> {
      if tokenFile.None? || Strip(tokenFile.value) == "" then None else Some(Strip(tokenFile.value))
    }
  }

  datatype Change =
    | Ports(wan: string, lan: string, detected: set<string>)
    | Addresses(lanCidr: string, mode: string, wanCidr: string, gatewayOk: bool)
    | Admin(username: string, password: string, confirm: string)

  /** Requests of the interface routes. */
  type Routed = r: I.Request | !r.SetupPorts? && !r.SetupAddresses? witness I.Unassign("")

  /** `Present`: the client sends an earlier session of its own along, in place of the one its last response
      set. The last six come from the rest of the appliance. */
  datatype Act =
    | Visit
    | Claim(provided: string)
    | Save(change: Change)
    | Apply(probe: Probe)
    | Present(session: Session)
    | SignIn(user: string)
    | SignOut
    | Reauthenticate
    | ManageUsers(superusers: set<string>, passwords: map<string, string>)
    | Configure(request: Routed)
    | ProvisionToken(text: Option<string>)

  datatype Event = Event(at: real, sid: nat, local: bool, act: Act)

  // ---- the guards ----------------------------------------------------------------------------------

  /** A fresh install that needs no claim: nobody is superuser, and the request is local. */
  predicate Unclaimed(s: State, e: Event) {
    s.superusers == {} && e.local && s.Token().None?
  }

  predicate Admitted(s: State, e: Event) {
    s.IsSuperuser(e.sid) || s.Of(e.sid).authorized || Unclaimed(s, e)
  }

  /** Admission without an account or a claim marks the session. */
  function Enter(s: State, e: Event): State {
    if !s.IsSuperuser(e.sid) && Unclaimed(s, e) then s.Put(e.sid, s.Of(e.sid).(authorized := true)) else s
  }

  predicate ReauthIsFresh(session: Session, now: real) {
    session.reauthAt.Some? && now - session.reauthAt.value <= REAUTH_SECONDS
  }

  /** The request reaches the body of a guarded wizard step. */
  predicate Permitted(s: State, e: Event) {
    Admitted(s, e) && (s.complete ==> s.IsSuperuser(e.sid) && ReauthIsFresh(s.Of(e.sid), e.at))
  }

  predicate ClaimAccepted(s: State, e: Event) {
    && e.act.Claim? && !s.complete && s.superusers == {} && e.local
    && (s.Token().None? || (Strip(e.act.provided) != "" && Strip(e.act.provided) == s.Token().value))
  }

  /** The name step 3 gives the account. */
  function AccountName(username: string): string {
    Strip(if username == "" then "admin" else username)
  }

  function Cleaned(text: string): I.Clean {
    StripTrimmed(text);
    StripTrimmed(Strip(text));
    Strip(text)
  }

  /** What an accepted form of steps 1 to 3 leaves behind; `account` is a name and a hash. */
  datatype Form = Form(net: I.State, known: Option<(I.Clean, I.Clean)>, account: Option<(string, string)>)

  /** The steps, given what is stored and what the session recalls; `None` for a refused form. */
  type Forms = (Change, I.State, I.Clean, I.Clean) -> Option<Form>

  /** The parser of addresses, the password policy and the password hash. */
  datatype Site = Site(parse: I.Parser, policyOk: (string, string) -> bool, hash: string -> string)

  function StepForm(site: Site, c: Change, net: I.State, wanKnown: I.Clean, lanKnown: I.Clean): Option<Form> {
    match c
    case Ports(wan, lan, detected) =>
      if !I.MaySetPorts(Strip(wan), Strip(lan), detected) then None
      else Some(Form(I.PortsSet(net, wan, lan, detected), Some((Cleaned(wan), Cleaned(lan))), None))
    case Addresses(lan, mode, wan, gatewayOk) =>
      if !I.MaySetAddresses(site.parse, Strip(lan), mode, Strip(wan), gatewayOk)
         || I.PortOr(net, I.WAN, wanKnown) == "" || I.PortOr(net, I.LAN, lanKnown) == "" then None
      else Some(Form(I.AddressesSet(site.parse, net, lan, mode, wan, gatewayOk, wanKnown, lanKnown), None, None))
    case Admin(username, password, confirm) =>
      if Strip(password) != Strip(confirm) || !site.policyOk(Strip(password), AccountName(username)) then None
      else Some(Form(net, None, Some((AccountName(username), site.hash(Strip(password))))))
  }

  /** What a step makes of its form, whether step 4 may finish, and what an interface route does. */
  datatype Rules = Rules(form: Forms, finishes: Probe -> bool, configure: (I.State, Routed) -> I.State)

  /** The rules as they are. */
  function Steps(site: Site): Rules {
    Rules((c: Change, net: I.State, w: I.Clean, l: I.Clean) => StepForm(site, c, net, w, l),
          (p: Probe) => OverallOk(p),
          (net: I.State, r: Routed) => I.After(site.parse, net, r))
  }

  function Submitted(rules: Rules, s: State, e: Event): Option<Form>
    requires e.act.Save?
  {
    rules.form(e.act.change, s.net, s.Of(e.sid).wanKnown, s.Of(e.sid).lanKnown)
  }

  /** A new account is a superuser; an existing one gets a new password and keeps its rank. */
  function Store(s: State, sid: nat, f: Form): State {
    var t := s.(net := f.net);
    if f.account.Some? then
      var (name, hash) := f.account.value;
      t.(passwords := s.passwords[name := hash],
         superusers := if name in s.passwords then s.superusers else s.superusers + {name})
    else if f.known.Some? then t.Put(sid, s.Of(sid).(wanKnown := f.known.value.0, lanKnown := f.known.value.1))
    else t
  }

  function Next(rules: Rules, s: State, e: Event): State {
    var session := s.Of(e.sid);
    match e.act
    case Visit => Enter(s, e)
    case Claim(_) => if ClaimAccepted(s, e) then s.Put(e.sid, session.(authorized := true)) else s
    case Save(change) =>
      var f := Submitted(rules, s, e);
      if Permitted(s, e) && f.Some? then Store(Enter(s, e), e.sid, f.value) else Enter(s, e)
    case Apply(probe) =>
      if Permitted(s, e) && rules.finishes(probe)
      then Enter(s, e).(complete := true, tokenFile := None)
      else Enter(s, e)
    case Present(earlier) => s.Put(e.sid, earlier)
    case SignIn(user) => s.Put(e.sid, session.(user := Some(user)))
    case SignOut => s.Put(e.sid, FRESH)
    case Reauthenticate => if session.user.None? then s else s.Put(e.sid, session.(reauthAt := Some(e.at)))
    case ManageUsers(superusers, passwords) => s.(superusers := superusers, passwords := passwords)
    case Configure(request) => s.(net := rules.configure(s.net, request))
    case ProvisionToken(text) => s.(tokenFile := text)
  }

  /** The event stores something through the wizard. */
  predicate Writes(rules: Rules, s: State, e: Event) {
    || (e.act.Save? && Submitted(rules, s, e).Some? && Permitted(s, e))
    || (e.act.Apply? && rules.finishes(e.act.probe) && Permitted(s, e))
  }

  // ---- the handlers ------------------------------------------------------------------------------------

  class Appliance {
    var superusers: set<string>
    var passwords: map<string, string>
    var tokenFile: Option<string>
    var complete: bool
    var sessions: map<nat, Session>
    var net: I.State

    constructor (s: State)
      ensures Now() == s
    {
      superusers, passwords, tokenFile := s.superusers, s.passwords, s.tokenFile;
      complete, sessions, net := s.complete, s.sessions, s.net;
    }

    function Now(): State
      reads this
    {
      State(superusers, passwords, tokenFile, complete, sessions, net)
    }

    method EnforceSetupAccess(e: Event) returns (admitted: bool)
      modifies this`sessions
      ensures admitted == Admitted(old(Now()), e)
      ensures Now() == Enter(old(Now()), e)
    {
      var session := Now().Of(e.sid);
      if session.user.Some? && session.user.value in superusers {
        return true;
      }
      if session.authorized {
        if superusers == {} && e.local && Now().Token().None? {
          assert sessions[e.sid := session] == sessions;
        }
        return true;
      }
      if superusers != {} || !e.local || Now().Token().Some? {
        return false;
      }
      sessions := sessions[e.sid := session.(authorized := true)];
      admitted := true;
    }

    /** The reauthentication decorator, then the completed-wizard guard. */
    method Guard(e: Event) returns (passed: bool)
      ensures passed <==> (complete ==> Now().IsSuperuser(e.sid) && ReauthIsFresh(Now().Of(e.sid), e.at))
    {
      var superuser := Now().IsSuperuser(e.sid);
      if complete && superuser && !ReauthIsFresh(Now().Of(e.sid), e.at) {
        return false;
      }
      passed := !complete || superuser;
    }

    method ClaimSubmit(rules: Rules, e: Event) returns (ok: bool)
      requires e.act.Claim?
      modifies this
      ensures Now() == Next(rules, old(Now()), e)
      ensures ok <==> ClaimAccepted(old(Now()), e)
    {
      if complete || superusers != {} || !e.local {
        return false;
      }
      var expected := Now().Token();
      if expected.Some? {
        var provided := Strip(e.act.provided);
        if provided == "" || provided != expected.value {
          return false;
        }
      }
      sessions := sessions[e.sid := Now().Of(e.sid).(authorized := true)];
      ok := true;
    }

    /** The checks of steps 1 to 3. */
    static method Check(site: Site, c: Change, net: I.State, wanKnown: I.Clean, lanKnown: I.Clean)
      returns (f: Option<Form>)
      ensures f == StepForm(site, c, net, wanKnown, lanKnown)
    {
      match c
      case Ports(wan, lan, detected) =>
        var w, l := Cleaned(wan), Cleaned(lan);
        if w == "" || l == "" || w == l || !I.IsInterfaceName(w) || !I.IsInterfaceName(l) {
          return None;
        }
        if detected != {} && (w !in detected || l !in detected) {
          return None;
        }
        var ports := net.ports[I.WAN := w][I.LAN := l];
        f := Some(Form(I.State(ports, net.wan.(port := w), net.lan.(port := l)), Some((w, l)), None));
      case Addresses(lan, mode, wan, gatewayOk) =>
        var router := new I.Router(net);
        var ok := router.SetupAddresses(site.parse, lan, mode, wan, gatewayOk, wanKnown, lanKnown);
        f := if ok then Some(Form(router.Now(), None, None)) else None;
      case Admin(username, password, confirm) =>
        if Strip(password) != Strip(confirm) {
          return None;
        }
        var name := AccountName(username);
        if !site.policyOk(Strip(password), name) {
          return None;
        }
        f := Some(Form(net, None, Some((name, site.hash(Strip(password))))));
    }

    method SaveStep(site: Site, e: Event) returns (ok: bool)
      requires e.act.Save?
      modifies this
      ensures Now() == Next(Steps(site), old(Now()), e)
      ensures ok <==> Writes(Steps(site), old(Now()), e)
    {
      var session := Now().Of(e.sid);
      var f := Check(site, e.act.change, net, session.wanKnown, session.lanKnown);
      ok := Save(Steps(site), e, f);
    }

    method Save(rules: Rules, e: Event, f: Option<Form>) returns (ok: bool)
      requires e.act.Save? && f == Submitted(rules, Now(), e)
      modifies this
      ensures Now() == Next(rules, old(Now()), e)
      ensures ok <==> Writes(rules, old(Now()), e)
    {
      var admitted := EnforceSetupAccess(e);
      if !admitted {
        return false;
      }
      var passed := Guard(e);
      if !passed || f.None? {
        return false;
      }
      net := f.value.net;
      if f.value.account.Some? {
        var (name, hash) := f.value.account.value;
        if name !in passwords {
          superusers := superusers + {name};
        }
        passwords := passwords[name := hash];
      } else if f.value.known.Some? {
        var (w, l) := f.value.known.value;
        sessions := sessions[e.sid := Now().Of(e.sid).(wanKnown := w, lanKnown := l)];
      }
      ok := true;
    }

    method ApplyStep(rules: Rules, e: Event) returns (ok: bool)
      requires e.act.Apply?
      modifies this
      ensures Now() == Next(rules, old(Now()), e)
      ensures ok <==> Writes(rules, old(Now()), e)
    {
      var admitted := EnforceSetupAccess(e);
      if !admitted {
        return false;
      }
      var passed := Guard(e);
      if !passed || !rules.finishes(e.act.probe) {
        return false;
      }
      complete := true;
      tokenFile := None;
      ok := true;
    }
  }

  // ---- what a permitted request stores -------------------------------------------------------------------

  /** Who gets through. Before completion: superusers, sessions authorised earlier, and anyone local while there
      is neither a superuser nor a claim token. After it: superusers whose password was checked within the last
      300 seconds. */
  lemma PermittedIff(s: State, e: Event)
    ensures Permitted(s, e) <==>
              var session := s.Of(e.sid);
              var superuser := session.user.Some? && session.user.value in s.superusers;
              if s.complete then superuser && session.reauthAt.Some? && e.at - session.reauthAt.value <= 300.0
              else || superuser || session.authorized
                   || (s.superusers == {} && e.local && (s.tokenFile.None? || Strip(s.tokenFile.value) == ""))
  {
  }

  /** A claim authorises its session exactly when the install is unfinished and without superuser, the request is
      local, and it carries the token if there is one; white space around either does not matter. */
  lemma ClaimStores(rules: Rules, s: State, e: Event)
    requires e.act.Claim?
    ensures var earned := && !s.complete && s.superusers == {} && e.local
                          && (s.tokenFile.Some? && Strip(s.tokenFile.value) != "" ==>
                                Strip(e.act.provided) == Strip(s.tokenFile.value));
            && Next(rules, s, e).Of(e.sid) == s.Of(e.sid).(authorized := earned || s.Of(e.sid).authorized)
            && Next(rules, s, e) == s.(sessions := Next(rules, s, e).sessions)
  {
  }

  /** Nothing but sessions changes. */
  predicate NothingStored(s: State, t: State) {
    t == s.(sessions := t.sessions)
  }

  lemma RefusedStoresNothing(rules: Rules, s: State, e: Event)
    requires e.act.Save? || e.act.Apply?
    requires !Permitted(s, e)
    ensures NothingStored(s, Next(rules, s, e))
  {
    EnterStores(s, e);
  }

  /** Step 3 stores the hash of the password without the white space around it, under the name without, which is
      `admin` where none was given. */
  lemma AdminStores(site: Site, rules: Rules, s: State, e: Event, username: string, password: string, confirm: string)
    requires Governs(site, rules) && Permitted(s, e) && e.act == Save(Admin(username, password, confirm))
    ensures var t := Next(rules, s, e);
            var name := Strip(if username == "" then "admin" else username);
            if Strip(password) == Strip(confirm) && site.policyOk(Strip(password), name)
            then && t == s.(sessions := t.sessions, passwords := t.passwords, superusers := t.superusers)
                 && t.passwords == s.passwords[name := site.hash(Strip(password))]
                 && t.superusers == s.superusers + if name in s.passwords then {} else {name}
            else NothingStored(s, t)
  {
    EnterStores(s, e);
    var f := Submitted(rules, s, e);
    assert f == StepForm(site, e.act.change, s.net, s.Of(e.sid).wanKnown, s.Of(e.sid).lanKnown);
  }

  /** Step 1 changes the interfaces as it would outside the wizard, and the session recalls its ports. */
  lemma PortsStore(site: Site, rules: Rules, s: State, e: Event, wan: string, lan: string, detected: set<string>)
    requires Governs(site, rules) && Permitted(s, e) && e.act == Save(Ports(wan, lan, detected))
    ensures var t := Next(rules, s, e);
            && t == s.(sessions := t.sessions, net := t.net)
            && t.net == I.After(site.parse, s.net, I.SetupPorts(wan, lan, detected))
            && (I.MaySetPorts(Strip(wan), Strip(lan), detected) ==>
                  t.Of(e.sid).wanKnown == Strip(wan) && t.Of(e.sid).lanKnown == Strip(lan))
  {
    EnterStores(s, e);
    var f := Submitted(rules, s, e);
    assert f == StepForm(site, e.act.change, s.net, s.Of(e.sid).wanKnown, s.Of(e.sid).lanKnown);
  }

  /** So does step 2, with the ports the session recalls. */
  lemma AddressesStore(site: Site, rules: Rules, s: State, e: Event)
    requires Governs(site, rules) && Permitted(s, e) && e.act.Save? && e.act.change.Addresses?
    ensures var t := Next(rules, s, e);
            && t == s.(sessions := t.sessions, net := t.net)
            && t.net == I.After(site.parse, s.net, AddressRequest(s, e))
  {
    EnterStores(s, e);
    var f := Submitted(rules, s, e);
    assert f == AddressForm(site, s.net, AddressRequest(s, e));
    AddressFormIs(site, s.net, AddressRequest(s, e));
    if !AddressesAccepted(site.parse, s.net, AddressRequest(s, e)) {
      UnacceptedStays(site.parse, s.net, AddressRequest(s, e));
    }
  }

  lemma UnacceptedStays(parse: I.Parser, net: I.State, r: I.Request)
    requires r.SetupAddresses? && !AddressesAccepted(parse, net, r)
    ensures I.After(parse, net, r) == net
  {
  }

  /** A checked password marks the session of whoever is signed in, with the time; signing out forgets the
      session. */
  lemma ChecksMark(rules: Rules, s: State, e: Event)
    ensures e.act.Reauthenticate? ==>
              Next(rules, s, e).Of(e.sid).reauthAt ==
              if s.Of(e.sid).user.Some? then Some(e.at) else s.Of(e.sid).reauthAt
    ensures e.act.SignOut? ==> Next(rules, s, e).Of(e.sid) == FRESH
    ensures e.act.SignIn? ==> Next(rules, s, e).Of(e.sid) == s.Of(e.sid).(user := Some(e.act.user))
  {
  }

  /** A permitted apply whose checks hold finishes the wizard and spends the claim token; any other stores
      nothing. */
  lemma ApplyStores(site: Site, rules: Rules, s: State, e: Event)
    requires rules == Steps(site) && Permitted(s, e) && e.act.Apply?
    ensures var t := Next(rules, s, e);
            if OverallOk(e.act.probe) then t == s.(sessions := t.sessions, complete := true, tokenFile := None)
            else NothingStored(s, t)
  {
    EnterStores(s, e);
    FinishesIs(site, e.act.probe);
  }

  // ---- whole histories ---------------------------------------------------------------------------------

  /** The session was this one's at some moment up to `n`. */
  predicate Earlier(states: seq<State>, n: nat, sid: nat, session: Session)
    requires n < |states|
  {
    exists j :: 0 <= j <= n && states[j].Of(sid) == session
  }

  /** `states` follows `events` from a state without sessions, under a clock that never runs back; presented
      sessions are genuine. */
  predicate History(rules: Rules, states: seq<State>, events: seq<Event>) {
    && |states| == |events| + 1
    && states[0].sessions == map[]
    && (forall i :: 0 <= i < |events| ==> states[i + 1] == Next(rules, states[i], events[i]))
    && (forall i :: 0 <= i < |events| && events[i].act.Present? ==>
          Earlier(states, i, events[i].sid, events[i].act.session))
    && (forall i, j :: 0 <= i < j < |events| ==> events[i].at <= events[j].at)
  }

  /** The event authorises its session: nobody is superuser, the request is local, and it presents the claim
      token if there is one. */
  predicate Authorises(s: State, e: Event) {
    || ClaimAccepted(s, e)
    || ((e.act.Visit? || e.act.Save? || e.act.Apply?) && Unclaimed(s, e))
  }

  /** What an event can do to a session: only its own, and nothing to its standing but this. */
  predicate SessionEffect(s: State, e: Event, sid: nat, t: Session) {
    var o := s.Of(sid);
    if e.sid == sid && e.act.Present? then t == e.act.session
    else
      && (t.authorized && !o.authorized ==> e.sid == sid && Authorises(s, e))
      && (|| (t.user == o.user && t.reauthAt == o.reauthAt)
          || (e.sid == sid && e.act.SignOut? && t == FRESH)
          || (e.sid == sid && e.act.SignIn? && t.user == Some(e.act.user) && t.reauthAt == o.reauthAt)
          || (e.sid == sid && e.act.Reauthenticate? && t.user == o.user && t.reauthAt == Some(e.at)))
  }

  /** And nothing to the ports it recalls but this. */
  predicate RecallEffect(rules: Rules, s: State, e: Event, sid: nat, t: Session) {
    var o := s.Of(sid);
    || (t.wanKnown == o.wanKnown && t.lanKnown == o.lanKnown)
    || (e.sid == sid && e.act.Present? && t == e.act.session)
    || (e.sid == sid && e.act.SignOut? && t == FRESH)
    || (e.sid == sid && e.act.Save? && Writes(rules, s, e)
        && Submitted(rules, s, e).value.known == Some((t.wanKnown, t.lanKnown)))
  }

  /** What an event can do to what is stored. */
  predicate StoreEffect(rules: Rules, s: State, e: Event, s': State) {
    && (s'.net != s.net ==> e.act.Configure? || (e.act.Save? && Writes(rules, s, e)))
    && (s.complete ==> s'.complete)
    && (!s.complete && s'.complete ==> e.act.Apply? && Writes(rules, s, e))
    && (!e.act.ManageUsers? ==> AccountsEffect(rules, s, e, s'))
  }

  /** Accounts stay; one may get a password or be added, by a permitted form, and only an added one becomes
      superuser. */
  predicate AccountsEffect(rules: Rules, s: State, e: Event, s': State) {
    || (s'.superusers == s.superusers && s'.passwords == s.passwords)
    || (&& e.act.Save? && Writes(rules, s, e) && Submitted(rules, s, e).value.account.Some?
        && var (name, hash) := Submitted(rules, s, e).value.account.value;
           && s'.passwords == s.passwords[name := hash]
           && s'.superusers == s.superusers + if name in s.passwords then {} else {name})
  }

  lemma EnterFollows(s: State, e: Event, sid: nat)
    requires e.act.Visit? || e.act.Save? || e.act.Apply?
    ensures SessionEffect(s, e, sid, Enter(s, e).Of(sid))
  {
  }

  predicate SameStanding(o: Session, t: Session) {
    t.user == o.user && t.authorized == o.authorized && t.reauthAt == o.reauthAt
  }

  lemma StoreStanding(s: State, sid: nat, f: Form, other: nat)
    ensures SameStanding(s.Of(other), Store(s, sid, f).Of(other))
    ensures var o, t := s.Of(other), Store(s, sid, f).Of(other);
            || (t.wanKnown == o.wanKnown && t.lanKnown == o.lanKnown)
            || (other == sid && f.known == Some((t.wanKnown, t.lanKnown)))
  {
  }

  lemma EnterRecalls(s: State, e: Event, sid: nat)
    ensures var o, t := s.Of(sid), Enter(s, e).Of(sid); t.wanKnown == o.wanKnown && t.lanKnown == o.lanKnown
  {
  }

  lemma RecallFollows(rules: Rules, s: State, e: Event, sid: nat)
    ensures RecallEffect(rules, s, e, sid, Next(rules, s, e).Of(sid))
  {
    if e.act.Save? {
      EnterRecalls(s, e, sid);
      var f := Submitted(rules, s, e);
      if f.Some? {
        StoreStanding(Enter(s, e), e.sid, f.value, sid);
      }
    } else if e.act.Visit? || e.act.Apply? {
      EnterRecalls(s, e, sid);
    } else {
      OthersRecall(rules, s, e, sid);
    }
  }

  lemma OthersRecall(rules: Rules, s: State, e: Event, sid: nat)
    requires !(e.act.Visit? || e.act.Save? || e.act.Apply?)
    ensures RecallEffect(rules, s, e, sid, Next(rules, s, e).Of(sid))
  {
  }

  lemma SessionsFollow(rules: Rules, s: State, e: Event, sid: nat)
    ensures SessionEffect(s, e, sid, Next(rules, s, e).Of(sid))
  {
    if e.act.Save? {
      EnterFollows(s, e, sid);
      var f := Submitted(rules, s, e);
      if f.Some? {
        StoreStanding(Enter(s, e), e.sid, f.value, sid);
      }
    } else if e.act.Visit? || e.act.Apply? {
      EnterFollows(s, e, sid);
    } else {
      OthersFollow(rules, s, e, sid);
    }
  }

  lemma OthersFollow(rules: Rules, s: State, e: Event, sid: nat)
    requires !(e.act.Visit? || e.act.Save? || e.act.Apply?)
    ensures SessionEffect(s, e, sid, Next(rules, s, e).Of(sid))
  {
  }

  lemma EnterStores(s: State, e: Event)
    ensures Enter(s, e) == s.(sessions := Enter(s, e).sessions)
  {
  }

  lemma StoreFollows(rules: Rules, s: State, e: Event)
    ensures StoreEffect(rules, s, e, Next(rules, s, e))
  {
    EnterStores(s, e);
    if e.act.Save? {
      SaveFollows(rules, s, e, Next(rules, s, e));
    }
  }

  lemma SaveFollows(rules: Rules, s: State, e: Event, s': State)
    requires e.act.Save? && s' == Next(rules, s, e) && Enter(s, e) == s.(sessions := Enter(s, e).sessions)
    ensures StoreEffect(rules, s, e, s')
  {
    var f := Submitted(rules, s, e);
    if Permitted(s, e) && f.Some? && f.value.account.Some? {
      var (name, hash) := f.value.account.value;
      assert name in s.passwords ==> s.superusers + {} == s.superusers;
    }
  }

  predicate Effect(rules: Rules, s: State, e: Event, s': State, sid: nat) {
    && SessionEffect(s, e, sid, s'.Of(sid)) && RecallEffect(rules, s, e, sid, s'.Of(sid))
    && StoreEffect(rules, s, e, s')
  }

  predicate Presents(e: Event, sid: nat) {
    e.act.Present? && e.sid == sid
  }

  /** The state an event that presents an earlier session returns this session to. */
  lemma Returns(rules: Rules, states: seq<State>, events: seq<Event>, n: nat, sid: nat) returns (j: nat)
    requires Trace(rules, states, events, sid) && n < |events| && Presents(events[n], sid)
    ensures j <= n && states[j].Of(sid) == states[n + 1].Of(sid)
  {
    assert Effect(rules, states[n], events[n], states[n + 1], sid);
    assert Earlier(states, n, sid, events[n].act.session);
    j :| 0 <= j <= n && states[j].Of(sid) == events[n].act.session;
  }

  /** A history as session `sid` and the store see it. */
  predicate Trace(rules: Rules, states: seq<State>, events: seq<Event>, sid: nat) {
    && |states| == |events| + 1
    && states[0].Of(sid) == FRESH
    && (forall i :: 0 <= i < |events| ==> Effect(rules, states[i], events[i], states[i + 1], sid))
    && (forall i :: 0 <= i < |events| && Presents(events[i], sid) ==> Earlier(states, i, sid, events[i].act.session))
    && (forall i, j :: 0 <= i < j < |events| ==> events[i].at <= events[j].at)
  }

  lemma HistoryTraces(rules: Rules, states: seq<State>, events: seq<Event>, sid: nat)
    requires History(rules, states, events)
    ensures Trace(rules, states, events, sid)
  {
    forall i | 0 <= i < |events| ensures Effect(rules, states[i], events[i], states[i + 1], sid) {
      SessionsFollow(rules, states[i], events[i], sid);
      RecallFollows(rules, states[i], events[i], sid);
      StoreFollows(rules, states[i], events[i]);
    }
  }

  predicate AuthorisedBefore(states: seq<State>, events: seq<Event>, n: nat, sid: nat)
    requires n <= |events| < |states|
  {
    exists j :: 0 <= j < n && events[j].sid == sid && Authorises(states[j], events[j])
  }

  /** A session marked as authorised was so marked by an event that authorised it. */
  lemma {:induction false} AuthorizedWasEarned(rules: Rules, states: seq<State>, events: seq<Event>, n: nat, sid: nat)
    requires Trace(rules, states, events, sid) && n <= |events| && states[n].Of(sid).authorized
    ensures AuthorisedBefore(states, events, n, sid)
  {
    if n > 0 {
      assert Effect(rules, states[n - 1], events[n - 1], states[n], sid);
      if Presents(events[n - 1], sid) {
        var j := Returns(rules, states, events, n - 1, sid);
        AuthorizedWasEarned(rules, states, events, j, sid);
      } else if states[n - 1].Of(sid).authorized {
        AuthorizedWasEarned(rules, states, events, n - 1, sid);
      }
    }
  }

  /** The event checks the password of `user` in session `sid`. */
  predicate Proves(s: State, e: Event, sid: nat, user: string) {
    && e.sid == sid
    && (e.act == SignIn(user) || (e.act.Reauthenticate? && s.Of(sid).user == Some(user)))
  }

  predicate ProvedSince(states: seq<State>, events: seq<Event>, n: nat, sid: nat, user: string, since: real)
    requires n <= |events| < |states|
  {
    exists j :: 0 <= j < n && Proves(states[j], events[j], sid, user) && events[j].at >= since
  }

  lemma {:induction false} ReauthWasInThePast(rules: Rules, states: seq<State>, events: seq<Event>, n: nat, k: nat,
                                              sid: nat)
    requires Trace(rules, states, events, sid) && n <= k < |events| && states[n].Of(sid).reauthAt.Some?
    ensures states[n].Of(sid).reauthAt.value <= events[k].at
  {
    if n > 0 {
      assert Effect(rules, states[n - 1], events[n - 1], states[n], sid);
      if Presents(events[n - 1], sid) {
        var j := Returns(rules, states, events, n - 1, sid);
        ReauthWasInThePast(rules, states, events, j, k, sid);
      } else if states[n - 1].Of(sid).reauthAt == states[n].Of(sid).reauthAt {
        ReauthWasInThePast(rules, states, events, n - 1, k, sid);
      }
    }
  }

  /** A session that shows a reauthentication at `t` had its present user's password checked at `t` or
      later, although signing in as someone else keeps the mark. */
  lemma {:induction false} ReauthWasOwn(rules: Rules, states: seq<State>, events: seq<Event>, n: nat, sid: nat,
                                        user: string)
    requires Trace(rules, states, events, sid) && n <= |events|
    requires states[n].Of(sid).user == Some(user) && states[n].Of(sid).reauthAt.Some?
    ensures ProvedSince(states, events, n, sid, user, states[n].Of(sid).reauthAt.value)
  {
    if n > 0 {
      var o, t := states[n - 1].Of(sid), states[n].Of(sid);
      assert Effect(rules, states[n - 1], events[n - 1], states[n], sid);
      if Presents(events[n - 1], sid) {
        var j := Returns(rules, states, events, n - 1, sid);
        ReauthWasOwn(rules, states, events, j, sid, user);
      } else if t.user == o.user && t.reauthAt == o.reauthAt {
        ReauthWasOwn(rules, states, events, n - 1, sid, user);
      } else {
        assert Proves(states[n - 1], events[n - 1], sid, user);
        if t.reauthAt == o.reauthAt {
          ReauthWasInThePast(rules, states, events, n - 1, n - 1, sid);
        }
      }
    }
  }

  /** After completion only a superuser writes, having proved the account's password in that session within
      the last 300 seconds. Before completion a write comes from a superuser, or from a session authorised,
      by that request or an earlier one, when there was no superuser, from a local address, with the claim
      token if one was present. */
  lemma WritesAreGuarded(rules: Rules, states: seq<State>, events: seq<Event>, i: nat)
    requires History(rules, states, events) && i < |events| && Writes(rules, states[i], events[i])
    ensures var s, e := states[i], events[i];
            if s.complete
            then s.IsSuperuser(e.sid)
                 && ProvedSince(states, events, i, e.sid, s.Of(e.sid).user.value, e.at - REAUTH_SECONDS)
            else s.IsSuperuser(e.sid) || AuthorisedBefore(states, events, i + 1, e.sid)
  {
    HistoryTraces(rules, states, events, events[i].sid);
    GuardedInTrace(rules, states, events, i);
  }

  lemma GuardedInTrace(rules: Rules, states: seq<State>, events: seq<Event>, i: nat)
    requires i < |events| && Trace(rules, states, events, events[i].sid) && Writes(rules, states[i], events[i])
    ensures var s, e := states[i], events[i];
            if s.complete
            then s.IsSuperuser(e.sid)
                 && ProvedSince(states, events, i, e.sid, s.Of(e.sid).user.value, e.at - REAUTH_SECONDS)
            else s.IsSuperuser(e.sid) || AuthorisedBefore(states, events, i + 1, e.sid)
  {
    var s, e := states[i], events[i];
    if s.complete {
      ReauthWasOwn(rules, states, events, i, e.sid, s.Of(e.sid).user.value);
    } else if !s.IsSuperuser(e.sid) && s.Of(e.sid).authorized {
      AuthorizedWasEarned(rules, states, events, i, e.sid);
    } else if !s.IsSuperuser(e.sid) {
      assert Authorises(s, e);
    }
  }

  predicate CompletedBefore(rules: Rules, states: seq<State>, events: seq<Event>, n: nat)
    requires n <= |events| < |states|
  {
    exists j :: 0 <= j < n && !states[j].complete && events[j].act.Apply? && Writes(rules, states[j], events[j])
  }

  /** Completion stems from a permitted apply whose checks all held, and is never taken back. */
  lemma {:induction false} CompletionWasEarned(rules: Rules, states: seq<State>, events: seq<Event>, n: nat)
    requires Trace(rules, states, events, 0) && n <= |events| && !states[0].complete && states[n].complete
    ensures CompletedBefore(rules, states, events, n) && (n < |events| ==> states[n + 1].complete)
  {
    assert Effect(rules, states[n - 1], events[n - 1], states[n], 0);
    assert n < |events| ==> Effect(rules, states[n], events[n], states[n + 1], 0);
    if states[n - 1].complete {
      CompletionWasEarned(rules, states, events, n - 1);
    }
  }

  lemma {:induction false} SuperusersStay(rules: Rules, states: seq<State>, events: seq<Event>, i: nat, n: nat,
                                          sid: nat)
    requires Trace(rules, states, events, sid) && i <= n <= |events|
    requires forall j :: i <= j < n ==> !events[j].act.ManageUsers?
    ensures states[i].superusers <= states[n].superusers
    decreases n
  {
    if i < n {
      SuperusersStay(rules, states, events, i, n - 1, sid);
      assert Effect(rules, states[n - 1], events[n - 1], states[n], sid);
    }
  }

  /** From the moment a superuser exists until the account list is edited, no session gets authorised that was
      not before, and no superuser is lost. */
  lemma {:induction false} FirstAdminClosesTheDoor(rules: Rules, states: seq<State>, events: seq<Event>, i: nat, n: nat,
                                                   sid: nat)
    requires Trace(rules, states, events, sid) && i <= n <= |events|
    requires states[i].superusers != {} && forall m :: 0 <= m <= i ==> !states[m].Of(sid).authorized
    requires forall j :: i <= j < n ==> !events[j].act.ManageUsers?
    ensures !states[n].Of(sid).authorized && states[i].superusers <= states[n].superusers
    decreases n
  {
    SuperusersStay(rules, states, events, i, n, sid);
    if i < n {
      if Presents(events[n - 1], sid) {
        var j := Returns(rules, states, events, n - 1, sid);
        if i < j {
          FirstAdminClosesTheDoor(rules, states, events, i, j, sid);
        }
      } else {
        FirstAdminClosesTheDoor(rules, states, events, i, n - 1, sid);
        NotAuthorised(rules, states[n - 1], events[n - 1], states[n], sid);
      }
    }
  }

  lemma NotAuthorised(rules: Rules, s: State, e: Event, s': State, sid: nat)
    requires Effect(rules, s, e, s', sid) && s.superusers != {} && !s.Of(sid).authorized && !Presents(e, sid)
    ensures !s'.Of(sid).authorized
  {
  }

  /** Ports a session recalls are those it stored itself in a permitted step 1. */
  lemma {:induction false} RecallWasOwn(rules: Rules, states: seq<State>, events: seq<Event>, n: nat, sid: nat)
    requires Trace(rules, states, events, sid) && n <= |events| && states[n].Of(sid).wanKnown != ""
    ensures ChoseBefore(rules, states, events, n, sid, states[n].Of(sid))
  {
    if n > 0 {
      var o, t := states[n - 1].Of(sid), states[n].Of(sid);
      assert Effect(rules, states[n - 1], events[n - 1], states[n], sid);
      if Presents(events[n - 1], sid) {
        var j := Returns(rules, states, events, n - 1, sid);
        RecallWasOwn(rules, states, events, j, sid);
      } else if t.wanKnown == o.wanKnown && t.lanKnown == o.lanKnown {
        RecallWasOwn(rules, states, events, n - 1, sid);
      } else {
        assert Chooses(rules, states[n - 1], events[n - 1], sid, t);
      }
    }
  }

  predicate Chooses(rules: Rules, s: State, e: Event, sid: nat, t: Session) {
    && e.sid == sid && e.act.Save? && Writes(rules, s, e)
    && Submitted(rules, s, e).value.known == Some((t.wanKnown, t.lanKnown))
  }

  predicate ChoseBefore(rules: Rules, states: seq<State>, events: seq<Event>, n: nat, sid: nat, t: Session)
    requires n <= |events| < |states|
  {
    exists j :: 0 <= j < n && Chooses(rules, states[j], events[j], sid, t)
  }

  /** In the wizard as it is that step is step 1, with the recalled ports as its form. */
  lemma ChoiceIsStepOne(site: Site, s: State, e: Event, sid: nat, t: Session)
    requires Chooses(Steps(site), s, e, sid, t)
    ensures Permitted(s, e) && e.act.change.Ports?
    ensures Strip(e.act.change.wan) == t.wanKnown && Strip(e.act.change.lan) == t.lanKnown
  {
    assert Submitted(Steps(site), s, e) == StepForm(site, e.act.change, s.net, s.Of(sid).wanKnown, s.Of(sid).lanKnown);
  }

  // ---- the interfaces through a history ------------------------------------------------------------------

  /** Step 2 as a request to the interfaces. */
  function AddressRequest(s: State, e: Event): I.Request
    requires e.act.Save? && e.act.change.Addresses?
  {
    var (c, o) := (e.act.change, s.Of(e.sid));
    I.SetupAddresses(c.lanCidr, c.mode, c.wanCidr, c.gatewayOk, o.wanKnown, o.lanKnown)
  }

  /** A permitted step 2 that collides, or a save that leaves a colliding address unchecked. */
  predicate Spoils(parse: I.Parser, s: State, e: Event) {
    || (e.act.Configure? && I.Collides(parse, s.net, e.act.request))
    || (e.act.Save? && Permitted(s, e) && FormCollides(parse, s, e))
  }

  /** The form submitted, if it is one of step 2, collides. */
  predicate FormCollides(parse: I.Parser, s: State, e: Event)
    requires e.act.Save?
  {
    e.act.change.Addresses? && I.SetupCollides(parse, s.net, AddressRequest(s, e))
  }

  lemma PortsKeep(site: Site, net: I.State, wan: string, lan: string, detected: set<string>)
    requires I.Inv(site.parse, net)
    ensures I.Inv(site.parse, I.PortsSet(net, wan, lan, detected))
  {
    I.AfterKeepsDisjointIff(site.parse, net, I.SetupPorts(wan, lan, detected));
  }

  predicate AddressesAccepted(parse: I.Parser, net: I.State, r: I.Request)
    requires r.SetupAddresses?
  {
    && I.MaySetAddresses(parse, Strip(r.lan), r.mode, Strip(r.wan), r.gatewayOk)
    && I.PortOr(net, I.WAN, r.wanKnown) != "" && I.PortOr(net, I.LAN, r.lanKnown) != ""
  }

  function AddressForm(site: Site, net: I.State, r: I.Request): Option<Form>
    requires r.SetupAddresses?
  {
    StepForm(site, Addresses(r.lan, r.mode, r.wan, r.gatewayOk), net, r.wanKnown, r.lanKnown)
  }

  lemma AddressFormIs(site: Site, net: I.State, r: I.Request)
    requires r.SetupAddresses?
    ensures AddressForm(site, net, r) ==
              if AddressesAccepted(site.parse, net, r) then Some(Form(I.After(site.parse, net, r), None, None))
              else None
  {
  }

  lemma CollisionAccepted(parse: I.Parser, net: I.State, r: I.Request)
    requires r.SetupAddresses? && I.SetupCollides(parse, net, r)
    ensures AddressesAccepted(parse, net, r)
  {
  }

  lemma AddressesKeepIff(site: Site, net: I.State, r: I.Request)
    requires I.Inv(site.parse, net) && r.SetupAddresses?
    ensures var f := AddressForm(site, net, r);
            && (f.Some? ==> (I.Inv(site.parse, f.value.net) <==> !I.SetupCollides(site.parse, net, r)))
            && (I.SetupCollides(site.parse, net, r) ==> f.Some?)
  {
    AddressFormIs(site, net, r);
    if I.SetupCollides(site.parse, net, r) {
      CollisionAccepted(site.parse, net, r);
    }
    I.SetupKeepsInvIff(site.parse, net, r);
  }

  lemma FormKeepsIff(site: Site, s: State, e: Event)
    requires e.act.Save? && I.Inv(site.parse, s.net)
    ensures var f := StepForm(site, e.act.change, s.net, s.Of(e.sid).wanKnown, s.Of(e.sid).lanKnown);
            && (f.Some? ==> (I.Inv(site.parse, f.value.net) <==> !FormCollides(site.parse, s, e)))
            && (FormCollides(site.parse, s, e) ==> f.Some?)
  {
    match e.act.change
    case Ports(wan, lan, detected) => PortsKeep(site, s.net, wan, lan, detected);
    case Addresses(_, _, _, _) => AddressesKeepIff(site, s.net, AddressRequest(s, e));
    case Admin(_, _, _) =>
  }

  /** How the rules, as far as interfaces go, relate to a site. */
  ghost predicate Governs(site: Site, rules: Rules) {
    && (forall c, net, w: I.Clean, l: I.Clean :: rules.form(c, net, w, l) == StepForm(site, c, net, w, l))
    && (forall net, r: Routed :: rules.configure(net, r) == I.After(site.parse, net, r))
  }

  lemma StepsGovern(site: Site)
    ensures Governs(site, Steps(site))
  {
  }

  lemma NetAfter(rules: Rules, s: State, e: Event)
    ensures Next(rules, s, e).net ==
              if e.act.Configure? then rules.configure(s.net, e.act.request)
              else if e.act.Save? && Submitted(rules, s, e).Some? && Permitted(s, e)
              then Submitted(rules, s, e).value.net
              else s.net
  {
    EnterStores(s, e);
    if !e.act.Save? {
      OthersKeepNet(rules, s, e);
    }
  }

  lemma OthersKeepNet(rules: Rules, s: State, e: Event)
    requires !e.act.Save?
    ensures Next(rules, s, e).net == if e.act.Configure? then rules.configure(s.net, e.act.request) else s.net
  {
    EnterStores(s, e);
  }

  lemma StepKeepsIff(site: Site, rules: Rules, s: State, e: Event)
    requires Governs(site, rules) && I.Inv(site.parse, s.net)
    ensures I.Inv(site.parse, Next(rules, s, e).net) <==> !Spoils(site.parse, s, e)
  {
    NetAfter(rules, s, e);
    if e.act.Configure? {
      I.AfterKeepsDisjointIff(site.parse, s.net, e.act.request);
    } else if e.act.Save? {
      FormKeepsIff(site, s, e);
    }
  }

  lemma {:induction false} FirstSpoil(kept: seq<bool>, spoiled: seq<bool>, n: nat)
    requires n < |kept| && n <= |spoiled| && kept[0]
    requires forall i :: 0 <= i < n && kept[i] ==> (kept[i + 1] <==> !spoiled[i])
    ensures (forall m :: 0 <= m <= n ==> kept[m]) <==> (forall j :: 0 <= j < n ==> !spoiled[j])
  {
    if n > 0 {
      FirstSpoil(kept, spoiled, n - 1);
      var last := n - 1;
      assert kept[last] ==> (kept[last + 1] <==> !spoiled[last]);
    }
  }

  /** Wizard and interface routes together keep ports apart and networks disjoint up to a moment exactly if no
      event before it spoils them. */
  lemma HistoryKeepsIff(site: Site, rules: Rules, states: seq<State>, events: seq<Event>, n: nat)
    requires Governs(site, rules) && History(rules, states, events) && n <= |events|
    requires I.Inv(site.parse, states[0].net)
    ensures (forall m :: 0 <= m <= n ==> I.Inv(site.parse, states[m].net)) <==>
            (forall j :: 0 <= j < n ==> !Spoils(site.parse, states[j], events[j]))
  {
    ghost var kept := seq(n + 1, m requires 0 <= m <= n => I.Inv(site.parse, states[m].net));
    ghost var spoiled := seq(n, j requires 0 <= j < n => Spoils(site.parse, states[j], events[j]));
    forall i | 0 <= i < n && kept[i] ensures kept[i + 1] <==> !spoiled[i] {
      StepKeepsIff(site, rules, states[i], events[i]);
    }
    FirstSpoil(kept, spoiled, n);
    assert forall m :: 0 <= m <= n ==> kept[m] == I.Inv(site.parse, states[m].net);
    assert forall j :: 0 <= j < n ==> spoiled[j] == Spoils(site.parse, states[j], events[j]);
  }

  // ---- the completion of the wizard as it is --------------------------------------------------------------

  /** Any history of the wizard as it is completes only through an apply, permitted to its session, whose
      required steps succeeded live on a box that routes, filters, translates and resolves where it could be
      probed. */
  lemma CompletionWasChecked(site: Site, rules: Rules, states: seq<State>, events: seq<Event>, n: nat)
    requires rules == Steps(site) && History(rules, states, events)
    requires n <= |events| && !states[0].complete && states[n].complete
    ensures exists j :: 0 <= j < n && events[j].act.Apply? && Checked(states[j], events[j])
  {
    HistoryTraces(rules, states, events, 0);
    CompletionWasEarned(rules, states, events, n);
    var j :| 0 <= j < n && !states[j].complete && events[j].act.Apply? && Writes(rules, states[j], events[j]);
    FinishesIs(site, events[j].act.probe);
    assert Checked(states[j], events[j]);
  }

  predicate Checked(s: State, e: Event)
    requires e.act.Apply?
  {
    Permitted(s, e) && OverallOk(e.act.probe)
  }

  lemma FinishesIs(site: Site, p: Probe)
    ensures Steps(site).finishes(p) == OverallOk(p)
  {
  }
}
