/** routes/terminal.py: single-use console tickets shared by every worker process. */
module Tickets {
  import opened Common
  import opened PyText

  const TTL := 60

  /** What the model takes as given: the keyed hash of a payload, as dot-free hex text, and
      Python's `int()` on text. */
  datatype Env = Env(mac: string -> string, parseInt: string -> Option<int>) {
    ghost predicate Sound() {
      && (forall p, q :: mac(p) == mac(q) ==> p == q)
      && (forall p :: '.' !in mac(p))
      && forall n: nat :: parseInt(Dec(n)) == Some(n)
    }
  }

  /** The facts a ticket is bound to. */
  datatype Grant = Grant(user: nat, issued: nat, addr: string)

  function Payload(user: string, issued: string, addr: string): string {
    "v1" + ['.'] + (user + ['.'] + (issued + ['.'] + addr))
  }

  function PayloadOf(g: Grant): string {
    Payload(Dec(g.user), Dec(g.issued), g.addr)
  }

  function IssueTicket(env: Env, g: Grant): string {
    "v1" + ['.'] + (Dec(g.user) + ['.'] + (Dec(g.issued) + ['.'] + env.mac(PayloadOf(g))))
  }

  predicate ValidTicket(env: Env, ticket: string, user: nat, addr: string, now: Time) {
    var parts := Split(ticket, '.');
    && |parts| == 4
    && parts[0] == "v1"
    && env.parseInt(parts[1]) == Some(user)
    && var issued := env.parseInt(parts[2]);
    && issued.Some?
    && now - issued.value as real <= TTL as real
    && env.mac(Payload(parts[1], parts[2], addr)) == parts[3]
  }

  // ---- tickets mean what they say ---------------------------------------------

  lemma DotFree(n: nat)
    ensures '.' !in Dec(n)
  {
    assert Every(Dec(n), IsAsciiDigit);
  }

  lemma SplitFour(a: string, b: string, c: string)
    requires '.' !in a && '.' !in b
    ensures Split(Payload(a, b, c), '.') == ["v1"] + ([a] + ([b] + Split(c, '.')))
  {
    FirstPiece(b, c, '.');
    FirstPiece(a, b + ['.'] + c, '.');
    FirstPiece("v1", a + ['.'] + (b + ['.'] + c), '.');
  }

  lemma FirstFields(a: string, b: string, rest: seq<string>)
    ensures var parts := ["v1"] + ([a] + ([b] + rest));
            parts[0] == "v1" && parts[1] == a && parts[2] == b && parts[3..] == rest
  {
  }

  /** The signed text determines its three fields, although an address may contain dots. */
  lemma PayloadInjective(a: string, b: string, c: string, a': string, b': string, c': string)
    requires '.' !in a && '.' !in b && '.' !in a' && '.' !in b'
    requires Payload(a, b, c) == Payload(a', b', c')
    ensures a == a' && b == b' && c == c'
  {
    SplitFour(a, b, c);
    SplitFour(a', b', c');
    FirstFields(a, b, Split(c, '.'));
    FirstFields(a', b', Split(c', '.'));
    JoinSplit(c, '.');
    JoinSplit(c', '.');
  }

  lemma GrantInjective(env: Env, g: Grant, h: Grant)
    requires env.Sound() && env.mac(PayloadOf(g)) == env.mac(PayloadOf(h))
    ensures g == h
  {
    DotFree(g.user);
    DotFree(g.issued);
    DotFree(h.user);
    DotFree(h.issued);
    PayloadInjective(Dec(g.user), Dec(g.issued), g.addr, Dec(h.user), Dec(h.issued), h.addr);
    DecInjective(g.user, h.user);
    DecInjective(g.issued, h.issued);
  }

  lemma TicketParts(env: Env, g: Grant)
    requires env.Sound()
    ensures Split(IssueTicket(env, g), '.') == ["v1", Dec(g.user), Dec(g.issued), env.mac(PayloadOf(g))]
  {
    var sig := env.mac(PayloadOf(g));
    DotFree(g.user);
    DotFree(g.issued);
    SplitFour(Dec(g.user), Dec(g.issued), sig);
    FirstPiece(sig, "", '.');
  }

  /** An issued ticket is accepted from its own user and address until its time is up, and from
      nobody else. */
  lemma IssuedTicketValid(env: Env, g: Grant, user: nat, addr: string, now: Time)
    requires env.Sound()
    ensures ValidTicket(env, IssueTicket(env, g), user, addr, now) <==>
            user == g.user && addr == g.addr && now <= (g.issued + TTL) as real
  {
    TicketParts(env, g);
    DotFree(g.user);
    DotFree(g.issued);
    if ValidTicket(env, IssueTicket(env, g), user, addr, now) {
      PayloadInjective(Dec(g.user), Dec(g.issued), addr, Dec(g.user), Dec(g.issued), g.addr);
    }
  }

  /** Unforgeability: text that carries a matching signature was signed by the application. */
  ghost predicate Unforged(env: Env, signed: set<Grant>, ticket: string, addr: string) {
    var parts := Split(ticket, '.');
    |parts| == 4 && env.mac(Payload(parts[1], parts[2], addr)) == parts[3] ==>
      exists g :: g in signed && PayloadOf(g) == Payload(parts[1], parts[2], addr)
  }

  lemma ValidMeansGranted(env: Env, signed: set<Grant>, ticket: string, user: nat, addr: string, now: Time)
    returns (g: Grant)
    requires env.Sound() && Unforged(env, signed, ticket, addr)
    requires ValidTicket(env, ticket, user, addr, now)
    ensures g in signed && g.user == user && g.addr == addr && now <= (g.issued + TTL) as real
    ensures ticket == IssueTicket(env, g)
    ensures Split(ticket, '.')[3] == env.mac(PayloadOf(g))
    ensures env.parseInt(Split(ticket, '.')[2]) == Some(g.issued)
  {
    var parts := Split(ticket, '.');
    g :| g in signed && PayloadOf(g) == Payload(parts[1], parts[2], addr);
    DotFree(g.user);
    DotFree(g.issued);
    assert '.' !in parts[1] && '.' !in parts[2];
    PayloadInjective(Dec(g.user), Dec(g.issued), g.addr, parts[1], parts[2], addr);
    JoinSplit(ticket, '.');
    JoinFour(parts, '.');
  }

  lemma JoinFour(parts: seq<string>, sep: char)
    requires |parts| == 4
    ensures Join(parts, sep) == parts[0] + [sep] + (parts[1] + [sep] + (parts[2] + [sep] + parts[3]))
  {
    assert parts[1..][1..] == parts[2..] && parts[2..][1..] == parts[3..];
    assert Join(parts[2..], sep) == parts[2] + [sep] + parts[3];
    assert Join(parts[1..], sep) == parts[1] + [sep] + Join(parts[2..], sep);
  }

  // ---- the nonce table ----------------------------------------------------------

  datatype Row = Row(user: nat, issued: int, consumed: int)

  type Table = map<string, Row>

  function Purge(rows: Table, now: int): Table {
    map n | n in rows && !(rows[n].consumed < now - TTL) :: rows[n]
  }

  /** The claim transaction: purge, then insert; a colliding insert rolls everything back. */
  function Claimed(rows: Table, sig: string, row: Row): (Table, bool) {
    var kept := Purge(rows, row.consumed);
    if sig in kept then (rows, false) else (kept[sig := row], true)
  }

  class NonceTable {
    var rows: Table

    constructor ()
      ensures rows == map[]
    {
      rows := map[];
    }

    method Claim(env: Env, user: nat, ticket: string, now: Time) returns (ok: bool)
      modifies this
      ensures var parts := Split(ticket, '.');
              if |parts| != 4 || env.parseInt(parts[2]).None? then !ok && rows == old(rows)
              else (rows, ok) == Claimed(old(rows), parts[3], Row(user, env.parseInt(parts[2]).value, now.Floor))
    {
      var parts := Split(ticket, '.');
      if |parts| != 4 {
        return false;
      }
      var sig, issued := parts[3], env.parseInt(parts[2]);
      if issued.None? {
        return false;
      }
      var snapshot, second := rows, now.Floor;
      rows := map n | n in rows && !(rows[n].consumed < second - TTL) :: rows[n];
      if sig in rows {
        rows := snapshot;
        return false;
      }
      rows := rows[sig := Row(user, issued.value, second)];
      ok := true;
    }
  }

  // ---- the whole system: any number of workers, any interleaving ------------------

  datatype Pending = Pending(ticket: string, user: nat, at: Time)

  datatype State = State(
    now: Time,
    signed: set<Grant>,
    pending: map<int, Pending>,
    rows: Table,
    accepted: seq<string>)

  datatype Step =
    | Issue(user: nat, addr: string, at: Time)
    | Validate(worker: int, ticket: string, user: nat, addr: string, at: Time)
      /** The claim of a worker's validated ticket: `read` is its clock reading, `commit` the
          moment its transaction takes effect. */
    | Claim(worker: int, read: Time, commit: Time)

  const START := State(0.0, {}, map[], map[], [])

  function Next(env: Env, st: State, step: Step): State
    requires Legal(env, st, step)
  {
    match step
    case Issue(user, addr, at) =>
      st.(now := at, signed := st.signed + {Grant(user, at.Floor, addr)})
    case Validate(w, ticket, user, addr, at) =>
      if ValidTicket(env, ticket, user, addr, at)
      then st.(now := at, pending := st.pending[w := Pending(ticket, user, at)])
      else st.(now := at)
    case Claim(w, read, commit) =>
      var p := st.pending[w];
      var parts := Split(p.ticket, '.');
      if |parts| != 4 || env.parseInt(parts[2]).None? then
        st.(now := commit, pending := st.pending - {w})
      else
        var (rows, ok) := Claimed(st.rows, parts[3], Row(p.user, env.parseInt(parts[2]).value, read.Floor));
        st.(now := commit, pending := st.pending - {w}, rows := rows,
            accepted := if ok then st.accepted + [parts[3]] else st.accepted)
  }

  /** The clock never runs back, and signatures are not forged. */
  ghost predicate Legal(env: Env, st: State, step: Step) {
    match step
    case Issue(_, _, at) => st.now <= at
    case Validate(_, ticket, _, addr, at) => st.now <= at && Unforged(env, st.signed, ticket, addr)
    case Claim(w, read, commit) => w in st.pending && st.now <= commit && st.pending[w].at <= read <= commit
  }

  ghost predicate LegalRun(env: Env, st: State, steps: seq<Step>)
    decreases |steps|
  {
    steps == [] || (Legal(env, st, steps[0]) && LegalRun(env, Next(env, st, steps[0]), steps[1..]))
  }

  function Run(env: Env, st: State, steps: seq<Step>): State
    requires LegalRun(env, st, steps)
    decreases |steps|
  {
    if steps == [] then st else Run(env, Next(env, st, steps[0]), steps[1..])
  }

  // ---- invariant --------------------------------------------------------------------

  ghost predicate IsGranted(env: Env, now: Time, signed: set<Grant>, p: Pending, g: Grant) {
    var parts := Split(p.ticket, '.');
    && g in signed
    && |parts| == 4 && parts[3] == env.mac(PayloadOf(g))
    && env.parseInt(parts[2]) == Some(g.issued)
    && g.issued as real <= p.at <= now
    && p.at <= (g.issued + TTL) as real
  }

  ghost predicate HasGrant(env: Env, now: Time, signed: set<Grant>, p: Pending) {
    exists g :: IsGranted(env, now, signed, p, g)
  }

  /** An accepted signature is still on record, dated no earlier than its ticket, until the ticket
      is too old to be claimed again. */
  ghost predicate Guarded(env: Env, now: Time, signed: set<Grant>, rows: Table, sig: string, g: Grant) {
    && g in signed
    && sig == env.mac(PayloadOf(g))
    && (sig in rows ==> rows[sig].consumed >= g.issued)
    && (sig in rows || now >= (g.issued + TTL + 1) as real)
  }

  ghost predicate HasGuard(env: Env, now: Time, signed: set<Grant>, rows: Table, sig: string) {
    exists g :: Guarded(env, now, signed, rows, sig, g)
  }

  ghost predicate AllGranted(env: Env, st: State) {
    forall w :: w in st.pending ==> HasGrant(env, st.now, st.signed, st.pending[w])
  }

  ghost predicate AllGuarded(env: Env, st: State) {
    forall i :: 0 <= i < |st.accepted| ==> HasGuard(env, st.now, st.signed, st.rows, st.accepted[i])
  }

  ghost predicate Inv(env: Env, st: State) {
    && (forall g :: g in st.signed ==> g.issued as real <= st.now)
    && AllGranted(env, st) && AllGuarded(env, st)
    && (forall sig :: sig in st.rows ==> sig in st.accepted)
  }

  lemma GrantPersists(env: Env, now: Time, later: Time, signed: set<Grant>, more: set<Grant>, p: Pending)
    requires HasGrant(env, now, signed, p) && now <= later && signed <= more
    ensures HasGrant(env, later, more, p)
  {
    var g :| IsGranted(env, now, signed, p, g);
    assert IsGranted(env, later, more, p, g);
  }

  lemma GuardPersists(env: Env, now: Time, later: Time, signed: set<Grant>, more: set<Grant>, rows: Table, sig: string)
    requires HasGuard(env, now, signed, rows, sig) && now <= later && signed <= more
    ensures HasGuard(env, later, more, rows, sig)
  {
    var g :| Guarded(env, now, signed, rows, sig, g);
    assert Guarded(env, later, more, rows, sig, g);
  }

  /** What was granted or guarded stays so while time passes and nothing is purged. */
  lemma Persists(env: Env, st: State, now: Time, signed: set<Grant>)
    requires Inv(env, st) && st.now <= now && st.signed <= signed
    ensures AllGranted(env, st.(now := now, signed := signed))
    ensures AllGuarded(env, st.(now := now, signed := signed))
  {
    forall w | w in st.pending ensures HasGrant(env, now, signed, st.pending[w]) {
      GrantPersists(env, st.now, now, st.signed, signed, st.pending[w]);
    }
    forall i | 0 <= i < |st.accepted| ensures HasGuard(env, now, signed, st.rows, st.accepted[i]) {
      GuardPersists(env, st.now, now, st.signed, signed, st.rows, st.accepted[i]);
    }
  }

  lemma IssueKeepsInv(env: Env, st: State, user: nat, addr: string, at: Time)
    requires Inv(env, st) && st.now <= at
    ensures Inv(env, st.(now := at, signed := st.signed + {Grant(user, at.Floor, addr)}))
  {
    Persists(env, st, at, st.signed + {Grant(user, at.Floor, addr)});
    assert at.Floor as real <= at;
  }

  lemma ValidateKeepsInv(env: Env, st: State, w: int, ticket: string, user: nat, addr: string, at: Time)
    requires env.Sound() && Inv(env, st) && st.now <= at && Unforged(env, st.signed, ticket, addr)
    ensures Inv(env, st.(now := at))
    ensures ValidTicket(env, ticket, user, addr, at) ==>
              Inv(env, st.(now := at, pending := st.pending[w := Pending(ticket, user, at)]))
  {
    Persists(env, st, at, st.signed);
    if ValidTicket(env, ticket, user, addr, at) {
      var g := ValidMeansGranted(env, st.signed, ticket, user, addr, at);
      assert IsGranted(env, at, st.signed, Pending(ticket, user, at), g);
      assert HasGrant(env, at, st.signed, Pending(ticket, user, at));
    }
  }

  /** A purge made before a ticket's last possible claim leaves its record. */
  lemma GuardSurvives(rows: Table, sig: string, g: Grant, read: Time)
    requires sig in rows && rows[sig].consumed >= g.issued
    requires read < (g.issued + TTL + 1) as real
    ensures sig in Purge(rows, read.Floor)
  {
    assert read.Floor <= g.issued + TTL;
  }

  /** Purging and accepting `g` leaves an earlier acceptance guarded. */
  lemma GuardThroughClaim(env: Env, st: State, g: Grant, row: Row, read: Time, commit: Time, sig: string)
    requires env.Sound() && HasGuard(env, st.now, st.signed, st.rows, sig)
    requires st.now <= commit && read <= commit && row.consumed == read.Floor && g.issued <= row.consumed
    ensures HasGuard(env, commit, st.signed, Purge(st.rows, row.consumed)[env.mac(PayloadOf(g)) := row], sig)
  {
    var rows := Purge(st.rows, row.consumed)[env.mac(PayloadOf(g)) := row];
    var h :| Guarded(env, st.now, st.signed, st.rows, sig, h);
    if sig in st.rows && read < (h.issued + TTL + 1) as real {
      GuardSurvives(st.rows, sig, h, read);
    }
    if sig == env.mac(PayloadOf(g)) {
      GrantInjective(env, g, h);
    }
    assert Guarded(env, commit, st.signed, rows, sig, h);
  }

  lemma GrantedClaim(env: Env, st: State, w: int, read: Time, commit: Time, g: Grant)
    requires Legal(env, st, Claim(w, read, commit)) && IsGranted(env, st.now, st.signed, st.pending[w], g)
    ensures var sig, row := env.mac(PayloadOf(g)), Row(st.pending[w].user, g.issued, read.Floor);
            var kept := Purge(st.rows, row.consumed);
            var rest := st.(now := commit, pending := st.pending - {w});
            Next(env, st, Claim(w, read, commit)) ==
            if sig in kept then rest else rest.(rows := kept[sig := row], accepted := st.accepted + [sig])
  {
  }

  lemma AcceptKeepsInv(env: Env, st: State, w: int, g: Grant, row: Row, read: Time, commit: Time)
    requires env.Sound() && Inv(env, st) && g in st.signed
    requires st.now <= commit && read <= commit && row.consumed == read.Floor && g.issued <= row.consumed
    ensures var sig := env.mac(PayloadOf(g));
            Inv(env, st.(now := commit, pending := st.pending - {w},
                         rows := Purge(st.rows, row.consumed)[sig := row], accepted := st.accepted + [sig]))
  {
    var sig := env.mac(PayloadOf(g));
    var rows := Purge(st.rows, row.consumed)[sig := row];
    Persists(env, st, commit, st.signed);
    assert Guarded(env, commit, st.signed, rows, sig, g);
    forall i | 0 <= i < |st.accepted| ensures HasGuard(env, commit, st.signed, rows, st.accepted[i]) {
      GuardThroughClaim(env, st, g, row, read, commit, st.accepted[i]);
    }
  }

  lemma ClaimKeepsInv(env: Env, st: State, w: int, read: Time, commit: Time)
    requires env.Sound() && Inv(env, st) && Legal(env, st, Claim(w, read, commit))
    ensures Inv(env, Next(env, st, Claim(w, read, commit)))
  {
    assert HasGrant(env, st.now, st.signed, st.pending[w]);
    var g :| IsGranted(env, st.now, st.signed, st.pending[w], g);
    var row := Row(st.pending[w].user, g.issued, read.Floor);
    assert g.issued <= read.Floor;
    GrantedClaim(env, st, w, read, commit, g);
    Persists(env, st, commit, st.signed);
    AcceptKeepsInv(env, st, w, g, row, read, commit);
  }

  lemma StepKeepsInv(env: Env, st: State, step: Step)
    requires env.Sound() && Inv(env, st) && Legal(env, st, step)
    ensures Inv(env, Next(env, st, step))
  {
    match step
    case Issue(user, addr, at) => IssueKeepsInv(env, st, user, addr, at);
    case Validate(w, ticket, user, addr, at) => ValidateKeepsInv(env, st, w, ticket, user, addr, at);
    case Claim(w, read, commit) => ClaimKeepsInv(env, st, w, read, commit);
  }

  lemma {:induction false} RunKeepsInv(env: Env, st: State, steps: seq<Step>)
    requires env.Sound() && Inv(env, st) && LegalRun(env, st, steps)
    ensures Inv(env, Run(env, st, steps))
    decreases |steps|
  {
    if steps != [] {
      StepKeepsInv(env, st, steps[0]);
      RunKeepsInv(env, Next(env, st, steps[0]), steps[1..]);
    }
  }

  // ---- when a ticket works once ------------------------------------------------------------

  /** The claim is for a ticket with the signature of `g`. */
  ghost predicate Claims(env: Env, st: State, w: int, g: Grant) {
    && w in st.pending
    && var parts := Split(st.pending[w].ticket, '.'); |parts| == 4 && parts[3] == env.mac(PayloadOf(g))
  }

  lemma ClaimedGrant(env: Env, st: State, w: int, g: Grant)
    requires env.Sound() && Inv(env, st) && Claims(env, st, w, g)
    ensures IsGranted(env, st.now, st.signed, st.pending[w], g)
  {
    assert HasGrant(env, st.now, st.signed, st.pending[w]);
    var h :| IsGranted(env, st.now, st.signed, st.pending[w], h);
    GrantInjective(env, g, h);
  }

  lemma AcceptedOnRecord(env: Env, st: State, g: Grant, read: Time)
    requires env.Sound() && Inv(env, st) && env.mac(PayloadOf(g)) in st.accepted
    requires st.now < (g.issued + TTL + 1) as real && read < (g.issued + TTL + 1) as real
    ensures env.mac(PayloadOf(g)) in Purge(st.rows, read.Floor)
  {
    var sig := env.mac(PayloadOf(g));
    var i :| 0 <= i < |st.accepted| && st.accepted[i] == sig;
    assert HasGuard(env, st.now, st.signed, st.rows, st.accepted[i]);
    var h :| Guarded(env, st.now, st.signed, st.rows, sig, h);
    GrantInjective(env, g, h);
    GuardSurvives(st.rows, sig, h, read);
  }

  /** In any reachable state, a claim that commits less than 61 seconds after the ticket was issued goes
      through exactly when the ticket was never accepted before. */
  lemma EarlyClaimIff(env: Env, st: State, w: int, read: Time, commit: Time, g: Grant)
    requires env.Sound() && Inv(env, st) && Legal(env, st, Claim(w, read, commit)) && Claims(env, st, w, g)
    requires commit < (g.issued + TTL + 1) as real
    ensures var sig := env.mac(PayloadOf(g));
            Next(env, st, Claim(w, read, commit)).accepted ==
            if sig in st.accepted then st.accepted else st.accepted + [sig]
  {
    ClaimedGrant(env, st, w, g);
    GrantedClaim(env, st, w, read, commit, g);
    if env.mac(PayloadOf(g)) in st.accepted {
      AcceptedOnRecord(env, st, g, read);
    }
  }

  /** Every claim of the run commits less than 61 seconds after its ticket was issued. */
  ghost predicate Timely(env: Env, st: State, steps: seq<Step>)
    requires LegalRun(env, st, steps)
    decreases |steps|
  {
    steps != [] ==>
      && (steps[0].Claim? ==> forall g :: Claims(env, st, steps[0].worker, g) ==>
                                            steps[0].commit < (g.issued + TTL + 1) as real)
      && Timely(env, Next(env, st, steps[0]), steps[1..])
  }

  /** A claim within a second of its validation is in time. */
  lemma PromptClaimIsTimely(env: Env, st: State, w: int, commit: Time, g: Grant)
    requires env.Sound() && Inv(env, st) && Claims(env, st, w, g) && commit < st.pending[w].at + 1.0
    ensures commit < (g.issued + TTL + 1) as real
  {
    ClaimedGrant(env, st, w, g);
  }

  ghost predicate WasIssued(env: Env, signed: set<Grant>, sig: string) {
    exists g :: g in signed && sig == env.mac(PayloadOf(g))
  }

  lemma TimelyStepDistinct(env: Env, st: State, step: Step)
    requires env.Sound() && Inv(env, st) && Legal(env, st, step) && Distinct(st.accepted)
    requires step.Claim? ==> forall g :: Claims(env, st, step.worker, g) ==> step.commit < (g.issued + TTL + 1) as real
    ensures Distinct(Next(env, st, step).accepted)
  {
    if step.Claim? {
      assert HasGrant(env, st.now, st.signed, st.pending[step.worker]);
      var g :| IsGranted(env, st.now, st.signed, st.pending[step.worker], g);
      assert Claims(env, st, step.worker, g);
      EarlyClaimIff(env, st, step.worker, step.read, step.commit, g);
    }
  }

  lemma {:induction false} TimelyRunDistinct(env: Env, st: State, steps: seq<Step>)
    requires env.Sound() && Inv(env, st) && LegalRun(env, st, steps) && Timely(env, st, steps) && Distinct(st.accepted)
    ensures Distinct(Run(env, st, steps).accepted)
    decreases |steps|
  {
    if steps != [] {
      StepKeepsInv(env, st, steps[0]);
      TimelyStepDistinct(env, st, steps[0]);
      TimelyRunDistinct(env, Next(env, st, steps[0]), steps[1..]);
    }
  }

  /** Whatever the workers do, every accepted ticket was issued, and none is accepted twice while claims
      are in time. */
  lemma SingleUse(env: Env, steps: seq<Step>)
    requires env.Sound() && LegalRun(env, START, steps)
    ensures Timely(env, START, steps) ==> Distinct(Run(env, START, steps).accepted)
    ensures forall i :: 0 <= i < |Run(env, START, steps).accepted| ==>
              WasIssued(env, Run(env, START, steps).signed, Run(env, START, steps).accepted[i])
  {
    RunKeepsInv(env, START, steps);
    var end := Run(env, START, steps);
    if Timely(env, START, steps) {
      TimelyRunDistinct(env, START, steps);
    }
    forall i | 0 <= i < |end.accepted| ensures WasIssued(env, end.signed, end.accepted[i]) {
      assert HasGuard(env, end.now, end.signed, end.rows, end.accepted[i]);
      var g :| Guarded(env, end.now, end.signed, end.rows, end.accepted[i], g);
    }
  }

  // ---- the deadline is exact ------------------------------------------------------------------

  /** Some run accepts the ticket of `g` and then, in a claim committing at `commit`, accepts it again. */
  ghost predicate CanReplay(env: Env, g: Grant, commit: Time) {
    exists steps, w, read :: Replays(env, g, steps, w, read, commit)
  }

  ghost predicate Replays(env: Env, g: Grant, steps: seq<Step>, w: int, read: Time, commit: Time) {
    && LegalRun(env, START, steps)
    && var st := Run(env, START, steps);
       && Legal(env, st, Claim(w, read, commit)) && Claims(env, st, w, g)
       && env.mac(PayloadOf(g)) in st.accepted
       && Next(env, st, Claim(w, read, commit)).accepted == st.accepted + [env.mac(PayloadOf(g))]
  }

  /** Issued, validated by two workers, claimed by one. */
  function Twice(env: Env, g: Grant): seq<Step> {
    var t, ticket := g.issued as real, IssueTicket(env, g);
    [Issue(g.user, g.addr, t), Validate(0, ticket, g.user, g.addr, t), Validate(1, ticket, g.user, g.addr, t),
     Claim(0, t, t)]
  }

  lemma TwiceRuns(env: Env, g: Grant)
    requires env.Sound()
    ensures LegalRun(env, START, Twice(env, g))
    ensures var t, sig := g.issued as real, env.mac(PayloadOf(g));
            Run(env, START, Twice(env, g)) ==
            State(t, {g}, map[1 := Pending(IssueTicket(env, g), g.user, t)],
                  map[sig := Row(g.user, g.issued, g.issued)], [sig])
  {
    var t, ticket, sig := g.issued as real, IssueTicket(env, g), env.mac(PayloadOf(g));
    var steps, p := Twice(env, g), Pending(ticket, g.user, t);
    TicketParts(env, g);
    IssuedTicketValid(env, g, g.user, g.addr, t);
    assert Unforged(env, {g}, ticket, g.addr);
    var a, b, c := State(t, {g}, map[], map[], []), State(t, {g}, map[0 := p], map[], []),
                   State(t, {g}, map[0 := p, 1 := p], map[], []);
    var d := State(t, {g}, map[1 := p], map[sig := Row(g.user, g.issued, g.issued)], [sig]);
    assert Next(env, START, steps[0]) == a by {
      assert t.Floor == g.issued;
      assert START.signed + {g} == {g};
    }
    assert Next(env, a, steps[1]) == b;
    assert Next(env, b, steps[2]) == c by {
      assert b.pending[1 := p] == c.pending;
    }
    assert Next(env, c, steps[3]) == d by {
      assert c.pending - {0} == d.pending;
      assert Purge(map[], g.issued) == map[];
    }
    Unroll(env, START, a, steps);
    Unroll(env, a, b, steps[1..]);
    Unroll(env, b, c, steps[2..]);
    Unroll(env, c, d, steps[3..]);
  }

  lemma Unroll(env: Env, st: State, next: State, steps: seq<Step>)
    requires steps != [] && Legal(env, st, steps[0]) && Next(env, st, steps[0]) == next
    ensures LegalRun(env, st, steps) <==> LegalRun(env, next, steps[1..])
    ensures LegalRun(env, st, steps) ==> Run(env, st, steps) == Run(env, next, steps[1..])
  {
  }

  /** A ticket can be accepted again by a claim committing at a given moment exactly if that is 61 seconds or
      more after it was issued. */
  lemma ReplayIff(env: Env, g: Grant, commit: Time)
    requires env.Sound()
    ensures CanReplay(env, g, commit) <==> commit >= (g.issued + TTL + 1) as real
  {
    if steps, w, read :| Replays(env, g, steps, w, read, commit) {
      RunKeepsInv(env, START, steps);
      if commit < (g.issued + TTL + 1) as real {
        EarlyClaimIff(env, Run(env, START, steps), w, read, commit, g);
      }
    }
    if commit >= (g.issued + TTL + 1) as real {
      LateClaimReplays(env, g, commit);
    }
  }

  lemma LateClaimReplays(env: Env, g: Grant, commit: Time)
    requires env.Sound() && commit >= (g.issued + TTL + 1) as real
    ensures Replays(env, g, Twice(env, g), 1, commit, commit)
  {
    TwiceRuns(env, g);
    TicketParts(env, g);
    var sig, st := env.mac(PayloadOf(g)), Run(env, START, Twice(env, g));
    assert commit.Floor >= g.issued + TTL + 1;
    assert sig !in Purge(st.rows, commit.Floor);
  }
}
