/** app/validators.py (interface names, subnet overlap), routes/interfaces.py (assignments, WAN and LAN
    saves) and steps 1 and 2 of routes/setup.py. */
module Interfaces {
  import opened Common
  import opened PyText

  // ---- address blocks ------------------------------------------------------------------

  function Pow2(n: nat): (p: nat)
    ensures p > 0
  {
    if n == 0 then 1 else 2 * Pow2(n - 1)
  }

  /** An `ip_network`: the addresses whose bits above the prefix are those of `base`. */
  datatype Net = Net(v6: bool, base: nat, prefix: nat) {
    function Width(): nat { if v6 then 128 else 32 }

    predicate Aligned() {
      prefix <= Width() && base % Size() == 0 && base < Pow2(Width())
    }

    function Size(): (n: nat)
      ensures n > 0
    {
      Pow2(if prefix <= Width() then Width() - prefix else 0)
    }

    function Last(): nat { base + Size() - 1 }

    /** `address in network`: same version, and the masked address is the base. */
    predicate Contains(v6: bool, address: nat) {
      v6 == this.v6 && address - address % Size() == base
    }

    /** `IPv4Network.overlaps`, an endpoint of either in the other. */
    predicate Overlaps(other: Net) {
      || other.Contains(v6, base) || other.Contains(v6, Last())
      || Contains(other.v6, other.base) || Contains(other.v6, other.Last())
    }
  }

  type Block = n: Net | n.Aligned() witness Net(false, 0, 32)

  ghost predicate ShareAddress(x: Net, y: Net) {
    exists v6, a: nat :: x.Contains(v6, a) && y.Contains(v6, a)
  }

  lemma Cancel(n: nat, a: int, b: int)
    requires n > 0 && n * a < n * b
    ensures a < b
  {
    if b <= a {
      Scale(n, b, a);
    }
  }

  lemma ModUnique(a: nat, n: nat, q: nat, r: nat)
    requires n > 0 && r < n && a == n * q + r
    ensures a % n == r
  {
    var d := a / n;
    assert a == n * d + a % n;
    assert n * (d + 1) == n * d + n && n * (q + 1) == n * q + n;
    Cancel(n, q, d + 1);
    Cancel(n, d, q + 1);
  }

  lemma ContainsIsRange(x: Block, a: nat)
    ensures x.Contains(x.v6, a) <==> x.base <= a <= x.Last()
  {
    var n := x.Size();
    if x.base <= a <= x.Last() {
      ModUnique(a, n, x.base / n, a - x.base);
    }
  }

  /** The endpoint test is exact. */
  lemma OverlapIffShared(x: Block, y: Block)
    ensures x.Overlaps(y) <==> ShareAddress(x, y)
  {
    ContainsIsRange(y, x.base);
    ContainsIsRange(y, x.Last());
    ContainsIsRange(x, y.base);
    ContainsIsRange(x, y.Last());
    ContainsIsRange(x, x.base);
    ContainsIsRange(x, x.Last());
    ContainsIsRange(y, y.base);
    ContainsIsRange(y, y.Last());
    if v6, a: nat :| x.Contains(v6, a) && y.Contains(v6, a) {
      ContainsIsRange(x, a);
      ContainsIsRange(y, a);
    }
  }

  lemma {:induction false} Pow2Sum(i: nat, j: nat)
    ensures Pow2(i + j) == Pow2(i) * Pow2(j)
  {
    if i > 0 {
      Pow2Sum(i - 1, j);
      assert Pow2(i) * Pow2(j) == 2 * (Pow2(i - 1) * Pow2(j));
    } else {
      assert Pow2(0) * Pow2(j) == Pow2(j);
    }
  }

  lemma SizesDivide(x: Block, y: Block)
    requires x.v6 == y.v6 && x.prefix >= y.prefix
    ensures y.Size() == Pow2(x.prefix - y.prefix) * x.Size()
  {
    Pow2Sum(x.prefix - y.prefix, x.Width() - x.prefix);
  }

  lemma RangesNest(x: Block, y: Block, s: nat)
    requires x.v6 == y.v6 && x.prefix >= y.prefix
    requires x.base <= s <= x.Last() && y.base <= s <= y.Last()
    ensures y.base <= x.base && x.Last() <= y.Last()
  {
    SizesDivide(x, y);
    Nest(x.Size(), Pow2(x.prefix - y.prefix), y.Size(), x.base, y.base, s);
  }

  lemma Nest(n: nat, m: nat, size: nat, low: nat, base: nat, s: nat)
    requires n > 0 && m > 0 && size == m * n && size > 0 && low % n == 0 && base % size == 0
    requires low <= s < low + n && base <= s < base + size
    ensures base <= low && low + n <= base + size
  {
    var p, q := low / n, base / size;
    assert base == size * q;
    Regroup(n, m, q);
    BlockInside(n, p, m * q, m, s);
  }

  lemma Regroup(n: nat, m: nat, q: nat)
    ensures (m * n) * q == n * (m * q) && n * (m * q + m) == n * (m * q) + m * n
  {
  }

  /** Two blocks that meet are nested: the shorter prefix holds the whole of the other. */
  lemma OverlapIsNested(x: Block, y: Block, a: nat)
    requires x.Overlaps(y) && x.prefix >= y.prefix && x.Contains(x.v6, a)
    ensures y.Contains(x.v6, a)
  {
    OverlapIffShared(x, y);
    var v6, s: nat :| x.Contains(v6, s) && y.Contains(v6, s);
    ContainsIsRange(x, a);
    ContainsIsRange(x, s);
    ContainsIsRange(y, s);
    RangesNest(x, y, s);
    ContainsIsRange(y, a);
  }

  /** An interval of length `n` at `n * p` that meets one of length `n * m` at `n * k` lies inside it. */
  lemma BlockInside(n: nat, p: int, k: int, m: int, s: int)
    requires n > 0 && n * p <= s < n * p + n && n * k <= s < n * (k + m)
    ensures n * k <= n * p && n * p + n <= n * (k + m)
  {
    assert n * (p + 1) == n * p + n;
    Cancel(n, k, p + 1);
    Cancel(n, p, k + m);
    Scale(n, k, p);
    Scale(n, p + 1, k + m);
  }

  lemma Scale(n: nat, a: int, b: int)
    requires a <= b
    ensures n * a <= n * b
  {
    var d: nat := b - a;
    assert n * b == n * a + n * d;
  }

  // ---- validate_no_overlap ---------------------------------------------------------------

  /** `ip_interface(text).network`, `None` for `ValueError`. */
  type Parser = string -> Option<Block>

  datatype Row = Row(port: string, address: string)

  /** The row stands in the way of `net`. */
  predicate Blocks(parse: Parser, skip: string, net: Block, r: Row) {
    && Strip(r.address) != ""
    && !(skip != "" && Strip(r.port) == skip)
    && var other := parse(Strip(r.address));
       other.Some? && net.Overlaps(other.value)
  }

  /** No `ValueError`: the new address is blank, or parses and no row stands in its way. */
  predicate Accepted(parse: Parser, skip: string, cidr: string, rows: seq<Row>) {
    || Strip(cidr) == ""
    || var net := parse(Strip(cidr));
       net.Some? && forall i :: 0 <= i < |rows| ==> !Blocks(parse, Strip(skip), net.value, rows[i])
  }

  /** `rows` are those of the two tables that have an address column, LAN first. */
  method ValidateNoOverlap(parse: Parser, portToSkip: string, newCidr: string, rows: seq<Row>)
    returns (result: Option<string>)
    ensures result == if Accepted(parse, portToSkip, newCidr, rows) then Some(Strip(newCidr)) else None
  {
    var v := Strip(newCidr);
    if v == "" {
      return Some(v);
    }
    var net := parse(v);
    if net.None? {
      return None;
    }
    var skip := Strip(portToSkip);
    for i := 0 to |rows|
      invariant forall j :: 0 <= j < i ==> !Blocks(parse, skip, net.value, rows[j])
    {
      var otherPort, otherCidr := Strip(rows[i].port), Strip(rows[i].address);
      if otherCidr == "" {
        continue;
      }
      if skip != "" && otherPort == skip {
        continue;
      }
      var other := parse(otherCidr);
      if other.None? {
        continue;
      }
      if net.value.Overlaps(other.value) {
        return None;
      }
    }
    result := Some(v);
  }

  // ---- the two interfaces -------------------------------------------------------------------

  datatype Side = WAN | LAN {
    function Opposite(): Side { if WAN? then LAN else WAN }
  }

  function SideOf(text: string): Option<Side> {
    var t := Lower(Strip(text));
    if t == "wan" then Some(WAN) else if t == "lan" then Some(LAN) else None
  }

  predicate IsStatic(mode: string) { Lower(mode) == "static" }

  predicate IsPppoe(mode: string) { Lower(mode) == "pppoe" }

  datatype Conf = Conf(port: string, mode: string, address: string)

  /** `interface_assignments` (missing rows read as blank), `wan_config`, `lan_config`. */
  datatype State = State(ports: map<Side, string>, wan: Conf, lan: Conf) {
    function Of(s: Side): Conf { if s.WAN? then wan else lan }

    function With(s: Side, c: Conf): State { if s.WAN? then this.(wan := c) else this.(lan := c) }

    function PortOf(s: Side): string { if s in ports then ports[s] else "" }

    function Rows(): seq<Row> { [Row(lan.port, lan.address), Row(wan.port, wan.address)] }
  }

  function NetOf(parse: Parser, c: Conf): Option<Block> {
    if Strip(c.address) == "" then None else parse(Strip(c.address))
  }

  predicate IsLetter(c: char) { 'a' <= c <= 'z' || 'A' <= c <= 'Z' }

  predicate InName(c: char) {
    IsLetter(c) || '0' <= c <= '9' || c == '_' || c == '.' || c == ':' || c == '-'
  }

  /** `^[a-zA-Z][a-zA-Z0-9_.:\-]{0,31}$` */
  predicate IsInterfaceName(s: string) {
    1 <= |s| <= 32 && IsLetter(s[0]) && Every(s[1..], InName)
  }

  predicate PortKept(s: State, side: Side) {
    s.Of(side).port == s.PortOf(side) && Strip(s.PortOf(side)) == s.PortOf(side)
  }

  /** Port bookkeeping agrees, ports are clean, and no port serves both sides. */
  predicate PortsKept(s: State) {
    && PortKept(s, WAN) && PortKept(s, LAN)
    && (s.wan.port != "" ==> s.wan.port != s.lan.port)
  }

  ghost predicate NetsDisjoint(parse: Parser, s: State) {
    var w, l := NetOf(parse, s.wan), NetOf(parse, s.lan);
    w.Some? && l.Some? ==> !ShareAddress(w.value, l.value)
  }

  ghost predicate Inv(parse: Parser, s: State) {
    PortsKept(s) && NetsDisjoint(parse, s)
  }

  /** `valid` is the verdict of the PPPoE pre-check, `applied` the outcome of bringing the interface up. */
  datatype Request =
    | Assign(kind: string, port: string)
    | Unassign(kind: string)
    | SaveWan(mode: string, address: string, valid: bool, applied: bool)
    | SaveLan(mode: string, address: string)
      /** Steps 1 and 2 of the setup wizard; `wanKnown` and `lanKnown` are the ports its session recalls. */
    | SetupPorts(wan: string, lan: string, detected: set<string>)
    | SetupAddresses(lan: string, mode: string, wan: string, gatewayOk: bool, wanKnown: Clean, lanKnown: Clean)

  /** Text that `strip` leaves alone, as step 1 stores it in the session. */
  type Clean = p: string | Strip(p) == p witness ""

  function Reassigned(s: State, side: Side, port: string): State {
    s.With(side, s.Of(side).(port := port))
  }

  predicate MayAssign(s: State, side: Side, port: string) {
    IsInterfaceName(port) && Strip(s.PortOf(side.Opposite())) != port
  }

  function Saved(parse: Parser, s: State, side: Side, mode: string, address: string): State {
    if IsStatic(mode) && !Accepted(parse, s.Of(side).port, address, s.Rows()) then s
    else s.With(side, s.Of(side).(mode := mode, address := address))
  }

  function Assigned(s: State, kind: string, port: string): State {
    var side, p := SideOf(kind), Strip(port);
    if side.Some? && MayAssign(s, side.value, p)
    then Reassigned(s, side.value, p).(ports := s.ports[side.value := p])
    else s
  }

  function Unassigned(s: State, kind: string): State {
    var side := SideOf(kind);
    if side.Some? then Reassigned(s, side.value, "").(ports := s.ports - {side.value}) else s
  }

  predicate MaySetPorts(wan: string, lan: string, detected: set<string>) {
    && wan != lan && IsInterfaceName(wan) && IsInterfaceName(lan)
    && (detected != {} ==> wan in detected && lan in detected)
  }

  function SetBoth(s: State, wan: string, lan: string): State {
    s.(ports := s.ports[WAN := wan][LAN := lan], wan := s.wan.(port := wan), lan := s.lan.(port := lan))
  }

  function PortsSet(s: State, wan: string, lan: string, detected: set<string>): State {
    if MaySetPorts(Strip(wan), Strip(lan), detected) then SetBoth(s, Strip(wan), Strip(lan)) else s
  }

  function SetupMode(mode: string): string {
    if mode == "" then "dhcp" else Lower(mode)
  }

  predicate MaySetAddresses(parse: Parser, lan: string, mode: string, wan: string, gatewayOk: bool) {
    && lan != "" && parse(lan).Some?
    && SetupMode(mode) in ["dhcp", "static", "pppoe"]
    && (SetupMode(mode) == "static" ==> wan != "" && parse(wan).Some? && gatewayOk)
  }

  /** The saved port, or the one the session recalls. */
  function PortOr(s: State, side: Side, known: string): string {
    if Strip(s.PortOf(side)) != "" then Strip(s.PortOf(side)) else known
  }

  function AddressesSet(parse: Parser, s: State, lan: string, mode: string, wan: string, gatewayOk: bool,
                        wanKnown: Clean, lanKnown: Clean): State {
    var w, l := PortOr(s, WAN, wanKnown), PortOr(s, LAN, lanKnown);
    if !MaySetAddresses(parse, Strip(lan), mode, Strip(wan), gatewayOk) || w == "" || l == "" then s
    else
      var address := if SetupMode(mode) == "static" then Strip(wan) else "";
      State(s.ports[WAN := w][LAN := l], Conf(w, SetupMode(mode), address), Conf(l, "static", Strip(lan)))
  }

  function After(parse: Parser, s: State, r: Request): State {
    match r
    case Assign(kind, port) => Assigned(s, kind, port)
    case Unassign(kind) => Unassigned(s, kind)
    case SetupPorts(wan, lan, detected) => PortsSet(s, wan, lan, detected)
    case SetupAddresses(lan, mode, wan, gatewayOk, wanKnown, lanKnown) =>
      AddressesSet(parse, s, lan, mode, wan, gatewayOk, wanKnown, lanKnown)
    case SaveWan(mode, address, valid, applied) =>
      if IsPppoe(mode) && !(valid && applied) then s else Saved(parse, s, WAN, mode, address)
    case SaveLan(mode, address) => Saved(parse, s, LAN, mode, address)
  }

  /** An address is left on `side` without having been checked against the other side. */
  predicate Unchecked(r: Request, side: Side) {
    match r
    case SaveWan(mode, address, valid, applied) =>
      side == WAN && !IsStatic(mode) && Strip(address) != "" && (IsPppoe(mode) ==> valid && applied)
    case SaveLan(mode, address) => side == LAN && !IsStatic(mode) && Strip(address) != ""
    case SetupAddresses(_, _, _, _, _, _) => true
    case _ => false
  }

  /** The address parses and its network meets the other side's. */
  predicate Meets(parse: Parser, address: string, other: Conf) {
    var x, y := parse(Strip(address)), NetOf(parse, other);
    x.Some? && y.Some? && x.value.Overlaps(y.value)
  }

  /** The unchecked address of this save meets the other side's. */
  predicate Collides(parse: Parser, s: State, r: Request) {
    || (r.SaveWan? && Unchecked(r, WAN) && Meets(parse, r.address, s.lan))
    || (r.SaveLan? && Unchecked(r, LAN) && Meets(parse, r.address, s.wan))
  }

  /** Step 2 of the wizard is let through although its two networks meet, or although the session recalls
      for an unassigned side the port that now serves the other. */
  predicate SetupCollides(parse: Parser, s: State, r: Request) {
    && r.SetupAddresses? && MaySetAddresses(parse, Strip(r.lan), r.mode, Strip(r.wan), r.gatewayOk)
    && PortOr(s, WAN, r.wanKnown) != "" && PortOr(s, LAN, r.lanKnown) != ""
    && (|| PortOr(s, WAN, r.wanKnown) == PortOr(s, LAN, r.lanKnown)
        || (SetupMode(r.mode) == "static" && parse(Strip(r.wan)).value.Overlaps(parse(Strip(r.lan)).value)))
  }

  lemma OverlapsSymmetric(x: Net, y: Net)
    ensures x.Overlaps(y) <==> y.Overlaps(x)
  {
  }

  lemma DisjointIffNoOverlap(parse: Parser, s: State)
    ensures NetsDisjoint(parse, s) <==> !(Strip(s.wan.address) != "" && Meets(parse, s.wan.address, s.lan))
    ensures NetsDisjoint(parse, s) <==> !(Strip(s.lan.address) != "" && Meets(parse, s.lan.address, s.wan))
  {
    var w, l := NetOf(parse, s.wan), NetOf(parse, s.lan);
    if w.Some? && l.Some? {
      OverlapIffShared(w.value, l.value);
      OverlapsSymmetric(w.value, l.value);
    }
  }

  /** Every request but step 2 of the wizard keeps the two ports different and recorded alike in both
      tables. */
  lemma AfterKeepsPorts(parse: Parser, s: State, r: Request)
    requires PortsKept(s) && !r.SetupAddresses?
    ensures PortsKept(After(parse, s, r))
  {
    match r
    case Assign(kind, port) => AssignedKeepsPorts(s, kind, port);
    case Unassign(kind) => assert PortsKept(Unassigned(s, kind));
    case SetupPorts(wan, lan, detected) => PortsSetKeepsPorts(s, wan, lan, detected);
    case _ => SamePorts(s, After(parse, s, r));
  }

  lemma PortsSetKeepsPorts(s: State, wan: string, lan: string, detected: set<string>)
    requires PortsKept(s)
    ensures PortsKept(PortsSet(s, wan, lan, detected))
  {
    StripTrimmed(wan);
    StripTrimmed(Strip(wan));
    StripTrimmed(lan);
    StripTrimmed(Strip(lan));
  }

  lemma PortOrClean(s: State, side: Side, known: Clean)
    ensures Strip(PortOr(s, side, known)) == PortOr(s, side, known)
  {
    StripTrimmed(s.PortOf(side));
    StripTrimmed(Strip(s.PortOf(side)));
  }

  lemma PortsAfterSetup(s: State, w: Clean, l: Clean, wan: Conf, lan: Conf)
    requires w != "" && l != "" && wan.port == w && lan.port == l
    ensures PortsKept(State(s.ports[WAN := w][LAN := l], wan, lan)) <==> w != l
  {
    var t := State(s.ports[WAN := w][LAN := l], wan, lan);
    assert t.PortOf(WAN) == w && t.PortOf(LAN) == l;
  }

  lemma NetsAfterSetup(parse: Parser, t: State)
    requires Strip(t.lan.address) == t.lan.address != "" && parse(t.lan.address).Some?
    requires Strip(t.wan.address) == t.wan.address && (t.wan.address != "" ==> parse(t.wan.address).Some?)
    ensures NetsDisjoint(parse, t) <==>
              !(t.wan.address != "" && parse(t.wan.address).value.Overlaps(parse(t.lan.address).value))
  {
    DisjointIffNoOverlap(parse, t);
  }

  lemma SetupPortsCollide(s: State, wanKnown: Clean, lanKnown: Clean)
    requires PortsKept(s) && PortOr(s, WAN, wanKnown) == PortOr(s, LAN, lanKnown) != ""
    ensures s.PortOf(WAN) == "" || s.PortOf(LAN) == ""
  {
  }

  /** Step 2 of the wizard, exactly: it keeps both promises unless it collides. Its ports can only
      collide while a side is unassigned. */
  lemma SetupKeepsInvIff(parse: Parser, s: State, r: Request)
    requires Inv(parse, s) && r.SetupAddresses?
    ensures Inv(parse, After(parse, s, r)) <==> !SetupCollides(parse, s, r)
    ensures PortOr(s, WAN, r.wanKnown) == PortOr(s, LAN, r.lanKnown) != "" ==>
              s.PortOf(WAN) == "" || s.PortOf(LAN) == ""
  {
    var t, w, l := After(parse, s, r), PortOr(s, WAN, r.wanKnown), PortOr(s, LAN, r.lanKnown);
    PortOrClean(s, WAN, r.wanKnown);
    PortOrClean(s, LAN, r.lanKnown);
    StripTrimmed(r.lan);
    StripTrimmed(Strip(r.lan));
    StripTrimmed(r.wan);
    StripTrimmed(Strip(r.wan));
    if w == l != "" {
      SetupPortsCollide(s, r.wanKnown, r.lanKnown);
    }
    if MaySetAddresses(parse, Strip(r.lan), r.mode, Strip(r.wan), r.gatewayOk) && w != "" && l != "" {
      PortsAfterSetup(s, w, l, t.wan, t.lan);
      NetsAfterSetup(parse, t);
    }
  }

  /** Both ports chosen in step 1, one side unassigned, its port given to the other. */
  lemma SwapRuns(parse: Parser, p: Clean, q: Clean, wan: string, lan: string)
    requires MaySetPorts(p, q, {}) && SideOf(wan) == Some(WAN) && SideOf(lan) == Some(LAN)
    ensures var blank := Conf("", "", "");
            var s := Run(parse, State(map[], blank, blank), [SetupPorts(p, q, {}), Unassign(wan), Assign(lan, p)]);
            Inv(parse, s) && s.PortOf(WAN) == "" && s.PortOf(LAN) == p
  {
    var blank := Conf("", "", "");
    var s0 := State(map[], blank, blank);
    var rs := [SetupPorts(p, q, {}), Unassign(wan), Assign(lan, p)];
    assert Strip("") == "";
    var s1 := After(parse, s0, rs[0]);
    assert s1 == SetBoth(s0, p, q);
    var s2 := After(parse, s1, rs[1]);
    assert s2.PortOf(WAN) == "" && s2.PortOf(LAN) == q;
    assert MayAssign(s2, LAN, p);
    var s3 := After(parse, s2, rs[2]);
    assert s3.PortOf(WAN) == "" && s3.PortOf(LAN) == p;
    RunThree(parse, s0, rs);
    RunKeepsInv(parse, s0, rs);
  }

  lemma RunOne(parse: Parser, s: State, rs: seq<Request>)
    requires rs != []
    ensures Run(parse, s, rs) == Run(parse, After(parse, s, rs[0]), rs[1..])
  {
  }

  lemma RunThree(parse: Parser, s: State, rs: seq<Request>)
    requires |rs| == 3
    ensures Run(parse, s, rs) == After(parse, After(parse, After(parse, s, rs[0]), rs[1]), rs[2])
  {
    var one, two := After(parse, s, rs[0]), After(parse, After(parse, s, rs[0]), rs[1]);
    RunOne(parse, s, rs);
    RunOne(parse, one, rs[1..]);
    RunOne(parse, two, rs[2..]);
    assert rs[1..][1..] == rs[2..] && rs[2..][1..] == [];
  }

  lemma RecallDoubles(parse: Parser, s: State, r: Request)
    requires r.SetupAddresses? && MaySetAddresses(parse, Strip(r.lan), r.mode, Strip(r.wan), r.gatewayOk)
    requires s.PortOf(WAN) == "" && s.PortOf(LAN) == r.wanKnown != ""
    ensures !PortsKept(After(parse, s, r))
  {
    var t := After(parse, s, r);
    assert PortOr(s, WAN, r.wanKnown) == r.wanKnown && PortOr(s, LAN, r.lanKnown) == r.wanKnown;
    PortsAfterSetup(s, r.wanKnown, r.wanKnown, t.wan, t.lan);
  }

  /** Any valid form of step 2, submitted then from the session of step 1, puts one port on both sides. */
  lemma RecalledPortDoubles(parse: Parser, p: Clean, q: Clean, wan: string, lan: string, r: Request)
    requires MaySetPorts(p, q, {}) && SideOf(wan) == Some(WAN) && SideOf(lan) == Some(LAN)
    requires r.SetupAddresses? && MaySetAddresses(parse, Strip(r.lan), r.mode, Strip(r.wan), r.gatewayOk)
    requires r.wanKnown == p && r.lanKnown == q
    ensures var blank := Conf("", "", "");
            var s := Run(parse, State(map[], blank, blank), [SetupPorts(p, q, {}), Unassign(wan), Assign(lan, p)]);
            Inv(parse, s) && !PortsKept(After(parse, s, r))
  {
    var blank := Conf("", "", "");
    var s := Run(parse, State(map[], blank, blank), [SetupPorts(p, q, {}), Unassign(wan), Assign(lan, p)]);
    SwapRuns(parse, p, q, wan, lan);
    RecallDoubles(parse, s, r);
  }

  lemma AssignedKeepsPorts(s: State, kind: string, port: string)
    requires PortsKept(s)
    ensures PortsKept(Assigned(s, kind, port))
  {
    StripTrimmed(port);
    StripTrimmed(Strip(port));
  }

  lemma SamePorts(s: State, t: State)
    requires PortsKept(s) && t.ports == s.ports && t.wan.port == s.wan.port && t.lan.port == s.lan.port
    ensures PortsKept(t)
  {
  }

  /** A static address is accepted exactly if it is blank, or parses and meets no network of the other side. */
  lemma AcceptedMissesOther(parse: Parser, s: State, side: Side, address: string)
    requires PortsKept(s)
    ensures Accepted(parse, s.Of(side).port, address, s.Rows()) <==>
              Strip(address) != "" ==>
                && parse(Strip(address)).Some?
                && !Meets(parse, address, s.Of(side.Opposite()))
                && (s.Of(side).port == "" ==> !Meets(parse, address, s.Of(side)))
  {
    var net := parse(Strip(address));
    if net.Some? && Strip(address) != "" {
      var skip := s.Of(side).port;
      var rows := s.Rows();
      assert rows[0] == Row(s.lan.port, s.lan.address) && rows[1] == Row(s.wan.port, s.wan.address);
      assert Accepted(parse, skip, address, rows) <==>
               !Blocks(parse, skip, net.value, rows[0]) && !Blocks(parse, skip, net.value, rows[1]);
    }
  }

  /** Any other request keeps the networks disjoint unless it leaves an unchecked address that collides:
      static saves, assignments and deletions always do. */
  lemma AfterKeepsDisjointIff(parse: Parser, s: State, r: Request)
    requires Inv(parse, s) && !r.SetupAddresses?
    ensures Inv(parse, After(parse, s, r)) <==> !Collides(parse, s, r)
  {
    AfterKeepsPorts(parse, s, r);
    if r.SaveWan? {
      SavedDisjointIff(parse, s, WAN, r.mode, r.address);
    } else if r.SaveLan? {
      SavedDisjointIff(parse, s, LAN, r.mode, r.address);
    } else {
      AddressesStay(parse, s, r);
    }
  }

  lemma AddressesStay(parse: Parser, s: State, r: Request)
    requires r.Assign? || r.Unassign? || r.SetupPorts?
    ensures NetsDisjoint(parse, s) <==> NetsDisjoint(parse, After(parse, s, r))
  {
    var t := After(parse, s, r);
    assert t.wan.address == s.wan.address && t.lan.address == s.lan.address;
  }

  lemma SavedDisjointIff(parse: Parser, s: State, side: Side, mode: string, address: string)
    requires Inv(parse, s)
    ensures NetsDisjoint(parse, Saved(parse, s, side, mode, address)) <==>
              IsStatic(mode) || Strip(address) == "" || !Meets(parse, address, s.Of(side.Opposite()))
  {
    DisjointIffNoOverlap(parse, s);
    DisjointIffNoOverlap(parse, Saved(parse, s, side, mode, address));
    if Strip(address) != "" {
      AcceptedMissesOther(parse, s, side, address);
    }
  }

  function Run(parse: Parser, s: State, requests: seq<Request>): State
    decreases |requests|
  {
    if requests == [] then s else Run(parse, After(parse, s, requests[0]), requests[1..])
  }

  /** No request leaves an unchecked address: saves are static or blank. */
  predicate AllChecked(requests: seq<Request>) {
    forall i, side: Side :: 0 <= i < |requests| ==> !Unchecked(requests[i], side)
  }

  lemma {:induction false} RunKeepsInv(parse: Parser, s: State, requests: seq<Request>)
    requires Inv(parse, s) && AllChecked(requests)
    ensures Inv(parse, Run(parse, s, requests))
    decreases |requests|
  {
    if requests != [] {
      assert !Unchecked(requests[0], WAN) && !Unchecked(requests[0], LAN);
      AfterKeepsDisjointIff(parse, s, requests[0]);
      RunKeepsInv(parse, After(parse, s, requests[0]), requests[1..]);
    }
  }

  /** A save in another mode stores its address as it is and may break disjointness. */
  lemma UncheckedSaveCollides(parse: Parser, s: State, address: string)
    requires Inv(parse, s) && NetOf(parse, s.lan).Some? && s.lan.address == address
    ensures !NetsDisjoint(parse, After(parse, s, SaveWan("dhcp", address, true, true)))
  {
    assert Lower("dhcp") == "dhcp";
    var x := NetOf(parse, s.lan).value;
    ContainsIsRange(x, x.base);
    OverlapIffShared(x, x);
    AfterKeepsDisjointIff(parse, s, SaveWan("dhcp", address, true, true));
    assert Unchecked(SaveWan("dhcp", address, true, true), WAN);
    assert Meets(parse, address, s.lan);
    AfterKeepsPorts(parse, s, SaveWan("dhcp", address, true, true));
  }

  /** Saving an interface's own static address again is refused exactly when the interface has no port. */
  lemma ResaveRefusedIff(parse: Parser, s: State, side: Side)
    requires Inv(parse, s) && NetOf(parse, s.Of(side)).Some?
    ensures !Accepted(parse, s.Of(side).port, s.Of(side).address, s.Rows()) <==> s.Of(side).port == ""
  {
    var x := NetOf(parse, s.Of(side)).value;
    AcceptedMissesOther(parse, s, side, s.Of(side).address);
    DisjointIffNoOverlap(parse, s);
    ContainsIsRange(x, x.base);
  }

  // ---- what a request stores -------------------------------------------------------------------

  lemma SideIs(text: string)
    ensures SideOf(text) == Some(WAN) <==> Spells(Strip(text), "wan")
    ensures SideOf(text) == Some(LAN) <==> Spells(Strip(text), "lan")
  {
    LowerSpells(Strip(text), "wan");
    LowerSpells(Strip(text), "lan");
    assert "wan"[0] != "lan"[0];
  }

  lemma ModeIs(mode: string)
    ensures IsStatic(mode) <==> Spells(mode, "static")
    ensures IsPppoe(mode) <==> Spells(mode, "pppoe")
  {
    LowerSpells(mode, "static");
    LowerSpells(mode, "pppoe");
  }

  /** A save that is refused, or whose PPPoE interface does not come up, changes nothing. */
  predicate SaveHolds(parse: Parser, s: State, side: Side, r: Request)
    requires r.SaveWan? || r.SaveLan?
  {
    && (Spells(r.mode, "static") ==> Accepted(parse, s.Of(side).port, r.address, s.Rows()))
    && (r.SaveWan? && Spells(r.mode, "pppoe") ==> r.valid && r.applied)
  }

  /** Any other stores mode and address as they were sent, and leaves the ports and the other interface alone. */
  lemma SaveStores(parse: Parser, s: State, side: Side, r: Request)
    requires if side.WAN? then r.SaveWan? else r.SaveLan?
    ensures var t := After(parse, s, r);
            && t.ports == s.ports && t.Of(side.Opposite()) == s.Of(side.Opposite())
            && t.Of(side) == if SaveHolds(parse, s, side, r) then Conf(s.Of(side).port, r.mode, r.address)
                             else s.Of(side)
  {
    ModeIs(r.mode);
    SavedIs(parse, s, side, r.mode, r.address);
  }

  lemma SavedIs(parse: Parser, s: State, side: Side, mode: string, address: string)
    ensures var t := Saved(parse, s, side, mode, address);
            && t.ports == s.ports && t.Of(side.Opposite()) == s.Of(side.Opposite())
            && t.Of(side) == if IsStatic(mode) && !Accepted(parse, s.Of(side).port, address, s.Rows()) then s.Of(side)
                             else Conf(s.Of(side).port, mode, address)
  {
  }

  /** `side` has `port` in both tables, everything else is as in `s`. */
  predicate PortChanged(s: State, t: State, side: Side, port: string) {
    && t.PortOf(side) == port && t.Of(side) == s.Of(side).(port := port)
    && t.PortOf(side.Opposite()) == s.PortOf(side.Opposite()) && t.Of(side.Opposite()) == s.Of(side.Opposite())
  }

  /** An assignment takes effect exactly when the port is a possible name and not that of the other side. */
  lemma AssignStores(parse: Parser, s: State, side: Side, kind: string, port: string)
    requires Spells(Strip(kind), if side.WAN? then "wan" else "lan")
    ensures var t, p := After(parse, s, Assign(kind, port)), Strip(port);
            if IsInterfaceName(p) && Strip(s.PortOf(side.Opposite())) != p then PortChanged(s, t, side, p) else t == s
    ensures PortChanged(s, After(parse, s, Unassign(kind)), side, "")
  {
    SideIs(kind);
  }

  lemma OtherKindsStoreNothing(parse: Parser, s: State, kind: string, port: string)
    requires !Spells(Strip(kind), "wan") && !Spells(Strip(kind), "lan")
    ensures After(parse, s, Assign(kind, port)) == s && After(parse, s, Unassign(kind)) == s
  {
    SideIs(kind);
  }

  /** Step 1 of the wizard gives two different ports, detected ones where any were, to the two sides. */
  lemma SetupPortsStores(parse: Parser, s: State, wan: string, lan: string, detected: set<string>)
    ensures var t, w, l := After(parse, s, SetupPorts(wan, lan, detected)), Strip(wan), Strip(lan);
            if IsInterfaceName(w) && IsInterfaceName(l) && w != l && (detected == {} || {w, l} <= detected)
            then && t.PortOf(WAN) == w && t.PortOf(LAN) == l
                 && t.wan == s.wan.(port := w) && t.lan == s.lan.(port := l)
            else t == s
  {
  }

  /** A form of step 2 needs a LAN address, a known mode and, if that is static, a WAN address and a gateway. */
  predicate FormComplete(parse: Parser, r: Request)
    requires r.SetupAddresses?
  {
    && Strip(r.lan) != "" && parse(Strip(r.lan)).Some?
    && (|| r.mode == "" || Spells(r.mode, "dhcp") || Spells(r.mode, "pppoe")
        || (Spells(r.mode, "static") && Strip(r.wan) != "" && parse(Strip(r.wan)).Some? && r.gatewayOk))
  }

  /** The mode without capitals. */
  predicate ModeStored(mode: string, stored: string) {
    if mode == "" then stored == "dhcp" else Every(stored, NotCapital) && Spells(mode, stored)
  }

  predicate NotCapital(c: char) { !('A' <= c <= 'Z') }

  lemma LowerModeStored(mode: string)
    requires mode != ""
    ensures ModeStored(mode, Lower(mode))
  {
    LowerIs(mode);
  }

  lemma MayIsComplete(parse: Parser, r: Request)
    requires r.SetupAddresses?
    ensures MaySetAddresses(parse, Strip(r.lan), r.mode, Strip(r.wan), r.gatewayOk) <==> FormComplete(parse, r)
    ensures SetupMode(r.mode) == "static" <==> Spells(r.mode, "static")
  {
    var m := SetupMode(r.mode);
    LowerSpells(r.mode, "dhcp");
    LowerSpells(r.mode, "static");
    LowerSpells(r.mode, "pppoe");
    assert |"dhcp"| == 4 && |"static"| == 6 && |"pppoe"| == 5;
    assert m in ["dhcp", "static", "pppoe"] <==> m == "dhcp" || m == "static" || m == "pppoe";
  }

  /** Such a form sets both interfaces, on the ports saved or, for a side without one, recalled; without a port
      for each side, or incomplete, it sets nothing. */
  lemma SetupAddressesStores(parse: Parser, s: State, r: Request)
    requires r.SetupAddresses?
    ensures var t := After(parse, s, r);
            var w := if Strip(s.PortOf(WAN)) != "" then Strip(s.PortOf(WAN)) else r.wanKnown;
            var l := if Strip(s.PortOf(LAN)) != "" then Strip(s.PortOf(LAN)) else r.lanKnown;
            if FormComplete(parse, r) && w != "" && l != ""
            then && t.PortOf(WAN) == t.wan.port == w && t.PortOf(LAN) == t.lan.port == l
                 && t.lan == Conf(l, "static", Strip(r.lan)) && ModeStored(r.mode, t.wan.mode)
                 && t.wan.address == if Spells(r.mode, "static") then Strip(r.wan) else ""
            else t == s
  {
    MayIsComplete(parse, r);
    if r.mode != "" {
      LowerModeStored(r.mode);
    }
  }

  // ---- the handlers ----------------------------------------------------------------------------

  class Router {
    var ports: map<Side, string>
    var wan: Conf
    var lan: Conf

    constructor (s: State)
      ensures Now() == s
    {
      ports, wan, lan := s.ports, s.wan, s.lan;
    }

    function Now(): State
      reads this
    {
      State(ports, wan, lan)
    }

    method SaveInterfaceAssignment(kind: string, port: string) returns (ok: bool)
      modifies this
      ensures Now() == Assigned(old(Now()), kind, port)
      ensures ok <==> SideOf(kind).Some? && MayAssign(old(Now()), SideOf(kind).value, Strip(port))
    {
      var side, p := SideOf(kind), Strip(port);
      if side.None? || p == "" || !IsInterfaceName(p) {
        return false;
      }
      var opposite := side.value.Opposite();
      if opposite in ports && Strip(ports[opposite]) == p {
        return false;
      }
      ports := ports[side.value := p];
      if side.value.WAN? {
        wan := wan.(port := p);
      } else {
        lan := lan.(port := p);
      }
      ok := true;
    }

    method DeleteInterfaceAssignment(kind: string) returns (ok: bool)
      modifies this
      ensures Now() == Unassigned(old(Now()), kind)
      ensures ok <==> SideOf(kind).Some?
    {
      var side := SideOf(kind);
      if side.None? {
        return false;
      }
      ports := ports - {side.value};
      if side.value.WAN? {
        wan := wan.(port := "");
      } else {
        lan := lan.(port := "");
      }
      ok := true;
    }

    /** A failed PPPoE bring-up puts the saved row back. */
    method SaveWanConfig(parse: Parser, mode: string, address: string, valid: bool, applied: bool)
      returns (ok: bool, rolledBack: bool)
      modifies this
      ensures Now() == After(parse, old(Now()), SaveWan(mode, address, valid, applied))
      ensures rolledBack <==> ok && IsPppoe(mode) && !applied
    {
      rolledBack := false;
      if IsStatic(mode) {
        var checked := ValidateNoOverlap(parse, wan.port, address, Now().Rows());
        if checked.None? {
          return false, false;
        }
      }
      if IsPppoe(mode) && !valid {
        return false, false;
      }
      var snapshot := wan;
      wan := wan.(mode := mode, address := address);
      if IsPppoe(mode) && !applied {
        wan := snapshot;
        rolledBack := true;
      }
      ok := true;
    }

    method SaveLanConfig(parse: Parser, mode: string, address: string) returns (ok: bool)
      modifies this
      ensures Now() == After(parse, old(Now()), SaveLan(mode, address))
      ensures ok <==> IsStatic(mode) ==> Accepted(parse, old(lan.port), address, old(Now()).Rows())
    {
      if IsStatic(mode) {
        var checked := ValidateNoOverlap(parse, lan.port, address, Now().Rows());
        if checked.None? {
          return false;
        }
      }
      lan := lan.(mode := mode, address := address);
      ok := true;
    }

    method SetupPorts(wanPort: string, lanPort: string, detected: set<string>) returns (ok: bool)
      modifies this
      ensures Now() == PortsSet(old(Now()), wanPort, lanPort, detected)
      ensures ok <==> MaySetPorts(Strip(wanPort), Strip(lanPort), detected)
    {
      var w, l := Strip(wanPort), Strip(lanPort);
      if w == "" || l == "" || w == l || !IsInterfaceName(w) || !IsInterfaceName(l) {
        return false;
      }
      if detected != {} && (w !in detected || l !in detected) {
        return false;
      }
      ports := ports[WAN := w][LAN := l];
      wan := wan.(port := w);
      lan := lan.(port := l);
      ok := true;
    }

    method SetupAddresses(parse: Parser, lanCidr: string, mode: string, wanCidr: string, gatewayOk: bool,
                          wanKnown: Clean, lanKnown: Clean) returns (ok: bool)
      modifies this
      ensures Now() == AddressesSet(parse, old(Now()), lanCidr, mode, wanCidr, gatewayOk, wanKnown, lanKnown)
      ensures ok <==> && MaySetAddresses(parse, Strip(lanCidr), mode, Strip(wanCidr), gatewayOk)
                      && PortOr(old(Now()), WAN, wanKnown) != "" && PortOr(old(Now()), LAN, lanKnown) != ""
    {
      var lanAddress, wanAddress, kind := Strip(lanCidr), Strip(wanCidr), SetupMode(mode);
      if lanAddress == "" || parse(lanAddress).None? || kind !in ["dhcp", "static", "pppoe"] {
        return false;
      }
      if kind == "static" {
        if wanAddress == "" || parse(wanAddress).None? || !gatewayOk {
          return false;
        }
      } else {
        wanAddress := "";
      }
      var w, l := PortOr(Now(), WAN, wanKnown), PortOr(Now(), LAN, lanKnown);
      if w == "" || l == "" {
        return false;
      }
      lan := Conf(l, "static", lanAddress);
      wan := Conf(w, kind, wanAddress);
      ports := ports[WAN := w][LAN := l];
      ok := true;
    }
  }
}
