/** app/migrations.py (v34) and app/audit_log.py: two separately written ways to lift columns out of an
    event's JSON details. */
module EventFields {
  import opened Common

  const RAW_LIMIT := 4096

  datatype Float = Finite(r: real) | Infinite | NotANumber

  /** A decoded JSON value. */
  datatype Val = Null | Bool(b: bool) | Int(n: int) | Real(f: Float) | Str(s: string)
               | List(items: seq<Val>) | Dict(entries: map<string, Val>)

  /** `json.loads` on text, `int()` on text and `str()` on a value. */
  datatype Env = Env(parse: string -> Option<Val>, parseInt: string -> Option<int>, text: Val -> string)

  type Details = map<string, Val>

  // ---- picking and coercing values -----------------------------------------------------

  /** `v not in (None, "")` */
  predicate Present(v: Val) {
    v != Null && v != Str("")
  }

  predicate Truthy(v: Val) {
    match v
    case Null => false
    case Bool(b) => b
    case Int(n) => n != 0
    case Real(f) => f != Finite(0.0)
    case Str(s) => s != ""
    case List(items) => items != []
    case Dict(entries) => entries != map[]
  }

  function Trunc(r: real): int {
    if r >= 0.0 then r.Floor else -((-r).Floor)
  }

  /** `int(v)` under `except (TypeError, ValueError)`; `None` is the `OverflowError` nobody catches. */
  function ToInt(env: Env, v: Val): Option<Val> {
    match v
    case Bool(b) => Some(Int(if b then 1 else 0))
    case Int(n) => Some(v)
    case Real(Finite(r)) => Some(Int(Trunc(r)))
    case Real(Infinite) => None
    case Str(s) => var n := env.parseInt(s); Some(if n.Some? then Int(n.value) else Null)
    case _ => Some(Null)
  }

  /** SQLite takes NULL, text, numbers and integers of 64 bits; it stores NaN as NULL. */
  predicate Binds(v: Val) {
    match v
    case Int(n) => -0x8000_0000_0000_0000 <= n < 0x8000_0000_0000_0000
    case List(_) => false
    case Dict(_) => false
    case _ => true
  }

  function Stored(v: Val): Val {
    if v == Real(NotANumber) then Null else v
  }

  // ---- the normalized columns ------------------------------------------------------------

  /** The columns stored as they were picked, in the order of the tables below. */
  type Plain = p: seq<Val> | |p| == 17 witness seq(17, _ => Null)

  const SOURCE_TYPE := 0
  const SRC_IP := 2
  const DST_IP := 3
  const DOMAIN := 9
  const RULE_ID := 11

  datatype Fields = Fields(plain: Plain, srcPort: Val, dstPort: Val, socOrigin: Val, raw: Val) {
    predicate Bindable() {
      && (forall i :: 0 <= i < |plain| ==> Binds(plain[i]))
      && Binds(srcPort) && Binds(dstPort) && Binds(socOrigin) && Binds(raw)
    }

    function Kept(): Fields {
      Fields(seq(17, i requires 0 <= i < 17 => Stored(plain[i])),
             Stored(srcPort), Stored(dstPort), Stored(socOrigin), Stored(raw))
    }
  }

  /** The keys that are looked up. */
  datatype Key =
    | SrcPort | SourcePort | DstPort | DestPort | DestinationPort | SourceType | Collector | SourceName | SrcIp
    | SourceIp | ClientIp | DstIp | DestIp | DestinationIp | Protocol | Proto | Interface | Iface | Direction
    | Hostname | Host | Mac | MacAddress | Domain | Query | Url | RuleId | RuleName | RuleLabel | PolicyId
    | PolicyName | MitreTactic | MitreTechnique | Raw | RawLine | SocOrigin

  function Name(key: Key): string {
    match key
    case SrcPort => "src_port"
    case SourcePort => "source_port"
    case DstPort => "dst_port"
    case DestPort => "dest_port"
    case DestinationPort => "destination_port"
    case SourceType => "source_type"
    case Collector => "collector"
    case SourceName => "source_name"
    case SrcIp => "src_ip"
    case SourceIp => "source_ip"
    case ClientIp => "client_ip"
    case DstIp => "dst_ip"
    case DestIp => "dest_ip"
    case DestinationIp => "destination_ip"
    case Protocol => "protocol"
    case Proto => "proto"
    case Interface => "interface"
    case Iface => "iface"
    case Direction => "direction"
    case Hostname => "hostname"
    case Host => "host"
    case Mac => "mac"
    case MacAddress => "mac_address"
    case Domain => "domain"
    case Query => "query"
    case Url => "url"
    case RuleId => "rule_id"
    case RuleName => "rule_name"
    case RuleLabel => "rule_label"
    case PolicyId => "policy_id"
    case PolicyName => "policy_name"
    case MitreTactic => "mitre_tactic"
    case MitreTechnique => "mitre_technique"
    case Raw => "raw"
    case RawLine => "raw_line"
    case SocOrigin => "soc_origin"
  }

  function Get(d: Details, key: Key): Val {
    if Name(key) in d then d[Name(key)] else Null
  }

  function SocFlag(d: Details): Val {
    if Truthy(Get(d, SocOrigin)) then Int(1) else Int(0)
  }

  // ---- the copy inside migration 34 --------------------------------------------------------

  /** Its `_pick`. */
  function Pick(d: Details, keys: seq<Key>): Val {
    if keys == [] then Null
    else
      var v := Get(d, keys[0]);
      if Present(v) then v else Pick(d, keys[1..])
  }

  /** Its `_int_or_none`. */
  function IntOrNull(env: Env, v: Val): Option<Val> {
    if v != Null && v != Str("") then ToInt(env, v) else Some(Null)
  }

  /** The keys it tries for each plain column. */
  const COLUMNS: seq<seq<Key>> :=
    [[SourceType, Collector],
     [SourceName],
     [SrcIp, SourceIp, ClientIp],
     [DstIp, DestIp, DestinationIp],
     [Protocol, Proto],
     [Interface, Iface],
     [Direction],
     [Hostname, Host],
     [Mac, MacAddress],
     [Domain, Query],
     [Url],
     [RuleId],
     [RuleName, RuleLabel],
     [PolicyId],
     [PolicyName],
     [MitreTactic],
     [MitreTechnique]]

  /** The tuple it builds for one row. */
  function Backfilled(env: Env, d: Details): Option<Fields> {
    var srcPort := IntOrNull(env, Pick(d, SRC_PORT));
    var dstPort := IntOrNull(env, Pick(d, DST_PORT));
    if srcPort.None? || dstPort.None? then None
    else Some(Fields(seq(17, i requires 0 <= i < 17 => Pick(d, COLUMNS[i])), srcPort.value, dstPort.value,
                     SocFlag(d), Pick(d, RAW)))
  }

  const SRC_PORT: seq<Key> := [SrcPort, SourcePort]
  const DST_PORT: seq<Key> := [DstPort, DestPort, DestinationPort]
  const RAW: seq<Key> := [Raw, RawLine]

  // ---- the copy in the logger ----------------------------------------------------------------

  /** Its `pick`, from key `i` on. */
  function LivePick(d: Details, keys: seq<Key>, i: nat): Val
    requires i <= |keys|
    decreases |keys| - i
  {
    if i < |keys| && Get(d, keys[i]) != Null && Get(d, keys[i]) != Str("") then Get(d, keys[i])
    else if i < |keys| then LivePick(d, keys, i + 1)
    else Null
  }

  function Live(d: Details, keys: seq<Key>): Val {
    LivePick(d, keys, 0)
  }

  /** Its `_int_or_none`. */
  function LiveInt(env: Env, v: Val): Option<Val> {
    if v == Null || v == Str("") then Some(Null) else ToInt(env, v)
  }

  function TruncateRaw(env: Env, v: Val): Val {
    if v == Null then Null
    else
      var t := if v.Str? then v.s else env.text(v);
      Str(if |t| <= RAW_LIMIT then t else t[..RAW_LIMIT])
  }

  /** The keys it tries for each plain column, by rows of its dictionary. */
  const LOGGED: seq<seq<Key>> :=
    [[SourceType, Collector], [SourceName]] + [[SrcIp, SourceIp, ClientIp]] + [[DstIp, DestIp, DestinationIp]]
    + [[Protocol, Proto], [Interface, Iface], [Direction], [Hostname, Host], [Mac, MacAddress], [Domain, Query], [Url]]
    + [[RuleId], [RuleName, RuleLabel], [PolicyId], [PolicyName], [MitreTactic], [MitreTechnique]]

  /** `_extract_normalized_fields` */
  function Extracted(env: Env, d: Details): Option<Fields> {
    var srcPort := LiveInt(env, Live(d, [SrcPort, SourcePort]));
    var dstPort := LiveInt(env, Live(d, [DstPort, DestPort, DestinationPort]));
    if srcPort.None? || dstPort.None? then None
    else Some(Fields(seq(17, i requires 0 <= i < 17 => Live(d, LOGGED[i])), srcPort.value, dstPort.value,
                     SocFlag(d), TruncateRaw(env, Live(d, [Raw, RawLine]))))
  }

  // ---- the two copies agree ------------------------------------------------------------------

  /** The picked value belongs to the first key that holds one. */
  lemma {:induction false} PicksFirstPresent(d: Details, keys: seq<Key>, i: nat)
    requires i < |keys| && Present(Get(d, keys[i])) && forall j :: 0 <= j < i ==> !Present(Get(d, keys[j]))
    ensures Pick(d, keys) == Get(d, keys[i])
  {
    if i > 0 {
      PicksFirstPresent(d, keys[1..], i - 1);
    }
  }

  lemma {:induction false} PicksNothing(d: Details, keys: seq<Key>)
    ensures Pick(d, keys) == Null <==> forall j :: 0 <= j < |keys| ==> !Present(Get(d, keys[j]))
  {
    if keys != [] {
      PicksNothing(d, keys[1..]);
      assert forall j :: 0 < j < |keys| ==> keys[j] == keys[1..][j - 1];
    }
  }

  lemma {:induction false} PicksAgree(d: Details, keys: seq<Key>, i: nat)
    requires i <= |keys|
    ensures LivePick(d, keys, i) == Pick(d, keys[i..])
    decreases |keys| - i
  {
    if i < |keys| {
      PicksAgree(d, keys, i + 1);
      assert keys[i..][1..] == keys[i + 1..];
    }
  }

  lemma PicksAlike(d: Details, keys: seq<Key>)
    ensures Live(d, keys) == Pick(d, keys)
  {
    PicksAgree(d, keys, 0);
    assert keys[0..] == keys;
  }

  lemma CopiesAgree(env: Env, d: Details)
    ensures Backfilled(env, d).None? <==> Extracted(env, d).None?
    ensures Backfilled(env, d).Some? ==>
              var f := Backfilled(env, d).value;
              Extracted(env, d).value == f.(raw := TruncateRaw(env, f.raw))
  {
    PicksAlike(d, SRC_PORT);
    PicksAlike(d, DST_PORT);
    PicksAlike(d, RAW);
    assert LOGGED == COLUMNS;
    forall i | 0 <= i < 17 ensures Live(d, LOGGED[i]) == Pick(d, COLUMNS[i]) {
      PicksAlike(d, COLUMNS[i]);
    }
  }

  lemma TruncationNoticed(env: Env, v: Val)
    ensures TruncateRaw(env, v) == v <==> v == Null || (v.Str? && |v.s| <= RAW_LIMIT)
  {
  }

  /** A backfilled row has the columns a freshly logged one gets, the same exceptions included; the
      `raw` column alone can differ, exactly when it is not text of at most 4096 characters. */
  lemma BackfilledEqualsLogged(env: Env, d: Details)
    ensures Backfilled(env, d).None? <==> Extracted(env, d).None?
    ensures Backfilled(env, d).Some? ==>
              var old_, new_ := Backfilled(env, d).value, Extracted(env, d).value;
              && old_.(raw := Null) == new_.(raw := Null)
              && (old_ == new_ <==> old_.raw == Null || (old_.raw.Str? && |old_.raw.s| <= RAW_LIMIT))
  {
    CopiesAgree(env, d);
    if Backfilled(env, d).Some? {
      TruncationNoticed(env, Backfilled(env, d).value.raw);
    }
  }

  // ---- when they raise ---------------------------------------------------------------------------

  /** The logger's copy, documented never to raise, raises exactly when a picked port is infinite. */
  lemma ExtractorRaisesIff(env: Env, d: Details)
    ensures Extracted(env, d).None? <==> Pick(d, SRC_PORT) == Real(Infinite) || Pick(d, DST_PORT) == Real(Infinite)
  {
    CopiesAgree(env, d);
  }

  /** `json.loads` reads `Infinity`; such a port raises. */
  lemma InfinitePortRaises(env: Env)
    ensures Extracted(env, map["src_port" := Real(Infinite)]).None?
  {
    var d: Details := map["src_port" := Real(Infinite)];
    PicksFirstPresent(d, SRC_PORT, 0);
    ExtractorRaisesIff(env, d);
  }

  /** The port coerces to nothing, or to an integer of 64 bits. */
  predicate PortFits(env: Env, v: Val) {
    match v
    case Int(n) => Binds(v)
    case Real(Finite(r)) => Binds(Int(Trunc(r)))
    case Real(Infinite) => false
    case Str(s) => s != "" && env.parseInt(s).Some? ==> Binds(Int(env.parseInt(s).value))
    case _ => true
  }

  /** What the details of a row must satisfy for its columns, `raw` aside, to be built and stored. */
  predicate Storable(env: Env, d: Details) {
    && PortFits(env, Pick(d, SRC_PORT)) && PortFits(env, Pick(d, DST_PORT))
    && forall i :: 0 <= i < 17 ==> Binds(Pick(d, COLUMNS[i]))
  }

  lemma PortFitsIff(env: Env, v: Val)
    ensures PortFits(env, v) <==> IntOrNull(env, v).Some? && Binds(IntOrNull(env, v).value)
  {
  }

  /** The columns of a row with these details can be built and stored. */
  predicate Backfillable(env: Env, d: Details) {
    var f := Backfilled(env, d);
    f.Some? && f.value.Bindable()
  }

  predicate Loggable(env: Env, d: Details) {
    var f := Extracted(env, d);
    f.Some? && f.value.Bindable()
  }

  /** The backfill of a row succeeds exactly when its details are storable and `raw` is no list, no object
      and no integer beyond 64 bits. */
  lemma BackfillableIff(env: Env, d: Details)
    ensures Backfillable(env, d) <==> Storable(env, d) && Binds(Pick(d, RAW))
  {
    PortFitsIff(env, Pick(d, SRC_PORT));
    PortFitsIff(env, Pick(d, DST_PORT));
    if Backfilled(env, d).Some? {
      PlainBinds(d, Backfilled(env, d).value);
    }
  }

  lemma PlainBinds(d: Details, f: Fields)
    requires forall i :: 0 <= i < 17 ==> f.plain[i] == Pick(d, COLUMNS[i])
    ensures (forall i :: 0 <= i < |f.plain| ==> Binds(f.plain[i])) <==>
              forall i :: 0 <= i < 17 ==> Binds(Pick(d, COLUMNS[i]))
  {
    forall i | 0 <= i < 17 ensures Binds(f.plain[i]) <==> Binds(Pick(d, COLUMNS[i])) {
    }
  }

  /** A fresh event can be stored whatever its `raw` is. */
  lemma LoggableIff(env: Env, d: Details)
    ensures Loggable(env, d) <==> Storable(env, d)
  {
    CopiesAgree(env, d);
    PortFitsIff(env, Pick(d, SRC_PORT));
    PortFitsIff(env, Pick(d, DST_PORT));
    if Backfilled(env, d).Some? {
      PlainBinds(d, Backfilled(env, d).value);
    }
  }

  // ---- the columns by the names of their keys -----------------------------------------------------

  /** The first of the named entries that is there and neither null nor blank. */
  function Lookup(d: Details, names: seq<string>): Val {
    if names == [] then Null
    else if names[0] in d && d[names[0]] != Null && d[names[0]] != Str("") then d[names[0]]
    else Lookup(d, names[1..])
  }

  /** The names each plain column answers to, in the order of the columns. */
  const PLAIN_NAMES: seq<seq<string>> :=
    [["source_type", "collector"],
     ["source_name"],
     ["src_ip", "source_ip", "client_ip"],
     ["dst_ip", "dest_ip", "destination_ip"],
     ["protocol", "proto"],
     ["interface", "iface"],
     ["direction"],
     ["hostname", "host"],
     ["mac", "mac_address"],
     ["domain", "query"],
     ["url"],
     ["rule_id"],
     ["rule_name", "rule_label"],
     ["policy_id"],
     ["policy_name"],
     ["mitre_tactic"],
     ["mitre_technique"]]

  const SRC_PORT_NAMES: seq<string> := ["src_port", "source_port"]
  const DST_PORT_NAMES: seq<string> := ["dst_port", "dest_port", "destination_port"]
  const RAW_NAMES: seq<string> := ["raw", "raw_line"]

  function NamesOf(keys: seq<Key>): (names: seq<string>)
    ensures |names| == |keys|
  {
    seq(|keys|, i requires 0 <= i < |keys| => Name(keys[i]))
  }

  lemma {:induction false} PickIsLookup(d: Details, keys: seq<Key>)
    ensures Pick(d, keys) == Lookup(d, NamesOf(keys))
  {
    if keys != [] {
      PickIsLookup(d, keys[1..]);
      assert NamesOf(keys)[1..] == NamesOf(keys[1..]);
    }
  }

  lemma ColumnNames(i: nat)
    requires i < 17
    ensures NamesOf(COLUMNS[i]) == PLAIN_NAMES[i]
  {
    if i < 4 {
      FirstNames(i);
    } else if i < 10 {
      MiddleNames(i);
    } else {
      LastNames(i);
    }
  }

  lemma FirstNames(i: nat)
    requires i < 4
    ensures NamesOf(COLUMNS[i]) == PLAIN_NAMES[i]
  {
  }

  lemma MiddleNames(i: nat)
    requires 4 <= i < 10
    ensures NamesOf(COLUMNS[i]) == PLAIN_NAMES[i]
  {
  }

  lemma LastNames(i: nat)
    requires 10 <= i < 17
    ensures NamesOf(COLUMNS[i]) == PLAIN_NAMES[i]
  {
  }

  lemma OtherNames()
    ensures NamesOf(SRC_PORT) == SRC_PORT_NAMES && NamesOf(DST_PORT) == DST_PORT_NAMES && NamesOf(RAW) == RAW_NAMES
  {
  }

  /** None of null, false, zero, blank and empty. */
  predicate Sets(v: Val) {
    v !in {Null, Bool(false), Int(0), Real(Finite(0.0)), Str(""), List([]), Dict(map[])}
  }

  /** What the columns of details `d` must hold, told from `d` and the key names alone, `raw` aside. */
  predicate Columns(env: Env, d: Details, f: Fields) {
    && (forall i :: 0 <= i < 17 ==> f.plain[i] == Lookup(d, PLAIN_NAMES[i]))
    && PortOf(env, Lookup(d, SRC_PORT_NAMES), f.srcPort) && PortOf(env, Lookup(d, DST_PORT_NAMES), f.dstPort)
    && f.socOrigin == Int(if "soc_origin" in d && Sets(d["soc_origin"]) then 1 else 0)
  }

  /** `p` is the port `v` stands for. */
  predicate PortOf(env: Env, v: Val, p: Val) {
    match v
    case Int(n) => p == v
    case Bool(b) => p == Int(if b then 1 else 0)
    case Real(Finite(r)) => p.Int? && IsTruncation(r, p.n)
    case Str(s) => p == if s != "" && env.parseInt(s).Some? then Int(env.parseInt(s).value) else Null
    case _ => p == Null
  }

  /** `n` is `r` without its fraction. */
  predicate IsTruncation(r: real, n: int) {
    if r >= 0.0 then n >= 0 && n as real <= r < (n + 1) as real
    else n <= 0 && (n - 1) as real < r <= n as real
  }

  lemma SocFlagIs(d: Details)
    ensures SocFlag(d) == Int(if "soc_origin" in d && Sets(d["soc_origin"]) then 1 else 0)
  {
  }

  lemma PortIs(env: Env, v: Val)
    requires IntOrNull(env, v).Some?
    ensures PortOf(env, v, IntOrNull(env, v).value)
  {
  }

  lemma ColumnsOf(env: Env, d: Details)
    requires Backfilled(env, d).Some?
    ensures Columns(env, d, Backfilled(env, d).value)
    ensures Backfilled(env, d).value.raw == Lookup(d, RAW_NAMES)
  {
    PickIsLookup(d, SRC_PORT);
    PickIsLookup(d, DST_PORT);
    PickIsLookup(d, RAW);
    OtherNames();
    SocFlagIs(d);
    PortIs(env, Pick(d, SRC_PORT));
    PortIs(env, Pick(d, DST_PORT));
    var f := Backfilled(env, d).value;
    forall i | 0 <= i < 17 ensures f.plain[i] == Lookup(d, PLAIN_NAMES[i]) {
      PickIsLookup(d, COLUMNS[i]);
      ColumnNames(i);
    }
  }

  /** The column `raw` of a fresh event: text of at most 4096 characters, cut from the front of what was given. */
  predicate RawOf(env: Env, v: Val, p: Val) {
    if v == Null then p == Null
    else
      var t := if v.Str? then v.s else env.text(v);
      p.Str? && p.s <= t && (|p.s| == RAW_LIMIT < |t| || p.s == t)
  }

  /** Both copies fill every column from the entries of that name, in their order of preference, and mark an
      event of SOC origin exactly when its details say so. */
  lemma CopiesFillColumns(env: Env, d: Details)
    ensures Backfilled(env, d).Some? ==>
              Columns(env, d, Backfilled(env, d).value) && Backfilled(env, d).value.raw == Lookup(d, RAW_NAMES)
    ensures Extracted(env, d).Some? ==>
              Columns(env, d, Extracted(env, d).value) && RawOf(env, Lookup(d, RAW_NAMES), Extracted(env, d).value.raw)
  {
    CopiesAgree(env, d);
    if Backfilled(env, d).Some? {
      ColumnsOf(env, d);
    }
  }
}
