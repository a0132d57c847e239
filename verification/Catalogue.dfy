/** app/migrations.py: the statements of the 49 shipped migrations, and the proof that each of them
    can be interrupted and rerun. */
module Catalogue {
  import opened Statements
  import opened Migrations

  const CURRENT := 50

  /** One migration: statements that only build, then changes to the columns of existing tables,
      then what depends on them. */
  datatype Migration = Migration(build: seq<Stmt>, columns: seq<Stmt>, rest: seq<Stmt>) {
    function Statements(): seq<Stmt> { build + columns + rest }
  }

  predicate Builds(s: Stmt) {
    s.CreateTable? || s.Seed? || s.ImportEvents? || (s.CreateIndex? && s.strict)
  }

  predicate Changes(s: Stmt) {
    s.AddColumn? || s.RenameColumn?
  }

  predicate Follows(s: Stmt) {
    || s.CreateTable? || s.Seed? || s.CreateIndex?
    || s.UniqueUuids? || s.StampAt? || s.FillAt? || s.KeyActions?
  }

  /** What comes last creates no table after an index that may be skipped, and stamps no row after keys were
      copied from the rows. */
  predicate LastInOrder(rest: seq<Stmt>) {
    && (forall i :: 0 <= i < |rest| ==> Follows(rest[i]))
    && (forall i, j :: 0 <= i < j < |rest| ==> Builds(rest[i]) || !rest[j].CreateTable?)
    && (forall i, j :: 0 <= i < j < |rest| && rest[i].KeyActions? ==> !rest[j].StampAt?)
  }

  /** The shape of every shipped migration: no table is created after its columns were changed. */
  predicate IsStaged(m: Migration) {
    && (forall i :: 0 <= i < |m.build| ==> Builds(m.build[i]))
    && (forall i :: 0 <= i < |m.columns| ==> Changes(m.columns[i]))
    && LastInOrder(m.rest)
    && Harmonious(m.columns)
    && (forall i, j :: 0 <= i < |m.columns| && 0 <= j < |m.rest| && m.rest[j].CreateTable? ==>
          m.columns[i].table != m.rest[j].table)
  }

  type Staged = m: Migration | IsStaged(m) witness Migration([], [], [])

  /** Statements that touch rows of events or of analyst actions. */
  predicate Touches(s: Stmt) {
    s.ImportEvents? || s.StampAt? || s.FillAt? || s.KeyActions?
  }

  predicate Untouching(l: seq<Stmt>) {
    forall i :: 0 <= i < |l| ==> !Touches(l[i])
  }

  /** Migrations that leave all those rows alone. */
  type Plain = m: Staged | Untouching(m.build) && Untouching(m.columns) && Untouching(m.rest)
    witness Migration([], [], [])

  predicate Unrenaming(l: seq<Stmt>) {
    forall i :: 0 <= i < |l| ==> !l[i].RenameColumn?
  }

  const CERTIFICATES := "certificates"

  /** No column of that table is touched. */
  predicate Sparing(l: seq<Stmt>) {
    forall i :: 0 <= i < |l| && Changes(l[i]) ==> l[i].table != CERTIFICATES
  }

  /** Migrations that rename nothing and leave the columns of certificates alone. */
  type Growing = m: Plain | Unrenaming(m.columns) && Sparing(m.columns) witness Migration([], [], [])

  lemma StagedIsHarmonious(m: Staged)
    ensures Harmonious(m.Statements())
  {
    var l, p, q := m.Statements(), |m.build|, |m.build| + |m.columns|;
    forall i, j | 0 <= i < j < |l| ensures Compatible(l[i], l[j]) {
      if i < p {
        assert l[i] == m.build[i];
      } else if j < q {
        assert l[i] == m.columns[i - p] && l[j] == m.columns[j - p];
      } else if i < q {
        assert l[i] == m.columns[i - p] && l[j] == m.rest[j - q];
      } else {
        assert l[i] == m.rest[i - q] && l[j] == m.rest[j - q];
      }
    }
  }

  // ---- notation ------------------------------------------------------------------------------

  function Index(name: string, table: string, cols: seq<string>): Stmt {
    CreateIndex(name, table, cols, true)
  }

  function TryIndex(name: string, table: string, cols: seq<string>): Stmt {
    CreateIndex(name, table, cols, false)
  }

  function TryAdd(table: string, col: string): Stmt {
    AddColumn(table, col, false)
  }

  function Building(build: seq<Stmt>): Growing
    requires forall i :: 0 <= i < |build| ==> Builds(build[i]) && !Touches(build[i])
  {
    Migration(build, [], [])
  }

  /** What may follow columns added to `table`. */
  predicate MayFollow(table: string, rest: seq<Stmt>) {
    LastInOrder(rest) && forall i :: 0 <= i < |rest| && rest[i].CreateTable? ==> rest[i].table != table
  }

  function Columns(table: string, cols: seq<string>, strict: bool): seq<Stmt> {
    seq(|cols|, i requires 0 <= i < |cols| => AddColumn(table, cols[i], strict))
  }

  function Adding(build: seq<Stmt>, table: string, cols: seq<string>, rest: seq<Stmt>): Growing
    requires forall i :: 0 <= i < |build| ==> Builds(build[i]) && !Touches(build[i])
    requires table != CERTIFICATES && MayFollow(table, rest) && Untouching(rest)
  {
    Migration(build, Columns(table, cols, true), rest)
  }

  function TryAdding(build: seq<Stmt>, table: string, cols: seq<string>, rest: seq<Stmt>): Growing
    requires forall i :: 0 <= i < |build| ==> Builds(build[i]) && !Touches(build[i])
    requires table != CERTIFICATES && MayFollow(table, rest) && Untouching(rest)
  {
    Migration(build, Columns(table, cols, false), rest)
  }

  // ---- the migrations ------------------------------------------------------------------------

  function V2(): Growing {
    Building([CreateTable("pending_interface_changes")])
  }

  function V3(): Growing {
    Building([CreateTable("certificates")])
  }

  function V4(): Growing {
    Building([CreateTable("dhcpv6_pools"), CreateTable("ra_settings"), CreateTable("wol_hosts"),
              CreateTable("captive_sessions"), CreateTable("captive_vouchers")])
  }

  function V5(): Growing {
    Building([CreateTable("config_versions"),
              Index("idx_config_versions_service_version", "config_versions", ["service", "version_num"]),
              CreateTable("health_snapshots"),
              Index("idx_health_snapshots_at", "health_snapshots", ["snapshot_at"])])
  }

  function V6(): Growing {
    Building([CreateTable("ids_threat_feeds"), Seed("ids_threat_feeds default row", "ids_threat_feeds", ["id"])])
  }

  function V7(): Growing {
    TryAdding([], "captive_vouchers", ["disabled"], [])
  }

  function V8(): Growing {
    TryAdding([], "ids_threat_feeds", ["abusech_dry_run"], [])
  }

  function V9(): Growing {
    TryAdding([], "dhcpv6_pools", ["interface_type", "enabled", "pd_prefix", "pd_prefix_len"], [])
  }

  function V10(): Growing {
    Building([CreateTable("siem_state")])
  }

  function V11(): Plain {
    Migration(
      [],
      [RenameColumn("certificates", "key_pem_enc", "private_key_enc"),
       RenameColumn("certificates", "serial_number", "serial"), TryAdd("certificates", "revoked_at")],
      [])
  }

  function V12(): Growing {
    TryAdding([], "advanced_firewall_nat", ["block_bogons", "block_private_nets"], [])
  }

  function V13(): Growing {
    Building([CreateTable("config_apply_jobs"),
              Index("idx_cap_jobs_feature_created", "config_apply_jobs", ["feature_key", "created_at"]),
              CreateTable("feature_applied_state")])
  }

  function V14(): Growing {
    TryAdding(
      [CreateTable("policy_routes")],
      "advanced_firewall_nat", ["nat_reflection", "kill_states_on_reload"],
      [])
  }

  function V15(): Growing {
    TryAdding([], "virtual_ips_configs", ["vhid", "carp_pass", "advskew", "advbase"], [])
  }

  function V16(): Growing {
    TryAdding([], "gateways", ["reachable", "last_seen"], [])
  }

  function V17(): Growing {
    Building([CreateTable("siem_cases"), Index("idx_siem_cases_status", "siem_cases", ["status"]),
              Index("idx_siem_cases_assigned", "siem_cases", ["assigned_to"]), CreateTable("siem_case_notes"),
              CreateTable("siem_case_events")])
  }

  function V18(): Growing {
    Building([CreateTable("siem_alert_actions"), Index("idx_saa_event_key", "siem_alert_actions", ["event_key"])])
  }

  function V19(): Growing {
    TryAdding(
      [],
      "groups", ["soc_tier"],
      [CreateTable("soc_portal_config"), Seed("soc_portal_config default row", "soc_portal_config", ["id"])])
  }

  function V20(): Growing {
    TryAdding([], "siem_cases", ["escalation_tier", "closure_type"], [])
  }

  function V21(): Growing {
    TryAdding([], "users", ["soc_tier"], [])
  }

  function V22(): Staged {
    Migration(
      [CreateTable(EVENTS), Index("idx_events_ts", EVENTS, ["ts"]), Index("idx_events_category", EVENTS, ["category"]),
       Index("idx_events_severity", EVENTS, ["severity"]), Index("idx_events_action", EVENTS, ["action"]),
       ImportEvents],
      [],
      [])
  }

  function V23(): Growing {
    Building([CreateTable("correlation_rules"),
              Seed("default correlation rules", "correlation_rules",
                   ["name", "category_filter", "action_filter", "group_by", "threshold", "window_seconds", "severity",
                    "mitre_technique"])])
  }

  function V24(): Growing {
    TryAdding([], "soc_portal_config", ["vip_prefix"], [])
  }

  function V25(): Growing {
    TryAdding([], "users", ["totp_secret", "totp_enabled"], [])
  }

  function V26(): Growing {
    TryAdding(
      [],
      "correlation_rules", ["auto_case", "prerequisite_action"],
      [CreateTable("api_tokens"), Index("idx_api_tokens_hash", "api_tokens", ["token_hash"])])
  }

  function V27(): Growing {
    Building([CreateTable("assets"), Index("idx_assets_ip", "assets", ["ip"]), CreateTable("identities"),
              Index("idx_identities_username", "identities", ["username"]), CreateTable("risk_scores"),
              Index("idx_risk_scores_score", "risk_scores", ["score"]), CreateTable("saved_searches"),
              CreateTable("playbooks"), CreateTable("playbook_runs"),
              Index("idx_playbook_runs_status", "playbook_runs", ["status"]), CreateTable("reports")])
  }

  function V28(): Growing {
    TryAdding([], "ids_config", ["watchdog_enabled"], [])
  }

  function V29(): Growing {
    TryAdding(
      [],
      "openvpn_servers", ["ca_id", "server_cert_id", "inactivity_timeout", "ping_method", "ping_interval",
                          "ping_timeout", "dh_parameter_length", "ecdh_curve", "data_encryption_algorithms",
                          "fallback_data_encryption_algorithm", "auth_digest_algorithm", "verbosity_level"],
      [CreateTable("vpn_portal_users"),
       Index("idx_vpn_portal_users_username", "vpn_portal_users", ["username"]),
       CreateTable("vpn_portal_login_attempts"),
       Index("idx_vpla_user_ts", "vpn_portal_login_attempts", ["username", "ts"]),
       Index("idx_vpla_ip_ts", "vpn_portal_login_attempts", ["remote_addr", "ts"]),
       CreateTable("vpn_portal_config"), Seed("vpn_portal_config default row", "vpn_portal_config", ["id"])])
  }

  function V30(): Growing {
    Building([CreateTable("mail_alerts_config"), Seed("mail_alerts_config default row", "mail_alerts_config", ["id"]),
              CreateTable("mail_alert_recipients")])
  }

  function V31(): Growing {
    Building([CreateTable("soc_blocked_ips"), CreateTable("siem_alert_assignments"),
              CreateTable("soc_active_sessions")])
  }

  function V32(): Growing {
    TryAdding(
      [],
      "soc_portal_config", ["public_url", "allowed_networks", "external_ingest_enabled", "retention_days"],
      [CreateTable("soc_recommendations"),
       Index("idx_soc_recommendations_status", "soc_recommendations", ["status"])])
  }

  function V33(): Growing {
    Building([CreateTable("captive_auth_attempts"),
              Index("idx_captive_auth_attempts_ip_time", "captive_auth_attempts", ["ip_address", "created_at"])])
  }

  /** Row by row as far as the table reaches, then the query that finds nothing. */
  function Stamps(n: nat): seq<Stmt> { seq(n + 1, (i: nat) => StampAt(i)) }

  function Fills(n: nat): seq<Stmt> { seq(n + 1, (i: nat) => FillAt(i)) }

  function EventIndexes(): seq<Stmt> {
    [UniqueUuids("idx_events_event_uuid"),
     TryIndex("idx_events_source_type", EVENTS, ["source_type"]), TryIndex("idx_events_src_ip", EVENTS, ["src_ip"]),
     TryIndex("idx_events_dst_ip", EVENTS, ["dst_ip"]), TryIndex("idx_events_dst_port", EVENTS, ["dst_port"]),
     TryIndex("idx_events_protocol", EVENTS, ["protocol"]), TryIndex("idx_events_interface", EVENTS, ["interface"]),
     TryIndex("idx_events_domain", EVENTS, ["domain"]), TryIndex("idx_events_rule_id", EVENTS, ["rule_id"]),
     TryIndex("idx_events_soc_origin", EVENTS, ["soc_origin"]),
     TryIndex("idx_events_ts_sev", EVENTS, ["ts", "severity"])]
  }

  /** For an events table of at most `n` rows. */
  function V34(n: nat): Staged {
    Migration([], Columns(EVENTS, [UUID] + FIELDS, false), Stamps(n) + Fills(n) + EventIndexes())
  }

  const ACTIONS := "siem_alert_actions"
  const ASSIGNMENTS := "siem_alert_assignments"

  function V35(): Staged {
    Migration(
      [],
      [TryAdd(ACTIONS, UUID), TryAdd(ASSIGNMENTS, UUID)],
      [KeyActions(ACTIONS), KeyActions(ASSIGNMENTS), TryIndex("idx_saa_event_uuid", ACTIONS, [UUID]),
       TryIndex("idx_saasign_event_uuid", ASSIGNMENTS, [UUID])])
  }

  function V36(): Growing {
    Migration(
      [CreateTable("firewall_events"), Index("idx_fwev_ts", "firewall_events", ["ts"]),
       Index("idx_fwev_action", "firewall_events", ["action"]),
       Index("idx_fwev_interface", "firewall_events", ["interface"]),
       Index("idx_fwev_direction", "firewall_events", ["direction"]),
       Index("idx_fwev_src_ip", "firewall_events", ["src_ip"]),
       Index("idx_fwev_dst_ip", "firewall_events", ["dst_ip"]),
       Index("idx_fwev_dst_port", "firewall_events", ["dst_port"]),
       Index("idx_fwev_protocol", "firewall_events", ["protocol"]),
       Index("idx_fwev_rule_id", "firewall_events", ["rule_id"]),
       Index("idx_fwev_event_uuid", "firewall_events", ["event_uuid"]),
       Index("idx_fwev_soc_origin", "firewall_events", ["soc_origin"]),
       Index("idx_fwev_severity_ts", "firewall_events", ["severity", "ts"])],
      [TryAdd("firewall_rules_lan", "log_enabled"), TryAdd("firewall_rules_wan", "log_enabled"),
       TryAdd("firewall_rules_floating", "log_enabled")],
      [])
  }

  function V37(): Growing {
    Building([CreateTable("alerts"), Index("idx_alerts_status", "alerts", ["status"]),
              Index("idx_alerts_severity", "alerts", ["severity"]),
              Index("idx_alerts_last_seen", "alerts", ["last_seen"]),
              Index("idx_alerts_dedup_open", "alerts", ["dedup_key"]),
              Index("idx_alerts_src_ip", "alerts", ["src_ip"]),
              Index("idx_alerts_dst_ip", "alerts", ["dst_ip"]),
              Index("idx_alerts_assigned_to", "alerts", ["assigned_to"]),
              Index("idx_alerts_case_id", "alerts", ["case_id"]), CreateTable("alert_actions"),
              Index("idx_alert_actions_alert_id", "alert_actions", ["alert_id"]),
              Index("idx_alert_actions_created_at", "alert_actions", ["created_at"]),
              CreateTable("alert_suppressions"),
              Index("idx_alert_supp_enabled", "alert_suppressions", ["enabled"]),
              Index("idx_alert_supp_match", "alert_suppressions", ["match_type", "match_value"]),
              CreateTable("case_alerts"), Index("idx_case_alerts_case_id", "case_alerts", ["case_id"]),
              Index("idx_case_alerts_alert_id", "case_alerts", ["alert_id"])])
  }

  function V38(): Growing {
    Building([CreateTable("collector_state"), CreateTable("event_dead_letter"),
              Index("idx_dlq_ts", "event_dead_letter", ["ts"]),
              Index("idx_dlq_source", "event_dead_letter", ["source_type", "source_name"])])
  }

  function V39(): Growing {
    Building([CreateTable("dns_events"), Index("idx_dns_ts", "dns_events", ["ts"]),
              Index("idx_dns_client_ip", "dns_events", ["client_ip"]),
              Index("idx_dns_query", "dns_events", ["query"]),
              Index("idx_dns_blocked", "dns_events", ["blocked"]),
              Index("idx_dns_action", "dns_events", ["action"]),
              Index("idx_dns_matched", "dns_events", ["matched_domain"]),
              Index("idx_dns_event_uuid", "dns_events", ["event_uuid"]),
              Seed("siem_state dns_logging_mode", "siem_state", ["key", "value"])])
  }

  function V40(): Growing {
    Adding(
      [],
      "dns_events", ["policy_source"],
      [Index("idx_dns_policy_source", "dns_events", ["policy_source"])])
  }

  function V41(): Growing {
    Building([CreateTable("alert_observations"),
              Index("idx_alert_obs_alert", "alert_observations", ["alert_id"]),
              Index("idx_alert_obs_time", "alert_observations", ["observed_at"]),
              Index("idx_alert_obs_event_uuid", "alert_observations", ["event_uuid"])])
  }

  function V42(): Growing {
    Adding(
      [],
      "firewall_events", ["policy_id", "policy_name", "zone_in", "zone_out", "nat_translated_src",
                          "nat_translated_dst"],
      [Index("idx_firewall_events_policy_id", "firewall_events", ["policy_id"])])
  }

  function V43(): Growing {
    Building([Seed("ids_threat_feeds dry run", "ids_threat_feeds", ["abusech_dry_run", "abusech_auth_key"])])
  }

  function V44(): Growing {
    Building([Seed("mail_alerts_config enabled", "mail_alerts_config",
                   ["id", "enabled", "smtp_username", "smtp_app_password"])])
  }

  function V45(): Growing {
    TryAdding([], "ids_config", ["ips_peer_interface", "allow_degraded_rules"], [])
  }

  function V46(): Growing {
    TryAdding([], "siem_case_events", ["event_uuid", "event_details"], [])
  }

  function V47(): Growing {
    TryAdding([], "ids_config", ["ips_fallback_reason"], [])
  }

  function V48(): Growing {
    TryAdding(
      [CreateTable("ids_blocked_ips"), Index("idx_ids_blocked_ips_ip", "ids_blocked_ips", ["ip"])],
      "ids_config", ["auto_block_ttl_seconds", "auto_block_sids"],
      [])
  }

  function V49(): Growing {
    Building([CreateTable("ddns_status")])
  }

  function V50(): Growing {
    TryAdding(
      [],
      "mail_alerts_config", ["per_source_cooldown_minutes", "digest_window_minutes"],
      [])
  }

  /** The migrations that leave events and analyst actions alone and rename nothing. */
  function GrowingEntry(v: nat): Growing {
    match v
    case 2 => V2()
    case 3 => V3()
    case 4 => V4()
    case 5 => V5()
    case 6 => V6()
    case 7 => V7()
    case 8 => V8()
    case 9 => V9()
    case 10 => V10()
    case 12 => V12()
    case 13 => V13()
    case 14 => V14()
    case 15 => V15()
    case 16 => V16()
    case 17 => V17()
    case 18 => V18()
    case 19 => V19()
    case 20 => V20()
    case 21 => V21()
    case 23 => V23()
    case 24 => V24()
    case 25 => V25()
    case 26 => V26()
    case 27 => V27()
    case 28 => V28()
    case 29 => V29()
    case 30 => V30()
    case 31 => V31()
    case 32 => V32()
    case 33 => V33()
    case 36 => V36()
    case 37 => V37()
    case 38 => V38()
    case 39 => V39()
    case 40 => V40()
    case 41 => V41()
    case 42 => V42()
    case 43 => V43()
    case 44 => V44()
    case 45 => V45()
    case 46 => V46()
    case 47 => V47()
    case 48 => V48()
    case 49 => V49()
    case 50 => V50()
    case _ => Building([])
  }

  /** The entry of the migration list for version `v`; the list runs from 2 to 50. The events table has at
      most `n` rows. */
  function Entry(v: nat, n: nat): Staged {
    match v
    case 11 => V11()
    case 22 => V22()
    case 34 => V34(n)
    case 35 => V35()
    case _ => GrowingEntry(v)
  }

  lemma OthersArePlain(v: nat, n: nat)
    requires v !in {22, 34, 35}
    ensures var m := Entry(v, n); Untouching(m.build) && Untouching(m.columns) && Untouching(m.rest)
  {
    var m: Plain := if v == 11 then V11() else GrowingEntry(v);
  }

  /** The only columns any migration renames. */
  const RENAMES: seq<(string, string)> := [("key_pem_enc", "private_key_enc"), ("serial_number", "serial")]

  predicate IsKnownRename(s: Stmt) {
    || s == RenameColumn(CERTIFICATES, RENAMES[0].0, RENAMES[0].1)
    || s == RenameColumn(CERTIFICATES, RENAMES[1].0, RENAMES[1].1)
  }

  lemma V11Renames(i: nat)
    requires i < |V11().Statements()|
    ensures V11().Statements()[i].RenameColumn? ==> IsKnownRename(V11().Statements()[i])
  {
  }

  lemma OthersSpare(v: nat, n: nat)
    requires v != 11
    ensures Unrenaming(Entry(v, n).Statements()) && Sparing(Entry(v, n).Statements())
  {
    var m := Entry(v, n);
    OthersColumns(v, n);
    StagesSpare(m);
  }

  lemma OthersColumns(v: nat, n: nat)
    requires v != 11
    ensures Unrenaming(Entry(v, n).columns) && Sparing(Entry(v, n).columns)
  {
    if v == 34 {
      assert |EVENTS| != |CERTIFICATES|;
    } else if v == 35 {
      assert |ACTIONS| != |CERTIFICATES| && |ASSIGNMENTS| != |CERTIFICATES|;
    } else if v != 22 {
      var m: Growing := GrowingEntry(v);
    }
  }

  lemma StagesSpare(m: Staged)
    requires Unrenaming(m.columns) && Sparing(m.columns)
    ensures Unrenaming(m.Statements()) && Sparing(m.Statements())
  {
    var l, p, q := m.Statements(), |m.build|, |m.build| + |m.columns|;
    forall i | 0 <= i < |l| ensures !l[i].RenameColumn? && (Changes(l[i]) ==> l[i].table != CERTIFICATES) {
      if i < p {
        assert l[i] == m.build[i];
      } else if i < q {
        assert l[i] == m.columns[i - p];
      } else {
        assert l[i] == m.rest[i - q];
      }
    }
  }

  function Shipped(env: Env, n: nat): Plan {
    Plan(CURRENT, Executing(env), (v: nat) => Entry(v, n).Statements())
  }

  lemma ShippedIsSound(env: Env, n: nat)
    ensures Shipped(env, n).Sound()
  {
    var plan := Shipped(env, n);
    forall v: nat ensures Restartable(plan.exec, plan.steps(v)) {
      StagedIsHarmonious(Entry(v, n));
      HarmoniousRestarts(env, Entry(v, n).Statements());
    }
  }

  /** The shipped migrations converge whatever the database they start from and wherever they are
      interrupted. */
  lemma ShippedConverges(env: Env, n: nat, k: nat, db: Db, fuels: seq<nat>, fuel: nat) returns (once: nat)
    requires db.versions == UpTo(k) && k <= CURRENT
    requires Attempt(Shipped(env, n), Attempts(Shipped(env, n), db, fuels), fuel).status == Done
    ensures Attempt(Shipped(env, n), db, once).status == Done
    ensures Attempt(Shipped(env, n), Attempts(Shipped(env, n), db, fuels), fuel).db
            == Attempt(Shipped(env, n), db, once).db
  {
    ShippedIsSound(env, n);
    once := Converges(Shipped(env, n), k, db, fuels, fuel);
  }

  /** So do whole start-ups, each of which bootstraps the version table before it migrates. */
  lemma ShippedStartUpsConverge(env: Env, n: nat, k: nat, db: Db, us: seq<StartUp>, fuel: nat) returns (once: nat)
    requires db.versions == UpTo(k) && k <= CURRENT && AllOrderly(us)
    requires StartUps(Shipped(env, n), db, us).Some? ==>
               Attempt(Shipped(env, n), Whole(StartUps(Shipped(env, n), db, us).value), fuel).status == Done
    ensures StartUps(Shipped(env, n), db, us).Some?
    ensures Attempt(Shipped(env, n), Whole(db), once).status == Done
    ensures Attempt(Shipped(env, n), Whole(StartUps(Shipped(env, n), db, us).value), fuel).db
            == Attempt(Shipped(env, n), Whole(db), once).db
  {
    ShippedIsSound(env, n);
    once := StartUpsConverge(Shipped(env, n), k, db, us, fuel);
  }
}
