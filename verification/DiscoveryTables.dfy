/** The tables of metadata.py, feeders.py, mlat_stats.py and app.py that decide
    which discovery topics exist. */
module DiscoveryTables {
  import opened Bytes
  import opened Feeders
  import opened FeederTables
  import opened Retained
  import opened Discovery
  import opened Convergence

  const METRICS: seq<string> := [
    "aircraft_total", "aircraft_adsb", "aircraft_mode_s", "aircraft_mlat", "aircraft_positions",
    "messages_per_sec", "max_range_nm", "tracks_total"
  ]

  const REMOTE_METRICS: seq<string> := ["remote_message_rate", "remote_modeac_rate"]

  const PERFORMANCE_METRICS: seq<string> := [
    "cpu_reader_pct", "cpu_demod_pct", "cpu_background_pct", "cpr_bad_positions",
    "cpu_aircraft_json_pct", "cpu_globe_json_pct", "cpu_bincraft_pct", "cpu_trace_json_pct",
    "cpu_heatmap_state_pct", "cpu_api_workers_pct", "cpu_api_update_pct", "cpu_remove_stale_pct"
  ]

  const BROKER_METRICS: seq<string> := ["mqtt_uptime", "mqtt_reconnects"]
  const UNIQUE_METRICS: seq<string> := ["unique_today"]

  const SDR_METRICS: seq<string> := [
    "sdr_gain_db", "sdr_ppm", "sdr_signal_dbfs", "sdr_noise_dbfs",
    "sdr_samples_dropped", "sdr_samples_lost", "sdr_strong_signals", "sdr_peak_signal_dbfs"
  ]

  const NEARBY_METRICS: seq<string> := ["aircraft_in_range", "nearest_distance_nm", "nearest_altitude_ft"]

  const DF_METRICS: seq<string> := [
    "df17_rate", "df11_rate", "df0_rate", "df16_rate", "df4_rate", "df20_rate", "df5_rate", "df21_rate", "df18_rate"
  ]

  const UAT_METRICS: seq<string> := ["uat_aircraft", "uat_message_rate", "uat_max_range_nm", "uat_signal_dbfs"]

  // ---------------------------------------------------------------- feeders and their metrics

  const MLAT_CAPABLE: set<string> := {
    "adsblol", "adsbfi", "airplaneslive", "planespotters", "theairtraffic", "flyitaly", "adsbitalia",
    "adsbexchange", "adsbone", "hpradar", "planewatch", "sdrmap", "radarbox"
  }
  const MLAT_SYNC_INCAPABLE: set<string> := {"radarbox", "sdrmap"}
  const MLAT_SYNC_CAPABLE: set<string> := MLAT_CAPABLE - MLAT_SYNC_INCAPABLE

  const BYTE_FEEDERS: set<string> := THROUGHPUT_KERNEL + {"planefinder"}
  const MESSAGE_FEEDERS: set<string> := {"fr24"}
  const PORTAL_AIRCRAFT_FEEDERS: set<string> := {"fr24", "adsbexchange"}
  const PORTAL_RATE_FEEDERS: set<string> := {"planefinder"}

  const MLAT_SYNC_METRICS: seq<string> := ["mlat_peers", "mlat_sync"]
  const MLAT_RESULT_METRICS: seq<string> := ["mlat_positions_rate", "mlat_aircraft"]
  const PORTAL_AIRCRAFT_METRICS: seq<string> := ["portal_aircraft", "portal_aircraft_adsb", "portal_aircraft_other"]
  const PORTAL_RATE_METRICS: seq<string> := ["portal_message_rate", "portal_modeac_rate", "portal_receive_rate"]

  function CommunityKeys(rows: seq<Community>): seq<string> {
    if rows == [] then [] else [rows[0].key] + CommunityKeys(rows[1..])
  }

  function ClientKeys(rows: seq<Client>): seq<string> {
    if rows == [] then [] else [rows[0].key] + ClientKeys(rows[1..])
  }

  const ALL_FEEDER_KEYS: seq<string> := CommunityKeys(COMMUNITY_FEEDERS) + ClientKeys(PROPRIETARY_FEEDERS)

  const UPTIME_METRICS: seq<string> := ["uptime"]
  const THROUGHPUT_METRICS: seq<string> := ["bytes_sent", "bytes_received"]
  const THROUGHPUT_RATE_METRICS: seq<string> := ["bytes_sent_rate", "bytes_received_rate"]
  const MESSAGES_METRICS: seq<string> := ["messages"]
  const MESSAGES_RATE_METRICS: seq<string> := ["messages_rate"]

  const UPTIME_GROUP := MetricGroup(UPTIME_METRICS, set k <- ALL_FEEDER_KEYS)
  const BYTES_GROUP := MetricGroup(THROUGHPUT_METRICS, BYTE_FEEDERS)
  const MESSAGES_GROUP := MetricGroup(MESSAGES_METRICS, MESSAGE_FEEDERS)
  const BYTE_RATES_GROUP := MetricGroup(THROUGHPUT_RATE_METRICS, BYTE_FEEDERS)
  const MESSAGE_RATES_GROUP := MetricGroup(MESSAGES_RATE_METRICS, MESSAGE_FEEDERS)
  const PORTAL_AIRCRAFT_GROUP := MetricGroup(PORTAL_AIRCRAFT_METRICS, PORTAL_AIRCRAFT_FEEDERS)
  const PORTAL_RATES_GROUP := MetricGroup(PORTAL_RATE_METRICS, PORTAL_RATE_FEEDERS)
  const MLAT_SYNC_GROUP := MetricGroup(MLAT_SYNC_METRICS, MLAT_SYNC_CAPABLE)
  const MLAT_RESULT_GROUP := MetricGroup(MLAT_RESULT_METRICS, MLAT_CAPABLE)

  const METRIC_GROUPS: seq<MetricGroup> := [
    UPTIME_GROUP, BYTES_GROUP, MESSAGES_GROUP, BYTE_RATES_GROUP, MESSAGE_RATES_GROUP,
    PORTAL_AIRCRAFT_GROUP, PORTAL_RATES_GROUP, MLAT_SYNC_GROUP, MLAT_RESULT_GROUP
  ]

  /** What a pass retracts: the suffixes of every metric table, listed apart. */
  const METRIC_SUFFIXES: seq<string> :=
    THROUGHPUT_METRICS + THROUGHPUT_RATE_METRICS + MESSAGES_METRICS + MESSAGES_RATE_METRICS + UPTIME_METRICS
    + MLAT_SYNC_METRICS + MLAT_RESULT_METRICS + PORTAL_AIRCRAFT_METRICS + PORTAL_RATE_METRICS

  const REPORT_BINARY_SENSORS: seq<Report> := [
    Report.Report("piaware", "mlat_ok", "mlat"), Report.Report("piaware", "radio_ok", "radio")
  ]

  const DEVICE_ID: string := "aviation_feeder"
  const NEARBY_DEVICE_ID: string := "aviation_feeder_nearby"
  const FEEDERS_DEVICE_ID: string := "aviation_feeder_feeders"
  const UAT_DEVICE_ID: string := "aviation_feeder_uat"
  const DF_DEVICE_ID: string := "aviation_feeder_message_types"

  /** The tables, for any per-feeder ones. */
  function TablesWith(feederKeys: seq<string>, metricGroups: seq<MetricGroup>, metricSuffixes: seq<string>,
                      reports: seq<Report>): Tables {
    Tables(
      DEVICE_ID, NEARBY_DEVICE_ID, FEEDERS_DEVICE_ID, UAT_DEVICE_ID, DF_DEVICE_ID,
      METRICS + REMOTE_METRICS + PERFORMANCE_METRICS, NEARBY_METRICS + ["nearest_aircraft"], SDR_METRICS,
      UNIQUE_METRICS, "emergency_squawk", UAT_METRICS, DF_METRICS, BROKER_METRICS,
      feederKeys, metricGroups, metricSuffixes, reports)
  }

  const TABLES: Tables := TablesWith(ALL_FEEDER_KEYS, METRIC_GROUPS, METRIC_SUFFIXES, REPORT_BINARY_SENSORS)

  // ---------------------------------------------------------------- the groups are apart

  predicate HealthKey(k: string) {
    |k| > 1 && (k[0] == 'a' || k[0] == 't' || k[0] == 'r' || k[0] == 'c' || (k[0] == 'm' && k[1] != 'q'))
  }

  predicate SdrKey(k: string) {
    |k| > 1 && k[0] == 's'
  }

  predicate UniqueKey(k: string) {
    |k| > 1 && k[0] == 'u'
  }

  predicate BrokerKey(k: string) {
    |k| > 1 && k[0] == 'm' && k[1] == 'q'
  }

  lemma MetricKeys()
    ensures forall k <- METRICS :: HealthKey(k)
  {
  }

  lemma RemoteKeys()
    ensures forall k <- REMOTE_METRICS :: HealthKey(k)
  {
  }

  lemma PerformanceKeys()
    ensures forall k <- PERFORMANCE_METRICS :: HealthKey(k)
  {
  }

  lemma SdrKeys()
    ensures forall k <- SDR_METRICS :: SdrKey(k)
  {
  }

  lemma OtherKeys()
    ensures (forall k <- UNIQUE_METRICS :: UniqueKey(k)) && forall k <- BROKER_METRICS :: BrokerKey(k)
  {
  }

  lemma HealthKeys()
    ensures forall k <- METRICS + REMOTE_METRICS + PERFORMANCE_METRICS :: HealthKey(k)
  {
    MetricKeys();
    RemoteKeys();
    PerformanceKeys();
  }

  /** The devices' names differ in length. */
  lemma DevicesDiffer()
    ensures |DEVICE_ID| == 15 && |NEARBY_DEVICE_ID| == 22 && |FEEDERS_DEVICE_ID| == 23
    ensures |UAT_DEVICE_ID| == 19 && |DF_DEVICE_ID| == 29
  {
  }

  /** What makes tables ok. */
  lemma KeysApart(t: Tables)
    requires |t.mainDevice| == 15 && |t.nearbyDevice| == 22 && |t.feedersDevice| == 23
    requires |t.uatDevice| == 19 && |t.dfDevice| == 29
    requires (forall k <- t.health :: HealthKey(k)) && (forall k <- t.sdr :: SdrKey(k))
    requires (forall k <- t.unique :: UniqueKey(k)) && (forall k <- t.broker :: BrokerKey(k)) && Covered(t)
    ensures TablesOk(t)
  {
  }

  /** The main, nearby, UAT and message-type tables share no topic, whatever
      feeders and per-feeder metrics there are. */
  lemma TablesWithOk(feederKeys: seq<string>, metricGroups: seq<MetricGroup>, metricSuffixes: seq<string>, reports: seq<Report>)
    requires forall g <- metricGroups, suffix <- g.suffixes :: suffix in metricSuffixes
    ensures TablesOk(TablesWith(feederKeys, metricGroups, metricSuffixes, reports))
  {
    DevicesDiffer();
    HealthKeys();
    SdrKeys();
    OtherKeys();
    KeysApart(TablesWith(feederKeys, metricGroups, metricSuffixes, reports));
  }

  // ---------------------------------------------------------------- what is published can be retracted

  lemma EachInSum<T>(a: seq<T>, b: seq<T>, c: seq<T>, d: seq<T>, e: seq<T>, f: seq<T>, g: seq<T>, h: seq<T>, i: seq<T>, x: T)
    requires x in a || x in b || x in c || x in d || x in e || x in f || x in g || x in h || x in i
    ensures x in a + b + c + d + e + f + g + h + i
  {
  }

  /** Every suffix of every metric group is on the list of those retracted. */
  lemma SuffixesListed()
    ensures forall g <- METRIC_GROUPS, suffix <- g.suffixes :: suffix in METRIC_SUFFIXES
  {
    forall g, suffix | g in METRIC_GROUPS && suffix in g.suffixes ensures suffix in METRIC_SUFFIXES {
      NineGroups(g, suffix);
      EachInSum(THROUGHPUT_METRICS, THROUGHPUT_RATE_METRICS, MESSAGES_METRICS, MESSAGES_RATE_METRICS, UPTIME_METRICS,
                MLAT_SYNC_METRICS, MLAT_RESULT_METRICS, PORTAL_AIRCRAFT_METRICS, PORTAL_RATE_METRICS, suffix);
    }
  }

  lemma NineGroups(g: MetricGroup, suffix: string)
    ensures g in METRIC_GROUPS && suffix in g.suffixes ==>
      || suffix in THROUGHPUT_METRICS || suffix in THROUGHPUT_RATE_METRICS || suffix in MESSAGES_METRICS
      || suffix in MESSAGES_RATE_METRICS || suffix in UPTIME_METRICS || suffix in MLAT_SYNC_METRICS
      || suffix in MLAT_RESULT_METRICS || suffix in PORTAL_AIRCRAFT_METRICS || suffix in PORTAL_RATE_METRICS
  {
    if g in METRIC_GROUPS {
      OneOfNine(g, UPTIME_GROUP, BYTES_GROUP, MESSAGES_GROUP, BYTE_RATES_GROUP, MESSAGE_RATES_GROUP,
                PORTAL_AIRCRAFT_GROUP, PORTAL_RATES_GROUP, MLAT_SYNC_GROUP, MLAT_RESULT_GROUP);
    }
  }

  lemma OneOfNine<T>(x: T, a: T, b: T, c: T, d: T, e: T, f: T, g: T, h: T, i: T)
    requires x in [a, b, c, d, e, f, g, h, i]
    ensures x == a || x == b || x == c || x == d || x == e || x == f || x == g || x == h || x == i
  {
  }

  /** The tables as they stand meet what convergence needs. */
  lemma TablesAreOk()
    ensures TablesOk(TABLES)
  {
    SuffixesListed();
    TablesWithOk(ALL_FEEDER_KEYS, METRIC_GROUPS, METRIC_SUFFIXES, REPORT_BINARY_SENSORS);
  }

  // ---------------------------------------------------------------- names

  lemma MetricNames()
    ensures AllLack(METRICS, '/')
  {
    FirstMetrics(METRICS);
    LastMetrics(METRICS);
  }

  lemma FirstMetrics(names: seq<string>)
    requires names == METRICS
    ensures forall i :: 0 <= i < 4 ==> Lacks(names[i], '/')
  {
  }

  lemma LastMetrics(names: seq<string>)
    requires names == METRICS
    ensures forall i :: 4 <= i < 8 ==> Lacks(names[i], '/')
  {
  }

  lemma PerformanceNames()
    ensures AllLack(PERFORMANCE_METRICS, '/')
  {
    var names := PERFORMANCE_METRICS;
    FirstSix(names);
    LastSix(names);
  }

  lemma FirstSix(names: seq<string>)
    requires names == PERFORMANCE_METRICS
    ensures forall i :: 0 <= i < 6 ==> Lacks(names[i], '/')
  {
  }

  lemma LastSix(names: seq<string>)
    requires names == PERFORMANCE_METRICS
    ensures forall i :: 6 <= i < 12 ==> Lacks(names[i], '/')
  {
  }

  lemma SdrNames()
    ensures AllLack(SDR_METRICS, '/')
  {
  }

  lemma NearbyNames()
    ensures AllLack(NEARBY_METRICS + ["nearest_aircraft"], '/')
  {
  }

  lemma SafetyNames()
    ensures AllLack(UNIQUE_METRICS, '/') && Lacks("emergency_squawk", '/')
  {
  }

  lemma UatNames()
    ensures AllLack(UAT_METRICS, '/')
  {
  }

  lemma LinkNames()
    ensures AllLack(BROKER_METRICS, '/') && AllLack(REMOTE_METRICS, '/')
  {
  }

  lemma DfNames()
    ensures AllLack(DF_METRICS, '/')
  {
  }

  lemma DeviceNames()
    ensures Lacks(DEVICE_ID, '/') && Lacks(NEARBY_DEVICE_ID, '/') && Lacks(FEEDERS_DEVICE_ID, '/')
    ensures Lacks(UAT_DEVICE_ID, '/') && Lacks(DF_DEVICE_ID, '/')
  {
  }

  lemma CountSuffixNames()
    ensures AllLack(THROUGHPUT_METRICS, '/') && AllLack(THROUGHPUT_RATE_METRICS, '/') && AllLack(MESSAGES_METRICS, '/')
    ensures AllLack(MESSAGES_RATE_METRICS, '/') && AllLack(UPTIME_METRICS, '/')
  {
  }

  lemma MlatSuffixNames()
    ensures AllLack(MLAT_SYNC_METRICS, '/') && AllLack(MLAT_RESULT_METRICS, '/')
  {
  }

  lemma PortalSuffixNames()
    ensures AllLack(PORTAL_AIRCRAFT_METRICS, '/') && AllLack(PORTAL_RATE_METRICS, '/')
  {
  }

  lemma SuffixNames()
    ensures AllLack(METRIC_SUFFIXES, '/')
  {
    CountSuffixNames();
    MlatSuffixNames();
    PortalSuffixNames();
  }

  lemma ReportNames()
    ensures forall r <- REPORT_BINARY_SENSORS :: Lacks(r.key, '/') && Lacks(r.key, '_') && Lacks(r.suffix, '/')
  {
  }

  predicate KeyOk(key: string) {
    Lacks(key, '/') && Lacks(key, '_')
  }

  lemma KeysA()
    ensures KeyOk("adsblol") && KeyOk("adsbfi") && KeyOk("airplaneslive") && KeyOk("planespotters")
  {
  }

  lemma KeysB()
    ensures KeyOk("theairtraffic") && KeyOk("avdelphi") && KeyOk("flyitaly") && KeyOk("adsbitalia")
  {
  }

  lemma KeysC()
    ensures KeyOk("adsbexchange") && KeyOk("adsbone") && KeyOk("hpradar") && KeyOk("piaware") && KeyOk("fr24")
  {
  }

  lemma KeysD()
    ensures KeyOk("planefinder") && KeyOk("opensky") && KeyOk("radarbox") && KeyOk("adsbhub")
  {
  }

  lemma KeysE()
    ensures KeyOk("planewatch") && KeyOk("sdrmap") && KeyOk("uk1090")
  {
  }

  lemma CommunityRows(rows: seq<Community>)
    requires rows == COMMUNITY_FEEDERS
    ensures forall row <- rows :: KeyOk(row.key)
  {
    KeysA();
    KeysB();
    KeysC();
  }

  lemma ClientRows(rows: seq<Client>)
    requires rows == PROPRIETARY_FEEDERS
    ensures forall row <- rows :: KeyOk(row.key)
  {
    KeysC();
    KeysD();
    KeysE();
  }

  lemma {:induction false} CommunityNames(rows: seq<Community>)
    requires forall row <- rows :: KeyOk(row.key)
    ensures forall key <- CommunityKeys(rows) :: KeyOk(key)
  {
    if rows != [] {
      CommunityNames(rows[1..]);
    }
  }

  lemma {:induction false} ClientNames(rows: seq<Client>)
    requires forall row <- rows :: KeyOk(row.key)
    ensures forall key <- ClientKeys(rows) :: KeyOk(key)
  {
    if rows != [] {
      ClientNames(rows[1..]);
    }
  }

  lemma FeederNames(community: seq<Community>, clients: seq<Client>)
    requires community == COMMUNITY_FEEDERS && clients == PROPRIETARY_FEEDERS
    ensures forall key <- CommunityKeys(community) + ClientKeys(clients) :: KeyOk(key)
  {
    CommunityRows(community);
    ClientRows(clients);
    CommunityNames(community);
    ClientNames(clients);
  }

  lemma NamesWithOk(feederKeys: seq<string>, metricGroups: seq<MetricGroup>, metricSuffixes: seq<string>, reports: seq<Report>)
    requires (forall key <- feederKeys :: KeyOk(key)) && AllLack(metricSuffixes, '/')
    requires forall r <- reports :: Lacks(r.key, '/') && Lacks(r.key, '_') && Lacks(r.suffix, '/')
    ensures NamesOk(TablesWith(feederKeys, metricGroups, metricSuffixes, reports))
  {
    MetricNames();
    PerformanceNames();
    SdrNames();
    NearbyNames();
    SafetyNames();
    UatNames();
    LinkNames();
    DfNames();
    DeviceNames();
  }

  /** No name in the tables holds a slash, and no feeder key an underscore. */
  lemma NamesAreOk()
    ensures NamesOk(TABLES)
  {
    SuffixNames();
    ReportNames();
    FeederNames(COMMUNITY_FEEDERS, PROPRIETARY_FEEDERS);
    NamesWithOk(ALL_FEEDER_KEYS, METRIC_GROUPS, METRIC_SUFFIXES, REPORT_BINARY_SENSORS);
  }

  // ---------------------------------------------------------------- a config left behind

  /** A run with feeder status on and one feeder enabled, and the same with both off. */
  const STATUS_ON: Setup := Setup(true, true, true, false, false, false, false, false, "aviation_feeder", ["fr24"], _ => "{}")
  const STATUS_OFF: Setup := STATUS_ON.(feederStatus := false, enabled := [])

  lemma Fr24Known(rows: seq<Client>)
    requires rows == PROPRIETARY_FEEDERS
    ensures "fr24" in ClientKeys(rows)
  {
    assert rows[1].key == "fr24";
    KeyIn(rows, rows[1]);
  }

  lemma {:induction false} KeyIn(rows: seq<Client>, row: Client)
    requires row in rows
    ensures row.key in ClientKeys(rows)
  {
    if row != rows[0] {
      KeyIn(rows[1..], row);
    }
  }

  /** One whole pass each, on a broker that was empty: the feeder's config is
      still there, and nothing will remove it. */
  lemma FeederLeftBehind() returns (adv: seq<Topic>, st: seq<Topic>, adv': seq<Topic>, st': seq<Topic>)
    ensures Computed(TABLES, STATUS_ON, adv, st) && Computed(TABLES, STATUS_OFF, adv', st')
    ensures var after := DeliverAll(DeliverAll(map[], Pass(TABLES, STATUS_ON, adv, st)), Pass(TABLES, STATUS_OFF, adv', st'));
            !Converged(TABLES, STATUS_OFF, after) && Holds(after, ConnectionTopic(TABLES, "fr24")) == Some("{}")
  {
    TablesAreOk();
    Fr24Known(PROPRIETARY_FEEDERS);
    adv, st, adv', st' := LeftBehind(TABLES, STATUS_ON, STATUS_OFF, "fr24", "{}");
  }

  lemma LeftBehind(t: Tables, on: Setup, off: Setup, key: string, text: string)
    returns (adv: seq<Topic>, st: seq<Topic>, adv': seq<Topic>, st': seq<Topic>)
    requires TablesOk(t) && on.feederStatus && !off.feederStatus && on.enabled == [key] && off.enabled == []
    requires key in t.feederKeys && text != "" && (forall x :: on.body(x) == off.body(x) == text)
    ensures Computed(t, on, adv, st) && Computed(t, off, adv', st')
    ensures var after := DeliverAll(DeliverAll(map[], Pass(t, on, adv, st)), Pass(t, off, adv', st'));
            !Converged(t, off, after) && Holds(after, ConnectionTopic(t, key)) == Some(text)
  {
    adv, st := PassExists(t, on);
    adv', st' := PassExists(t, off);
    TurnedOffStays(t, on, adv, st, off, adv', st', key);
  }
}
