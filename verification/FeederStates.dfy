/** Per-feeder status and the states published each cycle (feeders.py, app.py). */
module FeederStates {
  import opened Bytes
  import opened Feeders
  import opened FeederTables
  import opened Retained
  import opened Discovery
  import opened DiscoveryTables
  import opened Netdiag
  import opened Throughput
  import opened Rates

  // ---------------------------------------------------------------- status

  datatype Status = Status(key: string, connected: bool)

  datatype Value = Num(r: real) | Text(s: string) | Flag(on: bool)

  /** What a feeder's own status endpoint said: whether it is connected, if it
      says so, and the fields it reported. */
  datatype Reported = Reported(connected: Option<bool>, fields: map<string, Value>)

  /** Everything looked up outside the options. */
  datatype Observed = Observed(
    connectors: map<string, int>, processes: Processes, established: set<nat>, reports: map<string, Reported>)

  predicate CommunityUp(o: Observed, row: Community) {
    var name := row.host + ":" + row.port;
    name in o.connectors && o.connectors[name] > 0
  }

  predicate ClientUp(o: Observed, row: Client) {
    var pids := PidsOf(o.processes.cmdByPid, row.token);
    match row.mode
    case Report =>
      if row.key in o.reports && o.reports[row.key].connected.Some? then o.reports[row.key].connected.value
      else pids != {}
    case Proc => pids != {}
    case Conn => pids != {} && o.processes.provider(pids) * o.established != {}
  }

  function CommunityStatus(options: Options, o: Observed, rows: seq<Community>): seq<Status> {
    if rows == [] then []
    else
      (if Enabled(options, rows[0].flag) then [Status(rows[0].key, CommunityUp(o, rows[0]))] else [])
      + CommunityStatus(options, o, rows[1..])
  }

  function ClientStatus(options: Options, o: Observed, rows: seq<Client>): seq<Status> {
    if rows == [] then []
    else
      (if Enabled(options, rows[0].flag) then [Status(rows[0].key, ClientUp(o, rows[0]))] else [])
      + ClientStatus(options, o, rows[1..])
  }

  function KeysOf(status: seq<Status>): seq<string> {
    if status == [] then [] else [status[0].key] + KeysOf(status[1..])
  }

  lemma {:induction false} KeysOfConcat(xs: seq<Status>, ys: seq<Status>)
    ensures KeysOf(xs + ys) == KeysOf(xs) + KeysOf(ys)
  {
    if xs == [] {
      assert xs + ys == ys;
    } else {
      assert (xs + ys)[1..] == xs[1..] + ys && (xs + ys)[0] == xs[0];
      KeysOfConcat(xs[1..], ys);
    }
  }

  function CommunityEnabled(options: Options, rows: seq<Community>): seq<string> {
    if rows == [] then []
    else (if Enabled(options, rows[0].flag) then [rows[0].key] else []) + CommunityEnabled(options, rows[1..])
  }

  function ClientsEnabled(options: Options, rows: seq<Client>): seq<string> {
    if rows == [] then []
    else (if Enabled(options, rows[0].flag) then [rows[0].key] else []) + ClientsEnabled(options, rows[1..])
  }

  function EnabledKeys(options: Options, community: seq<Community>, clients: seq<Client>): seq<string> {
    CommunityEnabled(options, community) + ClientsEnabled(options, clients)
  }

  lemma OneKey(s: Status)
    ensures KeysOf([s]) == [s.key]
  {
    assert [s][1..] == [];
  }

  lemma {:induction false} CommunityKeysFixed(options: Options, o: Observed, rows: seq<Community>)
    ensures KeysOf(CommunityStatus(options, o, rows)) == CommunityEnabled(options, rows)
  {
    if rows != [] {
      var s, rest := Status(rows[0].key, CommunityUp(o, rows[0])), CommunityStatus(options, o, rows[1..]);
      CommunityKeysFixed(options, o, rows[1..]);
      OneKey(s);
      KeysOfConcat([s], rest);
      KeysOfConcat([], rest);
    }
  }

  lemma {:induction false} ClientKeysFixed(options: Options, o: Observed, rows: seq<Client>)
    ensures KeysOf(ClientStatus(options, o, rows)) == ClientsEnabled(options, rows)
  {
    if rows != [] {
      var s, rest := Status(rows[0].key, ClientUp(o, rows[0])), ClientStatus(options, o, rows[1..]);
      ClientKeysFixed(options, o, rows[1..]);
      OneKey(s);
      KeysOfConcat([s], rest);
      KeysOfConcat([], rest);
    }
  }

  /** Which feeders are reported depends on the options alone: discovery and
      every later cycle enumerate the same ones, in the same order. */
  lemma SameFeedersEachCycle(options: Options, o: Observed, community: seq<Community>, clients: seq<Client>)
    ensures KeysOf(CommunityStatus(options, o, community) + ClientStatus(options, o, clients))
         == EnabledKeys(options, community, clients)
  {
    CommunityKeysFixed(options, o, community);
    ClientKeysFixed(options, o, clients);
    KeysOfConcat(CommunityStatus(options, o, community), ClientStatus(options, o, clients));
  }

  lemma {:induction false} CommunityKnown(options: Options, rows: seq<Community>)
    ensures forall key <- CommunityEnabled(options, rows) :: key in CommunityKeys(rows)
  {
    if rows != [] {
      CommunityKnown(options, rows[1..]);
    }
  }

  lemma {:induction false} ClientsKnown(options: Options, rows: seq<Client>)
    ensures forall key <- ClientsEnabled(options, rows) :: key in ClientKeys(rows)
  {
    if rows != [] {
      ClientsKnown(options, rows[1..]);
    }
  }

  /** Every enabled feeder is among the known ones, which the pass retracts from. */
  lemma EnabledAreKnown(options: Options, community: seq<Community>, clients: seq<Client>)
    ensures forall key <- EnabledKeys(options, community, clients) :: key in CommunityKeys(community) + ClientKeys(clients)
  {
    CommunityKnown(options, community);
    ClientsKnown(options, clients);
  }

  lemma {:induction false} MeasuredIsEnabled(options: Options, rows: seq<Client>, key: string)
    requires Measured(rows, options, key)
    ensures key in ClientsEnabled(options, rows)
  {
    var row :| row in rows && row.key == key && Enabled(options, row.flag);
    if row != rows[0] {
      assert row in rows[1..];
      MeasuredIsEnabled(options, rows[1..], key);
    }
  }

  method ComputeFeederStatus(options: Options, o: Observed, community: seq<Community>, clients: seq<Client>)
    returns (out: seq<Status>)
    ensures out == CommunityStatus(options, o, community) + ClientStatus(options, o, clients)
  {
    out := [];
    assert community[0..] == community && clients[0..] == clients;
    for n := 0 to |community|
      invariant out + CommunityStatus(options, o, community[n..]) == CommunityStatus(options, o, community)
    {
      var row := community[n];
      assert community[n..][1..] == community[n + 1..];
      ghost var rest := CommunityStatus(options, o, community[n + 1..]);
      if !Enabled(options, row.flag) {
        assert [] + rest == rest;
        continue;
      }
      var name := row.host + ":" + row.port;
      var s := Status(row.key, name in o.connectors && o.connectors[name] > 0);
      ConcatAssoc(out, [s], rest);
      out := out + [s];
    }
    ghost var before := out;
    assert before == CommunityStatus(options, o, community);
    ghost var all := ClientStatus(options, o, clients);
    assert out + all == before + all;
    for n := 0 to |clients|
      invariant out + ClientStatus(options, o, clients[n..]) == before + all
    {
      var row := clients[n];
      assert clients[n..][1..] == clients[n + 1..];
      ghost var rest := ClientStatus(options, o, clients[n + 1..]);
      if !Enabled(options, row.flag) {
        assert [] + rest == rest;
        continue;
      }
      var up := ClientConnected(o, row);
      ConcatAssoc(out, [Status(row.key, up)], rest);
      out := out + [Status(row.key, up)];
    }
  }

  method ClientConnected(o: Observed, row: Client) returns (up: bool)
    ensures up == ClientUp(o, row)
  {
    var pids := PidsOf(o.processes.cmdByPid, row.token);
    if row.mode.Report? {
      if row.key in o.reports && o.reports[row.key].connected.Some? {
        return o.reports[row.key].connected.value;
      }
      return pids != {};
    }
    if pids == {} {
      return false;
    }
    return row.mode.Proc? || o.processes.provider(pids) * o.established != {};
  }

  /** A community feeder is up exactly when readsb reports its connector, by host
      and port, as connected for some time. */
  lemma CommunityConnected(o: Observed, row: Community, name: string)
    requires name == row.host + ":" + row.port
    ensures CommunityUp(o, row) <==> exists secs :: 0 < secs && (name, secs) in o.connectors.Items
  {
    if CommunityUp(o, row) {
      assert (name, o.connectors[name]) in o.connectors.Items;
    }
  }

  /** The process has one of the sockets. */
  ghost predicate HasEstablished(o: Observed, row: Client, inode: nat) {
    inode in o.processes.provider(PidsOf(o.processes.cmdByPid, row.token)) && inode in o.established
  }

  /** A client feeder none of whose processes runs is down, unless it says itself
      that it is up; one that has to be seen connected is also down unless one of
      its sockets is established. */
  lemma ClientConnectedExactly(o: Observed, row: Client)
    ensures var running := exists pid :: pid in o.processes.cmdByPid && Contains(o.processes.cmdByPid[pid], row.token);
            match row.mode
            case Proc => ClientUp(o, row) <==> running
            case Conn => ClientUp(o, row) <==> running && exists inode :: HasEstablished(o, row, inode)
            case Report =>
              ClientUp(o, row)
              <==> if row.key in o.reports && o.reports[row.key].connected.Some? then o.reports[row.key].connected == Some(true)
                   else running
  {
    var pids := PidsOf(o.processes.cmdByPid, row.token);
    if pid :| pid in o.processes.cmdByPid && Contains(o.processes.cmdByPid[pid], row.token) {
      assert pid in pids;
    }
    var both := o.processes.provider(pids) * o.established;
    if inode :| HasEstablished(o, row, inode) {
      assert inode in both;
    } else {
      assert forall inode :: inode in both ==> HasEstablished(o, row, inode);
    }
  }

  // ---------------------------------------------------------------- MLAT

  type Readings = map<string, map<string, Value>>

  predicate HasMlat(key: string, suffix: string) {
    key in MLAT_CAPABLE && (suffix in MLAT_RESULT_METRICS || (suffix in MLAT_SYNC_METRICS && key in MLAT_SYNC_CAPABLE))
  }

  function Reading(stats: Readings, key: string, suffix: string): real {
    if key in stats && suffix in stats[key] && stats[key][suffix].Num? then stats[key][suffix].r else 0.0
  }

  /** One value for every MLAT sensor of the enabled feeders, 0 without one. */
  method MlatStates(stats: Readings, enabled: set<string>) returns (out: map<(string, string), real>)
    ensures forall k, s :: (k, s) in out <==> k in enabled && HasMlat(k, s)
    ensures forall k, s :: (k, s) in out ==> out[(k, s)] == Reading(stats, k, s)
  {
    out := map[];
    var pending := MLAT_CAPABLE * enabled;
    while pending != {}
      invariant pending <= MLAT_CAPABLE * enabled
      invariant forall k, s :: (k, s) in out <==> k in enabled && k !in pending && HasMlat(k, s)
      invariant forall k, s :: (k, s) in out ==> out[(k, s)] == Reading(stats, k, s)
      decreases |pending|
    {
      var key :| key in pending;
      var suffixes := MLAT_RESULT_METRICS;
      if key in MLAT_SYNC_CAPABLE {
        suffixes := suffixes + MLAT_SYNC_METRICS;
      }
      out := AddReadings(stats, key, suffixes, out);
      pending := pending - {key};
    }
  }

  method AddReadings(stats: Readings, key: string, suffixes: seq<string>, before: map<(string, string), real>)
    returns (out: map<(string, string), real>)
    requires forall k, s :: (k, s) in before ==> before[(k, s)] == Reading(stats, k, s)
    ensures forall k, s :: (k, s) in out <==> (k, s) in before || (k == key && s in suffixes)
    ensures forall k, s :: (k, s) in out ==> out[(k, s)] == Reading(stats, k, s)
  {
    out := before;
    for n := 0 to |suffixes|
      invariant forall k, s :: (k, s) in out <==> (k, s) in before || (k == key && s in suffixes[..n])
      invariant forall k, s :: (k, s) in out ==> out[(k, s)] == Reading(stats, k, s)
    {
      var s := suffixes[n];
      assert suffixes[..n + 1] == suffixes[..n] + [s];
      var v := if key in stats && s in stats[key] && stats[key][s].Num? then stats[key][s].r else 0.0;
      out := out[(key, s) := v];
    }
    assert suffixes[..|suffixes|] == suffixes;
  }

  // ---------------------------------------------------------------- what a cycle publishes

  datatype State = State(topic: StateTopic, value: Value)

  function Shown(key: string, suffix: string, value: Value): State {
    State(SensorState(key, suffix), value)
  }

  /** Everything a cycle looks at: byte totals, uptimes, the rate tracker's
      baselines and the time, reports and MLAT stats. */
  datatype Inputs = Inputs(
    totals: map<string, Traffic>, uptime: map<string, nat>, prev: map<(string, string), Sample>, now: real,
    reports: map<string, Reported>, stats: Readings)

  /** The field was reported by the feeder. */
  predicate Has(i: Inputs, key: string, field: string) {
    key in i.reports && field in i.reports[key].fields
  }

  /** A reported count; 0 if it was not reported. Reports hold counts as numbers. */
  function Amount(i: Inputs, key: string, field: string): real {
    if Has(i, key, field) && i.reports[key].fields[field].Num? then i.reports[key].fields[field].r else 0.0
  }

  function RateAt(i: Inputs, key: string, counter: string, cur: real): Option<real> {
    RateOf(if (key, counter) in i.prev then Some(i.prev[(key, counter)]) else None, Sample(cur, i.now))
  }

  /** A counter is published, and its rate if there is one. */
  ghost predicate CounterDue(i: Inputs, key: string, counter: string, rate: string, cur: real, st: State) {
    || st == Shown(key, counter, Num(cur))
    || (RateAt(i, key, counter, cur).Some? && st == Shown(key, rate, Num(RateAt(i, key, counter, cur).value)))
  }

  ghost predicate BytesDue(i: Inputs, key: string, sent: real, received: real, st: State) {
    || CounterDue(i, key, "bytes_sent", "bytes_sent_rate", sent, st)
    || CounterDue(i, key, "bytes_received", "bytes_received_rate", received, st)
  }

  ghost predicate TotalDue(i: Inputs, key: string, st: State)
    requires key in i.totals
  {
    BytesDue(i, key, i.totals[key].sent as real, i.totals[key].received as real, st)
  }

  ghost predicate PlanefinderDue(i: Inputs, enabled: seq<string>, st: State) {
    && "planefinder" in enabled && Has(i, "planefinder", "bytes_sent")
    && BytesDue(i, "planefinder", Amount(i, "planefinder", "bytes_sent"), Amount(i, "planefinder", "bytes_received"), st)
  }

  ghost predicate TrafficDue(i: Inputs, enabled: seq<string>, st: State) {
    (exists key <- i.totals :: TotalDue(i, key, st)) || PlanefinderDue(i, enabled, st)
  }

  ghost predicate MessagesDue(i: Inputs, enabled: seq<string>, st: State) {
    && "fr24" in enabled && Has(i, "fr24", "messages")
    && CounterDue(i, "fr24", "messages", "messages_rate", Amount(i, "fr24", "messages"), st)
  }

  /** What a feeder reports of a group of sensors is published as it stands. */
  ghost predicate PortalDue(i: Inputs, enabled: seq<string>, feeders: set<string>, suffixes: seq<string>, st: State) {
    && st.topic.SensorState? && st.topic.key in feeders && st.topic.key in enabled && st.topic.suffix in suffixes
    && Has(i, st.topic.key, st.topic.suffix) && st.value == i.reports[st.topic.key].fields[st.topic.suffix]
  }

  ghost predicate UptimeDue(i: Inputs, enabled: seq<string>, st: State) {
    exists key <- i.uptime :: key in enabled && st == Shown(key, "uptime", Num(i.uptime[key] as real))
  }

  ghost predicate ReportDue(i: Inputs, enabled: seq<string>, r: Report, st: State) {
    && r.key in enabled && Has(i, r.key, r.field)
    && st == Shown(r.key, r.suffix, Flag(i.reports[r.key].fields[r.field] == Value.Text("green")))
  }

  /** Every MLAT sensor of an enabled feeder has a value. */
  ghost predicate MlatDue(i: Inputs, enabled: seq<string>, st: State) {
    && st.topic.SensorState? && st.topic.key in enabled && HasMlat(st.topic.key, st.topic.suffix)
    && st.value == Num(Reading(i.stats, st.topic.key, st.topic.suffix))
  }

  ghost predicate ConnectionDue(status: seq<Status>, st: State) {
    st.topic.ConnectionState? && st.value.Flag? && Status(st.topic.key, st.value.on) in status
  }

  /** Exactly what a cycle publishes of feeders with this status. */
  ghost predicate Due(i: Inputs, status: seq<Status>, st: State) {
    var enabled := KeysOf(status);
    || ConnectionDue(status, st)
    || TrafficDue(i, enabled, st)
    || MessagesDue(i, enabled, st)
    || PortalDue(i, enabled, PORTAL_AIRCRAFT_FEEDERS, PORTAL_AIRCRAFT_METRICS, st)
    || PortalDue(i, enabled, PORTAL_RATE_FEEDERS, PORTAL_RATE_METRICS, st)
    || MlatDue(i, enabled, st)
    || UptimeDue(i, enabled, st)
    || (exists r <- REPORT_BINARY_SENSORS :: ReportDue(i, enabled, r, st))
  }

  /** Some state has the topic, and no other state does. */
  ghost predicate Once(out: seq<State>, topic: StateTopic) {
    exists j :: 0 <= j < |out| && out[j].topic == topic && forall k :: 0 <= k < |out| && k != j ==> out[k].topic != topic
  }

  /** Every MLAT sensor of an enabled feeder has exactly one value. */
  ghost predicate MlatOnce(enabled: seq<string>, out: seq<State>) {
    forall k, s :: k in enabled && HasMlat(k, s) ==> Once(out, SensorState(k, s))
  }

  // ---------------------------------------------------------------- the cycle

  method ConnectionStates(status: seq<Status>) returns (out: seq<State>)
    ensures forall st :: st in out <==> ConnectionDue(status, st)
  {
    out := [];
    for n := 0 to |status|
      invariant forall st :: st in out <==> ConnectionDue(status[..n], st)
    {
      assert status[..n + 1] == status[..n] + [status[n]];
      out := out + [State(ConnectionState(status[n].key), Flag(status[n].connected))];
    }
    assert status[..|status|] == status;
  }

  method ByteStates(i: Inputs, key: string, sent: real, received: real) returns (out: seq<State>)
    ensures forall st :: st in out <==> BytesDue(i, key, sent, received, st)
  {
    out := [Shown(key, "bytes_sent", Num(sent)), Shown(key, "bytes_received", Num(received))];
    var rs := RateAt(i, key, "bytes_sent", sent);
    if rs.Some? {
      out := out + [Shown(key, "bytes_sent_rate", Num(rs.value))];
    }
    var rr := RateAt(i, key, "bytes_received", received);
    if rr.Some? {
      out := out + [Shown(key, "bytes_received_rate", Num(rr.value))];
    }
  }

  method TrafficStates(i: Inputs, enabled: seq<string>) returns (out: seq<State>)
    ensures forall st :: st in out <==> TrafficDue(i, enabled, st)
  {
    out := [];
    var pending := i.totals.Keys;
    while pending != {}
      invariant pending <= i.totals.Keys
      invariant forall st :: st in out <==> exists key <- i.totals :: key !in pending && TotalDue(i, key, st)
      decreases |pending|
    {
      var key :| key in pending;
      pending := pending - {key};
      var more := ByteStates(i, key, i.totals[key].sent as real, i.totals[key].received as real);
      assert forall st :: st in more <==> TotalDue(i, key, st);
      out := out + more;
    }
    if "planefinder" in enabled && Has(i, "planefinder", "bytes_sent") {
      var more := ByteStates(i, "planefinder", Amount(i, "planefinder", "bytes_sent"), Amount(i, "planefinder", "bytes_received"));
      out := out + more;
    }
  }

  method MessageStates(i: Inputs, enabled: seq<string>) returns (out: seq<State>)
    ensures forall st :: st in out <==> MessagesDue(i, enabled, st)
  {
    out := [];
    if "fr24" in enabled && Has(i, "fr24", "messages") {
      var messages := Amount(i, "fr24", "messages");
      out := [Shown("fr24", "messages", Num(messages))];
      var rate := RateAt(i, "fr24", "messages", messages);
      if rate.Some? {
        out := out + [Shown("fr24", "messages_rate", Num(rate.value))];
      }
    }
  }

  /** One portal group: the sensors its feeders report. */
  method PortalStates(i: Inputs, enabled: seq<string>, feeders: set<string>, suffixes: seq<string>)
    returns (out: seq<State>)
    ensures forall st :: st in out <==> PortalDue(i, enabled, feeders, suffixes, st)
  {
    out := [];
    var pending := feeders;
    while pending != {}
      invariant pending <= feeders
      invariant forall st :: st in out <==> PortalDue(i, enabled, feeders - pending, suffixes, st)
      decreases |pending|
    {
      var key :| key in pending;
      pending := pending - {key};
      if key in enabled && key in i.reports {
        var more := ReportedOf(i, key, suffixes);
        out := out + more;
      }
    }
    assert feeders - {} == feeders;
  }

  method ReportedOf(i: Inputs, key: string, suffixes: seq<string>) returns (out: seq<State>)
    requires key in i.reports
    ensures forall st :: st in out <==> PortalDue(i, [key], {key}, suffixes, st)
  {
    out := [];
    var fields := i.reports[key].fields;
    for n := 0 to |suffixes|
      invariant forall st :: st in out <==> PortalDue(i, [key], {key}, suffixes[..n], st)
    {
      assert suffixes[..n + 1] == suffixes[..n] + [suffixes[n]];
      if suffixes[n] in fields {
        out := out + [Shown(key, suffixes[n], fields[suffixes[n]])];
      }
    }
    assert suffixes[..|suffixes|] == suffixes;
  }

  method MlatTopics(i: Inputs, enabled: seq<string>) returns (out: seq<State>)
    ensures forall st :: st in out <==> MlatDue(i, enabled, st)
    ensures MlatOnce(enabled, out)
  {
    var states := MlatStates(i.stats, set k <- enabled);
    out := [];
    var pending := states.Keys;
    while pending != {}
      invariant pending <= states.Keys
      invariant forall st :: st in out <==> MlatDue(i, enabled, st) && (st.topic.key, st.topic.suffix) !in pending
      invariant forall j, k :: 0 <= j < k < |out| ==> out[j].topic != out[k].topic
      decreases |pending|
    {
      var item :| item in pending;
      pending := pending - {item};
      assert (item.0, item.1) in states;
      out := out + [Shown(item.0, item.1, Num(states[item]))];
    }
    forall k, s | k in enabled && HasMlat(k, s) ensures Once(out, SensorState(k, s)) {
      assert Shown(k, s, Num(Reading(i.stats, k, s))) in out;
    }
  }

  method UptimeStates(i: Inputs, enabled: seq<string>) returns (out: seq<State>)
    ensures forall st :: st in out <==> UptimeDue(i, enabled, st)
  {
    out := [];
    var pending := i.uptime.Keys;
    while pending != {}
      invariant pending <= i.uptime.Keys
      invariant forall st :: st in out <==>
        exists key <- i.uptime :: key !in pending && key in enabled && st == Shown(key, "uptime", Num(i.uptime[key] as real))
      decreases |pending|
    {
      var key :| key in pending;
      pending := pending - {key};
      if key in enabled {
        out := out + [Shown(key, "uptime", Num(i.uptime[key] as real))];
      }
    }
  }

  method ReportStates(i: Inputs, enabled: seq<string>, reports: seq<Report>) returns (out: seq<State>)
    ensures forall st :: st in out <==> exists r <- reports :: ReportDue(i, enabled, r, st)
  {
    out := [];
    for n := 0 to |reports|
      invariant forall st :: st in out <==> exists r <- reports[..n] :: ReportDue(i, enabled, r, st)
    {
      var r := reports[n];
      assert reports[..n + 1] == reports[..n] + [r] && r in reports[..n + 1];
      ghost var before := out;
      if r.key in enabled && Has(i, r.key, r.field) {
        out := out + [Shown(r.key, r.suffix, Flag(i.reports[r.key].fields[r.field] == Value.Text("green")))];
      }
      assert forall st :: st in out <==> st in before || ReportDue(i, enabled, r, st);
    }
    assert reports[..|reports|] == reports;
  }

  /** A cycle's per-feeder states: exactly those that are due, and every MLAT
      sensor of an enabled feeder exactly once. */
  method Cycle(i: Inputs, status: seq<Status>) returns (out: seq<State>)
    ensures forall st :: st in out <==> Due(i, status, st)
    ensures MlatOnce(KeysOf(status), out)
  {
    var enabled := KeysOf(status);
    var connections := ConnectionStates(status);
    var traffic := TrafficStates(i, enabled);
    var messages := MessageStates(i, enabled);
    var aircraft := PortalStates(i, enabled, PORTAL_AIRCRAFT_FEEDERS, PORTAL_AIRCRAFT_METRICS);
    var rates := PortalStates(i, enabled, PORTAL_RATE_FEEDERS, PORTAL_RATE_METRICS);
    var mlat := MlatTopics(i, enabled);
    var uptime := UptimeStates(i, enabled);
    var reports := ReportStates(i, enabled, REPORT_BINARY_SENSORS);
    OthersNotMlat(i, status);
    ghost var before := connections + traffic + messages + aircraft + rates;
    ghost var after := uptime + reports;
    out := connections + traffic + messages + aircraft + rates + mlat + (uptime + reports);
    assert forall st <- before + after :: OtherDue(i, status, st);
    forall k, s | k in enabled && HasMlat(k, s) ensures Once(out, SensorState(k, s)) {
      OnceWithin(before, mlat, after, SensorState(k, s));
    }
  }

  // ---------------------------------------------------------------- the values

  /** What kind of sensor a suffix is of, by its first letters. */
  datatype Kind = Volume | Messages | Portal | Mlat | Uptime | Health

  predicate IsKind(suffix: string, kind: Kind) {
    |suffix| > 5 &&
    match kind
    case Volume => suffix[0] == 'b'
    case Messages => suffix[0] == 'm' && suffix[1] == 'e'
    case Portal => suffix[0] == 'p'
    case Mlat => suffix[0] == 'm' && suffix[1] == 'l' && |suffix| > 7
    case Uptime => suffix[0] == 'u'
    case Health => suffix[0] == 'r' || (suffix[0] == 'm' && suffix[1] == 'l' && |suffix| == 7)
  }

  ghost predicate OfKind(st: State, kind: Kind) {
    st.topic.SensorState? && IsKind(st.topic.suffix, kind)
  }

  lemma BytesKind(i: Inputs, key: string, sent: real, received: real, st: State)
    requires BytesDue(i, key, sent, received, st)
    ensures OfKind(st, Volume)
  {
  }

  lemma TrafficKind(i: Inputs, enabled: seq<string>, st: State)
    requires TrafficDue(i, enabled, st)
    ensures OfKind(st, Volume)
  {
    if PlanefinderDue(i, enabled, st) {
      BytesKind(i, "planefinder", Amount(i, "planefinder", "bytes_sent"), Amount(i, "planefinder", "bytes_received"), st);
    } else {
      var key :| key in i.totals && TotalDue(i, key, st);
      BytesKind(i, key, i.totals[key].sent as real, i.totals[key].received as real, st);
    }
  }

  lemma OtherKinds(i: Inputs, enabled: seq<string>, st: State)
    ensures MessagesDue(i, enabled, st) ==> OfKind(st, Messages)
    ensures UptimeDue(i, enabled, st) ==> OfKind(st, Uptime)
  {
  }

  lemma PortalKind(i: Inputs, enabled: seq<string>, feeders: set<string>, suffixes: seq<string>, st: State)
    requires suffixes == PORTAL_AIRCRAFT_METRICS || suffixes == PORTAL_RATE_METRICS
    requires PortalDue(i, enabled, feeders, suffixes, st)
    ensures OfKind(st, Portal)
  {
  }

  lemma MlatKind(i: Inputs, enabled: seq<string>, st: State)
    requires MlatDue(i, enabled, st)
    ensures OfKind(st, Mlat)
  {
    MlatSuffixes(st.topic.suffix);
  }

  lemma HealthKind(i: Inputs, enabled: seq<string>, r: Report, st: State)
    requires r in REPORT_BINARY_SENSORS && ReportDue(i, enabled, r, st)
    ensures OfKind(st, Health)
  {
  }

  /** Why a state of this kind is due. */
  ghost predicate DueAs(i: Inputs, enabled: seq<string>, st: State, kind: Kind) {
    match kind
    case Volume => TrafficDue(i, enabled, st)
    case Messages => MessagesDue(i, enabled, st)
    case Portal => PortalDue(i, enabled, PORTAL_AIRCRAFT_FEEDERS, PORTAL_AIRCRAFT_METRICS, st)
                   || PortalDue(i, enabled, PORTAL_RATE_FEEDERS, PORTAL_RATE_METRICS, st)
    case Mlat => MlatDue(i, enabled, st)
    case Uptime => UptimeDue(i, enabled, st)
    case Health => exists r <- REPORT_BINARY_SENSORS :: ReportDue(i, enabled, r, st)
  }

  lemma DueHasKind(i: Inputs, status: seq<Status>, st: State) returns (kind: Kind)
    requires Due(i, status, st) && st.topic.SensorState?
    ensures OfKind(st, kind) && DueAs(i, KeysOf(status), st, kind)
  {
    var enabled := KeysOf(status);
    OtherKinds(i, enabled, st);
    if TrafficDue(i, enabled, st) {
      TrafficKind(i, enabled, st);
      kind := Volume;
    } else if MessagesDue(i, enabled, st) {
      kind := Messages;
    } else if UptimeDue(i, enabled, st) {
      kind := Uptime;
    } else if PortalDue(i, enabled, PORTAL_AIRCRAFT_FEEDERS, PORTAL_AIRCRAFT_METRICS, st) {
      PortalKind(i, enabled, PORTAL_AIRCRAFT_FEEDERS, PORTAL_AIRCRAFT_METRICS, st);
      kind := Portal;
    } else if PortalDue(i, enabled, PORTAL_RATE_FEEDERS, PORTAL_RATE_METRICS, st) {
      PortalKind(i, enabled, PORTAL_RATE_FEEDERS, PORTAL_RATE_METRICS, st);
      kind := Portal;
    } else if MlatDue(i, enabled, st) {
      MlatKind(i, enabled, st);
      kind := Mlat;
    } else {
      var r :| r in REPORT_BINARY_SENSORS && ReportDue(i, enabled, r, st);
      HealthKind(i, enabled, r, st);
      kind := Health;
    }
  }

  /** Each kind of sensor is due for one reason only. */
  lemma DueByKind(i: Inputs, status: seq<Status>, st: State, kind: Kind)
    requires Due(i, status, st) && OfKind(st, kind)
    ensures DueAs(i, KeysOf(status), st, kind)
  {
    var found := DueHasKind(i, status, st);
    assert found == kind;
  }

  /** The sensors of a direction: its byte count, and the rate of that. */
  function CountSuffix(d: Direction): string {
    if d == Sent then "bytes_sent" else "bytes_received"
  }

  function RateSuffix(d: Direction): string {
    if d == Sent then "bytes_sent_rate" else "bytes_received_rate"
  }

  lemma SuffixesDiffer()
    ensures |CountSuffix(Sent)| == 10 && |CountSuffix(Received)| == 14
    ensures |RateSuffix(Sent)| == 15 && |RateSuffix(Received)| == 19
    ensures forall d :: IsKind(CountSuffix(d), Volume) && IsKind(RateSuffix(d), Volume)
  {
  }

  function BaselineOf(i: Inputs, key: string, d: Direction): Option<Sample> {
    if (key, CountSuffix(d)) in i.prev then Some(i.prev[(key, CountSuffix(d))]) else None
  }

  /** The byte sensors of a feeder in one direction show its total in that
      direction, and the rate a tracker with this baseline makes of it; nothing
      without a total, and no rate without a baseline or elapsed time. */
  ghost predicate ShowsTraffic(out: seq<State>, prev: Option<Sample>, a: Accum, key: string, d: Direction, at: real) {
    && (forall v :: Shown(key, CountSuffix(d), v) in out <==> key in a.totals && v == Num(Pick(a.totals[key], d) as real))
    && (forall v :: Shown(key, RateSuffix(d), v) in out <==>
          key in a.totals
          && RateOf(prev, Sampled(a, key, d, at)).Some? && v == Num(RateOf(prev, Sampled(a, key, d, at)).value))
  }

  lemma TotalShows(i: Inputs, key: string, d: Direction, st: State)
    requires key in i.totals
    ensures st.topic == SensorState(key, CountSuffix(d)) ==>
      (TotalDue(i, key, st) <==> st.value == Num(Pick(i.totals[key], d) as real))
    ensures st.topic == SensorState(key, RateSuffix(d)) ==>
      var s := Sample(Pick(i.totals[key], d) as real, i.now);
      (TotalDue(i, key, st) <==> RateOf(BaselineOf(i, key, d), s).Some? && st.value == Num(RateOf(BaselineOf(i, key, d), s).value))
  {
    SuffixesDiffer();
  }

  /** Of the byte sensors of any feeder but planefinder, only totals are shown. */
  lemma OnlyTotals(i: Inputs, status: seq<Status>, st: State, key: string)
    requires st.topic.SensorState? && st.topic.key == key && key != "planefinder" && IsKind(st.topic.suffix, Volume)
    ensures Due(i, status, st) <==> key in i.totals && TotalDue(i, key, st)
  {
    if key in i.totals && TotalDue(i, key, st) {
      assert TrafficDue(i, KeysOf(status), st);
    }
    if Due(i, status, st) {
      DueByKind(i, status, st, Volume);
      var k :| k in i.totals && TotalDue(i, k, st);
      assert k == key;
    }
  }

  lemma CycleShowsTraffic(i: Inputs, status: seq<Status>, out: seq<State>, a: Accum, key: string, d: Direction)
    requires (forall st :: st in out <==> Due(i, status, st)) && a.totals == i.totals && key != "planefinder"
    ensures ShowsTraffic(out, BaselineOf(i, key, d), a, key, d, i.now)
  {
    SuffixesDiffer();
    forall v ensures Shown(key, CountSuffix(d), v) in out <==> key in a.totals && v == Num(Pick(a.totals[key], d) as real) {
      var st := Shown(key, CountSuffix(d), v);
      OnlyTotals(i, status, st, key);
      if key in i.totals {
        TotalShows(i, key, d, st);
      }
    }
    var s := Sampled(a, key, d, i.now);
    forall v ensures Shown(key, RateSuffix(d), v) in out <==>
        key in a.totals && RateOf(BaselineOf(i, key, d), s).Some? && v == Num(RateOf(BaselineOf(i, key, d), s).value)
    {
      var st := Shown(key, RateSuffix(d), v);
      OnlyTotals(i, status, st, key);
      if key in i.totals {
        TotalShows(i, key, d, st);
      }
    }
  }

  /** That of every kernel-measured feeder, both ways. */
  ghost predicate TrafficShown(i: Inputs, a: Accum, out: seq<State>) {
    forall key, d :: key != "planefinder" ==> ShowsTraffic(out, BaselineOf(i, key, d), a, key, d, i.now)
  }

  /** The rate a cycle shows; 0 if none. */
  ghost function RateShown(out: seq<State>, key: string, d: Direction): real {
    if exists r: real :: Shown(key, RateSuffix(d), Num(r)) in out
    then var r: real :| Shown(key, RateSuffix(d), Num(r)) in out; r else 0.0
  }

  /** Cycles after these polls show what a tracker starting from prev makes of them. */
  ghost predicate CyclesShow(prev: Option<Sample>, a: Accum, polls: seq<TimedPoll>, key: string, d: Direction, outs: seq<seq<State>>)
    decreases |polls|
  {
    && |outs| == |polls|
    && (polls != [] ==>
          var a', at := Update(a, polls[0].socks, polls[0].attr), polls[0].at;
          && ShowsTraffic(outs[0], prev, a', key, d, at)
          && CyclesShow(NextBaseline(prev, a', key, d, at), a', polls[1..], key, d, outs[1..]))
  }

  /** The rate shown times the interval it covers. */
  ghost function StripShown(prev: Option<Sample>, key: string, d: Direction, at: real, out: seq<State>): real {
    if prev == None then 0.0 else RateShown(out, key, d) * (at - prev.value.at)
  }

  /** Those added up over a run. */
  ghost function AreaShown(prev: Option<Sample>, a: Accum, polls: seq<TimedPoll>, key: string, d: Direction, outs: seq<seq<State>>): real
    requires |outs| == |polls|
    decreases |polls|
  {
    if polls == [] then 0.0
    else
      var a', at := Update(a, polls[0].socks, polls[0].attr), polls[0].at;
      StripShown(prev, key, d, at, outs[0])
      + AreaShown(NextBaseline(prev, a', key, d, at), a', polls[1..], key, d, outs[1..])
  }

  lemma StripIsPart(prev: Option<Sample>, a: Accum, key: string, d: Direction, at: real, out: seq<State>)
    requires ShowsTraffic(out, prev, a, key, d, at)
    ensures StripShown(prev, key, d, at, out) == Part(prev, a, key, d, at)
  {
    var rate := RateOf(prev, Sampled(a, key, d, at));
    if key in a.totals && rate.Some? {
      assert Shown(key, RateSuffix(d), Num(rate.value)) in out;
    }
  }

  lemma AreaFirst(prev: Option<Sample>, a: Accum, polls: seq<TimedPoll>, key: string, d: Direction, outs: seq<seq<State>>,
                  a': Accum, next: Option<Sample>)
    requires polls != [] && CyclesShow(prev, a, polls, key, d, outs)
    requires a' == Update(a, polls[0].socks, polls[0].attr) && next == NextBaseline(prev, a', key, d, polls[0].at)
    ensures CyclesShow(next, a', polls[1..], key, d, outs[1..])
    ensures AreaShown(prev, a, polls, key, d, outs)
         == Part(prev, a', key, d, polls[0].at) + AreaShown(next, a', polls[1..], key, d, outs[1..])
  {
    StripIsPart(prev, a', key, d, polls[0].at, outs[0]);
  }

  lemma {:induction false} AreaIsIntegral(prev: Option<Sample>, a: Accum, polls: seq<TimedPoll>, key: string, d: Direction,
                                          outs: seq<seq<State>>)
    requires CyclesShow(prev, a, polls, key, d, outs)
    ensures AreaShown(prev, a, polls, key, d, outs) == Integral(prev, Fed(a, polls, key, d))
    decreases |polls|
  {
    if polls != [] {
      var a' := Update(a, polls[0].socks, polls[0].attr);
      var next := NextBaseline(prev, a', key, d, polls[0].at);
      PartFirst(prev, a, polls, key, d);
      AreaFirst(prev, a, polls, key, d, outs, a', next);
      AreaIsIntegral(next, a', polls[1..], key, d, outs[1..]);
    }
  }

  /** Over a whole run of cycles from the start, the rates a kernel-measured feeder
      shows in a direction, times the intervals, add up to what its total in that
      direction has grown by since the first poll that gave it one. */
  lemma ShownRatesIntegrate(polls: seq<TimedPoll>, key: string, d: Direction, outs: seq<seq<State>>, n: nat)
    requires Increasing(polls) && CyclesShow(None, START, polls, key, d, outs) && FirstTotal(START, polls, key, n)
    ensures AreaShown(None, START, polls, key, d, outs)
         == Pick(Total(After(START, polls).totals, key), d) as real - Pick(Total(After(START, polls[..n + 1]).totals, key), d) as real
  {
    AreaIsIntegral(None, START, polls, key, d, outs);
    FeederRatesIntegrate(polls, key, d);
  }

  /** What the other sensors show: an MLAT reading if it is a number and else 0,
      the uptime, a portal's own figure, and a green report as on. */
  lemma SensorValues(i: Inputs, status: seq<Status>, st: State, kind: Kind)
    requires Due(i, status, st) && OfKind(st, kind)
    ensures var (key, suffix) := (st.topic.key, st.topic.suffix);
            match kind
            case Mlat =>
              st.value == if key in i.stats && suffix in i.stats[key] && i.stats[key][suffix].Num? then i.stats[key][suffix] else Num(0.0)
            case Uptime => key in i.uptime && st.value == Num(i.uptime[key] as real)
            case Portal => Has(i, key, suffix) && st.value == i.reports[key].fields[suffix]
            case Health =>
              && key == "piaware" && (suffix == "mlat_ok" || suffix == "radio_ok")
              && var field := if suffix == "mlat_ok" then "mlat" else "radio";
                 Has(i, key, field) && st.value == Flag(i.reports[key].fields[field] == Value.Text("green"))
            case _ => true
  {
    DueByKind(i, status, st, kind);
    if kind == Health {
      HealthValue(i, KeysOf(status), st);
    }
  }

  /** pfclient's own byte counters and fr24's message count, as reported. */
  lemma ReportedCounts(i: Inputs, status: seq<Status>, st: State, d: Direction)
    requires Due(i, status, st) && "planefinder" !in i.totals
    ensures st.topic == SensorState("planefinder", CountSuffix(d)) ==>
      Has(i, "planefinder", "bytes_sent") && st.value == Num(Amount(i, "planefinder", CountSuffix(d)))
    ensures st.topic == SensorState("fr24", "messages") ==>
      Has(i, "fr24", "messages") && st.value == Num(Amount(i, "fr24", "messages"))
  {
    SuffixesDiffer();
    if st.topic == SensorState("planefinder", CountSuffix(d)) {
      DueByKind(i, status, st, Volume);
    } else if st.topic == SensorState("fr24", "messages") {
      DueByKind(i, status, st, Messages);
      assert |"messages"| != |"messages_rate"|;
    }
  }

  lemma HealthValue(i: Inputs, enabled: seq<string>, st: State)
    requires exists r <- REPORT_BINARY_SENSORS :: ReportDue(i, enabled, r, st)
    ensures st.topic.SensorState? && st.topic.key == "piaware" && (st.topic.suffix == "mlat_ok" || st.topic.suffix == "radio_ok")
    ensures var field := if st.topic.suffix == "mlat_ok" then "mlat" else "radio";
            Has(i, "piaware", field) && st.value == Flag(i.reports["piaware"].fields[field] == Value.Text("green"))
  {
    assert |"mlat_ok"| != |"radio_ok"|;
  }

  lemma OnceWithin(before: seq<State>, mid: seq<State>, after: seq<State>, topic: StateTopic)
    requires Once(mid, topic) && MlatSensor(topic) && NoMlat(before) && NoMlat(after)
    ensures Once(before + mid + after, topic)
  {
    var out := before + mid + after;
    var j :| 0 <= j < |mid| && mid[j].topic == topic && forall k :: 0 <= k < |mid| && k != j ==> mid[k].topic != topic;
    assert out[|before| + j].topic == topic;
    forall k | 0 <= k < |out| && k != |before| + j ensures out[k].topic != topic {
      if k < |before| {
        assert out[k] == before[k] && before[k] in before;
      } else if k < |before| + |mid| {
        assert out[k] == mid[k - |before|];
      } else {
        assert out[k] == after[k - |before| - |mid|] && out[k] in after;
      }
    }
  }

  lemma CountersNotMlat(i: Inputs, enabled: seq<string>, st: State)
    requires TrafficDue(i, enabled, st) || MessagesDue(i, enabled, st) || UptimeDue(i, enabled, st)
    ensures !MlatSensor(st.topic)
  {
    CounterSuffixes();
  }

  lemma ReportedNotMlat(i: Inputs, enabled: seq<string>, st: State)
    requires || PortalDue(i, enabled, PORTAL_AIRCRAFT_FEEDERS, PORTAL_AIRCRAFT_METRICS, st)
             || PortalDue(i, enabled, PORTAL_RATE_FEEDERS, PORTAL_RATE_METRICS, st)
             || (exists r <- REPORT_BINARY_SENSORS :: ReportDue(i, enabled, r, st))
    ensures !MlatSensor(st.topic)
  {
    if exists r <- REPORT_BINARY_SENSORS :: ReportDue(i, enabled, r, st) {
      ReportTables();
    } else {
      PortalTables();
    }
  }

  /** What is due besides MLAT readings. */
  ghost predicate OtherDue(i: Inputs, status: seq<Status>, st: State) {
    var enabled := KeysOf(status);
    || ConnectionDue(status, st) || TrafficDue(i, enabled, st) || MessagesDue(i, enabled, st)
    || PortalDue(i, enabled, PORTAL_AIRCRAFT_FEEDERS, PORTAL_AIRCRAFT_METRICS, st)
    || PortalDue(i, enabled, PORTAL_RATE_FEEDERS, PORTAL_RATE_METRICS, st)
    || UptimeDue(i, enabled, st) || (exists r <- REPORT_BINARY_SENSORS :: ReportDue(i, enabled, r, st))
  }

  /** Only the MLAT part of a cycle speaks of MLAT sensors. */
  lemma OthersNotMlat(i: Inputs, status: seq<Status>)
    ensures forall st :: OtherDue(i, status, st) ==> !MlatSensor(st.topic)
  {
    var enabled := KeysOf(status);
    forall st | OtherDue(i, status, st) ensures !MlatSensor(st.topic) {
      if TrafficDue(i, enabled, st) || MessagesDue(i, enabled, st) || UptimeDue(i, enabled, st) {
        CountersNotMlat(i, enabled, st);
      } else if !ConnectionDue(status, st) {
        ReportedNotMlat(i, enabled, st);
      }
    }
  }

  predicate MlatSensor(st: StateTopic) {
    st.SensorState? && st.suffix in MLAT_SYNC_METRICS + MLAT_RESULT_METRICS
  }

  ghost predicate NoMlat(out: seq<State>) {
    forall st <- out :: !MlatSensor(st.topic)
  }

  lemma MlatSuffixes(suffix: string)
    requires suffix in MLAT_SYNC_METRICS + MLAT_RESULT_METRICS
    ensures |suffix| > 7 && suffix[0] == 'm' && suffix[1] == 'l'
  {
    assert suffix in MLAT_SYNC_METRICS || suffix in MLAT_RESULT_METRICS;
  }

  lemma NotMlat(suffix: string)
    requires |suffix| > 1 && (suffix[0] != 'm' || suffix[1] != 'l' || |suffix| <= 7)
    ensures suffix !in MLAT_SYNC_METRICS + MLAT_RESULT_METRICS
  {
    if suffix in MLAT_SYNC_METRICS + MLAT_RESULT_METRICS {
      MlatSuffixes(suffix);
    }
  }

  lemma CounterSuffixes()
    ensures forall s <- ["bytes_sent", "bytes_received", "bytes_sent_rate", "bytes_received_rate", "messages", "messages_rate", "uptime"] ::
      s !in MLAT_SYNC_METRICS + MLAT_RESULT_METRICS
  {
    NotMlat("bytes_sent");
    NotMlat("bytes_received");
    NotMlat("bytes_sent_rate");
    NotMlat("bytes_received_rate");
    NotMlat("messages");
    NotMlat("messages_rate");
    NotMlat("uptime");
  }

  lemma PortalTables()
    ensures forall key, s :: key in PORTAL_AIRCRAFT_FEEDERS && s in PORTAL_AIRCRAFT_METRICS ==> HasSensor(key, s)
    ensures forall key, s :: key in PORTAL_RATE_FEEDERS && s in PORTAL_RATE_METRICS ==> HasSensor(key, s)
    ensures forall s <- PORTAL_AIRCRAFT_METRICS + PORTAL_RATE_METRICS :: s !in MLAT_SYNC_METRICS + MLAT_RESULT_METRICS
  {
    forall s | s in PORTAL_AIRCRAFT_METRICS + PORTAL_RATE_METRICS ensures s !in MLAT_SYNC_METRICS + MLAT_RESULT_METRICS {
      assert |s| > 1 && s[0] == 'p';
      NotMlat(s);
    }
  }

  lemma ReportTables()
    ensures forall r <- REPORT_BINARY_SENSORS ::
      HasSensor(r.key, r.suffix) && r.suffix !in MLAT_SYNC_METRICS + MLAT_RESULT_METRICS
  {
    NotMlat("mlat_ok");
    NotMlat("radio_ok");
  }

  // ---------------------------------------------------------------- and their configs

  predicate HasSensor(key: string, suffix: string) {
    || suffix in UPTIME_METRICS
    || (key in BYTE_FEEDERS && suffix in THROUGHPUT_METRICS + THROUGHPUT_RATE_METRICS)
    || (key in MESSAGE_FEEDERS && suffix in MESSAGES_METRICS + MESSAGES_RATE_METRICS)
    || (key in PORTAL_AIRCRAFT_FEEDERS && suffix in PORTAL_AIRCRAFT_METRICS)
    || (key in PORTAL_RATE_FEEDERS && suffix in PORTAL_RATE_METRICS)
    || HasMlat(key, suffix)
    || (exists r <- REPORT_BINARY_SENSORS :: r.key == key && r.suffix == suffix)
  }

  /** Which sensors a feeder has, as far as the metric tables say. That these are
      the sensors the discovery pass has configs for is proved below, both ways
      (AdvertisedHasConfig, ConfigIsAdvertised). */
  ghost predicate Advertised(enabled: seq<string>, st: StateTopic) {
    st.key in enabled && (st.SensorState? ==> HasSensor(st.key, st.suffix))
  }

  ghost predicate InMetricGroup(groups: seq<MetricGroup>, key: string, suffix: string) {
    exists g <- groups :: key in g.feeders && suffix in g.suffixes
  }

  /** Whatever is advertised is named by a config that the discovery pass
      publishes. */
  lemma AdvertisedHasConfig(t: Tables, known: set<string>, enabled: seq<string>, st: StateTopic)
    requires AllGroups(t.metricGroups, known) && t.reports == REPORT_BINARY_SENSORS
    requires (forall key <- enabled :: key in known) && Advertised(enabled, st)
    ensures exists x :: Announces(t, enabled, x, st)
  {
    if st.ConnectionState? {
      assert Announces(t, enabled, ConnectionTopic(t, st.key), st);
    } else if r :| r in REPORT_BINARY_SENSORS && r.key == st.key && r.suffix == st.suffix {
      assert ReportPart(t, r, enabled, ReportTopic(t, r), st) && Announces(t, enabled, ReportTopic(t, r), st);
    } else {
      SensorGroup(t.metricGroups, known, st.key, st.suffix);
      var g :| g in t.metricGroups && st.key in g.feeders && st.suffix in g.suffixes;
      var x := MetricTopic(t, st.key, st.suffix);
      assert MetricPart(t, g, enabled, x, st) && Announces(t, enabled, x, st);
    }
  }

  /** Every metric group is there; the one for uptime covers all known feeders. */
  ghost predicate AllGroups(groups: seq<MetricGroup>, known: set<string>) {
    && MetricGroup(UPTIME_METRICS, known) in groups && BYTES_GROUP in groups && MESSAGES_GROUP in groups
    && BYTE_RATES_GROUP in groups && MESSAGE_RATES_GROUP in groups
    && PORTAL_AIRCRAFT_GROUP in groups && PORTAL_RATES_GROUP in groups
    && MLAT_SYNC_GROUP in groups && MLAT_RESULT_GROUP in groups
  }

  /** And there is no other. */
  ghost predicate NoOtherGroup(groups: seq<MetricGroup>, known: set<string>) {
    forall g <- groups ::
      || g == MetricGroup(UPTIME_METRICS, known) || g == BYTES_GROUP || g == MESSAGES_GROUP
      || g == BYTE_RATES_GROUP || g == MESSAGE_RATES_GROUP
      || g == PORTAL_AIRCRAFT_GROUP || g == PORTAL_RATES_GROUP
      || g == MLAT_SYNC_GROUP || g == MLAT_RESULT_GROUP
  }

  lemma GroupSensors(groups: seq<MetricGroup>, known: set<string>, g: MetricGroup, key: string, suffix: string)
    requires NoOtherGroup(groups, known) && g in groups && key in g.feeders && suffix in g.suffixes
    ensures HasSensor(key, suffix)
  {
  }

  /** The other way round: whatever a config names is advertised. */
  lemma ConfigIsAdvertised(t: Tables, known: set<string>, enabled: seq<string>, x: Topic, st: StateTopic)
    requires NoOtherGroup(t.metricGroups, known) && t.reports == REPORT_BINARY_SENSORS
    requires Announces(t, enabled, x, st)
    ensures Advertised(enabled, st)
  {
    if g :| g in t.metricGroups && MetricPart(t, g, enabled, x, st) {
      GroupSensors(t.metricGroups, known, g, st.key, st.suffix);
    }
  }

  /** An MLAT sensor is one only by the MLAT tables. */
  lemma AdvertisedMlat(enabled: seq<string>, st: StateTopic)
    requires Advertised(enabled, st) && MlatSensor(st)
    ensures HasMlat(st.key, st.suffix)
  {
    CounterSuffixes();
    PortalTables();
    ReportTables();
  }

  lemma NineListed<T>(a: T, b: T, c: T, d: T, e: T, f: T, g: T, h: T, i: T)
    ensures var s := [a, b, c, d, e, f, g, h, i];
            a in s && b in s && c in s && d in s && e in s && f in s && g in s && h in s && i in s
  {
    var s := [a, b, c, d, e, f, g, h, i];
    assert s[0] == a && s[1] == b && s[2] == c && s[3] == d && s[4] == e && s[5] == f && s[6] == g && s[7] == h && s[8] == i;
  }

  lemma GroupsListed()
    ensures AllGroups(METRIC_GROUPS, set key <- ALL_FEEDER_KEYS)
    ensures NoOtherGroup(METRIC_GROUPS, set key <- ALL_FEEDER_KEYS)
  {
    forall g | g in METRIC_GROUPS
      ensures || g == UPTIME_GROUP || g == BYTES_GROUP || g == MESSAGES_GROUP || g == BYTE_RATES_GROUP
              || g == MESSAGE_RATES_GROUP || g == PORTAL_AIRCRAFT_GROUP || g == PORTAL_RATES_GROUP
              || g == MLAT_SYNC_GROUP || g == MLAT_RESULT_GROUP
    {
      OneOfNine(g, UPTIME_GROUP, BYTES_GROUP, MESSAGES_GROUP, BYTE_RATES_GROUP, MESSAGE_RATES_GROUP,
                PORTAL_AIRCRAFT_GROUP, PORTAL_RATES_GROUP, MLAT_SYNC_GROUP, MLAT_RESULT_GROUP);
    }
    NineListed(UPTIME_GROUP, BYTES_GROUP, MESSAGES_GROUP, BYTE_RATES_GROUP, MESSAGE_RATES_GROUP,
               PORTAL_AIRCRAFT_GROUP, PORTAL_RATES_GROUP, MLAT_SYNC_GROUP, MLAT_RESULT_GROUP);
  }

  /** Every sensor but the report ones comes from a metric group. */
  lemma SensorGroup(groups: seq<MetricGroup>, known: set<string>, key: string, suffix: string)
    requires AllGroups(groups, known) && key in known && HasSensor(key, suffix)
    requires !(exists r <- REPORT_BINARY_SENSORS :: r.key == key && r.suffix == suffix)
    ensures InMetricGroup(groups, key, suffix)
  {
    var g := if suffix in UPTIME_METRICS then MetricGroup(UPTIME_METRICS, known)
             else if key in BYTE_FEEDERS && suffix in THROUGHPUT_METRICS then BYTES_GROUP
             else if key in MESSAGE_FEEDERS && suffix in MESSAGES_METRICS then MESSAGES_GROUP
             else if key in BYTE_FEEDERS && suffix in THROUGHPUT_RATE_METRICS then BYTE_RATES_GROUP
             else if key in MESSAGE_FEEDERS && suffix in MESSAGES_RATE_METRICS then MESSAGE_RATES_GROUP
             else if key in PORTAL_AIRCRAFT_FEEDERS && suffix in PORTAL_AIRCRAFT_METRICS then PORTAL_AIRCRAFT_GROUP
             else if key in PORTAL_RATE_FEEDERS && suffix in PORTAL_RATE_METRICS then PORTAL_RATES_GROUP
             else if suffix in MLAT_SYNC_METRICS && key in MLAT_SYNC_CAPABLE then MLAT_SYNC_GROUP
             else MLAT_RESULT_GROUP;
    assert g in groups && key in g.feeders && suffix in g.suffixes;
  }

  lemma BytesAdvertised(i: Inputs, enabled: seq<string>, key: string, sent: real, received: real, st: State)
    requires key in enabled && key in BYTE_FEEDERS && BytesDue(i, key, sent, received, st)
    ensures Advertised(enabled, st.topic)
  {
    RatesListed();
    assert st.topic.suffix in THROUGHPUT_METRICS + THROUGHPUT_RATE_METRICS;
  }

  lemma TrafficAdvertised(i: Inputs, enabled: seq<string>, st: State)
    requires forall key <- i.totals :: key in enabled && key in THROUGHPUT_KERNEL
    requires TrafficDue(i, enabled, st)
    ensures Advertised(enabled, st.topic)
  {
    if PlanefinderDue(i, enabled, st) {
      BytesAdvertised(i, enabled, "planefinder", Amount(i, "planefinder", "bytes_sent"), Amount(i, "planefinder", "bytes_received"), st);
    } else {
      var key :| key in i.totals && TotalDue(i, key, st);
      BytesAdvertised(i, enabled, key, i.totals[key].sent as real, i.totals[key].received as real, st);
    }
  }

  lemma MessagesAdvertised(i: Inputs, enabled: seq<string>, st: State)
    requires MessagesDue(i, enabled, st)
    ensures Advertised(enabled, st.topic)
  {
    RatesListed();
    assert st.topic.suffix in MESSAGES_METRICS + MESSAGES_RATE_METRICS;
  }

  lemma ReportedAdvertised(i: Inputs, enabled: seq<string>, st: State)
    requires || PortalDue(i, enabled, PORTAL_AIRCRAFT_FEEDERS, PORTAL_AIRCRAFT_METRICS, st)
             || PortalDue(i, enabled, PORTAL_RATE_FEEDERS, PORTAL_RATE_METRICS, st)
             || (exists r <- REPORT_BINARY_SENSORS :: ReportDue(i, enabled, r, st))
    ensures Advertised(enabled, st.topic)
  {
    if PortalDue(i, enabled, PORTAL_AIRCRAFT_FEEDERS, PORTAL_AIRCRAFT_METRICS, st)
       || PortalDue(i, enabled, PORTAL_RATE_FEEDERS, PORTAL_RATE_METRICS, st) {
      PortalTables();
    } else {
      ReportTables();
    }
  }

  /** What is due is advertised, given that only enabled feeders measured by the
      kernel have totals. */
  lemma DueAdvertised(i: Inputs, status: seq<Status>, st: State)
    requires forall key <- i.totals :: key in KeysOf(status) && key in THROUGHPUT_KERNEL
    requires Due(i, status, st)
    ensures Advertised(KeysOf(status), st.topic)
  {
    var enabled := KeysOf(status);
    if ConnectionDue(status, st) {
      KeyListed(status, Status(st.topic.key, st.value.on));
    } else if TrafficDue(i, enabled, st) {
      TrafficAdvertised(i, enabled, st);
    } else if MessagesDue(i, enabled, st) {
      MessagesAdvertised(i, enabled, st);
    } else if !MlatDue(i, enabled, st) && !UptimeDue(i, enabled, st) {
      ReportedAdvertised(i, enabled, st);
    }
  }

  lemma {:induction false} KeyListed(status: seq<Status>, s: Status)
    requires s in status
    ensures s.key in KeysOf(status)
  {
    if s != status[0] {
      KeyListed(status[1..], s);
    }
  }

  lemma RatesListed()
    ensures forall s <- ["bytes_sent", "bytes_received", "bytes_sent_rate", "bytes_received_rate"] ::
      s in THROUGHPUT_METRICS + THROUGHPUT_RATE_METRICS
    ensures forall s <- ["messages", "messages_rate"] :: s in MESSAGES_METRICS + MESSAGES_RATE_METRICS
  {
  }

  /** The feeder tables' keys are all known, and the tables have exactly the groups. */
  ghost predicate Covers(t: Tables, known: set<string>, community: seq<Community>, clients: seq<Client>) {
    && AllGroups(t.metricGroups, known) && NoOtherGroup(t.metricGroups, known) && t.reports == REPORT_BINARY_SENSORS
    && (forall key <- CommunityKeys(community) + ClientKeys(clients) :: key in known && key in t.feederKeys)
    && NamesOk(t)
  }

  /** The tables as they stand cover the feeder tables. */
  lemma TablesCover()
    ensures Covers(TABLES, (set key <- ALL_FEEDER_KEYS), COMMUNITY_FEEDERS, PROPRIETARY_FEEDERS)
  {
    GroupsListed();
    NamesAreOk();
    AllKnown(COMMUNITY_FEEDERS, PROPRIETARY_FEEDERS);
  }

  lemma AllKnown(community: seq<Community>, clients: seq<Client>)
    ensures var keys := CommunityKeys(community) + ClientKeys(clients);
            forall key <- keys :: key in (set k <- keys)
  {
  }

  /** In a dict of this discovery pass exactly the configs that name st hold it. */
  lemma DictHolds(t: Tables, enabled: seq<string>, dict: map<Topic, StateTopic>, st: StateTopic)
    requires NamesOk(t) && (forall key <- enabled :: key in t.feederKeys) && IsDict(t, enabled, dict)
    ensures forall x :: x in dict && dict[x] == st <==> Announces(t, enabled, x, st)
  {
    forall x | Announces(t, enabled, x, st) ensures x in dict && dict[x] == st {
      OneState(t, enabled, x, st, dict[x]);
    }
  }

  /** For every option map and whatever the connectors, processes, reports and
      polls of a run: each state a cycle publishes goes to the state topic of a
      config in the discovery dict made under the same options. */
  lemma NoOrphans(t: Tables, known: set<string>, community: seq<Community>, clients: seq<Client>,
                  options: Options, o: Observed, looks: seq<Look>, i: Inputs, dict: map<Topic, StateTopic>, st: State)
    requires Covers(t, known, community, clients)
    requires forall look <- looks :: Attributed(clients, options, look.processes, look.attr)
    requires i.totals == Polled(looks).totals
    requires Due(i, CommunityStatus(options, o, community) + ClientStatus(options, o, clients), st)
    requires IsDict(t, EnabledKeys(options, community, clients), dict)
    ensures exists x :: x in dict && dict[x] == st.topic
  {
    var status := CommunityStatus(options, o, community) + ClientStatus(options, o, clients);
    var enabled := EnabledKeys(options, community, clients);
    SameFeedersEachCycle(options, o, community, clients);
    EnabledAreKnown(options, community, clients);
    OnlyMeasured(clients, options, looks);
    forall key | key in i.totals ensures key in KeysOf(status) && key in THROUGHPUT_KERNEL {
      MeasuredIsEnabled(options, clients, key);
    }
    DueAdvertised(i, status, st);
    AdvertisedHasConfig(t, known, enabled, st.topic);
    DictHolds(t, enabled, dict, st.topic);
  }

  /** Every MLAT sensor that a config of the discovery dict names gets exactly one
      value in each cycle under the same options. */
  lemma MlatConfigsFed(t: Tables, known: set<string>, community: seq<Community>, clients: seq<Client>,
                       options: Options, o: Observed, dict: map<Topic, StateTopic>, out: seq<State>)
    requires Covers(t, known, community, clients)
    requires IsDict(t, EnabledKeys(options, community, clients), dict)
    requires MlatOnce(KeysOf(CommunityStatus(options, o, community) + ClientStatus(options, o, clients)), out)
    ensures forall x <- dict :: MlatSensor(dict[x]) ==> Once(out, dict[x])
  {
    var enabled := EnabledKeys(options, community, clients);
    SameFeedersEachCycle(options, o, community, clients);
    forall x | x in dict && MlatSensor(dict[x]) ensures Once(out, dict[x]) {
      ConfigIsAdvertised(t, known, enabled, x, dict[x]);
      AdvertisedMlat(enabled, dict[x]);
    }
  }

  /** The states go to state topics that configs in the dict name, and each MLAT
      sensor among those gets exactly one. */
  ghost predicate AsAdvertised(dict: map<Topic, StateTopic>, out: seq<State>) {
    && (forall st <- out :: exists x :: x in dict && dict[x] == st.topic)
    && (forall x <- dict :: MlatSensor(dict[x]) ==> Once(out, dict[x]))
  }

  lemma CycleAsAdvertised(t: Tables, known: set<string>, community: seq<Community>, clients: seq<Client>,
                          options: Options, o: Observed, looks: seq<Look>, i: Inputs, dict: map<Topic, StateTopic>, out: seq<State>)
    requires Covers(t, known, community, clients)
    requires forall look <- looks :: Attributed(clients, options, look.processes, look.attr)
    requires i.totals == Polled(looks).totals && IsDict(t, EnabledKeys(options, community, clients), dict)
    requires var status := CommunityStatus(options, o, community) + ClientStatus(options, o, clients);
             (forall st <- out :: Due(i, status, st)) && MlatOnce(KeysOf(status), out)
    ensures AsAdvertised(dict, out)
  {
    MlatConfigsFed(t, known, community, clients, options, o, dict, out);
    forall st | st in out ensures exists x :: x in dict && dict[x] == st.topic {
      NoOrphans(t, known, community, clients, options, o, looks, i, dict, st);
    }
  }

  /** Totals of a run of polls, and the dict of a discovery pass, both under these
      options. */
  ghost predicate UnderOptions(t: Tables, community: seq<Community>, clients: seq<Client>, options: Options,
                               looks: seq<Look>, totals: map<string, Traffic>, dict: map<Topic, StateTopic>) {
    && (forall look <- looks :: Attributed(clients, options, look.processes, look.attr))
    && totals == Polled(looks).totals
    && IsDict(t, EnabledKeys(options, community, clients), dict)
  }

  /** The per-feeder part of a whole cycle: exactly what is due, and in every run
      in agreement with the discovery dict. */
  method CycleOf(ghost t: Tables, ghost known: set<string>, community: seq<Community>, clients: seq<Client>,
                 options: Options, o: Observed, i: Inputs, ghost looks: seq<Look>, ghost dict: map<Topic, StateTopic>)
    returns (out: seq<State>)
    requires Covers(t, known, community, clients)
    ensures forall st :: st in out <==> Due(i, CommunityStatus(options, o, community) + ClientStatus(options, o, clients), st)
    ensures UnderOptions(t, community, clients, options, looks, i.totals, dict) ==>
      AsAdvertised(dict, out) && TrafficShown(i, Polled(looks), out)
  {
    var status := ComputeFeederStatus(options, o, community, clients);
    out := Cycle(i, status);
    if UnderOptions(t, community, clients, options, looks, i.totals, dict) {
      CycleAsAdvertised(t, known, community, clients, options, o, looks, i, dict, out);
      forall key, d | key != "planefinder" ensures ShowsTraffic(out, BaselineOf(i, key, d), Polled(looks), key, d, i.now) {
        CycleShowsTraffic(i, status, out, Polled(looks), key, d);
      }
    }
  }

  /** The same with the tables as they stand. */
  method PublishCycle(options: Options, o: Observed, i: Inputs, ghost looks: seq<Look>, ghost dict: map<Topic, StateTopic>)
    returns (out: seq<State>)
    ensures UnderOptions(TABLES, COMMUNITY_FEEDERS, PROPRIETARY_FEEDERS, options, looks, i.totals, dict)
            ==> AsAdvertised(dict, out) && TrafficShown(i, Polled(looks), out)
  {
    TablesCover();
    out := CycleOf(TABLES, (set key <- ALL_FEEDER_KEYS), COMMUNITY_FEEDERS, PROPRIETARY_FEEDERS, options, o, i, looks, dict);
  }
}
