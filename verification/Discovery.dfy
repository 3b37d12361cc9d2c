/** The discovery pass (app.py, mqtt.py): the per-feeder topics, the groups that
    are published or retracted together, and a publisher whose broker may fail at
    any point of the pass. */
module Discovery {
  import opened Bytes
  import opened Retained

  // ---------------------------------------------------------------- what the add-on publishes

  /** The metric tables (metadata.py), the feeder keys, which feeders have which
      metrics, and, on a list of their own, the suffixes a pass retracts. */
  datatype Tables = Tables(
    mainDevice: string, nearbyDevice: string, feedersDevice: string, uatDevice: string, dfDevice: string,
    health: seq<string>, nearby: seq<string>, sdr: seq<string>, unique: seq<string>, emergency: string,
    uat: seq<string>, df: seq<string>, broker: seq<string>,
    feederKeys: seq<string>, metricGroups: seq<MetricGroup>, metricSuffixes: seq<string>, reports: seq<Report>)

  /** Metric suffixes, and the feeders they apply to. */
  datatype MetricGroup = MetricGroup(suffixes: seq<string>, feeders: set<string>)

  /** A self-report binary sensor of one feeder. */
  datatype Report = Report(key: string, suffix: string, field: string)

  function KeyTopics(c: Component, device: string, keys: seq<string>): (ts: seq<Topic>)
    ensures |ts| == |keys| && forall i :: 0 <= i < |keys| ==> ts[i] == Config(c, device, keys[i])
  {
    seq(|keys|, i requires 0 <= i < |keys| => Config(c, device, keys[i]))
  }

  function ConnectionTopic(t: Tables, key: string): Topic {
    Config(BinarySensor, t.feedersDevice, key)
  }

  function ReportTopic(t: Tables, r: Report): Topic {
    Config(BinarySensor, t.feedersDevice, r.key + "_" + r.suffix)
  }

  function MetricTopic(t: Tables, key: string, suffix: string): Topic {
    Config(Sensor, t.feedersDevice, key + "_" + suffix)
  }

  // ---------------------------------------------------------------- per-feeder topics

  /** The state topic a per-feeder config names: the feeder's connection, or one
      of its sensors. */
  datatype StateTopic = ConnectionState(key: string) | SensorState(key: string, suffix: string)

  ghost predicate ConnectionPart(t: Tables, enabled: seq<string>, x: Topic, st: StateTopic) {
    st.ConnectionState? && st.key in enabled && x == ConnectionTopic(t, st.key)
  }

  ghost predicate MetricPart(t: Tables, g: MetricGroup, enabled: seq<string>, x: Topic, st: StateTopic) {
    && st.SensorState? && st.key in enabled && st.key in g.feeders && st.suffix in g.suffixes
    && x == MetricTopic(t, st.key, st.suffix)
  }

  ghost predicate ReportPart(t: Tables, r: Report, enabled: seq<string>, x: Topic, st: StateTopic) {
    st == SensorState(r.key, r.suffix) && r.key in enabled && x == ReportTopic(t, r)
  }

  /** Enabled feeders are advertised with a config at x that names st. */
  ghost predicate Announces(t: Tables, enabled: seq<string>, x: Topic, st: StateTopic) {
    || ConnectionPart(t, enabled, x, st)
    || (exists g <- t.metricGroups :: MetricPart(t, g, enabled, x, st))
    || (exists r <- t.reports :: ReportPart(t, r, enabled, x, st))
  }

  /** What an enabled feeder is advertised with. */
  ghost predicate Discovers(t: Tables, enabled: seq<string>, x: Topic) {
    exists st :: Announces(t, enabled, x, st)
  }

  /** Every topic any option set could have advertised a feeder with. */
  ghost predicate Candidate(t: Tables, x: Topic) {
    exists key <- t.feederKeys :: KeyCandidate(t, key, x)
  }

  ghost predicate KeyCandidate(t: Tables, key: string, x: Topic) {
    || x == ConnectionTopic(t, key)
    || (exists r <- t.reports :: r.key == key && x == ReportTopic(t, r))
    || (exists suffix <- t.metricSuffixes :: x == MetricTopic(t, key, suffix))
  }

  /** Every suffix that is published is on the list that is retracted. */
  ghost predicate Covered(t: Tables) {
    forall g <- t.metricGroups, suffix <- g.suffixes :: suffix in t.metricSuffixes
  }

  /** Then nothing is ever advertised outside the candidates. */
  lemma AdvertisedAreCandidates(t: Tables, enabled: seq<string>, x: Topic)
    requires Covered(t) && (forall key <- enabled :: key in t.feederKeys) && Discovers(t, enabled, x)
    ensures Candidate(t, x)
  {
    var st :| Announces(t, enabled, x, st);
    assert KeyCandidate(t, st.key, x);
  }

  /** And it takes that: a metric's config can be retracted if and only if its
      suffix is on the list. */
  lemma RetractedIfListed(t: Tables, g: MetricGroup, key: string, suffix: string)
    requires NamesOk(t) && g in t.metricGroups && key in g.feeders && key in t.feederKeys && suffix in g.suffixes
    ensures Discovers(t, [key], MetricTopic(t, key, suffix))
    ensures Candidate(t, MetricTopic(t, key, suffix)) <==> suffix in t.metricSuffixes
  {
    var x := MetricTopic(t, key, suffix);
    assert MetricPart(t, g, [key], x, SensorState(key, suffix)) && Announces(t, [key], x, SensorState(key, suffix));
    if suffix in t.metricSuffixes {
      assert KeyCandidate(t, key, x);
    }
    if key' :| key' in t.feederKeys && KeyCandidate(t, key', x) {
      var other :| other in t.metricSuffixes && x == MetricTopic(t, key', other);
      KeyBack(key, suffix, key', other);
    }
  }

  // ---------------------------------------------------------------- names

  /** No name holds a slash, and no feeder key an underscore. */
  ghost predicate NamesOk(t: Tables) {
    && Lacks(t.mainDevice, '/') && Lacks(t.nearbyDevice, '/') && Lacks(t.feedersDevice, '/')
    && Lacks(t.uatDevice, '/') && Lacks(t.dfDevice, '/') && Lacks(t.emergency, '/')
    && AllLack(t.health, '/') && AllLack(t.nearby, '/') && AllLack(t.sdr, '/') && AllLack(t.unique, '/')
    && AllLack(t.uat, '/') && AllLack(t.df, '/') && AllLack(t.broker, '/')
    && AllLack(t.feederKeys, '/') && AllLack(t.feederKeys, '_') && AllLack(t.metricSuffixes, '/')
    && forall r <- t.reports :: Lacks(r.key, '/') && Lacks(r.key, '_') && Lacks(r.suffix, '/')
  }

  ghost predicate AllLack(names: seq<string>, c: char) {
    forall s <- names :: Lacks(s, c)
  }

  /** A key without an underscore can be told from the suffix after it. */
  lemma KeyBack(key: string, suffix: string, key': string, suffix': string)
    requires Lacks(key, '_') && Lacks(key', '_') && key + "_" + suffix == key' + "_" + suffix'
    ensures key == key' && suffix == suffix'
  {
    var s := key + "_" + suffix;
    assert s[|key|] == '_' && s[|key'|] == '_';
    assert forall i :: 0 <= i < |key| ==> s[i] == key[i];
    assert forall i :: 0 <= i < |key'| ==> s[i] == key'[i];
    assert |key| == |key'|;
    assert s[..|key|] == key == key' && s[|key| + 1..] == suffix == suffix';
  }

  lemma NoSuffix(key: string, suffix: string, other: string)
    requires Lacks(other, '_')
    ensures other != key + "_" + suffix
  {
    assert (key + "_" + suffix)[|key|] == '_';
  }

  /** A config topic names one state topic only. */
  lemma OneState(t: Tables, enabled: seq<string>, x: Topic, st: StateTopic, st': StateTopic)
    requires NamesOk(t) && forall key <- enabled :: key in t.feederKeys
    requires Announces(t, enabled, x, st) && Announces(t, enabled, x, st')
    ensures st == st'
  {
    assert Lacks(st.key, '_') && Lacks(st'.key, '_');
    if st.SensorState? {
      SensorText(t, enabled, x, st);
      NoSuffix(st.key, st.suffix, st'.key);
    }
    if st'.SensorState? {
      SensorText(t, enabled, x, st');
      NoSuffix(st'.key, st'.suffix, st.key);
    }
    if st.SensorState? && st'.SensorState? {
      KeyBack(st.key, st.suffix, st'.key, st'.suffix);
    }
  }

  lemma SensorText(t: Tables, enabled: seq<string>, x: Topic, st: StateTopic)
    requires Announces(t, enabled, x, st) && st.SensorState?
    ensures x.Config? && x.objectId == st.key + "_" + st.suffix
  {
  }

  // ---------------------------------------------------------------- the discovery dict

  /** The dict maps each config topic to the state topic its config names. */
  ghost predicate IsDict(t: Tables, enabled: seq<string>, out: map<Topic, StateTopic>) {
    && (forall x <- out :: Announces(t, enabled, x, out[x]))
    && (forall x, st :: Announces(t, enabled, x, st) ==> x in out)
  }

  /** The per-feeder discovery dict. */
  method AssembleFeederDiscovery(t: Tables, enabled: seq<string>) returns (out: map<Topic, StateTopic>)
    ensures IsDict(t, enabled, out)
  {
    out := BuildFeeders(t, enabled);
    assert t.metricGroups[..0] == [];
    for n := 0 to |t.metricGroups|
      invariant forall x <- out :: ConnectionPart(t, enabled, x, out[x])
                                   || exists g <- t.metricGroups[..n] :: MetricPart(t, g, enabled, x, out[x])
      invariant forall x, st :: ConnectionPart(t, enabled, x, st) ==> x in out
      invariant forall x, st, g <- t.metricGroups[..n] :: MetricPart(t, g, enabled, x, st) ==> x in out
    {
      assert t.metricGroups[..n + 1] == t.metricGroups[..n] + [t.metricGroups[n]];
      var more := BuildFeederMetrics(t, t.metricGroups[n], enabled);
      out := out + more;
    }
    assert t.metricGroups[..|t.metricGroups|] == t.metricGroups;
    var more := BuildReportBinary(t, enabled);
    out := out + more;
  }

  method BuildFeeders(t: Tables, enabled: seq<string>) returns (out: map<Topic, StateTopic>)
    ensures forall x <- out :: ConnectionPart(t, enabled, x, out[x])
    ensures forall x, st :: ConnectionPart(t, enabled, x, st) ==> x in out
  {
    out := map[];
    for n := 0 to |enabled|
      invariant forall x <- out :: ConnectionPart(t, enabled[..n], x, out[x])
      invariant forall x, st :: ConnectionPart(t, enabled[..n], x, st) ==> x in out
    {
      assert enabled[..n + 1] == enabled[..n] + [enabled[n]];
      out := out[ConnectionTopic(t, enabled[n]) := ConnectionState(enabled[n])];
      ghost var taken := enabled[..n + 1];
      forall x, st | ConnectionPart(t, taken, x, st) ensures x in out {
        assert st.key == enabled[n] || ConnectionPart(t, enabled[..n], x, st);
      }
    }
    assert enabled[..|enabled|] == enabled;
  }

  method BuildFeederMetrics(t: Tables, g: MetricGroup, enabled: seq<string>) returns (out: map<Topic, StateTopic>)
    ensures forall x <- out :: MetricPart(t, g, enabled, x, out[x])
    ensures forall x, st :: MetricPart(t, g, enabled, x, st) ==> x in out
  {
    out := map[];
    for n := 0 to |enabled|
      invariant forall x <- out :: MetricPart(t, g, enabled[..n], x, out[x])
      invariant forall x, st :: MetricPart(t, g, enabled[..n], x, st) ==> x in out
    {
      assert enabled[..n + 1] == enabled[..n] + [enabled[n]];
      if enabled[n] in g.feeders {
        var more := BuildOneFeeder(t, g, enabled[n]);
        out := out + more;
      }
      ghost var taken := enabled[..n + 1];
      forall x, st | MetricPart(t, g, taken, x, st) ensures x in out {
        assert MetricPart(t, g, [enabled[n]], x, st) || MetricPart(t, g, enabled[..n], x, st);
      }
    }
    assert enabled[..|enabled|] == enabled;
  }

  method BuildOneFeeder(t: Tables, g: MetricGroup, key: string) returns (out: map<Topic, StateTopic>)
    requires key in g.feeders
    ensures forall x <- out :: MetricPart(t, g, [key], x, out[x])
    ensures forall x, st :: MetricPart(t, g, [key], x, st) ==> x in out
  {
    out := map[];
    for k := 0 to |g.suffixes|
      invariant forall x <- out :: MetricPart(t, g.(suffixes := g.suffixes[..k]), [key], x, out[x])
      invariant forall x, st :: MetricPart(t, g.(suffixes := g.suffixes[..k]), [key], x, st) ==> x in out
    {
      assert g.suffixes[..k + 1] == g.suffixes[..k] + [g.suffixes[k]];
      out := out[MetricTopic(t, key, g.suffixes[k]) := SensorState(key, g.suffixes[k])];
      ghost var taken := g.(suffixes := g.suffixes[..k + 1]);
      forall x, st | MetricPart(t, taken, [key], x, st) ensures x in out {
        assert st.suffix == g.suffixes[k] || MetricPart(t, g.(suffixes := g.suffixes[..k]), [key], x, st);
      }
    }
    assert g.suffixes[..|g.suffixes|] == g.suffixes && g.(suffixes := g.suffixes) == g;
  }

  method BuildReportBinary(t: Tables, enabled: seq<string>) returns (out: map<Topic, StateTopic>)
    ensures forall x <- out :: exists r <- t.reports :: ReportPart(t, r, enabled, x, out[x])
    ensures forall x, st, r <- t.reports :: ReportPart(t, r, enabled, x, st) ==> x in out
  {
    out := map[];
    for n := 0 to |t.reports|
      invariant forall x <- out :: exists r <- t.reports :: ReportPart(t, r, enabled, x, out[x])
      invariant forall x, st, r <- t.reports[..n] :: ReportPart(t, r, enabled, x, st) ==> x in out
    {
      var r := t.reports[n];
      assert t.reports[..n + 1] == t.reports[..n] + [r] && r in t.reports;
      if r.key in enabled {
        assert ReportPart(t, r, enabled, ReportTopic(t, r), SensorState(r.key, r.suffix));
        out := out[ReportTopic(t, r) := SensorState(r.key, r.suffix)];
      }
    }
    assert t.reports[..|t.reports|] == t.reports;
  }

  /** Every candidate that was not published: what the pass retracts. */
  method StaleFeederTopics(t: Tables, published: seq<Topic>) returns (out: seq<Topic>)
    ensures forall x :: x in out <==> Candidate(t, x) && x !in published
  {
    out := [];
    for n := 0 to |t.feederKeys|
      invariant forall x :: x in out <==>
        x !in published && exists key <- t.feederKeys[..n] :: KeyCandidate(t, key, x)
    {
      assert t.feederKeys[..n + 1] == t.feederKeys[..n] + [t.feederKeys[n]];
      var candidates := KeyCandidates(t, t.feederKeys[n]);
      ghost var before := out;
      for k := 0 to |candidates|
        invariant forall x :: x in out <==> x in before || (x !in published && x in candidates[..k])
      {
        assert candidates[..k + 1] == candidates[..k] + [candidates[k]];
        if candidates[k] !in published {
          out := out + [candidates[k]];
        }
      }
      assert candidates[..|candidates|] == candidates;
    }
    assert t.feederKeys[..|t.feederKeys|] == t.feederKeys;
  }

  method KeyCandidates(t: Tables, key: string) returns (out: seq<Topic>)
    ensures forall x :: x in out <==> KeyCandidate(t, key, x)
  {
    out := [ConnectionTopic(t, key)];
    for n := 0 to |t.reports|
      invariant forall x :: x in out <==>
        x == ConnectionTopic(t, key) || exists r <- t.reports[..n] :: r.key == key && x == ReportTopic(t, r)
    {
      assert t.reports[..n + 1] == t.reports[..n] + [t.reports[n]];
      if t.reports[n].key == key {
        out := out + [ReportTopic(t, t.reports[n])];
      }
    }
    assert t.reports[..|t.reports|] == t.reports;
    ghost var before := out;
    for n := 0 to |t.metricSuffixes|
      invariant forall x :: x in out <==>
        x in before || exists suffix <- t.metricSuffixes[..n] :: x == MetricTopic(t, key, suffix)
    {
      assert t.metricSuffixes[..n + 1] == t.metricSuffixes[..n] + [t.metricSuffixes[n]];
      out := out + [MetricTopic(t, key, t.metricSuffixes[n])];
    }
    assert t.metricSuffixes[..|t.metricSuffixes|] == t.metricSuffixes;
  }

  /** The topics of a dict, in some order. */
  method Listing(dict: map<Topic, StateTopic>) returns (out: seq<Topic>)
    ensures forall x :: x in out <==> x in dict
  {
    out := [];
    var pending := dict.Keys;
    while pending != {}
      invariant pending <= dict.Keys
      invariant forall x :: x in out <==> x in dict && x !in pending
      decreases |pending|
    {
      var x :| x in pending;
      pending := pending - {x};
      out := out + [x];
    }
  }

  // ---------------------------------------------------------------- the pass

  /** What a run was configured with; `body` gives each topic's config payload. */
  datatype Setup = Setup(
    feederHealth: bool, planesNearMe: bool, feederStatus: bool, emergencyOn: bool, uniqueOn: bool,
    sdrPresent: bool, uatPresent: bool, dfOn: bool,
    base: string, enabled: seq<string>, body: Bodies)

  /** The groups of every pass, in order. */
  function FixedGroups(t: Tables, s: Setup): seq<Group> {
    [Group(KeyTopics(Sensor, t.mainDevice, t.health), s.feederHealth),
     Group(KeyTopics(Sensor, t.nearbyDevice, t.nearby), s.planesNearMe),
     Group(KeyTopics(Sensor, t.mainDevice, t.sdr), s.feederHealth && s.sdrPresent),
     Group(KeyTopics(Sensor, t.mainDevice, t.unique), s.uniqueOn),
     Group([Config(BinarySensor, t.mainDevice, t.emergency)], s.emergencyOn),
     Group(KeyTopics(Sensor, t.uatDevice, t.uat), s.feederHealth && s.uatPresent),
     Group(KeyTopics(Sensor, t.dfDevice, t.df), s.dfOn),
     Group(KeyTopics(Sensor, t.mainDevice, t.broker), s.feederHealth)]
  }

  /** The groups a pass publishes: after the first two come the per-feeder topics,
      published (`advertised`) and retracted (`stale`), if feeder status is on. */
  function Groups(t: Tables, s: Setup, advertised: seq<Topic>, stale: seq<Topic>): seq<Group> {
    var fixed := FixedGroups(t, s);
    fixed[..2] + (if s.feederStatus then [Group(advertised, true), Group(stale, false)] else []) + fixed[2..]
  }

  /** A whole pass. */
  function Pass(t: Tables, s: Setup, advertised: seq<Topic>, stale: seq<Topic>): seq<Message> {
    Messages(s.body, Groups(t, s, advertised, stale)) + [Message(Availability(s.base), "online")]
  }

  /** The per-feeder topics are those the two methods above compute. */
  ghost predicate Computed(t: Tables, s: Setup, advertised: seq<Topic>, stale: seq<Topic>) {
    && (forall key <- s.enabled :: key in t.feederKeys)
    && (forall x :: x in advertised <==> Discovers(t, s.enabled, x))
    && (forall x :: x in stale <==> Candidate(t, x) && x !in advertised)
  }

  /** The connection to the broker: it takes `landing` more publishes, then fails. */
  class Publisher {
    var retained: Kept
    var landing: nat
    var needDiscovery: bool

    constructor (retained: Kept, landing: nat)
      ensures this.retained == retained && this.landing == landing && needDiscovery
    {
      this.retained, this.landing, needDiscovery := retained, landing, true;
    }

    method Publish(m: Message) returns (ok: bool)
      modifies this`retained, this`landing
      ensures ok == (old(landing) > 0)
      ensures ok ==> retained == Deliver(old(retained), m) && landing == old(landing) - 1
      ensures !ok ==> retained == old(retained) && landing == 0
    {
      ok := landing > 0;
      if ok {
        retained := Deliver(retained, m);
        landing := landing - 1;
      }
    }

    /** One group: everything lands, or as much as the broker takes. */
    method PublishGroup(body: Bodies, topics: seq<Topic>, on: bool) returns (ok: bool)
      modifies this`retained, this`landing
      ensures Landed(old(retained), old(landing), GroupMessages(body, topics, on), retained, landing, ok)
    {
      ghost var ms := GroupMessages(body, topics, on);
      GroupMessageAt(body, topics, on);
      for n := 0 to |topics|
        invariant landing == old(landing) - n && retained == DeliverAll(old(retained), ms[..n])
      {
        var m := Message(topics[n], if on then body(topics[n]) else "");
        DeliverSnoc(old(retained), ms, n);
        ok := Publish(m);
        if !ok {
          return false;
        }
      }
      assert ms[..|ms|] == ms;
      return true;
    }

    method PublishGroups(body: Bodies, groups: seq<Group>) returns (ok: bool)
      modifies this`retained, this`landing
      ensures Landed(old(retained), old(landing), Messages(body, groups), retained, landing, ok)
    {
      assert groups[..|groups|] == groups && groups[..0] == [];
      for n := 0 to |groups|
        invariant Landed(old(retained), old(landing), Messages(body, groups[..n]), retained, landing, true)
      {
        ghost var mid, left := retained, landing;
        ghost var xs, ys := Messages(body, groups[..n]), GroupMessages(body, groups[n].topics, groups[n].on);
        MessagesStep(body, groups, n);
        MessagesPrefix(body, groups, n + 1);
        ok := PublishGroup(body, groups[n].topics, groups[n].on);
        LandedMore(old(retained), old(landing), xs, ys, Messages(body, groups), mid, left, retained, landing, ok);
        if !ok {
          return false;
        }
      }
      return true;
    }

    /** The pass; discovery is no longer needed only once all of it has landed. */
    method DiscoveryPass(t: Tables, s: Setup)
      returns (ok: bool, ghost dict: map<Topic, StateTopic>, ghost advertised: seq<Topic>, ghost stale: seq<Topic>)
      requires forall key <- s.enabled :: key in t.feederKeys
      modifies this
      ensures IsDict(t, s.enabled, dict) && (forall x :: x in advertised <==> x in dict)
      ensures Computed(t, s, advertised, stale)
      ensures Landed(old(retained), old(landing), Pass(t, s, advertised, stale), retained, landing, ok)
      ensures ok ==> Holds(retained, Availability(s.base)) == Some("online")
      ensures needDiscovery == (old(needDiscovery) && !ok)
    {
      var configs := AssembleFeederDiscovery(t, s.enabled);
      var topics := Listing(configs);
      var retracted := StaleFeederTopics(t, topics);
      dict, advertised, stale := configs, topics, retracted;
      assert forall x :: x in advertised <==> Discovers(t, s.enabled, x);
      var groups := Groups(t, s, topics, retracted);
      ghost var ms := Messages(s.body, groups);
      var last := Message(Availability(s.base), "online");
      ok := PublishGroups(s.body, groups);
      if !ok {
        LandedEarly(old(retained), old(landing), ms, last, retained, landing);
        return;
      }
      ghost var mid, left := retained, landing;
      ok := Publish(last);
      LandedLast(old(retained), old(landing), ms, last, mid, left, retained, landing, ok);
      if ok {
        needDiscovery := false;
      }
    }
  }

  /** ms was published to a broker taking `landing` messages. */
  ghost predicate Landed(before: Kept, landing: nat, ms: seq<Message>, after: Kept, left: nat, ok: bool) {
    if ok then landing >= |ms| && left == landing - |ms| && after == DeliverAll(before, ms)
    else landing < |ms| && left == 0 && after == DeliverAll(before, ms[..landing])
  }

  lemma {:induction false} GroupMessageAt(body: Bodies, topics: seq<Topic>, on: bool)
    ensures var ms := GroupMessages(body, topics, on);
            |ms| == |topics| && forall n :: 0 <= n < |topics| ==> ms[n] == Message(topics[n], Payload(body, on, topics[n]))
  {
    if topics != [] {
      GroupMessageAt(body, topics[1..], on);
    }
  }

  lemma DeliverSnoc(kept: Kept, ms: seq<Message>, n: nat)
    requires n < |ms|
    ensures DeliverAll(kept, ms[..n + 1]) == Deliver(DeliverAll(kept, ms[..n]), ms[n])
  {
    var one := [ms[n]];
    assert ms[..n + 1] == ms[..n] + one;
    DeliverConcat(kept, ms[..n], one);
    assert one[1..] == [];
  }

  lemma {:induction false} MessagesSnoc(body: Bodies, groups: seq<Group>, g: Group)
    ensures Messages(body, groups + [g]) == Messages(body, groups) + GroupMessages(body, g.topics, g.on)
    decreases |groups|
  {
    if groups == [] {
      assert groups + [g] == [g] && [g][1..] == [];
    } else {
      assert (groups + [g])[1..] == groups[1..] + [g] && (groups + [g])[0] == groups[0];
      MessagesSnoc(body, groups[1..], g);
      ConcatAssoc(GroupMessages(body, groups[0].topics, groups[0].on), Messages(body, groups[1..]),
                  GroupMessages(body, g.topics, g.on));
    }
  }

  lemma LandedConcat(before: Kept, landing: nat, xs: seq<Message>, ys: seq<Message>, mid: Kept, left: nat,
                     after: Kept, left': nat, ok: bool)
    requires Landed(before, landing, xs, mid, left, true) && Landed(mid, left, ys, after, left', ok)
    ensures Landed(before, landing, xs + ys, after, left', ok)
  {
    if ok {
      DeliverConcat(before, xs, ys);
    } else {
      assert (xs + ys)[..landing] == xs + ys[..left];
      DeliverConcat(before, xs, ys[..left]);
    }
  }

  lemma LandedMore(before: Kept, landing: nat, xs: seq<Message>, ys: seq<Message>, whole: seq<Message>,
                   mid: Kept, left: nat, after: Kept, left': nat, ok: bool)
    requires Landed(before, landing, xs, mid, left, true) && Landed(mid, left, ys, after, left', ok)
    requires xs + ys <= whole
    ensures Landed(before, landing, xs + ys, after, left', ok)
    ensures !ok ==> Landed(before, landing, whole, after, left', false)
  {
    LandedConcat(before, landing, xs, ys, mid, left, after, left', ok);
    if !ok {
      LandedPrefix(before, landing, xs + ys, whole, after, left');
    }
  }

  lemma MessagesStep(body: Bodies, groups: seq<Group>, n: nat)
    requires n < |groups|
    ensures Messages(body, groups[..n + 1])
         == Messages(body, groups[..n]) + GroupMessages(body, groups[n].topics, groups[n].on)
  {
    assert groups[..n + 1] == groups[..n] + [groups[n]];
    MessagesSnoc(body, groups[..n], groups[n]);
  }

  lemma LandedPrefix(before: Kept, landing: nat, xs: seq<Message>, whole: seq<Message>, after: Kept, left: nat)
    requires xs <= whole && Landed(before, landing, xs, after, left, false)
    ensures Landed(before, landing, whole, after, left, false)
  {
    assert whole[..landing] == xs[..landing];
  }

  lemma {:induction false} MessagesPrefix(body: Bodies, groups: seq<Group>, n: nat)
    requires n <= |groups|
    ensures Messages(body, groups[..n]) <= Messages(body, groups)
    decreases |groups| - n
  {
    if n == |groups| {
      assert groups[..n] == groups;
    } else {
      MessagesStep(body, groups, n);
      MessagesPrefix(body, groups, n + 1);
    }
  }

  lemma LandedEarly(before: Kept, landing: nat, ms: seq<Message>, last: Message, after: Kept, left: nat)
    requires Landed(before, landing, ms, after, left, false)
    ensures Landed(before, landing, ms + [last], after, left, false)
  {
    assert (ms + [last])[..landing] == ms[..landing];
  }

  lemma LandedLast(before: Kept, landing: nat, ms: seq<Message>, last: Message, mid: Kept, left: nat,
                   after: Kept, left': nat, ok: bool)
    requires Landed(before, landing, ms, mid, left, true) && ok == (left > 0)
    requires if ok then after == Deliver(mid, last) && left' == left - 1 else after == mid && left' == 0
    ensures Landed(before, landing, ms + [last], after, left', ok)
  {
    var one := [last];
    assert one[1..] == [] && one[..0] == [];
    LandedConcat(before, landing, ms, one, mid, left, after, left', ok);
  }
}
