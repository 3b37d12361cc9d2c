/** What the broker retains after any history of discovery passes. */
module Convergence {
  import opened Bytes
  import opened Retained
  import opened Discovery

  // ---------------------------------------------------------------- convergence

  ghost predicate Separate(xs: seq<string>, ys: seq<string>) {
    forall x <- xs :: x !in ys
  }

  /** No two groups share a topic: devices differ, and so do the metric keys of
      the groups that share the main device. And all that is published for
      feeders is on the list that is retracted. */
  ghost predicate TablesOk(t: Tables) {
    && Covered(t)
    && t.nearbyDevice != t.mainDevice && t.feedersDevice != t.mainDevice && t.uatDevice != t.mainDevice
    && t.dfDevice != t.mainDevice && t.feedersDevice != t.nearbyDevice && t.uatDevice != t.nearbyDevice
    && t.dfDevice != t.nearbyDevice && t.uatDevice != t.feedersDevice && t.dfDevice != t.feedersDevice
    && t.dfDevice != t.uatDevice
    && Separate(t.health, t.sdr) && Separate(t.health, t.unique) && Separate(t.health, t.broker)
    && Separate(t.sdr, t.unique) && Separate(t.sdr, t.broker) && Separate(t.unique, t.broker)
  }

  /** Numbers the groups; the two per-feeder groups share a number. */
  function Zone(t: Tables, x: Topic): nat {
    if x.Availability? then 9
    else if x.device == t.nearbyDevice then 1
    else if x.device == t.feedersDevice then 2
    else if x.device == t.uatDevice then 6
    else if x.device == t.dfDevice then 7
    else if x.component == BinarySensor then 5
    else if x.objectId in t.sdr then 3
    else if x.objectId in t.unique then 4
    else if x.objectId in t.broker then 8
    else 0
  }

  lemma CandidateZone(t: Tables, x: Topic)
    requires TablesOk(t) && Candidate(t, x)
    ensures x.Config? && x.device == t.feedersDevice && Zone(t, x) == 2
  {
  }

  predicate Is(x: Topic, c: Component, device: string, keys: seq<string>) {
    x.Config? && x.component == c && x.device == device && x.objectId in keys
  }

  lemma InKeyTopics(c: Component, device: string, keys: seq<string>, x: Topic)
    ensures x in KeyTopics(c, device, keys) <==> Is(x, c, device, keys)
  {
    if Is(x, c, device, keys) {
      var i :| 0 <= i < |keys| && keys[i] == x.objectId;
      assert KeyTopics(c, device, keys)[i] == x;
    }
  }

  lemma InFixedGroups(t: Tables, s: Setup, x: Topic)
    ensures var groups := FixedGroups(t, s);
            && (x in groups[0].topics <==> Is(x, Sensor, t.mainDevice, t.health))
            && (x in groups[1].topics <==> Is(x, Sensor, t.nearbyDevice, t.nearby))
            && (x in groups[2].topics <==> Is(x, Sensor, t.mainDevice, t.sdr))
            && (x in groups[3].topics <==> Is(x, Sensor, t.mainDevice, t.unique))
            && (x in groups[4].topics <==> Is(x, BinarySensor, t.mainDevice, [t.emergency]))
            && (x in groups[5].topics <==> Is(x, Sensor, t.uatDevice, t.uat))
            && (x in groups[6].topics <==> Is(x, Sensor, t.dfDevice, t.df))
            && (x in groups[7].topics <==> Is(x, Sensor, t.mainDevice, t.broker))
  {
    InKeyTopics(Sensor, t.mainDevice, t.health, x);
    InKeyTopics(Sensor, t.nearbyDevice, t.nearby, x);
    InKeyTopics(Sensor, t.mainDevice, t.sdr, x);
    InKeyTopics(Sensor, t.mainDevice, t.unique, x);
    InKeyTopics(Sensor, t.uatDevice, t.uat, x);
    InKeyTopics(Sensor, t.dfDevice, t.df, x);
    InKeyTopics(Sensor, t.mainDevice, t.broker, x);
  }

  /** The i-th group of a pass that skips the per-feeder ones, and its number. */
  function FixedZone(i: nat): nat {
    if i < 2 then i else i + 1
  }

  lemma FixedGroupZone(t: Tables, s: Setup, i: nat, x: Topic)
    requires TablesOk(t) && i < 8 && x in FixedGroups(t, s)[i].topics
    ensures Zone(t, x) == FixedZone(i)
  {
    InFixedGroups(t, s, x);
    KeyZones(t, x);
  }

  lemma KeyZones(t: Tables, x: Topic)
    requires TablesOk(t)
    ensures Is(x, Sensor, t.mainDevice, t.health) ==> Zone(t, x) == 0
    ensures Is(x, Sensor, t.nearbyDevice, t.nearby) ==> Zone(t, x) == 1
    ensures Is(x, Sensor, t.mainDevice, t.sdr) ==> Zone(t, x) == 3
    ensures Is(x, Sensor, t.mainDevice, t.unique) ==> Zone(t, x) == 4
    ensures Is(x, BinarySensor, t.mainDevice, [t.emergency]) ==> Zone(t, x) == 5
    ensures Is(x, Sensor, t.uatDevice, t.uat) ==> Zone(t, x) == 6
    ensures Is(x, Sensor, t.dfDevice, t.df) ==> Zone(t, x) == 7
    ensures Is(x, Sensor, t.mainDevice, t.broker) ==> Zone(t, x) == 8
  {
  }

  lemma GroupZone(t: Tables, s: Setup, advertised: seq<Topic>, stale: seq<Topic>, i: nat, x: Topic)
    requires TablesOk(t) && Computed(t, s, advertised, stale)
    requires var groups := Groups(t, s, advertised, stale); i < |groups| && x in groups[i].topics
    ensures Zone(t, x) == if !s.feederStatus || i < 2 then FixedZone(i) else if i < 4 then 2 else FixedZone(i - 2)
  {
    if s.feederStatus && (i == 2 || i == 3) {
      if x in advertised {
        AdvertisedAreCandidates(t, s.enabled, x);
      }
      CandidateZone(t, x);
    } else {
      FixedGroupZone(t, s, if s.feederStatus && i >= 4 then i - 2 else i, x);
    }
  }

  lemma GroupsApart(t: Tables, s: Setup, advertised: seq<Topic>, stale: seq<Topic>)
    requires TablesOk(t) && Computed(t, s, advertised, stale)
    ensures Apart(Groups(t, s, advertised, stale))
  {
    var groups := Groups(t, s, advertised, stale);
    forall i, j, x | 0 <= i < j < |groups| && x in groups[i].topics ensures x !in groups[j].topics {
      if x in groups[j].topics {
        GroupZone(t, s, advertised, stale, i, x);
        GroupZone(t, s, advertised, stale, j, x);
        assert false;
      }
    }
  }

  /** A config topic that is not a feeder's. */
  predicate Fixed(t: Tables, x: Topic) {
    || Is(x, Sensor, t.mainDevice, t.health + t.sdr + t.unique + t.broker)
    || Is(x, BinarySensor, t.mainDevice, [t.emergency])
    || Is(x, Sensor, t.nearbyDevice, t.nearby)
    || Is(x, Sensor, t.uatDevice, t.uat)
    || Is(x, Sensor, t.dfDevice, t.df)
  }

  /** A config topic the add-on ever uses, whatever its options. */
  ghost predicate InUse(t: Tables, x: Topic) {
    Fixed(t, x) || Candidate(t, x)
  }

  /** A config that ought to be there: each group goes with its toggle. */
  ghost predicate Desired(t: Tables, s: Setup, x: Topic) {
    || (s.feederHealth && Is(x, Sensor, t.mainDevice, t.health + t.broker))
    || (s.feederHealth && s.sdrPresent && Is(x, Sensor, t.mainDevice, t.sdr))
    || (s.feederHealth && s.uatPresent && Is(x, Sensor, t.uatDevice, t.uat))
    || (s.uniqueOn && Is(x, Sensor, t.mainDevice, t.unique))
    || (s.emergencyOn && Is(x, BinarySensor, t.mainDevice, [t.emergency]))
    || (s.planesNearMe && Is(x, Sensor, t.nearbyDevice, t.nearby))
    || (s.dfOn && Is(x, Sensor, t.dfDevice, t.df))
    || (s.feederStatus && Discovers(t, s.enabled, x))
  }

  /** x holds its config if it ought to, and nothing if not. */
  ghost predicate Right(t: Tables, s: Setup, kept: Kept, x: Topic) {
    Holds(kept, x) == if Desired(t, s, x) then Some(s.body(x)) else None
  }

  /** Every config topic of the add-on is right. */
  ghost predicate Converged(t: Tables, s: Setup, kept: Kept) {
    forall x :: InUse(t, x) ==> Right(t, s, kept, x)
  }

  /** The fixed group of a topic that is not a feeder's. */
  lemma FindFixed(t: Tables, s: Setup, x: Topic) returns (k: nat)
    requires Fixed(t, x)
    ensures k < 8 && x in FixedGroups(t, s)[k].topics
  {
    InFixedGroups(t, s, x);
    k := if Is(x, Sensor, t.mainDevice, t.health) then 0
         else if Is(x, Sensor, t.nearbyDevice, t.nearby) then 1
         else if Is(x, Sensor, t.mainDevice, t.sdr) then 2
         else if Is(x, Sensor, t.mainDevice, t.unique) then 3
         else if Is(x, BinarySensor, t.mainDevice, [t.emergency]) then 4
         else if Is(x, Sensor, t.uatDevice, t.uat) then 5
         else if Is(x, Sensor, t.dfDevice, t.df) then 6
         else 7;
  }

  /** A fixed group is on exactly when the configs in it are wanted. */
  lemma FixedOn(t: Tables, s: Setup, k: nat, x: Topic)
    requires TablesOk(t) && k < 8 && x in FixedGroups(t, s)[k].topics && !Candidate(t, x)
    requires forall key <- s.enabled :: key in t.feederKeys
    ensures Fixed(t, x) && (FixedGroups(t, s)[k].on <==> Desired(t, s, x))
  {
    InFixedGroups(t, s, x);
    FixedGroupZone(t, s, k, x);
    if Discovers(t, s.enabled, x) {
      AdvertisedAreCandidates(t, s.enabled, x);
    }
  }

  /** The group of x in this pass; a per-feeder topic has one only if feeder
      status is on. */
  lemma FindGroup(t: Tables, s: Setup, advertised: seq<Topic>, stale: seq<Topic>, x: Topic) returns (i: nat)
    requires TablesOk(t) && Computed(t, s, advertised, stale)
    requires InUse(t, x) && (Candidate(t, x) ==> s.feederStatus)
    ensures var groups := Groups(t, s, advertised, stale); i < |groups| && x in groups[i].topics
  {
    if Candidate(t, x) {
      i := if x in advertised then 2 else 3;
    } else {
      var k := FindFixed(t, s, x);
      i := if s.feederStatus && k >= 2 then k + 2 else k;
    }
  }

  /** Where group i of a pass comes from. */
  lemma GroupOrigin(t: Tables, s: Setup, advertised: seq<Topic>, stale: seq<Topic>, i: nat, x: Topic)
    requires TablesOk(t) && Computed(t, s, advertised, stale)
    requires var groups := Groups(t, s, advertised, stale); i < |groups| && x in groups[i].topics
    ensures InUse(t, x) && (Candidate(t, x) ==> s.feederStatus)
    ensures Groups(t, s, advertised, stale)[i].on <==> Desired(t, s, x)
  {
    GroupZone(t, s, advertised, stale, i, x);
    if s.feederStatus && (i == 2 || i == 3) {
      if x in advertised {
        AdvertisedAreCandidates(t, s.enabled, x);
      }
      CandidateZone(t, x);
      NotFixed(t, s, x);
    } else {
      var k := if s.feederStatus && i >= 4 then i - 2 else i;
      assert Groups(t, s, advertised, stale)[i] == FixedGroups(t, s)[k];
      FixedGroupZone(t, s, k, x);
      if Candidate(t, x) {
        CandidateZone(t, x);
        assert false;
      }
      FixedOn(t, s, k, x);
    }
  }

  lemma NotFixed(t: Tables, s: Setup, x: Topic)
    requires TablesOk(t) && x.Config? && x.device == t.feedersDevice
    ensures !Fixed(t, x) && (Desired(t, s, x) <==> s.feederStatus && Discovers(t, s.enabled, x))
  {
  }

  /** Whatever was retained, the will included: a completed pass leaves the add-on
      online. */
  lemma PassAnnounces(t: Tables, s: Setup, advertised: seq<Topic>, stale: seq<Topic>, kept: Kept)
    ensures Holds(DeliverAll(kept, Pass(t, s, advertised, stale)), Availability(s.base)) == Some("online")
  {
    var ms, last := Messages(s.body, Groups(t, s, advertised, stale)), Message(Availability(s.base), "online");
    var one := [last];
    DeliverConcat(kept, ms, one);
    assert one[1..] == [] && last.payload != "";
    assert DeliverAll(DeliverAll(kept, ms), one) == Deliver(DeliverAll(kept, ms), last);
  }

  lemma PassSettles(t: Tables, s: Setup, advertised: seq<Topic>, stale: seq<Topic>, kept: Kept, x: Topic)
    requires TablesOk(t) && Computed(t, s, advertised, stale) && RealBodies(s.body)
    requires InUse(t, x) && (Candidate(t, x) ==> s.feederStatus)
    ensures Right(t, s, DeliverAll(kept, Pass(t, s, advertised, stale)), x)
  {
    var groups := Groups(t, s, advertised, stale);
    var ms, last := Messages(s.body, groups), Message(Availability(s.base), "online");
    var i := FindGroup(t, s, advertised, stale, x);
    GroupsApart(t, s, advertised, stale);
    GroupsSettle(kept, s.body, groups, i, x);
    GroupOrigin(t, s, advertised, stale, i, x);
    DeliverConcat(kept, ms, [last]);
    Untouched(DeliverAll(kept, ms), [last], x);
  }

  /** A pass speaks of topics in use and the availability topic only, and of
      feeders' only if feeder status is on. */
  lemma PassTopics(t: Tables, s: Setup, advertised: seq<Topic>, stale: seq<Topic>, m: Message)
    requires TablesOk(t) && Computed(t, s, advertised, stale) && m in Pass(t, s, advertised, stale)
    ensures m.topic.Availability? || (InUse(t, m.topic) && (Candidate(t, m.topic) ==> s.feederStatus))
  {
    var groups := Groups(t, s, advertised, stale);
    if m in Messages(s.body, groups) {
      MessageTopics(s.body, groups);
      var g :| g in groups && m.topic in g.topics;
      var i :| 0 <= i < |groups| && groups[i] == g;
      GroupOrigin(t, s, advertised, stale, i, m.topic);
    }
  }

  lemma PassLeaves(t: Tables, s: Setup, advertised: seq<Topic>, stale: seq<Topic>, x: Topic)
    requires TablesOk(t) && Computed(t, s, advertised, stale) && x.Config?
    requires !InUse(t, x) || (Candidate(t, x) && !s.feederStatus)
    ensures forall m <- Pass(t, s, advertised, stale) :: m.topic != x
  {
    forall m | m in Pass(t, s, advertised, stale) ensures m.topic != x {
      PassTopics(t, s, advertised, stale, m);
    }
  }

  /** One completed pass, from anything retained before: every config topic of
      the add-on is right afterwards if and only if feeder status is on, or no
      per-feeder config was left over. */
  lemma PassConverges(t: Tables, s: Setup, advertised: seq<Topic>, stale: seq<Topic>, kept: Kept)
    requires TablesOk(t) && Computed(t, s, advertised, stale) && RealBodies(s.body)
    ensures Converged(t, s, DeliverAll(kept, Pass(t, s, advertised, stale)))
            <==> s.feederStatus || forall x :: Candidate(t, x) ==> x !in kept
  {
    var after := DeliverAll(kept, Pass(t, s, advertised, stale));
    forall x | InUse(t, x) && (Candidate(t, x) ==> s.feederStatus) ensures Right(t, s, after, x) {
      PassSettles(t, s, advertised, stale, kept, x);
    }
    if !s.feederStatus {
      forall x | Candidate(t, x) ensures Right(t, s, after, x) <==> x !in kept {
        CandidateZone(t, x);
        PassLeaves(t, s, advertised, stale, x);
        Untouched(kept, Pass(t, s, advertised, stale), x);
        NotFixed(t, s, x);
      }
    }
  }

  // ---------------------------------------------------------------- whole histories

  /** Something earlier runs did under this discovery prefix: a pass, cut after
      any number of publishes, or an availability message (the will included). */
  datatype Event =
    | Passed(s: Setup, advertised: seq<Topic>, stale: seq<Topic>, cut: nat)
    | Announced(base: string, payload: string)

  ghost predicate Possible(t: Tables, es: seq<Event>) {
    forall e <- es :: e.Passed? ==>
      Computed(t, e.s, e.advertised, e.stale) && e.cut <= |Pass(t, e.s, e.advertised, e.stale)|
  }

  function Happen(t: Tables, kept: Kept, e: Event): Kept
    requires e.Passed? ==> e.cut <= |Pass(t, e.s, e.advertised, e.stale)|
  {
    match e
    case Passed(s, advertised, stale, cut) => DeliverAll(kept, Pass(t, s, advertised, stale)[..cut])
    case Announced(base, payload) => Deliver(kept, Message(Availability(base), payload))
  }

  ghost function HappenAll(t: Tables, kept: Kept, es: seq<Event>): Kept
    requires Possible(t, es)
    decreases |es|
  {
    if es == [] then kept else HappenAll(t, Happen(t, kept, es[0]), es[1..])
  }

  /** Config topics of others are never touched. */
  lemma {:induction false} ForeignKept(t: Tables, kept: Kept, es: seq<Event>, x: Topic)
    requires TablesOk(t) && Possible(t, es) && x.Config? && !InUse(t, x)
    ensures Holds(HappenAll(t, kept, es), x) == Holds(kept, x)
    decreases |es|
  {
    if es != [] {
      var e := es[0];
      if e.Passed? {
        PassLeaves(t, e.s, e.advertised, e.stale, x);
        Untouched(kept, Pass(t, e.s, e.advertised, e.stale)[..e.cut], x);
      }
      ForeignKept(t, Happen(t, kept, e), es[1..], x);
    }
  }

  /** Whatever this add-on's earlier runs left behind, with other options and
      passes cut anywhere: a completed pass with feeder status on leaves exactly
      the configs of the enabled groups and feeders, and everybody else's config
      topics as they were before the add-on ever ran. */
  lemma RetainedConverges(t: Tables, kept: Kept, es: seq<Event>, s: Setup, advertised: seq<Topic>, stale: seq<Topic>)
    requires TablesOk(t) && Possible(t, es) && Computed(t, s, advertised, stale) && RealBodies(s.body) && s.feederStatus
    ensures var after := DeliverAll(HappenAll(t, kept, es), Pass(t, s, advertised, stale));
            && Converged(t, s, after)
            && Holds(after, Availability(s.base)) == Some("online")
            && forall x: Topic :: x.Config? && !InUse(t, x) ==> Holds(after, x) == Holds(kept, x)
  {
    var before := HappenAll(t, kept, es);
    PassConverges(t, s, advertised, stale, before);
    PassAnnounces(t, s, advertised, stale, before);
    forall x: Topic | x.Config? && !InUse(t, x)
      ensures Holds(DeliverAll(before, Pass(t, s, advertised, stale)), x) == Holds(kept, x)
    {
      ForeignKept(t, kept, es, x);
      PassLeaves(t, s, advertised, stale, x);
      Untouched(before, Pass(t, s, advertised, stale), x);
    }
  }

  // ---------------------------------------------------------------- as text

  lemma InUsePlain(t: Tables, x: Topic)
    requires NamesOk(t) && InUse(t, x)
    ensures Plain(x)
  {
    if Candidate(t, x) {
      var key :| key in t.feederKeys && KeyCandidate(t, key, x);
      CandidatePlain(t, key, x);
    }
  }

  lemma CandidatePlain(t: Tables, key: string, x: Topic)
    requires NamesOk(t) && key in t.feederKeys && KeyCandidate(t, key, x)
    ensures Plain(x)
  {
    if x != ConnectionTopic(t, key) {
      if r :| r in t.reports && r.key == key && x == ReportTopic(t, r) {
        LacksConcat(key + "_", r.suffix, '/');
      } else {
        var suffix :| suffix in t.metricSuffixes && x == MetricTopic(t, key, suffix);
        LacksConcat(key + "_", suffix, '/');
      }
    }
  }

  lemma PassPlain(t: Tables, s: Setup, advertised: seq<Topic>, stale: seq<Topic>)
    requires TablesOk(t) && NamesOk(t) && Computed(t, s, advertised, stale)
    ensures forall m <- Pass(t, s, advertised, stale) :: Plain(m.topic)
  {
    forall m | m in Pass(t, s, advertised, stale) ensures Plain(m.topic) {
      PassTopics(t, s, advertised, stale, m);
      if m.topic.Config? {
        InUsePlain(t, m.topic);
      }
    }
  }

  /** The messages of an event. */
  function Said(t: Tables, e: Event): seq<Message>
    requires e.Passed? ==> e.cut <= |Pass(t, e.s, e.advertised, e.stale)|
  {
    match e
    case Passed(s, advertised, stale, cut) => Pass(t, s, advertised, stale)[..cut]
    case Announced(base, payload) => [Message(Availability(base), payload)]
  }

  ghost function SaidAll(t: Tables, prefix: string, w: Wire, es: seq<Event>): Wire
    requires Possible(t, es)
    decreases |es|
  {
    if es == [] then w else SaidAll(t, prefix, SendAll(prefix, w, Said(t, es[0])), es[1..])
  }

  lemma SaidIsHappen(t: Tables, kept: Kept, e: Event)
    requires e.Passed? ==> e.cut <= |Pass(t, e.s, e.advertised, e.stale)|
    ensures DeliverAll(kept, Said(t, e)) == Happen(t, kept, e)
  {
    if e.Announced? {
      var one := Said(t, e);
      assert one[1..] == [];
    }
  }

  lemma SaidPlain(t: Tables, e: Event)
    requires TablesOk(t) && NamesOk(t) && Possible(t, [e])
    ensures forall m <- Said(t, e) :: Plain(m.topic)
  {
    assert e in [e];
    if e.Passed? {
      PassPlain(t, e.s, e.advertised, e.stale);
    }
  }

  lemma {:induction false} HistoryFollows(t: Tables, prefix: string, w: Wire, kept: Kept, es: seq<Event>, x: Topic)
    requires TablesOk(t) && NamesOk(t) && Possible(t, es) && Plain(x)
    requires OnWire(w, Render(prefix, x)) == Holds(kept, x)
    ensures OnWire(SaidAll(t, prefix, w, es), Render(prefix, x)) == Holds(HappenAll(t, kept, es), x)
    decreases |es|
  {
    if es != [] {
      assert es[0] in es;
      SaidPlain(t, es[0]);
      WireFollows(prefix, w, kept, Said(t, es[0]), x);
      SaidIsHappen(t, kept, es[0]);
      HistoryFollows(t, prefix, SendAll(prefix, w, Said(t, es[0])), Happen(t, kept, es[0]), es[1..], x);
    }
  }

  /** The topic is one this add-on ever publishes to for discovery. */
  ghost predicate Ours(t: Tables, prefix: string, topic: string) {
    exists x: Topic :: (x.Availability? || InUse(t, x)) && Render(prefix, x) == topic
  }

  lemma {:induction false} ForeignOnWire(t: Tables, prefix: string, w: Wire, es: seq<Event>, topic: string)
    requires TablesOk(t) && Possible(t, es) && !Ours(t, prefix, topic)
    ensures OnWire(SaidAll(t, prefix, w, es), topic) == OnWire(w, topic)
    decreases |es|
  {
    if es != [] {
      var e := es[0];
      forall m | m in Said(t, e) ensures Render(prefix, m.topic) != topic {
        if e.Passed? {
          PassTopics(t, e.s, e.advertised, e.stale, m);
        }
      }
      WireUntouched(prefix, w, Said(t, e), topic);
      ForeignOnWire(t, prefix, SendAll(prefix, w, Said(t, e)), es[1..], topic);
    }
  }

  lemma WireAnnounces(t: Tables, prefix: string, w: Wire, s: Setup, advertised: seq<Topic>, stale: seq<Topic>)
    requires TablesOk(t) && NamesOk(t) && Computed(t, s, advertised, stale)
    ensures OnWire(SendAll(prefix, w, Pass(t, s, advertised, stale)), s.base + "/availability") == Some("online")
  {
    var x := Availability(s.base);
    var topic := Render(prefix, x);
    var kept: Kept := if topic in w then map[x := w[topic]] else map[];
    PassPlain(t, s, advertised, stale);
    WireFollows(prefix, w, kept, Pass(t, s, advertised, stale), x);
    PassAnnounces(t, s, advertised, stale, kept);
  }

  /** Convergence as the broker sees it, on topics as text: after any history under
      one prefix, a completed pass with feeder status on leaves exactly the wanted
      configs on the add-on's topics, and every other topic as it was. */
  lemma WireConverges(t: Tables, prefix: string, w: Wire, es: seq<Event>, s: Setup, advertised: seq<Topic>, stale: seq<Topic>)
    requires TablesOk(t) && NamesOk(t) && Possible(t, es)
    requires Computed(t, s, advertised, stale) && RealBodies(s.body) && s.feederStatus
    ensures var after := SendAll(prefix, SaidAll(t, prefix, w, es), Pass(t, s, advertised, stale));
            && (forall x :: InUse(t, x) ==>
                  OnWire(after, Render(prefix, x)) == if Desired(t, s, x) then Some(s.body(x)) else None)
            && OnWire(after, s.base + "/availability") == Some("online")
            && (forall topic :: !Ours(t, prefix, topic) ==> OnWire(after, topic) == OnWire(w, topic))
  {
    var before, pass := SaidAll(t, prefix, w, es), Pass(t, s, advertised, stale);
    forall x | InUse(t, x)
      ensures OnWire(SendAll(prefix, before, pass), Render(prefix, x)) == if Desired(t, s, x) then Some(s.body(x)) else None
    {
      InUsePlain(t, x);
      PassPlain(t, s, advertised, stale);
      var kept: Kept := if Render(prefix, x) in w then map[x := w[Render(prefix, x)]] else map[];
      HistoryFollows(t, prefix, w, kept, es, x);
      WireFollows(prefix, before, HappenAll(t, kept, es), pass, x);
      RetainedConverges(t, kept, es, s, advertised, stale);
    }
    WireAnnounces(t, prefix, before, s, advertised, stale);
    forall topic | !Ours(t, prefix, topic)
      ensures OnWire(SendAll(prefix, before, pass), topic) == OnWire(w, topic)
    {
      ForeignOnWire(t, prefix, w, es, topic);
      forall m | m in pass ensures Render(prefix, m.topic) != topic {
        PassTopics(t, s, advertised, stale, m);
      }
      WireUntouched(prefix, before, pass, topic);
    }
  }

  // ---------------------------------------------------------------- where it fails

  function KeyTopicSet(t: Tables, key: string): set<Topic> {
    {ConnectionTopic(t, key)} + (set r <- t.reports | r.key == key :: ReportTopic(t, r))
    + (set suffix <- t.metricSuffixes :: MetricTopic(t, key, suffix))
  }

  function CandidateSet(t: Tables): set<Topic> {
    set key <- t.feederKeys, x <- KeyTopicSet(t, key) :: x
  }

  lemma InCandidateSet(t: Tables, x: Topic)
    ensures x in CandidateSet(t) <==> Candidate(t, x)
  {
    assert forall key :: x in KeyTopicSet(t, key) <==> KeyCandidate(t, key, x);
  }

  lemma {:induction false} InOrder(s: set<Topic>) returns (out: seq<Topic>)
    ensures forall x :: x in out <==> x in s
    decreases |s|
  {
    if s == {} {
      out := [];
    } else {
      var x :| x in s;
      out := InOrder(s - {x});
      out := [x] + out;
    }
  }

  /** Every setup has a pass. */
  lemma PassExists(t: Tables, s: Setup) returns (advertised: seq<Topic>, stale: seq<Topic>)
    requires Covered(t) && forall key <- s.enabled :: key in t.feederKeys
    ensures Computed(t, s, advertised, stale)
  {
    forall x ensures x in CandidateSet(t) <==> Candidate(t, x) {
      InCandidateSet(t, x);
    }
    forall x | Discovers(t, s.enabled, x) ensures x in CandidateSet(t) {
      AdvertisedAreCandidates(t, s.enabled, x);
    }
    advertised := InOrder(set x <- CandidateSet(t) | Discovers(t, s.enabled, x));
    stale := InOrder(set x <- CandidateSet(t) | x !in advertised);
  }

  /** With feeder status off configs do stay: one pass with it on, for a feeder
      that is enabled, then one with it off, on a broker that was empty. */
  lemma TurnedOffStays(t: Tables, on: Setup, adv: seq<Topic>, st: seq<Topic>, off: Setup, adv': seq<Topic>, st': seq<Topic>, key: string)
    requires TablesOk(t) && Computed(t, on, adv, st) && Computed(t, off, adv', st') && RealBodies(on.body) && RealBodies(off.body)
    requires on.feederStatus && !off.feederStatus && key in on.enabled
    ensures var after := DeliverAll(DeliverAll(map[], Pass(t, on, adv, st)), Pass(t, off, adv', st'));
            !Converged(t, off, after) && Holds(after, ConnectionTopic(t, key)) == Some(on.body(ConnectionTopic(t, key)))
  {
    var x := ConnectionTopic(t, key);
    var kept := DeliverAll(map[], Pass(t, on, adv, st));
    assert ConnectionPart(t, on.enabled, x, ConnectionState(key)) && Announces(t, on.enabled, x, ConnectionState(key));
    assert KeyCandidate(t, key, x) && Candidate(t, x);
    PassSettles(t, on, adv, st, map[], x);
    PassConverges(t, off, adv', st', kept);
    PassLeaves(t, off, adv', st', x);
    Untouched(kept, Pass(t, off, adv', st'), x);
  }
}
