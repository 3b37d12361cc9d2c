/** Discovery topics, and what a broker retains of a run of publishes. RETAIN is
    as in section 3.3.1.3 of MQTT 3.1.1: a retained publish replaces the topic's
    message, an empty one removes it. */
module Retained {
  import opened Bytes

  // ---------------------------------------------------------------- topics

  datatype Component = Sensor | BinarySensor

  datatype Topic =
    | Config(component: Component, device: string, objectId: string)
    | Availability(base: string)

  function ComponentName(c: Component): string {
    if c == Sensor then "sensor" else "binary_sensor"
  }

  /** The topic as it goes on the wire. */
  function Render(prefix: string, t: Topic): string {
    match t
    case Config(c, device, objectId) =>
      prefix + "/" + JoinWith([ComponentName(c), device, objectId, "config"], '/')
    case Availability(base) => base + "/availability"
  }

  /** Spelled out. */
  lemma ConfigTopicText(prefix: string, device: string, objectId: string)
    ensures Render(prefix, Config(Sensor, device, objectId))
         == prefix + "/" + ("sensor" + "/" + (device + "/" + (objectId + "/" + "config")))
    ensures Render(prefix, Config(BinarySensor, device, objectId))
         == prefix + "/" + ("binary_sensor" + "/" + (device + "/" + (objectId + "/" + "config")))
  {
    FourParts("sensor", device, objectId, "config");
    FourParts("binary_sensor", device, objectId, "config");
  }

  lemma FourParts(a: string, b: string, c: string, d: string)
    ensures JoinWith([a, b, c, d], '/') == a + "/" + (b + "/" + (c + "/" + d))
  {
    var parts := [a, b, c, d];
    assert parts[1..] == [b, c, d] && parts[1..][1..] == [c, d] && parts[1..][1..][1..] == [d];
    assert JoinWith(parts[1..][1..], '/') == c + "/" + d;
    assert JoinWith(parts[1..], '/') == b + "/" + (c + "/" + d);
  }

  ghost predicate Plain(t: Topic) {
    t.Config? ==> Lacks(t.device, '/') && Lacks(t.objectId, '/')
  }

  lemma ConfigText(prefix: string, t: Topic)
    requires t.Config?
    ensures var tail := JoinWith([ComponentName(t.component), t.device, t.objectId, "config"], '/');
            |tail| > 0 && tail[|tail| - 1] == 'g' && Render(prefix, t) == prefix + "/" + tail
  {
    var parts := [ComponentName(t.component), t.device, t.objectId, "config"];
    assert parts[1..][1..][1..] == ["config"];
    assert JoinWith(parts[1..][1..], '/') == t.objectId + "/" + "config";
    var rest := JoinWith(parts[1..][1..], '/');
    assert JoinWith(parts[1..], '/') == t.device + "/" + rest;
    assert JoinWith(parts, '/') == ComponentName(t.component) + "/" + JoinWith(parts[1..], '/');
  }

  lemma FieldsBack(t: Topic)
    requires t.Config? && Plain(t)
    ensures var parts := [ComponentName(t.component), t.device, t.objectId, "config"];
            Split(JoinWith(parts, '/'), '/') == parts
  {
    SplitJoin([ComponentName(t.component), t.device, t.objectId, "config"], '/');
  }

  lemma LastChar(prefix: string, t: Topic)
    ensures var r := Render(prefix, t);
            |r| > 0 && r[|r| - 1] == if t.Config? then 'g' else 'y'
  {
    if t.Config? {
      ConfigText(prefix, t);
    }
  }

  lemma ConfigInjective(prefix: string, s: Topic, t: Topic)
    requires s.Config? && t.Config? && Plain(s) && Plain(t) && Render(prefix, s) == Render(prefix, t)
    ensures s == t
  {
    ConfigText(prefix, s);
    ConfigText(prefix, t);
    var r := Render(prefix, s);
    var x := JoinWith([ComponentName(s.component), s.device, s.objectId, "config"], '/');
    var y := JoinWith([ComponentName(t.component), t.device, t.objectId, "config"], '/');
    assert r[|prefix| + 1..] == x && r[|prefix| + 1..] == y;
    FieldsBack(s);
    FieldsBack(t);
    assert Split(x, '/')[0] == ComponentName(s.component) && Split(x, '/')[0] == ComponentName(t.component);
    assert Split(x, '/')[1] == s.device == t.device && Split(x, '/')[2] == s.objectId == t.objectId;
    assert "sensor"[0] != "binary_sensor"[0];
  }

  /** Distinct topics are distinct on the wire, for any discovery prefix. */
  lemma RenderInjective(prefix: string, s: Topic, t: Topic)
    requires Plain(s) && Plain(t) && Render(prefix, s) == Render(prefix, t)
    ensures s == t
  {
    LastChar(prefix, s);
    LastChar(prefix, t);
    if s.Config? && t.Config? {
      ConfigInjective(prefix, s, t);
    } else if s.Availability? && t.Availability? {
      var r := Render(prefix, s);
      assert r[..|r| - |"/availability"|] == s.base == t.base;
    }
  }

  // ---------------------------------------------------------------- the broker

  datatype Message = Message(topic: Topic, payload: string)

  type Kept = map<Topic, string>

  function Deliver(kept: Kept, m: Message): Kept {
    if m.payload == "" then kept - {m.topic} else kept[m.topic := m.payload]
  }

  function DeliverAll(kept: Kept, ms: seq<Message>): Kept
    decreases |ms|
  {
    if ms == [] then kept else DeliverAll(Deliver(kept, ms[0]), ms[1..])
  }

  function Holds(kept: Kept, t: Topic): Option<string> {
    if t in kept then Some(kept[t]) else None
  }

  lemma {:induction false} DeliverConcat(kept: Kept, xs: seq<Message>, ys: seq<Message>)
    ensures DeliverAll(kept, xs + ys) == DeliverAll(DeliverAll(kept, xs), ys)
    decreases |xs|
  {
    if xs == [] {
      assert xs + ys == ys;
    } else {
      assert (xs + ys)[1..] == xs[1..] + ys && (xs + ys)[0] == xs[0];
      DeliverConcat(Deliver(kept, xs[0]), xs[1..], ys);
    }
  }

  /** A topic not published is not touched. */
  lemma {:induction false} Untouched(kept: Kept, ms: seq<Message>, t: Topic)
    requires forall m <- ms :: m.topic != t
    ensures Holds(DeliverAll(kept, ms), t) == Holds(kept, t)
    decreases |ms|
  {
    if ms != [] {
      Untouched(Deliver(kept, ms[0]), ms[1..], t);
    }
  }

  // ---------------------------------------------------------------- topics as text

  /** What the broker retains, by topic as it goes on the wire. */
  type Wire = map<string, string>

  function Send(prefix: string, w: Wire, m: Message): Wire {
    var topic := Render(prefix, m.topic);
    if m.payload == "" then w - {topic} else w[topic := m.payload]
  }

  function SendAll(prefix: string, w: Wire, ms: seq<Message>): Wire
    decreases |ms|
  {
    if ms == [] then w else SendAll(prefix, Send(prefix, w, ms[0]), ms[1..])
  }

  function OnWire(w: Wire, topic: string): Option<string> {
    if topic in w then Some(w[topic]) else None
  }

  /** Messages on plain topics do the same to a topic's text as to the topic. */
  lemma {:induction false} WireFollows(prefix: string, w: Wire, kept: Kept, ms: seq<Message>, x: Topic)
    requires Plain(x) && forall m <- ms :: Plain(m.topic)
    requires OnWire(w, Render(prefix, x)) == Holds(kept, x)
    ensures OnWire(SendAll(prefix, w, ms), Render(prefix, x)) == Holds(DeliverAll(kept, ms), x)
    decreases |ms|
  {
    if ms != [] {
      if Render(prefix, ms[0].topic) == Render(prefix, x) {
        RenderInjective(prefix, ms[0].topic, x);
      }
      WireFollows(prefix, Send(prefix, w, ms[0]), Deliver(kept, ms[0]), ms[1..], x);
    }
  }

  lemma {:induction false} WireUntouched(prefix: string, w: Wire, ms: seq<Message>, topic: string)
    requires forall m <- ms :: Render(prefix, m.topic) != topic
    ensures OnWire(SendAll(prefix, w, ms), topic) == OnWire(w, topic)
    decreases |ms|
  {
    if ms != [] {
      WireUntouched(prefix, Send(prefix, w, ms[0]), ms[1..], topic);
    }
  }

  // ---------------------------------------------------------------- the pass as groups

  /** Topics that are published together: with their configs if the group is on,
      with empty payloads if it is off. */
  datatype Group = Group(topics: seq<Topic>, on: bool)

  type Bodies = Topic -> string

  function Payload(body: Bodies, on: bool, t: Topic): string {
    if on then body(t) else ""
  }

  function GroupMessages(body: Bodies, topics: seq<Topic>, on: bool): seq<Message> {
    if topics == [] then []
    else [Message(topics[0], Payload(body, on, topics[0]))] + GroupMessages(body, topics[1..], on)
  }

  function Messages(body: Bodies, groups: seq<Group>): seq<Message> {
    if groups == [] then []
    else GroupMessages(body, groups[0].topics, groups[0].on) + Messages(body, groups[1..])
  }

  lemma {:induction false} GroupTopics(body: Bodies, topics: seq<Topic>, on: bool)
    ensures forall m <- GroupMessages(body, topics, on) :: m.topic in topics
  {
    if topics != [] {
      GroupTopics(body, topics[1..], on);
    }
  }

  lemma {:induction false} MessageTopics(body: Bodies, groups: seq<Group>)
    ensures forall m <- Messages(body, groups) :: exists g <- groups :: m.topic in g.topics
  {
    if groups != [] {
      GroupTopics(body, groups[0].topics, groups[0].on);
      MessageTopics(body, groups[1..]);
      forall m | m in Messages(body, groups) ensures exists g <- groups :: m.topic in g.topics {
        if m in GroupMessages(body, groups[0].topics, groups[0].on) {
          assert groups[0] in groups;
        } else {
          assert m in Messages(body, groups[1..]);
          var g :| g in groups[1..] && m.topic in g.topics;
          assert g in groups;
        }
      }
    }
  }

  function Wanted(body: Bodies, on: bool, t: Topic): Option<string> {
    if on then Some(body(t)) else None
  }

  ghost predicate RealBodies(body: Bodies) {
    forall t :: body(t) != ""
  }

  /** Each topic of a published group holds its config, or nothing. */
  lemma {:induction false} GroupSettles(kept: Kept, body: Bodies, topics: seq<Topic>, on: bool, t: Topic)
    requires RealBodies(body) && t in topics
    ensures Holds(DeliverAll(kept, GroupMessages(body, topics, on)), t) == Wanted(body, on, t)
    decreases |topics|
  {
    var m := Message(topics[0], Payload(body, on, topics[0]));
    var kept', rest := Deliver(kept, m), GroupMessages(body, topics[1..], on);
    assert GroupMessages(body, topics, on)[0] == m && GroupMessages(body, topics, on)[1..] == rest;
    assert body(topics[0]) != "";
    if t in topics[1..] {
      GroupSettles(kept', body, topics[1..], on, t);
    } else {
      GroupTopics(body, topics[1..], on);
      Untouched(kept', rest, t);
    }
  }

  /** No topic belongs to two groups. */
  ghost predicate Apart(groups: seq<Group>) {
    forall i, j, t :: 0 <= i < j < |groups| && t in groups[i].topics ==> t !in groups[j].topics
  }

  /** When groups are apart, a pass settles every topic of every group, whatever
      was retained before. */
  lemma {:induction false} GroupsSettle(kept: Kept, body: Bodies, groups: seq<Group>, i: nat, t: Topic)
    requires RealBodies(body) && Apart(groups) && i < |groups| && t in groups[i].topics
    ensures Holds(DeliverAll(kept, Messages(body, groups)), t) == Wanted(body, groups[i].on, t)
    decreases |groups|
  {
    var first, rest := GroupMessages(body, groups[0].topics, groups[0].on), Messages(body, groups[1..]);
    DeliverConcat(kept, first, rest);
    var kept' := DeliverAll(kept, first);
    if i == 0 {
      GroupSettles(kept, body, groups[0].topics, groups[0].on, t);
      NotLater(body, groups, t);
      Untouched(kept', rest, t);
    } else {
      assert groups[1..][i - 1] == groups[i];
      GroupsSettle(kept', body, groups[1..], i - 1, t);
    }
  }

  lemma NotLater(body: Bodies, groups: seq<Group>, t: Topic)
    requires Apart(groups) && groups != [] && t in groups[0].topics
    ensures forall m <- Messages(body, groups[1..]) :: m.topic != t
  {
    MessageTopics(body, groups[1..]);
    forall m | m in Messages(body, groups[1..]) ensures m.topic != t {
      var g :| g in groups[1..] && m.topic in g.topics;
      var j :| 0 <= j < |groups[1..]| && groups[1..][j] == g;
      assert groups[j + 1] == g;
    }
  }
}
