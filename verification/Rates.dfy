/** RateTracker (app.py): per-second rates from cumulative counters, and what
    they add up to over the accumulator's totals. Floats are modelled as reals. */
module Rates {
  import opened Bytes
  import opened Netdiag
  import opened Throughput

  datatype Sample = Sample(value: real, at: real)

  /** Nothing without a baseline or when no time has passed; a falling counter
      counts as standing still. */
  function RateOf(prev: Option<Sample>, s: Sample): Option<real> {
    if prev == None || s.at <= prev.value.at then None
    else
      var rate := (s.value - prev.value.value) / (s.at - prev.value.at);
      Some(if rate < 0.0 then 0.0 else rate)
  }

  class RateTracker {
    var prev: map<(string, string), Sample>

    function Baseline(key: string, suffix: string): Option<Sample>
      reads this
    {
      if (key, suffix) in prev then Some(prev[(key, suffix)]) else None
    }

    constructor ()
      ensures prev == map[]
    {
      prev := map[];
    }

    method Rate(key: string, suffix: string, cur: real, ts: real) returns (rate: Option<real>)
      modifies this
      ensures rate == RateOf(old(Baseline(key, suffix)), Sample(cur, ts))
      ensures prev == old(prev)[(key, suffix) := Sample(cur, ts)]
    {
      var before := Baseline(key, suffix);
      prev := prev[(key, suffix) := Sample(cur, ts)];
      if before == None || ts <= before.value.at {
        return None;
      }
      var r := (cur - before.value.value) / (ts - before.value.at);
      return Some(if r < 0.0 then 0.0 else r);
    }
  }

  /** A rate times the interval it covers; nothing if there is no rate. */
  function Covered(prev: Option<Sample>, s: Sample): real {
    var rate := RateOf(prev, s);
    if rate == None then 0.0 else rate.value * (s.at - prev.value.at)
  }

  /** What a tracker makes of samples fed to it, added up: each published rate
      times the interval it covers. */
  function Integral(prev: Option<Sample>, samples: seq<Sample>): real
    decreases |samples|
  {
    if samples == [] then 0.0 else Covered(prev, samples[0]) + Integral(Some(samples[0]), samples[1..])
  }

  ghost predicate Later(baseline: Sample, samples: seq<Sample>)
    decreases |samples|
  {
    samples != [] ==> baseline.at < samples[0].at && Later(samples[0], samples[1..])
  }

  ghost predicate NeverFalls(baseline: Sample, samples: seq<Sample>)
    decreases |samples|
  {
    samples != [] ==> baseline.value <= samples[0].value && NeverFalls(samples[0], samples[1..])
  }

  function Last(baseline: Sample, samples: seq<Sample>): Sample {
    if samples == [] then baseline else samples[|samples| - 1]
  }

  lemma RateTimesInterval(p: Sample, s: Sample)
    requires p.at < s.at
    ensures RateOf(Some(p), s).Some?
    ensures RateOf(Some(p), s).value * (s.at - p.at) == if s.value < p.value then 0.0 else s.value - p.value
  {
    var dv, dt := s.value - p.value, s.at - p.at;
    assert (dv / dt) * dt == dv;
    if dv >= 0.0 {
      assert dv / dt >= 0.0;
    } else {
      assert dv / dt < 0.0;
    }
  }

  lemma {:induction false} IntegralAtLeastGrowth(baseline: Sample, samples: seq<Sample>)
    requires Later(baseline, samples)
    ensures Integral(Some(baseline), samples) >= Last(baseline, samples).value - baseline.value
    ensures Integral(Some(baseline), samples) == Last(baseline, samples).value - baseline.value
            <==> NeverFalls(baseline, samples)
    decreases |samples|
  {
    if samples != [] {
      RateTimesInterval(baseline, samples[0]);
      IntegralAtLeastGrowth(samples[0], samples[1..]);
      assert Last(samples[0], samples[1..]) == Last(baseline, samples);
    }
  }

  /** Over increasing times the rates add up to the counter's growth exactly when
      the counter never falls: the clamp then does nothing. */
  lemma RatesIntegrate(baseline: Sample, samples: seq<Sample>)
    requires Later(baseline, samples)
    ensures Integral(Some(baseline), samples) == Last(baseline, samples).value - baseline.value
            <==> NeverFalls(baseline, samples)
  {
    IntegralAtLeastGrowth(baseline, samples);
  }

  // ---------------------------------------------------------------- over the accumulator

  datatype TimedPoll = TimedPoll(socks: seq<SockStat>, attr: Attribution, at: real)

  const START: Accum := Accum(map[], map[])

  function Sampled(a: Accum, key: string, d: Direction, at: real): Sample {
    Sample(Pick(Total(a.totals, key), d) as real, at)
  }

  /** What is fed to the tracker for one feeder over a run of polls: its total,
      after those polls only at which it has one. */
  function Fed(a: Accum, polls: seq<TimedPoll>, key: string, d: Direction): seq<Sample>
    decreases |polls|
  {
    if polls == [] then []
    else
      var a' := Update(a, polls[0].socks, polls[0].attr);
      (if key in a'.totals then [Sampled(a', key, d, polls[0].at)] else []) + Fed(a', polls[1..], key, d)
  }

  function After(a: Accum, polls: seq<TimedPoll>): Accum
    decreases |polls|
  {
    if polls == [] then a else After(Update(a, polls[0].socks, polls[0].attr), polls[1..])
  }

  ghost predicate Increasing(polls: seq<TimedPoll>) {
    forall j, k :: 0 <= j < k < |polls| ==> polls[j].at < polls[k].at
  }

  /** The feeder has its first total after poll n. */
  ghost predicate FirstTotal(a: Accum, polls: seq<TimedPoll>, key: string, n: nat) {
    && n < |polls|
    && key !in After(a, polls[..n]).totals && key in After(a, polls[..n + 1]).totals
  }

  lemma {:induction false} KeyStays(a: Accum, polls: seq<TimedPoll>, key: string)
    requires key in a.totals
    ensures key in After(a, polls).totals
    decreases |polls|
  {
    if polls != [] {
      TotalsNeverDecrease(a, polls[0].socks, polls[0].attr);
      KeyStays(Update(a, polls[0].socks, polls[0].attr), polls[1..], key);
    }
  }

  lemma AfterTake(a: Accum, polls: seq<TimedPoll>, n: nat)
    requires 0 < n <= |polls|
    ensures After(a, polls[..n]) == After(Update(a, polls[0].socks, polls[0].attr), polls[1..][..n - 1])
  {
    assert polls[..n][0] == polls[0] && polls[..n][1..] == polls[1..][..n - 1];
  }

  /** Once a feeder has a total, every poll feeds it and it never falls. */
  lemma {:induction false} FedNeverFalls(a: Accum, polls: seq<TimedPoll>, key: string, d: Direction, at: real)
    requires key in a.totals && Increasing(polls) && (polls != [] ==> at < polls[0].at)
    ensures var base, fed := Sampled(a, key, d, at), Fed(a, polls, key, d);
            NeverFalls(base, fed) && Later(base, fed) && Last(base, fed).value == Sampled(After(a, polls), key, d, at).value
    decreases |polls|
  {
    if polls != [] {
      var a' := Update(a, polls[0].socks, polls[0].attr);
      var s, rest := Sampled(a', key, d, polls[0].at), Fed(a', polls[1..], key, d);
      TotalsNeverDecrease(a, polls[0].socks, polls[0].attr);
      FedNeverFalls(a', polls[1..], key, d, polls[0].at);
      assert ([s] + rest)[1..] == rest && ([s] + rest)[0] == s;
      LastCons(Sampled(a, key, d, at), s, rest);
    }
  }

  lemma LastCons(base: Sample, s: Sample, rest: seq<Sample>)
    ensures Last(base, [s] + rest) == Last(s, rest)
  {
  }

  /** From a total on, the published rates add up to what it grows by. */
  lemma GrowthPublished(a: Accum, polls: seq<TimedPoll>, key: string, d: Direction, at: real)
    requires key in a.totals && Increasing(polls) && (polls != [] ==> at < polls[0].at)
    ensures Integral(Some(Sampled(a, key, d, at)), Fed(a, polls, key, d))
         == Sampled(After(a, polls), key, d, at).value - Sampled(a, key, d, at).value
  {
    FedNeverFalls(a, polls, key, d, at);
    RatesIntegrate(Sampled(a, key, d, at), Fed(a, polls, key, d));
  }

  lemma IntegralCons(prev: Option<Sample>, s: Sample, rest: seq<Sample>)
    ensures Integral(prev, [s] + rest) == Covered(prev, s) + Integral(Some(s), rest)
  {
    assert ([s] + rest)[1..] == rest;
  }

  /** The first sample yields no rate, so only what comes after it counts. */
  lemma FirstPublishesNothing(a: Accum, polls: seq<TimedPoll>, key: string, d: Direction, at: real)
    requires key in a.totals && Increasing(polls) && (polls != [] ==> at < polls[0].at)
    ensures Integral(None, [Sampled(a, key, d, at)] + Fed(a, polls, key, d))
         == Sampled(After(a, polls), key, d, at).value - Sampled(a, key, d, at).value
  {
    IntegralCons(None, Sampled(a, key, d, at), Fed(a, polls, key, d));
    GrowthPublished(a, polls, key, d, at);
  }

  lemma FirstTotalRest(a: Accum, polls: seq<TimedPoll>, key: string, n: nat)
    requires FirstTotal(a, polls, key, n)
    ensures var a' := Update(a, polls[0].socks, polls[0].attr);
            && After(a, polls[..n + 1]) == After(a', polls[1..][..n])
            && if n == 0 then key in a'.totals else key !in a'.totals && FirstTotal(a', polls[1..], key, n - 1)
  {
    var a', rest := Update(a, polls[0].socks, polls[0].attr), polls[1..];
    AfterTake(a, polls, n + 1);
    if n == 0 {
      assert rest[..0] == [];
    } else {
      AfterTake(a, polls, n);
      if key in a'.totals {
        KeyStays(a', rest[..n - 1], key);
        assert false;
      }
    }
  }

  lemma {:induction false} FromFirstTotal(a: Accum, polls: seq<TimedPoll>, key: string, d: Direction, n: nat)
    requires Increasing(polls) && FirstTotal(a, polls, key, n)
    ensures Integral(None, Fed(a, polls, key, d))
         == Pick(Total(After(a, polls).totals, key), d) as real - Pick(Total(After(a, polls[..n + 1]).totals, key), d) as real
    decreases n
  {
    var a', rest := Update(a, polls[0].socks, polls[0].attr), polls[1..];
    FirstTotalRest(a, polls, key, n);
    if n == 0 {
      FirstPublishesNothing(a', rest, key, d, polls[0].at);
      assert rest[..0] == [];
    } else {
      FromFirstTotal(a', rest, key, d, n - 1);
      assert [] + Fed(a', rest, key, d) == Fed(a', rest, key, d);
    }
  }

  lemma {:induction false} NothingFed(a: Accum, polls: seq<TimedPoll>, key: string, d: Direction)
    requires key !in After(a, polls).totals
    ensures Fed(a, polls, key, d) == []
    decreases |polls|
  {
    if polls != [] {
      var a' := Update(a, polls[0].socks, polls[0].attr);
      if key in a'.totals {
        KeyStays(a', polls[1..], key);
        assert false;
      }
      NothingFed(a', polls[1..], key, d);
    }
  }

  /** For a feeder measured by the kernel, from the start of the program over any
      run of polls at increasing times, whatever the dumps and attributions: the
      published rates add up to exactly what its total has grown by since the
      first poll that gave it one, and to nothing if none did. */
  lemma FeederRatesIntegrate(polls: seq<TimedPoll>, key: string, d: Direction)
    requires Increasing(polls)
    ensures key !in After(START, polls).totals ==> Integral(None, Fed(START, polls, key, d)) == 0.0
    ensures forall n: nat :: FirstTotal(START, polls, key, n) ==>
      Integral(None, Fed(START, polls, key, d))
      == Pick(Total(After(START, polls).totals, key), d) as real - Pick(Total(After(START, polls[..n + 1]).totals, key), d) as real
  {
    if key !in After(START, polls).totals {
      NothingFed(START, polls, key, d);
    }
    forall n: nat | FirstTotal(START, polls, key, n)
      ensures Integral(None, Fed(START, polls, key, d))
           == Pick(Total(After(START, polls).totals, key), d) as real - Pick(Total(After(START, polls[..n + 1]).totals, key), d) as real
    {
      FromFirstTotal(START, polls, key, d, n);
    }
  }

  /** A feeder that has a total got its first one at some poll. */
  lemma {:induction false} HasFirstTotal(a: Accum, polls: seq<TimedPoll>, key: string) returns (n: nat)
    requires key !in a.totals && key in After(a, polls).totals
    ensures FirstTotal(a, polls, key, n)
    decreases |polls|
  {
    var a' := Update(a, polls[0].socks, polls[0].attr);
    if key in a'.totals {
      n := 0;
      assert polls[..0] == [] && polls[1..][..0] == [];
    } else {
      n := HasFirstTotal(a', polls[1..], key);
      AfterTake(a, polls, n + 1);
      n := n + 1;
    }
    AfterTake(a, polls, n + 1);
  }

  // ---------------------------------------------------------------- both together

  /** The tracker's baseline after a poll that leaves the accumulator at a. */
  function NextBaseline(prev: Option<Sample>, a: Accum, key: string, d: Direction, at: real): Option<Sample> {
    if key in a.totals then Some(Sampled(a, key, d, at)) else prev
  }

  /** What that poll adds to the sum of published rates times intervals. */
  function Part(prev: Option<Sample>, a: Accum, key: string, d: Direction, at: real): real {
    if key in a.totals then Covered(prev, Sampled(a, key, d, at)) else 0.0
  }

  lemma PartFirst(prev: Option<Sample>, a: Accum, polls: seq<TimedPoll>, key: string, d: Direction)
    requires polls != []
    ensures var a', at := Update(a, polls[0].socks, polls[0].attr), polls[0].at;
            Integral(prev, Fed(a, polls, key, d))
            == Part(prev, a', key, d, at) + Integral(NextBaseline(prev, a', key, d, at), Fed(a', polls[1..], key, d))
  {
    var a' := Update(a, polls[0].socks, polls[0].attr);
    var rest := Fed(a', polls[1..], key, d);
    if key in a'.totals {
      IntegralCons(prev, Sampled(a', key, d, polls[0].at), rest);
    } else {
      assert [] + rest == rest;
    }
  }

  /** One cycle: poll, and if the feeder has a total, ask for its rate. */
  method PublishRate(throughput: ThroughputAccumulator, rates: RateTracker, poll: TimedPoll,
                     key: string, suffix: string, d: Direction)
    returns (part: real)
    modifies throughput, rates
    ensures throughput.State() == Update(old(throughput.State()), poll.socks, poll.attr)
    ensures part == Part(old(rates.Baseline(key, suffix)), throughput.State(), key, d, poll.at)
    ensures rates.Baseline(key, suffix) == NextBaseline(old(rates.Baseline(key, suffix)), throughput.State(), key, d, poll.at)
  {
    part := 0.0;
    var totals := throughput.Poll(poll.socks, poll.attr);
    if key in totals {
      var prev := rates.Baseline(key, suffix);
      var rate := rates.Rate(key, suffix, Pick(totals[key], d) as real, poll.at);
      if rate.Some? {
        part := rate.value * (poll.at - prev.value.at);
      }
    }
  }

  /** The accumulator and the tracker together, over a run of cycles. */
  method PublishRates(polls: seq<TimedPoll>, key: string, suffix: string, d: Direction) returns (sum: real)
    ensures sum == Integral(None, Fed(START, polls, key, d))
  {
    var throughput := new ThroughputAccumulator();
    var rates := new RateTracker();
    sum := 0.0;
    assert polls[0..] == polls;
    for n := 0 to |polls|
      invariant fresh(throughput) && fresh(rates)
      invariant sum + Integral(rates.Baseline(key, suffix), Fed(throughput.State(), polls[n..], key, d))
             == Integral(None, Fed(START, polls, key, d))
    {
      assert polls[n..][0] == polls[n] && polls[n..][1..] == polls[n + 1..];
      PartFirst(rates.Baseline(key, suffix), throughput.State(), polls[n..], key, d);
      var part := PublishRate(throughput, rates, polls[n], key, suffix, d);
      sum := sum + part;
    }
    assert polls[|polls|..] == [];
  }
}
