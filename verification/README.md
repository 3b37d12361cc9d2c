# Verified model of the aviation feeder's MQTT publisher

A Dafny model of the parts of the add-on that have to be right for its sensors
to be right, with proofs. `dafny verify dfyconfig.toml` checks all of it.

| files | what they model |
|---|---|
| `Beast`, `BeastParser`, `BeastStream`, `BeastReader`, `BeastCounter` | the Beast frame parser of `beast.py`, its carry-the-tail reader and its tally |
| `Netdiag`, `NetdiagDump` | the SOCK_DIAG dump parser of `netdiag.py`, and what the kernel sends it |
| `Address`, `Throughput`, `ThroughputRuns`, `ThroughputFailures`, `Rates` | per-socket counters turned into per-feeder totals and rates (`throughput.py`, `RateTracker`) |
| `Retained`, `Discovery`, `DiscoveryTables`, `Convergence` | the discovery pass and what the broker retains of it (`app.py`, `mqtt.py`, `metadata.py`) |
| `Feeders`, `FeederTables`, `FeederStates` | option tests, feeder tables, status, and the states of a cycle (`feeders.py`, `app.py`) |
| `Session` | the reconnect loop and its watchdog (`app.py`) |
| `Connectors`, `AggregatorTable` | the connector list of `00-haos-options` |
| `Bytes` | bytes, options, separated text and sequence facts shared by the rest |

How the main results are stated:

* **Beast.** The meaning of a stream is a scanner that reads one byte at a time
  and never looks ahead (`Beast.Run`). `parse_frames` is written loop for loop
  and proved to compute exactly the scanner's frames and position. Its test
  `truncated and j >= n` never succeeds: both ways of setting `truncated` leave
  `j < n`, which is asserted in place. A split escape is instead handled by
  going round once more and stopping at the missing type byte. Chunking,
  soundness and round trips are then facts about the scanner. Two properties
  that fail in general are given with their exact conditions: all later frames
  are found if and only if the broken part does not end on half an escape pair
  inside a frame (and otherwise only one frame is at stake), and dropping an
  oversized buffer is harmless if and only if the scanner was between frames.
  `CutInPairMisreads` is a stream on which a frame is misread.
* **Throughput.** Sockets open, carry traffic, close and reuse inode numbers;
  a dump may list any of the open ones. An exact balance holds in every run:
  totals plus inherited traffic equal traffic seen plus recounted traffic.
  Traffic is recounted if and only if a socket is folded in with traffic, then
  missed by a non-empty dump while it is open, then folded in again; so with
  empty or whole dumps totals never exceed what was carried. If inode numbers are
  not reused too early nothing is inherited either, so they are exact.
  `ThroughputFailures` has a run for each way this goes wrong: half a dump, which
  `netdiag.py` returns when one address family fails, and a cut dump both make
  traffic count twice, and an inode number retaken before a dump lacked it makes
  traffic go missing.
* **Rates.** From the start of the program, rates times intervals add up to what
  a feeder's total has grown by since the first poll that gave it one.
* **Discovery.** Any history of passes under other options, each cut at any
  publish, followed by one completed pass leaves exactly the wanted configs, if
  and only if feeder status is on or no per-feeder config was left over;
  `FeederLeftBehind` is a history that leaves one. This rests on the list of
  suffixes that are retracted covering those that are published, which is proved
  of the tables. Topics are values first; `WireConverges` carries the result over
  to topics as text. Histories share one discovery prefix: configs under an old
  prefix are never retracted.
* **Watchdog.** The loop exits in a turn if and only if that turn is the first
  to find that the outage, counted from its first failure, has lasted over
  300 s; this takes at most ten failures, and 360 s plus the last attempt and what
  the timer was late by.
* **States.** What a cycle publishes is stated topic by topic with its value, and
  each such topic belongs to a config of the discovery pass under the same
  options, in every run; each MLAT sensor that such a config names gets exactly
  one value.
* **Connectors.** The compiled string is taken apart on `;` and `,` again and
  gives exactly the wanted connectors whatever the option values hold. The one
  exception to that is a raw option such as `-n` with nothing else wanted: the script
  prints the list with `echo`, which takes that for an option of its own, and
  leaves the variable unset (`DashNLost`).

Beast framing follows the description at the head of `beast.py`; the downlink
format is the five-bit field of section 3.1.2.3.2.1.2 of ICAO Annex 10
Volume IV.

Taken as parameters: the clock, socket reads and datagrams, `/proc` contents,
readsb's connector status, feeder self-reports, MLAT statistics, the JSON text
of a discovery config (a non-empty string per topic), and when the broker fails.

## Model

| member | source | states |
|---|---|---|
| BeastParser.ParseFrames | aviation_feeder/aviation_feeder_mqtt/beast.py:57-112 | the two nested loops give exactly the frames and the consumed position of the byte-at-a-time scanner, for every buffer, and terminate |
| BeastStream.ChunkInvariance | aviation_feeder/aviation_feeder_mqtt/beast.py:60-61 | parsing a chunk, dropping what it consumed and prepending the rest to the next finds the frames of the whole, and the consumed counts add up |
| BeastStream.RestartPoint | aviation_feeder/aviation_feeder_mqtt/beast.py:109-112 | at the consumed position every frame found is complete and nothing is pending |
| BeastStream.Soundness | aviation_feeder/aviation_feeder_mqtt/beast.py:70-112 | each frame is the exact unescaping of its own segment, the segments are disjoint and in order, and the last one ends at consumed |
| BeastStream.ParsedShape | aviation_feeder/aviation_feeder_mqtt/beast.py:45-47 | every payload has the length its frame type calls for |
| Beast.WireShape | aviation_feeder/aviation_feeder_mqtt/beast.py:14-22 | the three frame types, their payload lengths and the seven bytes before the payload |
| BeastStream.RoundTripWithTail | aviation_feeder/aviation_feeder_mqtt/beast.py:60-64 | encoded frames and a strict prefix of one more parse to exactly those frames and leave exactly the prefix |
| BeastStream.ResyncExactly | aviation_feeder/aviation_feeder_mqtt/beast.py:99-108 | after any bytes, every later whole frame is found, and nothing else, if and only if the bytes do not end on half an escape pair inside a frame |
| BeastStream.LosesAtMostOne | aviation_feeder/aviation_feeder_mqtt/beast.py:99-108 | after any bytes at all, all frames from the second on are found exactly |
| BeastStream.JoinMidFrame | aviation_feeder/aviation_feeder_mqtt/beast.py:70-112 | joining inside a frame of any type, even inside an escape pair, loses no later frame |
| BeastStream.PassUnknownFrame | aviation_feeder/aviation_feeder_mqtt/beast.py:78-82 | a frame of an unknown type and any length is passed over without losing a later one |
| BeastStream.TruncatedThenWhole | aviation_feeder/aviation_feeder_mqtt/beast.py:62-64 | a frame cut short is abandoned and exactly the whole frames after it are found, if and only if the cut is not inside an escape pair |
| BeastStream.CutInPairMisreads | aviation_feeder/aviation_feeder_mqtt/beast.py:96-108 | a frame cut inside an escape pair for which the next frame is misread |
| BeastReader.ReaderIsParse | aviation_feeder/aviation_feeder_mqtt/beast.py:205-218 | while the size guard is silent, the reader has found what one parse of the whole stream finds, for every cutting into reads |
| BeastReader.ReaderSegments | aviation_feeder/aviation_feeder_mqtt/beast.py:205-218 | with the guard, the reads fall into runs, each ended by the first read at which it fires, and the reader finds what separate parses of the runs find |
| BeastReader.ResetHarmless | aviation_feeder/aviation_feeder_mqtt/beast.py:214-216 | dropping the buffer changes nothing for any continuation if and only if the scanner was between frames |
| BeastReader.BoundedCarryOver | aviation_feeder/aviation_feeder_mqtt/beast.py:206-216 | on whole frames from a frame boundary the buffer is always a strict prefix of one frame, under 44 bytes |
| BeastReader.JoinInStep | aviation_feeder/aviation_feeder_mqtt/beast.py:205-218 | joined anywhere but on half an escape pair inside a frame, every frame after the first boundary is found once and in order, for every cutting into reads |
| BeastReader.JoinAnywhere | aviation_feeder/aviation_feeder_mqtt/beast.py:205-218 | joined anywhere at all, every frame from the second whole one on is found once and in order, for every cutting into reads |
| BeastReader.JoinMidStream | aviation_feeder/aviation_feeder_mqtt/beast.py:205-218 | joined inside a frame of any type, even inside an escape pair, every later frame is found once and in order, for every cutting into reads |
| BeastCounter.BeastDfCounter.CountDfs | aviation_feeder/aviation_feeder_mqtt/beast.py:115-122 | the new tally is the old one with each frame counted under its key |
| BeastCounter.TallyCounts | aviation_feeder/aviation_feeder_mqtt/beast.py:115-122 | each key's tally grows by the number of frames of that key |
| BeastCounter.TalliedByFormat | aviation_feeder/aviation_feeder_mqtt/beast.py:115-122 | a Mode-S frame counts once, under the upper five bits of its first payload byte |
| BeastCounter.FormatRead | aviation_feeder/aviation_feeder_mqtt/beast.py:205-218 | reading such a frame's bytes leaves exactly that one count |
| BeastCounter.ModeACRead | aviation_feeder/aviation_feeder_mqtt/beast.py:115-122 | reading a Mode A/C frame leaves exactly one count, under modeac |
| BeastCounter.BeastDfCounter.Receive | aviation_feeder/aviation_feeder_mqtt/beast.py:210-218 | one read tallies the frames of buffer and chunk and carries the leftover, subject to the guard |
| BeastCounter.BeastDfCounter.RunConnection | aviation_feeder/aviation_feeder_mqtt/beast.py:196-218 | a connection tallies exactly the frames the reader finds up to the first empty read |
| BeastCounter.BeastDfCounter.Snapshot | aviation_feeder/aviation_feeder_mqtt/beast.py:234-251 | rates since the last snapshot, none without an interval; the tally starts again |
| BeastCounter.SnapshotPublishesAll | aviation_feeder/aviation_feeder_mqtt/beast.py:234-251 | a snapshot with a baseline and elapsed time publishes every key tallied, at its count over the time |
| BeastCounter.DroppedOnlyThen | aviation_feeder/aviation_feeder_mqtt/beast.py:234-251 | only a snapshot without baseline or elapsed time drops counts, and it drops all |
| BeastCounter.TallyConserved | aviation_feeder/aviation_feeder_mqtt/beast.py:234-251 | in every run of reads, reconnects and snapshots, for every key: published rate times time, plus the live tally, plus what interval-less snapshots dropped, is the number of frames parsed |
| BeastCounter.EveryFrameTallied | aviation_feeder/aviation_feeder_mqtt/beast.py:115-122 | in every run each parsed frame lands in exactly one of the 33 keys |
| Netdiag.ParseDump | aviation_feeder/aviation_feeder_mqtt/netdiag.py:69-105 | for every buffer, every read is in bounds and the sockets are those of the buffer's chain of messages |
| Netdiag.ParseAttrs | aviation_feeder/aviation_feeder_mqtt/netdiag.py:90-100 | the counters are those of the body's chain of attributes |
| Netdiag.ScanForEnd | aviation_feeder/aviation_feeder_mqtt/netdiag.py:145-155 | found if and only if a DONE or ERROR stands in the datagram's chain of messages |
| Netdiag.Receive | aviation_feeder/aviation_feeder_mqtt/netdiag.py:138-158 | collects up to the datagram that ends the dump; a time-out before it yields nothing |
| Netdiag.CollectedUpTo | aviation_feeder/aviation_feeder_mqtt/netdiag.py:138-158 | everything up to the first datagram that is empty or ends the dump is kept |
| Netdiag.TimedOutGivesNothing | aviation_feeder/aviation_feeder_mqtt/netdiag.py:138-176 | if none comes before the time-out, the family contributes no socket |
| Netdiag.PortBytes | aviation_feeder/aviation_feeder_mqtt/netdiag.py:80-90 | ports are read high byte first |
| Netdiag.EstablishedSockets | aviation_feeder/aviation_feeder_mqtt/netdiag.py:163-176 | both families' sockets, a failed family contributing none |
| NetdiagDump.RoundTrip | aviation_feeder/aviation_feeder_mqtt/netdiag.py:69-105 | whole messages with any attributes give each socket once, in order, with its counters, and parsing distributes over them |
| NetdiagDump.DumpRoundTrip | aviation_feeder/aviation_feeder_mqtt/netdiag.py:74-77 | nothing after DONE is looked at |
| NetdiagDump.DumpCut | aviation_feeder/aviation_feeder_mqtt/netdiag.py:74-105 | a dump cut at any byte gives every socket whose message is whole, and of the message that is cut the socket, if its fixed part has arrived, with the counters of exactly the attributes that have |
| NetdiagDump.ReceivedDump | aviation_feeder/aviation_feeder_mqtt/netdiag.py:138-158 | however messages are grouped into datagrams, receiving stops at DONE and exactly the sockets sent are parsed |
| NetdiagDump.AttrsCut | aviation_feeder/aviation_feeder_mqtt/netdiag.py:60-66 | counters are read back as written; a list cut at any byte gives the counters of exactly the attributes that count by then |
| NetdiagDump.ArrivedExactly | aviation_feeder/aviation_feeder_mqtt/netdiag.py:60-66 | an attribute counts if and only if all of it has arrived, or enough to reach past the byte counters |
| NetdiagDump.OrdersExist | aviation_feeder/aviation_feeder_mqtt/netdiag.py:60-66 | both native byte orders meet what the round trips assume |
| NetdiagDump.CounterLayout | aviation_feeder/aviation_feeder_mqtt/netdiag.py:50-66 | the two counters stand at bytes 120 and 128 of tcp_info |
| Address.ClassifiersAgree | aviation_feeder/aviation_feeder_mqtt/feeders.py:153-172 | on every IPv4 and IPv6 address the /proc test holds exactly when the loopback test of throughput.py does or the address is unspecified, mapped forms included |
| Throughput.InodeToKey | aviation_feeder/aviation_feeder_mqtt/throughput.py:53-62 | an inode has a feeder if and only if some enabled kernel-throughput row owns it, and then the last such row |
| Throughput.AttributedExactly | aviation_feeder/aviation_feeder_mqtt/throughput.py:53-62 | an inode has a feeder if and only if a process that a switched-on, kernel-measured feeder's token names has the socket |
| Throughput.ThroughputAccumulator.FoldOne | aviation_feeder/aviation_feeder_mqtt/throughput.py:84-99 | one listed socket: skipped, or recorded with its clamped delta added to its feeder |
| Throughput.ThroughputAccumulator.Forget | aviation_feeder/aviation_feeder_mqtt/throughput.py:108-112 | exactly the inodes not listed are forgotten |
| Throughput.ThroughputAccumulator.Poll | aviation_feeder/aviation_feeder_mqtt/throughput.py:64-114 | a poll folds every listed socket in order and then prunes, unless the dump is empty |
| Throughput.FoldsFarOnly | aviation_feeder/aviation_feeder_mqtt/throughput.py:84-86 | folding a dump is folding it without the sockets whose peer is on this machine |
| Throughput.NearAddsNothing | aviation_feeder/aviation_feeder_mqtt/throughput.py:84-86 | a dump of none but those changes no total, whatever the attribution |
| Throughput.FiveBytesHomeCountNothing | aviation_feeder/aviation_feeder_mqtt/throughput.py:84-86 | with numbers: 5 bytes to 127.0.0.1 give no total |
| Throughput.TotalsNeverDecrease | aviation_feeder/aviation_feeder_mqtt/throughput.py:14-18 | whatever the dump and attribution, no feeder's total decreases |
| Throughput.OnlyMeasured | aviation_feeder/aviation_feeder_mqtt/throughput.py:73-75 | in every run of polls under fixed options, whatever processes and sockets come and go, only enabled kernel-throughput feeders ever have a total |
| ThroughputRuns.ExactAccounting | aviation_feeder/aviation_feeder_mqtt/throughput.py:84-114 | in every run with any dumps and attributions: only sockets with a peer elsewhere are folded in, and totals plus inherited equal seen plus recounted traffic |
| ThroughputRuns.NeverOverCounts | aviation_feeder/aviation_feeder_mqtt/throughput.py:101-112 | with empty or whole dumps the totals never exceed what the sockets carried to and from other machines |
| ThroughputRuns.NearRunHasNoTotals | aviation_feeder/aviation_feeder_mqtt/throughput.py:84-86 | in a run in which every socket's peer is on this machine no feeder ever has a total |
| ThroughputRuns.Conservation | aviation_feeder/aviation_feeder_mqtt/throughput.py:90-114 | if no inode number is retaken too early either, totals equal what the sockets had carried when last folded in |
| ThroughputRuns.RecountedExactly | aviation_feeder/aviation_feeder_mqtt/throughput.py:101-112 | in every run with any dumps, traffic is recounted if and only if some socket is folded in with traffic, then missed by a non-empty dump while open, then folded in again |
| ThroughputRuns.ExactUnlessFoldedAgain | aviation_feeder/aviation_feeder_mqtt/throughput.py:90-112 | if no inode number is retaken too early, the totals are exact if and only if that does not happen |
| ThroughputRuns.MissedSocketCountsTwice | aviation_feeder/aviation_feeder_mqtt/throughput.py:108-112 | an idle socket already counted adds nothing at its next poll if and only if the poll between was empty or listed it |
| ThroughputFailures.HalfDumpOverCounts | aviation_feeder/aviation_feeder_mqtt/throughput.py:108-112 | a run from the start whose middle dump misses a socket: the totals come to twice what was carried |
| ThroughputFailures.FiveBytesCountTen | aviation_feeder/aviation_feeder_mqtt/throughput.py:108-112 | the same with numbers: 10 counted for 5 carried |
| ThroughputRuns.DipCountsTwice | aviation_feeder/aviation_feeder_mqtt/throughput.py:91-96 | between two true readings the total grows by the traffic between them if and only if the reading in the middle lies between them |
| ThroughputFailures.RetakenAddsAll | aviation_feeder/aviation_feeder_mqtt/throughput.py:90-99 | a socket under an inode whose last socket is still on record adds all it carried if and only if its counter or the recorded one is 0 |
| ThroughputFailures.RetakenLoses | aviation_feeder/aviation_feeder_mqtt/throughput.py:101-112 | a run with whole dumps in which an inode number is retaken between polls: the totals come to half of what was carried |
| ThroughputFailures.TenBytesCountFive | aviation_feeder/aviation_feeder_mqtt/throughput.py:101-112 | the same with numbers: 5 counted for 10 carried |
| ThroughputFailures.CutReadsNothing | aviation_feeder/aviation_feeder_mqtt/netdiag.py:60-105 | a socket's answer cut before its attributes still lists the socket, with no traffic |
| ThroughputFailures.CutDumpCountsTwice | aviation_feeder/aviation_feeder_mqtt/throughput.py:90-99 | such a dump between two whole ones makes all the socket's traffic count twice |
| ThroughputFailures.FiveBytesCutCountTen | aviation_feeder/aviation_feeder_mqtt/throughput.py:90-99 | the same with numbers, for an answer cut after 88 bytes |
| Rates.RateTracker.Rate | aviation_feeder/aviation_feeder_mqtt/app.py:188-201 | the rate since the baseline, none without one, never negative; the reading becomes the baseline |
| Rates.RatesIntegrate | aviation_feeder/aviation_feeder_mqtt/app.py:188-201 | over increasing times rates times intervals add up to the counter's growth if and only if it never falls |
| Rates.FeederRatesIntegrate | aviation_feeder/aviation_feeder_mqtt/app.py:1010-1028 | for a kernel-measured feeder, from the start over every run of polls at increasing times: rates times intervals add up to its total's growth since the first poll that gave it one, and to nothing if none did |
| Rates.GrowthPublished | aviation_feeder/aviation_feeder_mqtt/app.py:196-201 | once it has a total they add up to exactly the total's growth |
| Rates.PublishRates | aviation_feeder/aviation_feeder_mqtt/app.py:1010-1028 | accumulator and rate tracker run together publish just that sum |
| Retained.RenderInjective | aviation_feeder/aviation_feeder_mqtt/mqtt.py:218-218 | distinct topics without slashes in their names are distinct strings, for any discovery prefix |
| Retained.ConfigTopicText | aviation_feeder/aviation_feeder_mqtt/mqtt.py:218-218 | a config topic spelled out |
| Retained.GroupsSettle | aviation_feeder/aviation_feeder_mqtt/app.py:363-387 | publishing groups that share no topic leaves each topic with its config or with nothing, whatever was retained |
| Discovery.AssembleFeederDiscovery | aviation_feeder/aviation_feeder_mqtt/app.py:287-344 | exactly the connection, metric and report configs that apply to the enabled feeders, each with the state topic it names |
| Discovery.OneState | aviation_feeder/aviation_feeder_mqtt/mqtt.py:417-524 | a per-feeder config topic names one state topic only |
| Discovery.StaleFeederTopics | aviation_feeder/aviation_feeder_mqtt/app.py:257-284 | exactly the topics any option set could advertise a feeder with, minus the published ones |
| Discovery.AdvertisedAreCandidates | aviation_feeder/aviation_feeder_mqtt/app.py:91-116 | nothing is advertised outside what can be retracted, if the retracted suffixes cover the published ones |
| Discovery.RetractedIfListed | aviation_feeder/aviation_feeder_mqtt/app.py:91-108 | a metric's config can be retracted if and only if its suffix is on the list of those retracted |
| Discovery.Publisher.PublishGroup | aviation_feeder/aviation_feeder_mqtt/app.py:376-386 | all of a group lands, or just the part before the fault |
| Discovery.Publisher.DiscoveryPass | aviation_feeder/aviation_feeder_mqtt/app.py:557-711 | all of the pass lands, the add-on is retained as online and discovery is done, or just a prefix lands and it is still needed |
| Convergence.PassConverges | aviation_feeder/aviation_feeder_mqtt/app.py:596-631 | a completed pass leaves every config topic right if and only if feeder status is on or no per-feeder config was left over |
| Convergence.PassAnnounces | aviation_feeder/aviation_feeder_mqtt/app.py:699-711 | whatever was retained, the will included, a completed pass leaves online on the availability topic |
| Convergence.RetainedConverges | aviation_feeder/aviation_feeder_mqtt/app.py:557-711 | after any history of passes cut anywhere, a completed pass with feeder status on leaves exactly the wanted configs, the add-on online and others' topics untouched |
| Convergence.WireConverges | aviation_feeder/aviation_feeder_mqtt/app.py:557-711 | the same on topics as text |
| Convergence.TurnedOffStays | aviation_feeder/aviation_feeder_mqtt/app.py:596-631 | after a pass with feeder status on, one with it off leaves each enabled feeder's config |
| DiscoveryTables.FeederLeftBehind | aviation_feeder/aviation_feeder_mqtt/app.py:596-631 | two runs with the tables as they stand, fr24 enabled and then feeder status off, after which fr24's config is still retained |
| DiscoveryTables.TablesAreOk | aviation_feeder/aviation_feeder_mqtt/metadata.py:83-163 | the metric tables share no topic between groups, and all suffixes that are published are on the list of those retracted |
| DiscoveryTables.SuffixesListed | aviation_feeder/aviation_feeder_mqtt/app.py:91-108 | the suffix list covers every metric group |
| DiscoveryTables.NamesAreOk | aviation_feeder/aviation_feeder_mqtt/feeders.py:52-120 | no name in the tables holds a slash, and no feeder key an underscore |
| FeederStates.ComputeFeederStatus | aviation_feeder/aviation_feeder_mqtt/feeders.py:255-313 | the enabled feeders in table order, each with its class's test of being connected |
| FeederStates.CommunityConnected | aviation_feeder/aviation_feeder_mqtt/feeders.py:280-290 | a community feeder is up if and only if readsb reports its host and port as connected for some time |
| FeederStates.ClientConnectedExactly | aviation_feeder/aviation_feeder_mqtt/feeders.py:291-313 | when a client feeder is up, for each way of telling: running, running with an established socket, or what it says itself |
| Feeders.TruthyText | aviation_feeder/aviation_feeder_mqtt/feeders.py:123-130 | a text switches a feeder on if and only if it is the word true in any mix of cases with any white space around |
| FeederStates.SameFeedersEachCycle | aviation_feeder/aviation_feeder_mqtt/feeders.py:280-313 | which feeders are reported depends on the options alone |
| FeederStates.EnabledAreKnown | aviation_feeder/aviation_feeder_mqtt/feeders.py:114-120 | every enabled feeder is among those the pass retracts from |
| FeederStates.MeasuredIsEnabled | aviation_feeder/aviation_feeder_mqtt/throughput.py:56-58 | a feeder with a total is an enabled one |
| FeederStates.MlatStates | aviation_feeder/aviation_feeder_mqtt/app.py:221-254 | a value for exactly the MLAT sensors of enabled feeders: the reading if it is a number, else 0 |
| FeederStates.Cycle | aviation_feeder/aviation_feeder_mqtt/app.py:991-1102 | the states published, with their values, are exactly those that are due, and every sensor in the MLAT tables of an enabled feeder gets exactly one |
| FeederStates.CycleShowsTraffic | aviation_feeder/aviation_feeder_mqtt/app.py:1009-1028 | each direction's byte sensor shows that direction's total and its rate sensor that counter's rate, and nothing else; nothing without a total |
| FeederStates.ShownRatesIntegrate | aviation_feeder/aviation_feeder_mqtt/app.py:1009-1028 | over a run of cycles the rates shown in a direction, times the intervals, add up to what the total in that direction has grown by since its first |
| FeederStates.SensorValues | aviation_feeder/aviation_feeder_mqtt/app.py:1044-1102 | what MLAT, uptime, portal and report sensors show |
| FeederStates.ReportedCounts | aviation_feeder/aviation_feeder_mqtt/app.py:1029-1043 | planefinder's byte counts and fr24's messages are those reported |
| FeederStates.DueAdvertised | aviation_feeder/aviation_feeder_mqtt/app.py:91-116 | a sensor is due only for a feeder the metric tables give it to |
| FeederStates.NoOrphans | aviation_feeder/aviation_feeder_mqtt/app.py:989-1102 | for every option map and all connectors, processes, reports and polls: each state a cycle publishes goes to the state topic of a config in the discovery dict made under the same options |
| FeederStates.DictHolds | aviation_feeder/aviation_feeder_mqtt/app.py:287-344 | in that dict exactly the configs that name a state topic hold it |
| FeederStates.ConfigIsAdvertised | aviation_feeder/aviation_feeder_mqtt/app.py:313-343 | every state topic a config names belongs to a feeder the metric tables give the sensor to |
| FeederStates.MlatConfigsFed | aviation_feeder/aviation_feeder_mqtt/app.py:221-254 | every MLAT sensor that a config of the discovery dict names gets exactly one value each cycle |
| FeederStates.CycleOf | aviation_feeder/aviation_feeder_mqtt/app.py:989-1102 | status and cycle together publish exactly what is due; in every run each state goes to a state topic some config names, each MLAT sensor that one names gets exactly one, and byte sensors show the run's totals and rates |
| FeederStates.PublishCycle | aviation_feeder/aviation_feeder_mqtt/app.py:989-1102 | the same with the tables as they stand |
| FeederStates.TablesCover | aviation_feeder/aviation_feeder_mqtt/app.py:315-343 | the tables as they stand meet what that needs |
| FeederStates.AdvertisedHasConfig | aviation_feeder/aviation_feeder_mqtt/app.py:241-245 | every advertised state topic is named by a config of the discovery pass |
| Session.MqttHealth.Reconnect | aviation_feeder/aviation_feeder_mqtt/app.py:1145-1244 | the loop's state, exit code and number of turns are those of the turn-by-turn rules |
| Session.Remembers | aviation_feeder/aviation_feeder_mqtt/app.py:1223-1232 | the loop remembers when the current outage began and how long to wait |
| Session.LinkState | aviation_feeder/aviation_feeder_mqtt/app.py:1160-1222 | after a failure the link counts as down, and each connect is counted once |
| Session.EndsWithCode | aviation_feeder/aviation_feeder_mqtt/app.py:1190-1250 | a turn that does not fail ends the loop with the publish loop's code, or with that for any other exception |
| Session.ExitsExactly | aviation_feeder/aviation_feeder_mqtt/app.py:1234-1242 | it gives up in a turn if and only if that is the first to find the outage older than 300 s |
| Session.NoRecentSession | aviation_feeder/aviation_feeder_mqtt/app.py:1223-1242 | it gives up only if every session had broken more than 300 s before |
| Session.TenFailuresExit | aviation_feeder/aviation_feeder_mqtt/app.py:135-139 | an outage in which nothing connects has been ended by its tenth failure |
| Session.ExitsAtNextCheck | aviation_feeder/aviation_feeder_mqtt/app.py:1234-1242 | however long waits and attempts take, an outage noticed before lasts at most 300 s plus the time since the check before |
| Session.ExitsInTime | aviation_feeder/aviation_feeder_mqtt/app.py:1234-1244 | the exit comes within 360 s of the outage's start plus what the timer was late by and the duration of the last attempt |
| Connectors.UfSafe | aviation_feeder/rootfs/etc/cont-init.d/00-haos-options:102 | replaces exactly the two separators |
| Connectors.RemotePort | aviation_feeder/rootfs/etc/cont-init.d/00-haos-options:376-381 | always a port number in 1..65535: the option's as it stands if that is one, else the default |
| Connectors.Compiler.AddSource | aviation_feeder/rootfs/etc/cont-init.d/00-haos-options:361-384 | adds the printed connector of the receiver mode, if it has one |
| Connectors.Compiler.AddAggregator | aviation_feeder/rootfs/etc/cont-init.d/00-haos-options:386-435 | adds the printed connectors one aggregator asks for |
| Connectors.Compiler.Compile | aviation_feeder/rootfs/etc/cont-init.d/00-haos-options:356-464 | all wanted connectors printed and joined, then the raw option; unset if that comes to nothing |
| Connectors.ConnectorRoundTrip | aviation_feeder/rootfs/etc/cont-init.d/00-haos-options:345-349 | splitting on the two separators gives back exactly the wanted connectors and fields in order, then only what the raw option says, if and only if the string is not just a raw option that echo swallows |
| Connectors.ConnectorsOfRow | aviation_feeder/rootfs/etc/cont-init.d/00-haos-options:386-435 | at each row's place in the list stand exactly the connectors its options ask for: ingest host, port and protocol, MLAT host and port, its own station id or else the station's, and the name on the MLAT one only |
| Connectors.ConnectorOfRow | aviation_feeder/rootfs/etc/cont-init.d/00-haos-options:386-418 | a row that is on has its feed in the list, and with MLAT on its sync |
| Connectors.SourceFields | aviation_feeder/rootfs/etc/cont-init.d/00-haos-options:361-384 | the source's connector for each receiver mode |
| Connectors.TextOption | aviation_feeder/rootfs/etc/cont-init.d/00-haos-options:25-33 | a text option loses quotes, backslashes and line ends and nothing else |
| Connectors.Toggles | aviation_feeder/rootfs/etc/cont-init.d/00-haos-options:40-45 | a toggle is its own word, or the default if absent or null |
| Connectors.ConnectorCount | aviation_feeder/rootfs/etc/cont-init.d/00-haos-options:394-418 | one adsb connector per aggregator that feeds, one mlat connector per such aggregator with MLAT on, no others |
| AggregatorTable.OptionsRoundTrip | aviation_feeder/rootfs/etc/cont-init.d/00-haos-options:437-464 | the round trip for every options file with the aggregator table as it is |
| AggregatorTable.TableClean | aviation_feeder/rootfs/etc/cont-init.d/00-haos-options:437-453 | no separator occurs in the table |
| AggregatorTable.PlanespottersSync | aviation_feeder/rootfs/etc/cont-init.d/00-haos-options:443-443 | planespotters gets its own MLAT host and port |
| AggregatorTable.DashNLost | aviation_feeder/rootfs/etc/cont-init.d/00-haos-options:455-464 | with nothing set but the raw option -n the variable stays unset |

## Left out

- Sockets, tasks, cancellation, time-outs and signals: reads are any sequence of chunks, sessions any sequence of attempts, shutdown is the end of the sequence.
- Discovery requested by a birth message while a pass is running: the flag is cleared when the pass ends, so not every birth is followed by a full pass.
- Discovery under a changed prefix: old configs are never retracted, so histories share one prefix.
- Config payloads other than their topic: a non-empty text per topic.
- States of the main, nearby, UAT and message-type devices, heartbeat and attributes: one publish per field.
- The publish-stall watchdog: one comparison per cycle.
- Floating point: rates and clock readings are reals, and published values are not rounded.
- Clock readings that stand still or go back: the reconnect loop then takes a new session for the old one; the watchdog results assume a clock that only moves forward.
- Addresses as text: remote addresses are byte strings, so printing and parsing them is not modelled.
- Python's set and dictionary order: results that do not depend on it are stated as sets and maps.
- compute_feeder_uptime and pfclient's connected flag: their results are inputs of a cycle.
- Reported counts that are not numbers: the report readers only pass integers on.
- Scraping stats.prom, /proc and HTTP reports, nearby.py, stats.py, emergency.py and the metric extractors: field lookups and filters with only easy claims.
- The rest of 00-haos-options: independent variable settings; character ranges in its patterns are those of the C locale.
- How readsb itself splits ULTRAFEEDER_CONFIG: readsb is not part of this model; the separators are those the script documents.
