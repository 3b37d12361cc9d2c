/** The aggregator table of 00-haos-options, and the connector list it gives. */
module AggregatorTable {
  import opened Bytes
  import opened Feeders
  import opened Connectors

  const ADSBLOL := Aggregator("feed_adsblol", "in.adsb.lol", "30004", "in.adsb.lol", "31090", "adsblol_uuid")
  const ADSBFI := Aggregator("feed_adsbfi", "feed.adsb.fi", "30004", "feed.adsb.fi", "31090", "adsbfi_uuid")
  const AIRPLANESLIVE := Aggregator("feed_airplaneslive", "feed.airplanes.live", "30004", "feed.airplanes.live", "31090", "airplaneslive_uuid")
  const PLANESPOTTERS := Aggregator("feed_planespotters", "feed.planespotters.net", "30004", "mlat.planespotters.net", "31090", "planespotters_uuid")
  const THEAIRTRAFFIC := Aggregator("feed_theairtraffic", "feed.theairtraffic.com", "30004", "feed.theairtraffic.com", "31090", "theairtraffic_uuid")
  const AVDELPHI := Aggregator("feed_avdelphi", "data.avdelphi.com", "24999", "", "", "avdelphi_uuid")
  const FLYITALY := Aggregator("feed_flyitaly", "dati.flyitalyadsb.com", "4905", "dati.flyitalyadsb.com", "30100", "flyitaly_uuid")
  const ADSBITALIA := Aggregator("feed_adsbitalia", "feed.adsbitalia.it", "31108", "mlat.adsbitalia.it", "41113", "adsbitalia_uuid")
  const ADSBEXCHANGE := Aggregator("feed_adsbexchange", "feed1.adsbexchange.com", "30004", "feed.adsbexchange.com", "31090", "adsbexchange_uuid")
  const ADSBONE := Aggregator("feed_adsbone", "feed.adsb.one", "64004", "feed.adsb.one", "64006", "adsbone_uuid")
  const HPRADAR := Aggregator("feed_hpradar", "skyfeed.hpradar.com", "30004", "skyfeed.hpradar.com", "31090", "hpradar_uuid")

  const AGGREGATORS: seq<Aggregator> := [
    ADSBLOL, ADSBFI, AIRPLANESLIVE, PLANESPOTTERS, THEAIRTRAFFIC, AVDELPHI,
    FLYITALY, ADSBITALIA, ADSBEXCHANGE, ADSBONE, HPRADAR
  ]

  lemma AdsblolClean() ensures RowClean(ADSBLOL) {}

  lemma AdsbfiClean() ensures RowClean(ADSBFI) {}

  lemma AirplanesliveClean() ensures RowClean(AIRPLANESLIVE) {}

  lemma PlanespottersFeedClean() ensures Clean("feed.planespotters.net") {}

  lemma PlanespottersMlatClean() ensures Clean("mlat.planespotters.net") {}

  lemma PlanespottersClean()
    ensures RowClean(PLANESPOTTERS)
  {
    PlanespottersFeedClean();
    PlanespottersMlatClean();
  }

  lemma TheairtrafficClean() ensures RowClean(THEAIRTRAFFIC) {}

  lemma AvdelphiClean() ensures RowClean(AVDELPHI) {}

  lemma FlyitalyClean() ensures RowClean(FLYITALY) {}

  lemma AdsbitaliaClean() ensures RowClean(ADSBITALIA) {}

  lemma AdsbexchangeFeedClean() ensures Clean("feed1.adsbexchange.com") {}

  lemma AdsbexchangeMlatClean() ensures Clean("feed.adsbexchange.com") {}

  lemma AdsbexchangeClean()
    ensures RowClean(ADSBEXCHANGE)
  {
    AdsbexchangeFeedClean();
    AdsbexchangeMlatClean();
  }

  lemma AdsboneClean() ensures RowClean(ADSBONE) {}

  lemma HpradarClean() ensures RowClean(HPRADAR) {}

  /** No separator occurs in the aggregator table. */
  lemma TableClean()
    ensures RowsClean(AGGREGATORS)
  {
    AdsblolClean();
    AdsbfiClean();
    AirplanesliveClean();
    PlanespottersClean();
    TheairtrafficClean();
    AvdelphiClean();
    FlyitalyClean();
    AdsbitaliaClean();
    AdsbexchangeClean();
    AdsboneClean();
    HpradarClean();
  }

  /** So for every options file, with the aggregator table as it is. */
  lemma OptionsRoundTrip(options: Options)
    ensures var s := Read(options);
            Got(Config(s, AGGREGATORS)) == Meant(s, AGGREGATORS)
            <==> !(Intended(s, AGGREGATORS) == [] && EchoOption(Opt(options, "ultrafeeder_config")))
  {
    TableClean();
    ConnectorRoundTrip(Read(options), AGGREGATORS);
  }

  /** An options file for which the list does not come through. */
  lemma DashNLost()
    ensures var s := Read(map["ultrafeeder_config" := Text("-n")]);
            Config(s, AGGREGATORS) == None && Meant(s, AGGREGATORS) == [["-n"]]
  {
    var options := map["ultrafeeder_config" := Text("-n")];
    FeedKeys(AGGREGATORS);
    LostAmong(options, "ultrafeeder_config", "-n", AGGREGATORS);
  }

  lemma LostAmong(options: Options, name: string, raw: string, rows: seq<Aggregator>)
    requires options == map[name := Text(raw)] && name == "ultrafeeder_config" && raw == "-n"
    requires forall row <- rows :: row.key != "" && row.key[0] == 'f'
    ensures Config(Read(options), rows) == None && Meant(Read(options), rows) == [[raw]]
  {
    OneOption(options, name, raw);
    OnlyThat(Read(options), name, raw);
    SwallowedOption(Read(options), rows);
  }

  lemma OnlyThat(s: Settings, name: string, raw: string)
    requires name == "ultrafeeder_config" && raw == "-n"
    requires s.opt(name) == raw && forall key :: key != name ==> s.opt(key) == ""
    ensures OnlyDashN(s)
  {
    NamesDiffer(name);
  }

  lemma NamesDiffer(name: string)
    requires name == "ultrafeeder_config"
    ensures "receiver_mode" != name && "enable_uat" != name
    ensures forall key :: key != "" && key[0] == 'f' ==> key != name
  {
    assert name[0] == 'u' && "receiver_mode"[0] == 'r' && "enable_uat"[0] == 'e';
  }

  lemma OneOption(options: Options, name: string, raw: string)
    requires options == map[name := Text(raw)]
    requires forall i :: 0 <= i < |raw| ==> raw[i] !in {'"', '\\', '\n', '\r'}
    ensures var s := Read(options); s.opt(name) == raw && forall key :: key != name ==> s.opt(key) == ""
  {
    OptText(options, name, raw);
  }

  /** An ordinary text is read as it stands. */
  lemma OptText(options: Options, key: string, raw: string)
    requires key in options && options[key] == Text(raw)
    requires forall i :: 0 <= i < |raw| ==> raw[i] !in {'"', '\\', '\n', '\r'}
    ensures Opt(options, key) == raw
  {
    WithoutNone(raw, {'"', '\\', '\n', '\r'});
    assert Chomp(raw) == raw;
  }

  lemma {:induction false} WithoutNone(s: string, bad: set<char>)
    requires forall i :: 0 <= i < |s| ==> s[i] !in bad
    ensures Without(s, bad) == s
  {
    if s != "" {
      WithoutNone(s[1..], bad);
      assert s == [s[0]] + s[1..];
    }
  }

  lemma FeedKeys(rows: seq<Aggregator>)
    requires rows == AGGREGATORS
    ensures forall row <- rows :: row.key != "" && row.key[0] == 'f'
  {
    assert ADSBLOL.key[0] == 'f' && ADSBFI.key[0] == 'f' && AIRPLANESLIVE.key[0] == 'f' && PLANESPOTTERS.key[0] == 'f';
    assert THEAIRTRAFFIC.key[0] == 'f' && AVDELPHI.key[0] == 'f' && FLYITALY.key[0] == 'f' && ADSBITALIA.key[0] == 'f';
    assert ADSBEXCHANGE.key[0] == 'f' && ADSBONE.key[0] == 'f' && HPRADAR.key[0] == 'f';
  }

  /** Planespotters takes MLAT on another host than its feed. */
  lemma PlanespottersSync(settings: Settings)
    requires settings.opt("feed_planespotters") == "true" && settings.toggle("planespotters_mlat") != "false"
    ensures exists c <- Got(Config(settings, AGGREGATORS)) :: Starts(c, ["mlat", "mlat.planespotters.net", "31090"])
  {
    TableClean();
    PlanespottersRow(AGGREGATORS, "planespotters");
    ConnectorOfRow(settings, AGGREGATORS, 3, "planespotters");
  }

  lemma PlanespottersRow(rows: seq<Aggregator>, short: string)
    requires rows == AGGREGATORS && short == "planespotters"
    ensures rows[3] == PLANESPOTTERS && PLANESPOTTERS.uuidKey == short + "_uuid" && short + "_mlat" == "planespotters_mlat"
    ensures PLANESPOTTERS.key == "feed_planespotters" && PLANESPOTTERS.mlatHost != ""
  {
  }
}
