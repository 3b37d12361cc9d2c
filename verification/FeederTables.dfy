/** The feeder tables (feeders.py). */
module FeederTables {
  import opened Feeders

  const COMMUNITY_FEEDERS: seq<Community> := [
    Community("adsblol", "feed_adsblol", "in.adsb.lol", "30004"),
    Community("adsbfi", "feed_adsbfi", "feed.adsb.fi", "30004"),
    Community("airplaneslive", "feed_airplaneslive", "feed.airplanes.live", "30004"),
    Community("planespotters", "feed_planespotters", "feed.planespotters.net", "30004"),
    Community("theairtraffic", "feed_theairtraffic", "feed.theairtraffic.com", "30004"),
    Community("avdelphi", "feed_avdelphi", "data.avdelphi.com", "24999"),
    Community("flyitaly", "feed_flyitaly", "dati.flyitalyadsb.com", "4905"),
    Community("adsbitalia", "feed_adsbitalia", "feed.adsbitalia.it", "31108"),
    Community("adsbexchange", "feed_adsbexchange", "feed1.adsbexchange.com", "30004"),
    Community("adsbone", "feed_adsbone", "feed.adsb.one", "64004"),
    Community("hpradar", "feed_hpradar", "skyfeed.hpradar.com", "30004")
  ]

  const PROPRIETARY_FEEDERS: seq<Client> := [
    Client("piaware", "enable_piaware", "piaware", Conn),
    Client("fr24", "enable_fr24", "fr24feed", Report),
    Client("planefinder", "enable_planefinder", "pfclient", Report),
    Client("opensky", "enable_opensky", "openskyd", Conn),
    Client("radarbox", "enable_radarbox", "rbfeeder", Conn),
    Client("adsbhub", "enable_adsbhub", "adsbhub", Conn),
    Client("planewatch", "enable_planewatch", "pw-feeder", Conn),
    Client("sdrmap", "enable_sdrmap", "sdrmapfeeder", Proc),
    Client("uk1090", "enable_uk1090", "sbin/radar", Conn)
  ]

  const THROUGHPUT_KERNEL: set<string> :=
    {"piaware", "planewatch", "opensky", "adsbhub", "radarbox", "uk1090"}
}
