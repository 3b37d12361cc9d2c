/** The connector list of 00-haos-options: options compiled into one string whose
    connectors are separated by ';' and their fields by ','. */
module Connectors {
  import opened Bytes
  import opened Feeders

  // ---------------------------------------------------------------- reading options

  /** What `jq -r` prints for an option, without the newline it ends with. */
  function Raw(options: Options, key: string): string {
    if key !in options then "null"
    else match options[key]
      case Null => "null"
      case Bool(b) => if b then "true" else "false"
      case Text(s) => s
      case Number(text) => text
  }

  /** Command substitution drops newlines at the end. */
  function Chomp(s: string): string {
    if s != "" && s[|s| - 1] == '\n' then Chomp(s[..|s| - 1]) else s
  }

  function Without(s: string, bad: set<char>): string {
    if s == "" then "" else (if s[0] in bad then "" else [s[0]]) + Without(s[1..], bad)
  }

  /** A string option; null, false and absent read as blank. */
  function Opt(options: Options, key: string): string {
    if key !in options || options[key] == Null || options[key] == Bool(false) then ""
    else Without(Chomp(Raw(options, key)), {'"', '\\', '\n', '\r'})
  }

  /** A toggle; absent and null read as the default. */
  function OptBool(options: Options, key: string, default: string): string {
    var val := Chomp(Raw(options, key));
    if val == "null" then default else val
  }

  /** Neither separator occurs. */
  predicate Clean(s: string) {
    forall i :: 0 <= i < |s| ==> s[i] != ',' && s[i] != ';'
  }

  function UfSafe(s: string): (r: string)
    ensures |r| == |s| && Clean(r)
    ensures forall i :: 0 <= i < |s| ==> r[i] == if s[i] == ',' || s[i] == ';' then '_' else s[i]
  {
    if s == "" then ""
    else [if s[0] == ',' || s[0] == ';' then '_' else s[0]] + UfSafe(s[1..])
  }

  predicate HostChar(c: char) {
    'A' <= c <= 'Z' || 'a' <= c <= 'z' || '0' <= c <= '9' || c in "._:-"
  }

  predicate Digit(c: char) {
    '0' <= c <= '9'
  }

  /** The value if it is not blank and all of it matches, else blank. */
  function Checked(val: string, allowed: char -> bool): (r: string)
    ensures forall i :: 0 <= i < |r| ==> allowed(r[i])
  {
    if val != "" && (forall i :: 0 <= i < |val| ==> allowed(val[i])) then val else ""
  }

  function DigitValue(c: char): nat {
    if Digit(c) then c as int - '0' as int else 0
  }

  function Decimal(s: string): nat {
    if s == "" then 0 else 10 * Decimal(s[..|s| - 1]) + DigitValue(s[|s| - 1])
  }

  /** What the compiler reads of the options: string options, and toggles that
      default to true. */
  datatype Settings = Settings(opt: string -> string, toggle: string -> string)

  function Read(options: Options): Settings {
    Settings(key => Opt(options, key), key => OptBool(options, key, "true"))
  }

  function RemoteHost(settings: Settings): string {
    UfSafe(Checked(settings.opt("remote_beast_host"), HostChar))
  }

  predicate IsPort(s: string) {
    1 <= |s| <= 5 && (forall i :: 0 <= i < |s| ==> Digit(s[i])) && 1 <= Decimal(s) <= 65535
  }

  /** The remote port: the option as it stands if it is a port number, else the
      default. */
  function RemotePort(settings: Settings): (port: string)
    ensures forall i :: 0 <= i < |port| ==> Digit(port[i])
    ensures 1 <= Decimal(port) <= 65535
    ensures if IsPort(settings.opt("remote_beast_port")) then port == settings.opt("remote_beast_port") else port == "30005"
  {
    var rbp := Checked(settings.opt("remote_beast_port"), Digit);
    if rbp == "" || |rbp| > 5 || Decimal(rbp) < 1 || Decimal(rbp) > 65535 then
      assert Decimal("30005") == 30005 by { Port30005(); }
      "30005"
    else rbp
  }

  lemma Port30005()
    ensures Decimal("30005") == 30005
  {
    var s := "30005";
    assert s[..4] == "3000" && s[..4][..3] == "300" && s[..4][..3][..2] == "30" && s[..4][..3][..2][..1] == "3";
    assert Decimal("3") == 3;
    assert Decimal("30") == 30;
    assert Decimal("300") == 300;
    assert Decimal("3000") == 3000;
  }

  // ---------------------------------------------------------------- what is wanted

  datatype Aggregator = Aggregator(
    key: string, host: string, port: string, mlatHost: string, mlatPort: string, uuidKey: string)

  type Connector = seq<string>

  function WithoutSuffix(s: string, suffix: string): string {
    if |suffix| <= |s| && s[|s| - |suffix|..] == suffix then s[..|s| - |suffix|] else s
  }

  /** The row's own station id if set, else the station's. */
  function Uuid(settings: Settings, row: Aggregator): string {
    if settings.opt(row.uuidKey) != "" then UfSafe(settings.opt(row.uuidKey)) else UfSafe(settings.opt("uuid"))
  }

  function Name(settings: Settings, row: Aggregator): string {
    UfSafe(settings.opt(WithoutSuffix(row.uuidKey, "_uuid") + "_name"))
  }

  predicate Feeds(settings: Settings, row: Aggregator) {
    settings.opt(row.key) == "true"
  }

  /** MLAT is on unless the row has none or its toggle is off. */
  predicate HasMlat(settings: Settings, row: Aggregator) {
    && row.mlatHost != ""
    && settings.toggle(WithoutSuffix(row.uuidKey, "_uuid") + "_mlat") != "false"
  }

  function Param(name: string, value: string): seq<string> {
    if value == "" then [] else [name + "=" + value]
  }

  /** What the options ask of one aggregator. */
  datatype Plan = Plan(
    feeds: bool, host: string, port: string, uuid: string, mlat: bool, mlatHost: string, mlatPort: string, name: string)

  function PlanFor(settings: Settings, row: Aggregator): Plan {
    Plan(Feeds(settings, row), row.host, row.port, Uuid(settings, row),
         HasMlat(settings, row), row.mlatHost, row.mlatPort, Name(settings, row))
  }

  function Plans(settings: Settings, rows: seq<Aggregator>): seq<Plan> {
    if rows == [] then [] else [PlanFor(settings, rows[0])] + Plans(settings, rows[1..])
  }

  function Adsb(p: Plan): Connector {
    ["adsb", p.host, p.port, "beast_reduce_plus_out"] + Param("uuid", p.uuid)
  }

  function Mlat(p: Plan): Connector {
    ["mlat", p.mlatHost, p.mlatPort] + Param("uuid", p.uuid) + Param("name", p.name)
  }

  function PlanConnectors(p: Plan): seq<Connector> {
    if !p.feeds then [] else if p.mlat then [Adsb(p), Mlat(p)] else [Adsb(p)]
  }

  function AllPlans(plans: seq<Plan>): seq<Connector> {
    if plans == [] then [] else PlanConnectors(plans[0]) + AllPlans(plans[1..])
  }

  function ReceiverMode(settings: Settings): string {
    if settings.opt("receiver_mode") == "" then "rtlsdr" else settings.opt("receiver_mode")
  }

  predicate UatEnabled(settings: Settings) {
    ReceiverMode(settings) == "uat" || (ReceiverMode(settings) == "rtlsdr" && settings.opt("enable_uat") == "true")
  }

  /** Where aircraft come from, beyond a local 1090 receiver. */
  function Source(settings: Settings): seq<Connector> {
    if ReceiverMode(settings) == "remote" then
      if RemoteHost(settings) == "" then [] else [["adsb", RemoteHost(settings), RemotePort(settings), "beast_in"]]
    else if UatEnabled(settings) then [["adsb", "localhost", "30978", "uat_in"]]
    else []
  }

  function Intended(settings: Settings, rows: seq<Aggregator>): seq<Connector> {
    Source(settings) + AllPlans(Plans(settings, rows))
  }

  // ---------------------------------------------------------------- print and split

  function Print(c: Connector): string {
    JoinWith(c, ',')
  }

  function PrintAll(cs: seq<Connector>): seq<string> {
    if cs == [] then [] else [Print(cs[0])] + PrintAll(cs[1..])
  }

  function SplitFields(parts: seq<string>): seq<Connector> {
    if parts == [] then [] else [Split(parts[0], ',')] + SplitFields(parts[1..])
  }

  /** How the configuration string is taken apart again. */
  function Parse(config: string): seq<Connector> {
    SplitFields(Split(config, ';'))
  }

  ghost predicate CleanConnector(c: Connector) {
    c != [] && forall f <- c :: Clean(f)
  }

  ghost predicate AllClean(cs: seq<Connector>) {
    forall c <- cs :: CleanConnector(c)
  }

  lemma {:induction false} PrintedParts(cs: seq<Connector>)
    requires AllClean(cs)
    ensures |PrintAll(cs)| == |cs| && (forall p <- PrintAll(cs) :: Lacks(p, ';'))
    ensures SplitFields(PrintAll(cs)) == cs
  {
    if cs != [] {
      PrintedParts(cs[1..]);
      assert CleanConnector(cs[0]) by { assert cs[0] in cs; }
      JoinClean(cs[0], ',', ';');
      SplitJoin(cs[0], ',');
    }
  }

  // ---------------------------------------------------------------- printed connectors

  lemma {:induction false} PrintSnoc(c: Connector, f: string)
    requires c != []
    ensures Print(c + [f]) == Print(c) + "," + f
  {
    if |c| == 1 {
      assert c + [f] == [c[0], f] && [c[0], f][1..] == [f];
      assert JoinWith([f], ',') == f;
    } else {
      assert (c + [f])[1..] == c[1..] + [f] && (c + [f])[0] == c[0];
      PrintSnoc(c[1..], f);
      assert c[0] + "," + (Print(c[1..]) + "," + f) == (c[0] + "," + Print(c[1..])) + "," + f;
    }
  }

  lemma PrintParam(c: Connector, name: string, value: string)
    requires c != []
    ensures Print(c + Param(name, value)) == Print(c) + (if value == "" then "" else "," + name + "=" + value)
  {
    if value == "" {
      assert c + [] == c;
    } else {
      PrintSnoc(c, name + "=" + value);
    }
  }

  lemma PrintThree(a: string, b: string, c: string)
    ensures Print([a, b, c]) == a + "," + b + "," + c
  {
    PrintSnoc([a], b);
    assert [a] + [b] == [a, b];
    PrintSnoc([a, b], c);
    assert [a, b] + [c] == [a, b, c];
  }

  lemma PrintFour(a: string, b: string, c: string, d: string)
    ensures Print([a, b, c, d]) == a + "," + b + "," + c + "," + d
  {
    PrintThree(a, b, c);
    PrintSnoc([a, b, c], d);
    assert [a, b, c] + [d] == [a, b, c, d];
  }

  lemma PrintOne(c: Connector)
    ensures PrintAll([c]) == [Print(c)]
  {
    var one: seq<Connector> := [c];
    assert one[1..] == [];
  }

  lemma PrintTwo(c: Connector, d: Connector)
    ensures PrintAll([c, d]) == [Print(c), Print(d)]
  {
    var two: seq<Connector> := [c, d];
    assert two[1..] == [d];
    PrintOne(d);
  }

  lemma {:induction false} PrintAllConcat(xs: seq<Connector>, ys: seq<Connector>)
    ensures PrintAll(xs + ys) == PrintAll(xs) + PrintAll(ys)
  {
    if xs == [] {
      assert xs + ys == ys;
    } else {
      assert (xs + ys)[1..] == xs[1..] + ys && (xs + ys)[0] == xs[0];
      PrintAllConcat(xs[1..], ys);
    }
  }

  /** What `,uuid=` and `,name=` suffixes are. */
  function Suffix(name: string, value: string): string {
    if value == "" then "" else "," + name + "=" + value
  }

  lemma AdsbText(host: string, port: string, u: string)
    ensures Print(["adsb", host, port, "beast_reduce_plus_out"] + Param("uuid", u))
         == "adsb," + host + "," + port + ",beast_reduce_plus_out" + Suffix("uuid", u)
  {
    var c := ["adsb", host, port, "beast_reduce_plus_out"];
    PrintFour("adsb", host, port, "beast_reduce_plus_out");
    assert Print(c) == "adsb," + host + "," + port + ",beast_reduce_plus_out";
    PrintParam(c, "uuid", u);
  }

  lemma RemoteText(host: string, port: string)
    ensures Print(["adsb", host, port, "beast_in"]) == "adsb," + host + "," + port + ",beast_in"
  {
    PrintFour("adsb", host, port, "beast_in");
  }

  lemma MlatText(host: string, port: string, u: string, nm: string)
    ensures Print(["mlat", host, port] + Param("uuid", u) + Param("name", nm))
         == "mlat," + host + "," + port + Suffix("uuid", u) + Suffix("name", nm)
  {
    var c := ["mlat", host, port];
    PrintThree("mlat", host, port);
    assert Print(c) == "mlat," + host + "," + port;
    PrintParam(c, "uuid", u);
    PrintParam(c + Param("uuid", u), "name", nm);
  }

  // ---------------------------------------------------------------- the compiler

  class Compiler {
    var uf: seq<string>

    constructor ()
      ensures uf == []
    {
      uf := [];
    }

    method AddSource(settings: Settings)
      modifies this
      ensures uf == old(uf) + PrintAll(Source(settings))
    {
      if ReceiverMode(settings) == "remote" {
        var rbh := Checked(settings.opt("remote_beast_host"), HostChar);
        rbh := UfSafe(rbh);
        var rbp := Checked(settings.opt("remote_beast_port"), Digit);
        if rbp != "" && (|rbp| > 5 || Decimal(rbp) < 1 || Decimal(rbp) > 65535) {
          rbp := "";
        }
        assert rbh == RemoteHost(settings) && (if rbp == "" then "30005" else rbp) == RemotePort(settings);
        AddRemote(rbh, rbp);
      } else if UatEnabled(settings) {
        PrintFour("adsb", "localhost", "30978", "uat_in");
        PrintOne(["adsb", "localhost", "30978", "uat_in"]);
        uf := uf + ["adsb" + "," + "localhost" + "," + "30978" + "," + "uat_in"];
      } else {
        assert uf == uf + PrintAll([]);
      }
    }

    method AddRemote(rbh: string, rbp: string)
      modifies this
      ensures var port := if rbp == "" then "30005" else rbp;
              uf == old(uf) + PrintAll(if rbh == "" then [] else [["adsb", rbh, port, "beast_in"]])
    {
      if rbh != "" {
        var port := if rbp == "" then "30005" else rbp;
        RemoteText(rbh, port);
        PrintOne(["adsb", rbh, port, "beast_in"]);
        uf := uf + ["adsb," + rbh + "," + port + ",beast_in"];
      }
    }

    method AddAggregator(settings: Settings, row: Aggregator)
      modifies this
      ensures uf == old(uf) + PrintAll(PlanConnectors(PlanFor(settings, row)))
    {
      if settings.opt(row.key) != "true" {
        return;
      }
      var u := UfSafe(settings.opt("uuid"));
      var ov := UfSafe(settings.opt(row.uuidKey));
      if ov != "" {
        u := ov;
      }
      var nm := UfSafe(settings.opt(WithoutSuffix(row.uuidKey, "_uuid") + "_name"));
      var mlatOpt := WithoutSuffix(row.uuidKey, "_uuid") + "_mlat";
      var mlat := row.mlatHost != "" && settings.toggle(mlatOpt) != "false";
      ghost var p := PlanFor(settings, row);
      assert p == Plan(true, row.host, row.port, u, mlat, row.mlatHost, row.mlatPort, nm);
      Append(p, row, u, nm, mlat);
    }

    method Append(ghost p: Plan, row: Aggregator, u: string, nm: string, mlat: bool)
      requires p == Plan(true, row.host, row.port, u, mlat, row.mlatHost, row.mlatPort, nm)
      modifies this
      ensures uf == old(uf) + PrintAll(PlanConnectors(p))
    {
      var uuidSuffix := "";
      if u != "" {
        uuidSuffix := ",uuid=" + u;
      }
      assert uuidSuffix == Suffix("uuid", u);
      AdsbText(row.host, row.port, u);
      uf := uf + ["adsb," + row.host + "," + row.port + ",beast_reduce_plus_out" + uuidSuffix];
      PrintOne(Adsb(p));
      var nameSuffix := "";
      if nm != "" {
        nameSuffix := ",name=" + nm;
      }
      assert nameSuffix == Suffix("name", nm);
      if mlat {
        MlatText(row.mlatHost, row.mlatPort, u, nm);
        uf := uf + ["mlat," + row.mlatHost + "," + row.mlatPort + uuidSuffix + nameSuffix];
        PrintTwo(Adsb(p), Mlat(p));
      }
    }

    method AddAggregators(settings: Settings, rows: seq<Aggregator>)
      modifies this
      ensures uf == old(uf) + PrintAll(AllPlans(Plans(settings, rows)))
    {
      assert rows[..0] == [] && rows[..|rows|] == rows;
      ghost var added := [];
      for i := 0 to |rows|
        invariant added == PrintAll(AllPlans(Plans(settings, rows[..i])))
        invariant uf == old(uf) + added
      {
        ConcatAssoc(old(uf), added, PrintAll(PlanConnectors(PlanFor(settings, rows[i]))));
        added := OneMore(settings, rows, i, added);
        AddAggregator(settings, rows[i]);
      }
    }

    /** ULTRAFEEDER_CONFIG; None if it is left unset. */
    method Compile(settings: Settings, rows: seq<Aggregator>) returns (config: Option<string>)
      modifies this
      ensures config == Config(settings, rows)
    {
      uf := [];
      AddSource(settings);
      assert uf == PrintAll(Source(settings));
      AddAggregators(settings, rows);
      IntendedText(settings, rows);
      var raw := settings.opt("ultrafeeder_config");
      if raw != "" {
        uf := uf + [raw];
      } else {
        assert uf + [] == uf;
      }
      if |uf| > 0 {
        var value := Echo(JoinWith(uf, ';'));
        if value != "" {
          return Some(value);
        }
      }
      return None;
    }
  }

  lemma OneMore(settings: Settings, rows: seq<Aggregator>, i: nat, added: seq<string>) returns (added': seq<string>)
    requires i < |rows| && added == PrintAll(AllPlans(Plans(settings, rows[..i])))
    ensures added' == PrintAll(AllPlans(Plans(settings, rows[..i + 1])))
    ensures added' == added + PrintAll(PlanConnectors(PlanFor(settings, rows[i])))
  {
    assert rows[..i + 1] == rows[..i] + [rows[i]];
    AllPlansSnoc(settings, rows[..i], rows[i]);
    PrintAllConcat(AllPlans(Plans(settings, rows[..i])), PlanConnectors(PlanFor(settings, rows[i])));
    added' := PrintAll(AllPlans(Plans(settings, rows[..i + 1])));
  }

  lemma IntendedText(settings: Settings, rows: seq<Aggregator>)
    ensures PrintAll(Intended(settings, rows)) == PrintAll(Source(settings)) + PrintAll(AllPlans(Plans(settings, rows)))
  {
    PrintAllConcat(Source(settings), AllPlans(Plans(settings, rows)));
  }

  lemma {:induction false} AllPlansSnoc(settings: Settings, rows: seq<Aggregator>, row: Aggregator)
    ensures AllPlans(Plans(settings, rows + [row]))
         == AllPlans(Plans(settings, rows)) + PlanConnectors(PlanFor(settings, row))
    decreases |rows|
  {
    var p := PlanFor(settings, row);
    if rows == [] {
      assert (rows + [row])[1..] == [] && (rows + [row])[0] == row;
      assert Plans(settings, rows + [row]) == [p] + [];
      assert [p][1..] == [] && PlanConnectors(p) + [] == PlanConnectors(p);
    } else {
      assert (rows + [row])[1..] == rows[1..] + [row] && (rows + [row])[0] == rows[0];
      AllPlansSnoc(settings, rows[1..], row);
      var q := PlanFor(settings, rows[0]);
      assert Plans(settings, rows + [row])[1..] == Plans(settings, rows[1..] + [row]);
      assert Plans(settings, rows)[1..] == Plans(settings, rows[1..]);
      ConcatAssoc(PlanConnectors(q), AllPlans(Plans(settings, rows[1..])), PlanConnectors(p));
    }
  }

  /** A word that bash's echo takes for an option and does not print. */
  predicate EchoOption(s: string) {
    |s| > 1 && s[0] == '-' && forall i :: 1 <= i < |s| ==> s[i] in "neE"
  }

  function Echo(s: string): string {
    if EchoOption(s) then "" else s
  }

  /** The connectors wanted, printed and joined, after them the raw option; an
      empty value is not set at all. */
  function Config(settings: Settings, rows: seq<Aggregator>): Option<string> {
    var raw := settings.opt("ultrafeeder_config");
    var parts := PrintAll(Intended(settings, rows)) + (if raw == "" then [] else [raw]);
    var value := Echo(JoinWith(parts, ';'));
    if parts == [] || value == "" then None else Some(value)
  }

  // ---------------------------------------------------------------- round trip

  predicate RowClean(row: Aggregator) {
    Clean(row.host) && Clean(row.port) && Clean(row.mlatHost) && Clean(row.mlatPort)
  }

  ghost predicate RowsClean(rows: seq<Aggregator>) {
    forall i :: 0 <= i < |rows| ==> RowClean(rows[i])
  }

  lemma CleanPlus(c: Connector, d: seq<string>)
    requires CleanConnector(c) && forall f <- d :: Clean(f)
    ensures CleanConnector(c + d)
  {
  }

  lemma CleanFour(a: string, b: string, c: string, d: string)
    requires Clean(a) && Clean(b) && Clean(c) && Clean(d)
    ensures CleanConnector([a, b, c]) && CleanConnector([a, b, c, d])
  {
  }

  lemma WordsClean()
    ensures Clean("adsb") && Clean("mlat") && Clean("uat_in") && Clean("beast_in")
    ensures Clean("localhost") && Clean("30978") && Clean("beast_reduce_plus_out")
  {
  }

  lemma SourceClean(settings: Settings)
    ensures AllClean(Source(settings))
  {
    WordsClean();
    var host, port := RemoteHost(settings), RemotePort(settings);
    DigitsClean(port);
    CleanFour("adsb", host, port, "beast_in");
    CleanFour("adsb", "localhost", "30978", "uat_in");
  }

  lemma DigitsClean(s: string)
    requires forall i :: 0 <= i < |s| ==> Digit(s[i])
    ensures Clean(s)
  {
  }

  lemma ParamClean(name: string, value: string)
    requires Clean(name) && Clean(value)
    ensures forall f <- Param(name, value) :: Clean(f)
  {
    var f := name + "=" + value;
    assert forall i :: 0 <= i < |f| ==>
      f[i] == if i < |name| then name[i] else if i == |name| then '=' else value[i - |name| - 1];
  }

  lemma PlanClean(p: Plan)
    requires Clean(p.host) && Clean(p.port) && Clean(p.mlatHost) && Clean(p.mlatPort) && Clean(p.uuid) && Clean(p.name)
    ensures CleanConnector(Adsb(p)) && CleanConnector(Mlat(p)) && AllClean(PlanConnectors(p))
  {
    WordsClean();
    ParamClean("uuid", p.uuid);
    ParamClean("name", p.name);
    CleanFour("adsb", p.host, p.port, "beast_reduce_plus_out");
    CleanFour("mlat", p.mlatHost, p.mlatPort, "");
    CleanPlus(["adsb", p.host, p.port, "beast_reduce_plus_out"], Param("uuid", p.uuid));
    CleanPlus(["mlat", p.mlatHost, p.mlatPort], Param("uuid", p.uuid));
    CleanPlus(["mlat", p.mlatHost, p.mlatPort] + Param("uuid", p.uuid), Param("name", p.name));
  }

  lemma PlanForClean(settings: Settings, row: Aggregator)
    requires RowClean(row)
    ensures AllClean(PlanConnectors(PlanFor(settings, row)))
  {
    var p := PlanFor(settings, row);
    assert Clean(p.uuid) && Clean(p.name);
    PlanClean(p);
  }

  lemma {:induction false} PlansClean(settings: Settings, rows: seq<Aggregator>)
    requires RowsClean(rows)
    ensures AllClean(AllPlans(Plans(settings, rows)))
  {
    if rows != [] {
      PlanForClean(settings, rows[0]);
      PlansClean(settings, rows[1..]);
      assert Plans(settings, rows)[1..] == Plans(settings, rows[1..]);
    }
  }

  lemma {:induction false} JoinSplitRaw(parts: seq<string>, raw: string, sep: char)
    requires forall p <- parts :: Lacks(p, sep)
    ensures Split(JoinWith(parts + [raw], sep), sep) == parts + Split(raw, sep)
  {
    if parts == [] {
      assert parts + [raw] == [raw];
    } else {
      assert (parts + [raw])[1..] == parts[1..] + [raw] && (parts + [raw])[0] == parts[0];
      SplitAt(parts[0], JoinWith(parts[1..] + [raw], sep), sep);
      JoinSplitRaw(parts[1..], raw, sep);
      assert parts == [parts[0]] + parts[1..];
      ConcatAssoc([parts[0]], parts[1..], Split(raw, sep));
    }
  }

  lemma {:induction false} SplitFieldsConcat(xs: seq<string>, ys: seq<string>)
    ensures SplitFields(xs + ys) == SplitFields(xs) + SplitFields(ys)
  {
    if xs == [] {
      assert xs + ys == ys;
    } else {
      assert (xs + ys)[1..] == xs[1..] + ys && (xs + ys)[0] == xs[0];
      SplitFieldsConcat(xs[1..], ys);
    }
  }

  /** Every list of wanted connectors starts with an adsb one. */
  ghost predicate StartsAdsb(cs: seq<Connector>) {
    cs != [] ==> cs[0] != [] && cs[0][0] == "adsb"
  }

  lemma {:induction false} PlansStart(plans: seq<Plan>)
    ensures StartsAdsb(AllPlans(plans))
  {
    if plans != [] {
      PlansStart(plans[1..]);
      assert Adsb(plans[0])[0] == "adsb";
    }
  }

  lemma WantedStarts(settings: Settings, rows: seq<Aggregator>)
    ensures StartsAdsb(Intended(settings, rows))
  {
    PlansStart(Plans(settings, rows));
  }

  lemma JoinStarts(parts: seq<string>, sep: char)
    requires parts != [] && parts[0] != ""
    ensures JoinWith(parts, sep) != "" && JoinWith(parts, sep)[0] == parts[0][0]
  {
  }

  /** So echo prints the joined list as it stands. */
  lemma PrintedWhole(cs: seq<Connector>, more: seq<string>)
    requires cs != [] && StartsAdsb(cs)
    ensures Echo(JoinWith(PrintAll(cs) + more, ';')) == JoinWith(PrintAll(cs) + more, ';') != ""
  {
    JoinStarts(cs[0], ',');
    JoinStarts(PrintAll(cs) + more, ';');
    assert "adsb"[0] == 'a';
  }

  /** What the configuration string ought to say: the connectors wanted, and
      after them only what the raw option itself says. */
  function Meant(settings: Settings, rows: seq<Aggregator>): seq<Connector> {
    var raw := settings.opt("ultrafeeder_config");
    Intended(settings, rows) + (if raw == "" then [] else Parse(raw))
  }

  lemma JoinedParts(wanted: seq<Connector>, raw: string)
    requires AllClean(wanted)
    ensures var parts := PrintAll(wanted) + (if raw == "" then [] else [raw]);
            (parts == [] <==> wanted == [] && raw == "")
            && (parts != [] ==> Parse(JoinWith(parts, ';')) == wanted + (if raw == "" then [] else Parse(raw)))
  {
    PrintedParts(wanted);
    var parts := PrintAll(wanted);
    if raw != "" {
      JoinSplitRaw(parts, raw, ';');
      SplitFieldsConcat(parts, Split(raw, ';'));
    } else if parts != [] {
      assert parts + [] == parts;
      SplitJoin(parts, ';');
    }
  }

  /** The connectors that reach readsb: none if the variable is unset. */
  function Got(config: Option<string>): seq<Connector> {
    if config == None then [] else Parse(config.value)
  }

  /** Whatever the options hold, separators included: taking the configuration
      string apart gives exactly the connectors and fields meant, in table order,
      if and only if the string is not just a raw option that echo swallows. */
  lemma ConnectorRoundTrip(settings: Settings, rows: seq<Aggregator>)
    requires RowsClean(rows)
    ensures Got(Config(settings, rows)) == Meant(settings, rows)
            <==> !(Intended(settings, rows) == [] && EchoOption(settings.opt("ultrafeeder_config")))
  {
    var wanted, raw := Intended(settings, rows), settings.opt("ultrafeeder_config");
    SourceClean(settings);
    PlansClean(settings, rows);
    JoinedParts(wanted, raw);
    if wanted != [] {
      WantedStarts(settings, rows);
      PrintedWhole(wanted, if raw == "" then [] else [raw]);
    } else if raw != "" {
      assert PrintAll(wanted) + [raw] == [raw];
      assert Parse(raw) != [];
    }
  }

  /** Nothing is set but the raw option, which is -n. */
  ghost predicate OnlyDashN(settings: Settings) {
    && settings.opt("ultrafeeder_config") == "-n"
    && settings.opt("receiver_mode") == "" && settings.opt("enable_uat") == ""
    && forall key :: key != "" && key[0] == 'f' ==> settings.opt(key) == ""
  }

  lemma NoSource(settings: Settings)
    requires OnlyDashN(settings)
    ensures Source(settings) == []
  {
    assert "rtlsdr"[0] == 'r' && "uat"[0] == 'u' && "rtlsdr"[1] == 't' && "remote"[1] == 'e';
  }

  lemma DashNAlone()
    ensures EchoOption("-n") && Parse("-n") == [["-n"]]
  {
    SplitPlain("-n", ';');
    SplitPlain("-n", ',');
    assert ["-n"][1..] == [] && SplitFields(["-n"]) == [["-n"]];
  }

  /** The exception arises: then -n never reaches readsb. */
  lemma SwallowedOption(settings: Settings, rows: seq<Aggregator>)
    requires OnlyDashN(settings) && forall row <- rows :: row.key != "" && row.key[0] == 'f'
    ensures Config(settings, rows) == None && Meant(settings, rows) == [["-n"]]
  {
    NothingFed(settings, rows);
    NoSource(settings);
    DashNAlone();
    assert Intended(settings, rows) == [];
    assert PrintAll([]) + ["-n"] == ["-n"];
  }

  lemma {:induction false} NothingFed(settings: Settings, rows: seq<Aggregator>)
    requires forall row <- rows :: !Feeds(settings, row)
    ensures AllPlans(Plans(settings, rows)) == []
  {
    if rows != [] {
      NothingFed(settings, rows[1..]);
      assert Plans(settings, rows)[0] == PlanFor(settings, rows[0]) && Plans(settings, rows)[1..] == Plans(settings, rows[1..]);
    }
  }

  // ---------------------------------------------------------------- how many

  function CountKind(cs: seq<Connector>, kind: string): nat {
    if cs == [] then 0 else (if cs[0] != [] && cs[0][0] == kind then 1 else 0) + CountKind(cs[1..], kind)
  }

  /** The plans that feed, and of those the ones with MLAT. */
  function Feeding(plans: seq<Plan>, mlat: bool): nat {
    if plans == [] then 0
    else (if plans[0].feeds && (mlat ==> plans[0].mlat) then 1 else 0) + Feeding(plans[1..], mlat)
  }

  lemma {:induction false} CountConcat(xs: seq<Connector>, ys: seq<Connector>, kind: string)
    ensures CountKind(xs + ys, kind) == CountKind(xs, kind) + CountKind(ys, kind)
  {
    if xs == [] {
      assert xs + ys == ys;
    } else {
      assert (xs + ys)[1..] == xs[1..] + ys && (xs + ys)[0] == xs[0];
      CountConcat(xs[1..], ys, kind);
    }
  }

  lemma CountOne(c: Connector, kind: string)
    requires c != []
    ensures CountKind([c], kind) == if c[0] == kind then 1 else 0
  {
    var one: seq<Connector> := [c];
    assert one[1..] == [];
  }

  lemma PlanCount(p: Plan, kind: string)
    requires kind == "adsb" || kind == "mlat"
    ensures CountKind(PlanConnectors(p), kind) == if p.feeds && (kind == "mlat" ==> p.mlat) then 1 else 0
  {
    assert "adsb"[0] != "mlat"[0];
    var a, m := Adsb(p), Mlat(p);
    assert a[0] == "adsb" && m[0] == "mlat";
    CountOne(a, kind);
    CountOne(m, kind);
    CountConcat([a], [m], kind);
    assert [a, m] == [a] + [m];
  }

  /** One adsb connector per aggregator that feeds, one mlat connector per
      aggregator that feeds with MLAT on, and no others. */
  lemma {:induction false} ConnectorCount(plans: seq<Plan>)
    ensures CountKind(AllPlans(plans), "adsb") == Feeding(plans, false)
    ensures CountKind(AllPlans(plans), "mlat") == Feeding(plans, true)
    ensures |AllPlans(plans)| == Feeding(plans, false) + Feeding(plans, true)
  {
    if plans != [] {
      var here, later := PlanConnectors(plans[0]), AllPlans(plans[1..]);
      assert "adsb"[0] != "mlat"[0];
      PlanCount(plans[0], "adsb");
      PlanCount(plans[0], "mlat");
      CountConcat(here, later, "adsb");
      CountConcat(here, later, "mlat");
      ConnectorCount(plans[1..]);
    }
  }

  // ---------------------------------------------------------------- what is in them

  lemma SuffixBack(short: string, suffix: string)
    ensures WithoutSuffix(short + suffix, suffix) == short
  {
    assert (short + suffix)[|short|..] == suffix && (short + suffix)[..|short|] == short;
  }

  /** The connector that feeds a row's aggregator: its ingest host and port, the
      protocol, and the station id if there is one. */
  ghost predicate FeedsRow(c: Connector, row: Aggregator, id: string) {
    && |c| == (if id == "" then 4 else 5)
    && c[0] == "adsb" && c[1] == row.host && c[2] == row.port && c[3] == "beast_reduce_plus_out"
    && (id != "" ==> c[4] == "uuid=" + id)
  }

  /** The one that takes part in its MLAT: the MLAT host and port, then the id,
      then the station's name there, each if there is one. */
  ghost predicate SyncsRow(c: Connector, row: Aggregator, id: string, name: string) {
    && |c| == 3 + (if id == "" then 0 else 1) + (if name == "" then 0 else 1)
    && c[0] == "mlat" && c[1] == row.mlatHost && c[2] == row.mlatPort
    && (id != "" ==> c[3] == "uuid=" + id)
    && (name != "" ==> c[|c| - 1] == "name=" + name)
  }

  /** The connectors in cs are those of a row whose options start with `short`: none
      if it is off, one without MLAT, two with. */
  ghost predicate RowIn(cs: seq<Connector>, settings: Settings, row: Aggregator, short: string) {
    var own, station := settings.opt(row.uuidKey), settings.opt("uuid");
    var id, name := UfSafe(if own != "" then own else station), UfSafe(settings.opt(short + "_name"));
    var sync := row.mlatHost != "" && settings.toggle(short + "_mlat") != "false";
    if settings.opt(row.key) != "true" then cs == []
    else
      && |cs| == (if sync then 2 else 1)
      && FeedsRow(cs[0], row, id)
      && (sync ==> SyncsRow(cs[1], row, id, name))
  }

  lemma RowConnectors(settings: Settings, row: Aggregator, short: string)
    requires row.uuidKey == short + "_uuid"
    ensures RowIn(PlanConnectors(PlanFor(settings, row)), settings, row, short)
  {
    SuffixBack(short, "_uuid");
    var p := PlanFor(settings, row);
    AdsbFields(p, row);
    MlatFields(p, row);
  }

  lemma AdsbFields(p: Plan, row: Aggregator)
    requires p.host == row.host && p.port == row.port
    ensures FeedsRow(Adsb(p), row, p.uuid)
  {
  }

  lemma MlatFields(p: Plan, row: Aggregator)
    requires p.mlatHost == row.mlatHost && p.mlatPort == row.mlatPort
    ensures SyncsRow(Mlat(p), row, p.uuid, p.name)
  {
  }

  /** Where a row's connectors stand: after the source and the rows before it. */
  function PlaceOf(settings: Settings, rows: seq<Aggregator>, i: nat): nat
    requires i <= |rows|
  {
    |Source(settings)| + |AllPlans(Plans(settings, rows[..i]))|
  }

  lemma {:induction false} PlansSplit(settings: Settings, rows: seq<Aggregator>, i: nat)
    requires i <= |rows|
    ensures AllPlans(Plans(settings, rows)) == AllPlans(Plans(settings, rows[..i])) + AllPlans(Plans(settings, rows[i..]))
    decreases i
  {
    if i == 0 {
      assert rows[..0] == [] && rows[0..] == rows;
    } else {
      PlansSplit(settings, rows[1..], i - 1);
      assert rows[..i][0] == rows[0] && rows[..i][1..] == rows[1..][..i - 1] && rows[1..][i - 1..] == rows[i..];
      PlansCons(settings, rows);
      PlansCons(settings, rows[..i]);
      ConcatAssoc(PlanConnectors(PlanFor(settings, rows[0])), AllPlans(Plans(settings, rows[1..][..i - 1])),
                  AllPlans(Plans(settings, rows[i..])));
    }
  }

  lemma PlansCons(settings: Settings, rows: seq<Aggregator>)
    requires rows != []
    ensures AllPlans(Plans(settings, rows)) == PlanConnectors(PlanFor(settings, rows[0])) + AllPlans(Plans(settings, rows[1..]))
  {
    var plans := Plans(settings, rows);
    assert plans[0] == PlanFor(settings, rows[0]) && plans[1..] == Plans(settings, rows[1..]);
  }

  lemma IntendedSplit(settings: Settings, rows: seq<Aggregator>, i: nat)
    requires i < |rows|
    ensures Intended(settings, rows)
         == Source(settings) + (AllPlans(Plans(settings, rows[..i]))
                                + (PlanConnectors(PlanFor(settings, rows[i])) + AllPlans(Plans(settings, rows[i..][1..]))))
  {
    PlansSplit(settings, rows, i);
    PlansCons(settings, rows[i..]);
    assert rows[i..][0] == rows[i];
  }

  lemma NextPlace(settings: Settings, rows: seq<Aggregator>, i: nat)
    requires i < |rows|
    ensures PlaceOf(settings, rows, i + 1) == PlaceOf(settings, rows, i) + |PlanConnectors(PlanFor(settings, rows[i]))|
  {
    assert rows[..i + 1] == rows[..i] + [rows[i]];
    AllPlansSnoc(settings, rows[..i], rows[i]);
  }

  lemma RowPlace(settings: Settings, rows: seq<Aggregator>, i: nat, lo: nat, hi: nat)
    requires i < |rows| && lo == PlaceOf(settings, rows, i) && hi == PlaceOf(settings, rows, i + 1)
    ensures lo <= hi <= |Intended(settings, rows)|
    ensures Intended(settings, rows)[lo..hi] == PlanConnectors(PlanFor(settings, rows[i]))
  {
    IntendedSplit(settings, rows, i);
    NextPlace(settings, rows, i);
    Middle(Intended(settings, rows), Source(settings), AllPlans(Plans(settings, rows[..i])), PlanConnectors(PlanFor(settings, rows[i])),
           AllPlans(Plans(settings, rows[i..][1..])), lo, hi);
  }

  lemma Middle<T>(whole: seq<T>, a: seq<T>, b: seq<T>, c: seq<T>, d: seq<T>, lo: nat, hi: nat)
    requires whole == a + (b + (c + d)) && lo == |a| + |b| && hi == lo + |c|
    ensures lo <= hi <= |whole| && whole[lo..hi] == c
  {
  }

  /** What reaches readsb for each row of the table, in table order: exactly the
      connectors its options ask for, with the row's own hosts and ports. */
  lemma ConnectorsOfRow(settings: Settings, rows: seq<Aggregator>, i: nat, short: string, lo: nat, hi: nat)
    requires RowsClean(rows) && i < |rows| && rows[i].uuidKey == short + "_uuid" && Intended(settings, rows) != []
    requires lo == PlaceOf(settings, rows, i) && hi == PlaceOf(settings, rows, i + 1)
    ensures lo <= hi <= |Got(Config(settings, rows))|
    ensures RowIn(Got(Config(settings, rows))[lo..hi], settings, rows[i], short)
  {
    ConnectorRoundTrip(settings, rows);
    RowPlace(settings, rows, i, lo, hi);
    RowConnectors(settings, rows[i], short);
    SliceOfPrefix(Intended(settings, rows), Got(Config(settings, rows)), lo, hi);
  }

  lemma SliceOfPrefix<T>(a: seq<T>, b: seq<T>, lo: nat, hi: nat)
    requires a <= b && lo <= hi <= |a|
    ensures b[lo..hi] == a[lo..hi]
  {
  }

  /** c starts with these fields. */
  ghost predicate Starts(c: Connector, fields: seq<string>) {
    fields <= c
  }

  lemma RowStarts(cs: seq<Connector>, settings: Settings, row: Aggregator, short: string)
    requires RowIn(cs, settings, row, short) && settings.opt(row.key) == "true"
    ensures cs != [] && Starts(cs[0], ["adsb", row.host, row.port, "beast_reduce_plus_out"])
    ensures row.mlatHost != "" && settings.toggle(short + "_mlat") != "false" ==>
      |cs| == 2 && Starts(cs[1], ["mlat", row.mlatHost, row.mlatPort])
  {
  }

  lemma RowOnIsThere(settings: Settings, rows: seq<Aggregator>, i: nat, short: string, lo: nat, hi: nat)
    requires i < |rows| && rows[i].uuidKey == short + "_uuid" && settings.opt(rows[i].key) == "true"
    requires lo == PlaceOf(settings, rows, i) && hi == PlaceOf(settings, rows, i + 1)
    ensures Intended(settings, rows) != []
  {
    RowPlace(settings, rows, i, lo, hi);
    RowConnectors(settings, rows[i], short);
  }

  /** So a row that is on has its feed in the list, and with MLAT on its sync. */
  lemma ConnectorOfRow(settings: Settings, rows: seq<Aggregator>, i: nat, short: string)
    requires RowsClean(rows) && i < |rows| && rows[i].uuidKey == short + "_uuid" && settings.opt(rows[i].key) == "true"
    ensures exists c <- Got(Config(settings, rows)) :: Starts(c, ["adsb", rows[i].host, rows[i].port, "beast_reduce_plus_out"])
    ensures rows[i].mlatHost != "" && settings.toggle(short + "_mlat") != "false" ==>
      exists c <- Got(Config(settings, rows)) :: Starts(c, ["mlat", rows[i].mlatHost, rows[i].mlatPort])
  {
    var lo, hi := PlaceOf(settings, rows, i), PlaceOf(settings, rows, i + 1);
    RowOnIsThere(settings, rows, i, short, lo, hi);
    ConnectorsOfRow(settings, rows, i, short, lo, hi);
    RowFound(Got(Config(settings, rows)), lo, hi, settings, rows[i], short);
  }

  lemma RowFound(got: seq<Connector>, lo: nat, hi: nat, settings: Settings, row: Aggregator, short: string)
    requires lo <= hi <= |got| && RowIn(got[lo..hi], settings, row, short) && settings.opt(row.key) == "true"
    ensures exists c <- got :: Starts(c, ["adsb", row.host, row.port, "beast_reduce_plus_out"])
    ensures row.mlatHost != "" && settings.toggle(short + "_mlat") != "false" ==>
      exists c <- got :: Starts(c, ["mlat", row.mlatHost, row.mlatPort])
  {
    var cs := got[lo..hi];
    RowStarts(cs, settings, row, short);
    assert cs[0] == got[lo] && got[lo] in got;
    if |cs| == 2 {
      assert cs[1] == got[lo + 1] && got[lo + 1] in got;
    }
  }

  /** The source's connector: another receiver's host as given, if it is a host,
      and its port; the local UAT decoder; or none. */
  lemma SourceFields(settings: Settings)
    ensures var mode, host := settings.opt("receiver_mode"), settings.opt("remote_beast_host");
            if mode == "remote" then
              Source(settings) == if host != "" && forall i :: 0 <= i < |host| ==> HostChar(host[i])
                                  then [["adsb", host, RemotePort(settings), "beast_in"]] else []
            else if mode == "uat" || ((mode == "" || mode == "rtlsdr") && settings.opt("enable_uat") == "true") then
              Source(settings) == [["adsb", "localhost", "30978", "uat_in"]]
            else Source(settings) == []
  {
    var host := settings.opt("remote_beast_host");
    if forall i :: 0 <= i < |host| ==> HostChar(host[i]) {
      assert UfSafe(host) == host;
    }
    assert "rtlsdr"[0] == 'r' && "uat"[0] == 'u' && "remote"[1] == 'e' && "rtlsdr"[1] == 't';
  }

  lemma {:induction false} WithoutConcat(s: string, t: string, bad: set<char>)
    ensures Without(s + t, bad) == Without(s, bad) + Without(t, bad)
  {
    if s == "" {
      assert s + t == t;
    } else {
      assert (s + t)[0] == s[0] && (s + t)[1..] == s[1..] + t;
      WithoutConcat(s[1..], t, bad);
    }
  }

  lemma {:induction false} ChompForNothing(s: string, bad: set<char>)
    requires '\n' in bad
    ensures Without(Chomp(s), bad) == Without(s, bad)
    decreases |s|
  {
    if s != "" && s[|s| - 1] == '\n' {
      var one := [s[|s| - 1]];
      ChompForNothing(s[..|s| - 1], bad);
      WithoutConcat(s[..|s| - 1], one, bad);
      assert s == s[..|s| - 1] + one && one[1..] == "";
      assert Without(s[..|s| - 1], bad) + "" == Without(s[..|s| - 1], bad);
    }
  }

  /** Taking characters out leaves every other one where it was. */
  lemma WithoutExactly(s: string, c: char, t: string, bad: set<char>)
    ensures Without(s + [c] + t, bad) == Without(s, bad) + (if c in bad then "" else [c]) + Without(t, bad)
    ensures Without("", bad) == ""
  {
    var one := [c];
    WithoutConcat(s + one, t, bad);
    WithoutConcat(s, one, bad);
    assert one[1..] == "" && Without(one, bad) == if c in bad then "" else one;
  }

  /** A text option loses quotes, backslashes and line ends, wherever they stand,
      and nothing else. */
  lemma TextOption(options: Options, key: string, s: string)
    requires key in options && options[key] == Text(s)
    ensures Opt(options, key) == Without(s, {'"', '\\', '\n', '\r'})
  {
    ChompForNothing(s, {'"', '\\', '\n', '\r'});
  }

  /** A toggle: its own word, or the default if it is absent or null. */
  lemma Toggles(options: Options, key: string, default: string)
    ensures key !in options || options[key] == Null ==> OptBool(options, key, default) == default
    ensures forall b :: key in options && options[key] == Bool(b) ==> OptBool(options, key, default) == if b then "true" else "false"
  {
    assert "true"[0] == 't' && "false"[0] == 'f' && "null"[0] == 'n';
  }
}
