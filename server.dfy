/** Speaker lifecycle and route advertisement of the facade (pkg/gobgp/server.go): the start
    request, the global-configuration readback, the fixed advertised path, and the listing
    of advertised prefixes. As in the peer module, each operation takes the engine the Go
    receiver wraps as its first parameter. */
module GobgpServer {
  import opened GoTypes
  import opened Bgp
  import opened GobgpApi
  import opened Engine

  // ----- Translation (pure) -----

  /** The Global section of the start request: every field copied without conversion. */
  function StartGlobal(config: BGPConfig): (g: Global)
    ensures g.asn == config.asn && g.routerId == config.ipAddress && g.listenPort == config.listenPort
  {
    Global(config.asn, config.ipAddress, config.listenPort)
  }

  /** The readback half of GetBGPConfig: the zero configuration and an error when the
      engine has no Global section, otherwise the configuration whose start request would
      carry exactly that section. */
  function ConfigOf(global: Option<Global>): (r: (BGPConfig, Option<Error>))
    ensures global.None? ==> r == (ZeroBGPConfig, Some(NilGlobalConfig))
    ensures global.Some? ==> r.1 == None && StartGlobal(r.0) == global.value
  {
    if global.None? then (ZeroBGPConfig, Some(NilGlobalConfig))
    else (BGPConfig(global.value.asn, global.value.listenPort, global.value.routerId), None)
  }

  /** The IPv4 unicast family, the only one the facade uses. */
  const IPv4Unicast: Family := Family(AfiIp, SafiUnicast)

  /** The path AdvertiseRoutes submits on every call: 10.0.0.0/24 with origin 0 and
      next hop 10.0.0.1, into the adjacency-out table. */
  function AdvertiseRequest(): (r: AddPathRequest)
    ensures r.tableType == TableAdjOut && r.path.family == Some(IPv4Unicast)
    ensures r.path.nlri == IPAddressPrefix("10.0.0.0", 24) && PrefixText(r.path.nlri) == "10.0.0.0/24"
    ensures r.path.pattrs == [OriginAttribute(0), NextHopAttribute("10.0.0.1")]
  {
    var nlri := IPAddressPrefix("10.0.0.0", 24);
    assert NatText(24) == "24" by {
      assert NatText(2) == "2";
    }
    AddPathRequest(TableAdjOut, Path(nlri, Some(IPv4Unicast), [OriginAttribute(0), NextHopAttribute("10.0.0.1")]))
  }

  /** The listing ListAdvertisedRoutes asks for: IPv4 unicast adjacency-out paths for the
      fixed neighbour name 192.168.1.3. */
  function ListAdvertisedRequest(): (r: ListPathRequest)
    ensures r.tableType == TableAdjOut && r.family == Some(IPv4Unicast) && r.name == "192.168.1.3"
  {
    ListPathRequest(TableAdjOut, Some(IPv4Unicast), "192.168.1.3")
  }

  // ----- Properties of the translation -----

  /** Starting with a configuration and reading it back yields that configuration. */
  lemma StartThenReadBack(config: BGPConfig)
    ensures ConfigOf(Some(StartGlobal(config))) == (config, None)
  {
  }

  /** Every Global section the engine holds is the start request of what is read back. */
  lemma ReadBackThenStart(global: Global)
    ensures StartGlobal(ConfigOf(Some(global)).0) == global
  {
  }

  // ----- Callback closure -----

  /** The closure of ListAdvertisedRoutes: each destination's prefix appended in
      delivery order. */
  method CollectPrefixes(stream: seq<Destination>) returns (routes: seq<string>)
    ensures |routes| == |stream|
    ensures forall i :: 0 <= i < |stream| ==> routes[i] == stream[i].prefix
  {
    routes := [];
    var i := 0;
    while i < |stream|
      invariant 0 <= i <= |stream|
      invariant |routes| == i
      invariant forall k :: 0 <= k < i ==> routes[k] == stream[k].prefix
    {
      routes := routes + [stream[i].prefix];
      i := i + 1;
    }
  }

  // ----- Operations against the engine -----

  /** `NewGobgpServer`: a fresh engine sent one start request carrying the configuration;
      no server is returned when that request fails. */
  method NewGobgpServer(config: BGPConfig) returns (s: BgpServer?, err: Option<Error>)
    ensures err.None? <==> s != null
    ensures err.Some? ==> err == Some(StartFailed)
    ensures s != null ==>
      fresh(s) && s.Valid() && s.peers == [] && s.adjOut == [] &&
      s.global == Some(StoredGlobal(StartGlobal(config))) &&
      s.calls == [Call(StartBgpOp(StartGlobal(config)), Done)]
  {
    var server := new BgpServer();
    var startReq := Global(config.asn, config.ipAddress, config.listenPort);
    var failed := server.StartBgp(startReq);
    if failed {
      return null, Some(StartFailed);
    }
    return server, None;
  }

  /** `GetBGPConfig`: the zero configuration and an error when GetBgp fails or returns no
      Global section; otherwise the engine's Global section field by field. */
  method GetBGPConfig(s: BgpServer) returns (config: BGPConfig, err: Option<Error>)
    modifies s`calls
    ensures var n := |old(s.calls)|;
      |s.calls| == n + 1 && s.calls[..n] == old(s.calls) && s.calls[n].op == GetBgpOp &&
      (s.calls[n].reply == Failed ==> config == ZeroBGPConfig && err == Some(GetConfigFailed)) &&
      (s.calls[n].reply != Failed ==> (config, err) == ConfigOf(s.global))
  {
    var global, failed := s.GetBgp();
    if failed {
      return ZeroBGPConfig, Some(GetConfigFailed);
    }
    if global.None? {
      return ZeroBGPConfig, Some(NilGlobalConfig);
    }
    config := BGPConfig(global.value.asn, global.value.listenPort, global.value.routerId);
    err := None;
  }

  /** `AdvertiseRoutes`: ignores `routes` and submits AdvertiseRequest(); fails exactly when
      the engine does. */
  method AdvertiseRoutes(s: BgpServer, routes: seq<string>) returns (err: Option<Error>)
    modifies s`adjOut, s`calls
    ensures var n := |old(s.calls)|;
      |s.calls| == n + 1 && s.calls[..n] == old(s.calls) && s.calls[n].op == AddPathOp(AdvertiseRequest()) &&
      (err.Some? <==> s.calls[n].reply == Failed) && (err.Some? ==> err == Some(AddPathFailed))
    ensures s.adjOut == if err.Some? then old(s.adjOut) else old(s.adjOut) + [AdvertiseRequest().path]
  {
    var nlri := IPAddressPrefix("10.0.0.0", 24);
    var a1 := OriginAttribute(0);
    var a2 := NextHopAttribute("10.0.0.1");
    var attrs := [a1, a2];
    var r := AddPathRequest(TableAdjOut, Path(nlri, Some(Family(AfiIp, SafiUnicast)), attrs));
    var _, failed := s.AddPath(r);
    if failed {
      return Some(AddPathFailed);
    }
    return None;
  }

  /** `WithdrawRoutes`: succeeds without any engine call, so nothing is withdrawn. */
  method WithdrawRoutes(s: BgpServer, routes: seq<string>) returns (err: Option<Error>)
    ensures err == None
  {
    return None;
  }

  /** `ListAdvertisedRoutes`: the prefixes of the listed destinations in delivery order, or
      an empty list and an error when listing fails. */
  method ListAdvertisedRoutes(s: BgpServer) returns (routes: seq<string>, err: Option<Error>)
    modifies s`calls
    ensures var n := |old(s.calls)|; var listed := ListedDestinations(s.adjOut, ListAdvertisedRequest());
      |s.calls| == n + 1 && s.calls[..n] == old(s.calls) && s.calls[n].op == ListPathOp(ListAdvertisedRequest()) &&
      (!Known(s.peers, ListAdvertisedRequest().name) ==> s.calls[n].reply == Failed) &&
      (s.calls[n].reply == Failed ==> routes == [] && err == Some(ListPathsFailed)) &&
      (s.calls[n].reply != Failed ==>
         err == None && |routes| == |listed| &&
         forall i :: 0 <= i < |listed| ==> routes[i] == listed[i].prefix)
  {
    var r := ListPathRequest(TableAdjOut, Some(Family(AfiIp, SafiUnicast)), "192.168.1.3");
    var stream, failed := s.ListPath(r);
    routes := CollectPrefixes(stream);
    if failed {
      return [], Some(ListPathsFailed);
    }
    err := None;
  }

  // ----- Scenarios -----

  /** Starting a speaker and reading its configuration back yields the configuration it
      was started with, with listen port 0 read back as the engine's default port, unless
      an engine call fails. */
  method StartThenGetConfig(config: BGPConfig) returns (got: BGPConfig, startErr: Option<Error>, getErr: Option<Error>)
    ensures startErr.None? && getErr.None? ==>
      got == config.(listenPort := if config.listenPort == 0 then DefaultBgpPort else config.listenPort)
  {
    var s;
    s, startErr := NewGobgpServer(config);
    if s == null {
      return ZeroBGPConfig, startErr, None;
    }
    got, getErr := GetBGPConfig(s);
    StartThenReadBack(config.(listenPort := StoredGlobal(StartGlobal(config)).listenPort));
  }

  /** After a successful advertisement, a successful listing includes 10.0.0.0/24. */
  method AdvertiseThenList(s: BgpServer) returns (routes: seq<string>, advertiseErr: Option<Error>, listErr: Option<Error>)
    modifies s`adjOut, s`calls
    ensures advertiseErr.None? && listErr.None? ==> "10.0.0.0/24" in routes
  {
    advertiseErr := AdvertiseRoutes(s, ["10.0.0.0/24"]);
    ghost var before := old(s.adjOut);
    routes, listErr := ListAdvertisedRoutes(s);
    if advertiseErr.None? && listErr.None? {
      ListedDestinationsAfterAppend(before, AdvertiseRequest().path, ListAdvertisedRequest());
      var listed := ListedDestinations(s.adjOut, ListAdvertisedRequest());
      assert routes[|listed| - 1] == "10.0.0.0/24";
    }
  }
}
