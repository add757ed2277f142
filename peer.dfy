/** Peer management of the facade (pkg/gobgp/peer.go): translation between the repository's
    peer model and the engine's peer record, lookup by address, and the add / update /
    remove / reset / list / get operations against the engine.

    The Go receiver `g *GobgpServer` is used only as `g.Server`, so every operation here
    takes that engine, `s`, as its first parameter. An engine callback is modelled by the
    sequence of values the engine passes to it, and the closure's effect by a method that
    consumes that sequence in order. */
module GobgpPeer {
  import opened GoTypes
  import opened Bgp
  import opened GobgpApi
  import opened Engine

  // ----- Translation (pure) -----

  /** The record AddBGPPeer submits: graceful restart switched on with no restart time,
      the type left at its zero value, whatever the input says. */
  function AddRequestPeer(peer: BGPPeerConfig): (p: Peer)
    ensures HasSections(p) && p.state.None?
    ensures p.conf.value.peerAsn == peer.asn
    ensures p.conf.value.neighborAddress == peer.ipAddress && AddressOf(p) == peer.ipAddress
    ensures p.conf.value.authPassword == peer.authPassword
    ensures p.conf.value.peerType == Internal
    ensures ToInt32(p.transport.value.remotePort) == peer.listenPort
    ensures p.gracefulRestart.value.enabled && p.gracefulRestart.value.restartTime == 0
  {
    Peer(
      Some(PeerConf(peer.asn, peer.ipAddress, peer.authPassword, Internal)),
      Some(Transport(ToUint32(peer.listenPort))),
      Some(GracefulRestart(true, 0)),
      None)
  }

  /** `toGobgpSoftResetDirection`: total over every integer, with BOTH as the default. */
  function ToGobgpSoftResetDirection(direction: ResetDirection): (r: SoftResetDirection)
    ensures r == IN <==> direction == ResetDirectionIn
    ensures r == OUT <==> direction == ResetDirectionOut
    ensures r == BOTH <==> direction != ResetDirectionIn && direction != ResetDirectionOut
  {
    if direction == ResetDirectionIn then IN
    else if direction == ResetDirectionOut then OUT
    else BOTH
  }

  /** The engine reset request ResetBGPPeer submits. */
  function ResetRequestOf(reset: Bgp.ResetPeerRequest): (r: GobgpApi.ResetPeerRequest)
    ensures r.address == reset.ipAddress && r.communication == reset.communication
    ensures r.soft == reset.softReset
    ensures r.direction == ToGobgpSoftResetDirection(reset.direction)
  {
    GobgpApi.ResetPeerRequest(reset.ipAddress, reset.communication, reset.softReset,
                              ToGobgpSoftResetDirection(reset.direction))
  }

  /** `toBGPPeerState` reads Transport whenever Conf is present, without a nil check. */
  predicate Translatable(p: Peer) {
    p.conf.Some? ==> p.transport.Some?
  }

  /** `toBGPPeerState`: configuration only from a present Conf, a restart time only from an
      enabled graceful-restart section, a session state only from a present State, and
      never an uptime. */
  function ToBGPPeerState(p: Peer): (s: BGPPeerState)
    requires Translatable(p)
    ensures s.uptime == 0
    ensures p.conf.None? ==> s.config == ZeroPeerConfig.(gracefulRestartTime := s.config.gracefulRestartTime)
    ensures p.conf.Some? ==>
      s.config.asn == p.conf.value.peerAsn && s.config.ipAddress == p.conf.value.neighborAddress &&
      s.config.authPassword == p.conf.value.authPassword &&
      s.config.peerType == PeerTypeName(p.conf.value.peerType) &&
      ToUint32(s.config.listenPort) == p.transport.value.remotePort
    ensures s.config.gracefulRestartTime ==
      (if p.gracefulRestart.Some? && p.gracefulRestart.value.enabled then p.gracefulRestart.value.restartTime else 0)
    ensures s.sessionState == "" <==> p.state.None?
    ensures p.state.Some? ==> s.sessionState == SessionStateName(p.state.value.sessionState)
  {
    var base :=
      if p.conf.Some? then
        BGPPeerConfig(p.conf.value.peerAsn, ToInt32(p.transport.value.remotePort),
                      p.conf.value.neighborAddress, p.conf.value.authPassword, 0,
                      PeerTypeName(p.conf.value.peerType))
      else ZeroPeerConfig;
    var config :=
      if p.gracefulRestart.Some? && p.gracefulRestart.value.enabled
      then base.(gracefulRestartTime := p.gracefulRestart.value.restartTime)
      else base;
    BGPPeerState(config, 0, if p.state.Some? then SessionStateName(p.state.value.sessionState) else "")
  }

  /** The record UpdateBGPPeer submits: the fetched record's three configuration sections
      with exactly the AS number, remote port, password and restart time overwritten.
      Only those three sections are carried over, so State is left empty. */
  function Overlaid(existing: Peer, peer: BGPPeerConfig): (p: Peer)
    requires HasSections(existing)
    ensures HasSections(p) && p.state.None?
    ensures AddressOf(p) == AddressOf(existing)
    ensures p.conf.value.peerType == existing.conf.value.peerType
    ensures p.gracefulRestart.value.enabled == existing.gracefulRestart.value.enabled
    ensures p.conf.value.peerAsn == peer.asn && p.conf.value.authPassword == peer.authPassword
    ensures ToInt32(p.transport.value.remotePort) == peer.listenPort
    ensures p.gracefulRestart.value.restartTime == peer.gracefulRestartTime
  {
    Peer(
      Some(existing.conf.value.(peerAsn := peer.asn, authPassword := peer.authPassword)),
      Some(existing.transport.value.(remotePort := ToUint32(peer.listenPort))),
      Some(existing.gracefulRestart.value.(restartTime := peer.gracefulRestartTime)),
      None)
  }

  /** The reset UpdateBGPPeer issues after a successful update: soft exactly when the engine
      asks for an inbound soft reset. The direction is IN either way: the non-soft request
      leaves it at the enum's zero value, which is IN. */
  function ResetAfterUpdate(address: string, needsSoftResetIn: bool): (r: GobgpApi.ResetPeerRequest)
    ensures r.address == address && r.communication == ""
    ensures r.soft <==> needsSoftResetIn
    ensures r.direction == IN && r.direction == ZeroSoftResetDirection
  {
    GobgpApi.ResetPeerRequest(address, "", needsSoftResetIn, IN)
  }

  /** The states ListBGPPeers accumulates from a callback stream: the images of the non-nil
      peers, in delivery order. */
  function PeerStates(stream: seq<Option<Peer>>): (states: seq<BGPPeerState>)
    requires forall i :: 0 <= i < |stream| && stream[i].Some? ==> Translatable(stream[i].value)
    ensures |states| <= |stream|
  {
    if stream == [] then []
    else
      var last := stream[|stream| - 1];
      PeerStates(stream[..|stream| - 1]) + (if last.Some? then [ToBGPPeerState(last.value)] else [])
  }

  // ----- Properties of the translation -----

  /** A peer added and read back yields the added configuration, except that the restart
      time reads 0 (Add never sends one) and the type reads as the zero PeerType. */
  lemma AddReadBack(peer: BGPPeerConfig)
    ensures ToBGPPeerState(AddRequestPeer(peer)).config ==
      peer.(gracefulRestartTime := 0, peerType := PeerTypeName(Internal))
  {
    PortRoundTrip(peer.listenPort, 0);
  }

  /** An updated record reads back as the update's input, except that the address and type
      stay those of the existing peer and the restart time is visible only when graceful
      restart was already enabled. */
  lemma OverlayReadBack(existing: Peer, peer: BGPPeerConfig)
    requires HasSections(existing)
    ensures ToBGPPeerState(Overlaid(existing, peer)) ==
      BGPPeerState(
        peer.(ipAddress := existing.conf.value.neighborAddress,
              peerType := PeerTypeName(existing.conf.value.peerType),
              gracefulRestartTime := if existing.gracefulRestart.value.enabled then peer.gracefulRestartTime else 0),
        0, "")
  {
    PortRoundTrip(peer.listenPort, 0);
  }

  /** Applying the same update twice submits the same record as applying it once. */
  lemma OverlayIdempotent(existing: Peer, peer: BGPPeerConfig)
    requires HasSections(existing)
    ensures Overlaid(Overlaid(existing, peer), peer) == Overlaid(existing, peer)
  {
  }

  /** Reading a peer, changing only its password and writing it back changes nothing else in
      its configuration sections, provided graceful restart is enabled. */
  lemma ReadModifyWritePreserves(existing: Peer, password: string)
    requires HasSections(existing) && existing.gracefulRestart.value.enabled
    ensures Overlaid(existing, ToBGPPeerState(existing).config.(authPassword := password)) ==
      existing.(conf := Some(existing.conf.value.(authPassword := password)), state := None)
  {
    PortRoundTrip(0, existing.transport.value.remotePort);
  }

  /** With graceful restart disabled the same read-modify-write does not preserve the stored
      restart time: it reads back as 0 and is written back as 0. */
  lemma ReadModifyWriteClearsDisabledRestartTime(existing: Peer, password: string)
    requires HasSections(existing) && !existing.gracefulRestart.value.enabled
    ensures Overlaid(existing, ToBGPPeerState(existing).config.(authPassword := password))
      .gracefulRestart.value.restartTime == 0
  {
  }

  /** Accumulation preserves delivery order across any split of the stream. */
  lemma {:induction false} PeerStatesAppend(a: seq<Option<Peer>>, b: seq<Option<Peer>>)
    requires forall i :: 0 <= i < |a| && a[i].Some? ==> Translatable(a[i].value)
    requires forall i :: 0 <= i < |b| && b[i].Some? ==> Translatable(b[i].value)
    ensures forall i :: 0 <= i < |a + b| && (a + b)[i].Some? ==> Translatable((a + b)[i].value)
    ensures PeerStates(a + b) == PeerStates(a) + PeerStates(b)
  {
    if b == [] {
      assert a + b == a;
    } else {
      var b' := b[..|b| - 1];
      assert (a + b)[..|a + b| - 1] == a + b';
      PeerStatesAppend(a, b');
    }
  }

  /** A stream without nil entries yields one state per entry, in the same order. */
  lemma {:induction false} PeerStatesOfPeers(stream: seq<Option<Peer>>)
    requires forall i :: 0 <= i < |stream| ==> stream[i].Some? && Translatable(stream[i].value)
    ensures |PeerStates(stream)| == |stream|
    ensures forall i :: 0 <= i < |stream| ==> PeerStates(stream)[i] == ToBGPPeerState(stream[i].value)
  {
    if stream != [] {
      PeerStatesOfPeers(stream[..|stream| - 1]);
    }
  }

  // ----- Callback closures -----

  /** The closure of `getExistingGobgpPeer`: every invocation overwrites the captured
      pointer, so the last value delivered wins, a trailing nil included. */
  method LastDelivered(stream: seq<Option<Peer>>) returns (existing: Option<Peer>)
    ensures stream == [] ==> existing.None?
    ensures stream != [] ==> existing == stream[|stream| - 1]
  {
    existing := None;
    var i := 0;
    while i < |stream|
      invariant 0 <= i <= |stream|
      invariant existing == if i == 0 then None else stream[i - 1]
    {
      existing := stream[i];
      i := i + 1;
    }
  }

  /** The closure of ListBGPPeers: nil peers are skipped, the others translated and
      appended in delivery order. */
  method CollectPeerStates(stream: seq<Option<Peer>>) returns (peers: seq<BGPPeerState>)
    requires forall i :: 0 <= i < |stream| && stream[i].Some? ==> Translatable(stream[i].value)
    ensures peers == PeerStates(stream)
  {
    peers := [];
    var i := 0;
    while i < |stream|
      invariant 0 <= i <= |stream|
      invariant peers == PeerStates(stream[..i])
    {
      assert stream[..i + 1][..i] == stream[..i];
      if stream[i].Some? {
        peers := peers + [ToBGPPeerState(stream[i].value)];
      }
      i := i + 1;
    }
    assert stream[..i] == stream;
  }

  // ----- Operations against the engine -----

  /** `getExistingGobgpPeer`: one ListPeer filtered by address; fails when listing fails
      or when the last callback value is nil or there was none. */
  method GetExistingGobgpPeer(s: BgpServer, address: string) returns (existing: Option<Peer>, err: Option<Error>)
    requires s.Valid()
    modifies s`calls
    ensures var n := |old(s.calls)|;
      |s.calls| == n + 1 && s.calls[..n] == old(s.calls) && s.calls[n].op == ListPeerOp(address) &&
      (s.calls[n].reply == Failed ==> err == Some(LookupListFailed)) &&
      (s.calls[n].reply != Failed && Listed(s.peers, address) == [] ==> err == Some(PeerNotFound(address))) &&
      (s.calls[n].reply != Failed && Listed(s.peers, address) != [] ==>
        err == None && existing == Some(Listed(s.peers, address)[|Listed(s.peers, address)| - 1]))
    ensures err.None? ==> existing.Some? && existing.value in s.peers && HasSections(existing.value)
  {
    var stream, failed := s.ListPeer(address);
    existing := LastDelivered(stream);
    if failed {
      err := Some(LookupListFailed);
      return;
    }
    if existing.None? {
      err := Some(PeerNotFound(address));
      return;
    }
    err := None;
  }

  /** `AddBGPPeer`: submits AddRequestPeer(peer) and fails exactly when the engine does. */
  method AddBGPPeer(s: BgpServer, peer: BGPPeerConfig) returns (err: Option<Error>)
    requires s.Valid()
    modifies s`peers, s`calls
    ensures s.Valid()
    ensures var n := |old(s.calls)|;
      |s.calls| == n + 1 && s.calls[..n] == old(s.calls) &&
      s.calls[n].op == AddPeerOp(AddRequestPeer(peer)) &&
      (err.Some? <==> s.calls[n].reply == Failed) && (err.Some? ==> err == Some(AddPeerFailed))
    ensures err.Some? ==> s.peers == old(s.peers)
    ensures err.None? ==> s.peers == old(s.peers) + [AddRequestPeer(peer).(state := Some(PeerState(Idle)))]
    ensures Known(old(s.peers), peer.ipAddress) ==> err.Some?
  {
    var p := AddRequestPeer(peer);
    var failed := s.AddPeer(p);
    if failed {
      return Some(AddPeerFailed);
    }
    return None;
  }

  /** `UpdateBGPPeer`: look the peer up, overlay four fields on the fetched sections,
      submit the record, then reset the session: softly inbound when the engine asks for
      it, otherwise with a non-soft reset. A failed reset is reported after the update has
      taken effect. */
  method UpdateBGPPeer(s: BgpServer, peer: BGPPeerConfig) returns (err: Option<Error>)
    requires s.Valid()
    modifies s`peers, s`calls
    ensures s.Valid()
    ensures var n := |old(s.calls)|;
      |s.calls| > n && s.calls[..n] == old(s.calls) && s.calls[n].op == ListPeerOp(peer.ipAddress)
    // The lookup fails: nothing else is called and the table is unchanged.
    ensures var n := |old(s.calls)|; var found := Listed(old(s.peers), peer.ipAddress);
      (s.calls[n].reply == Failed || found == []) ==>
        |s.calls| == n + 1 && s.peers == old(s.peers) &&
        err == Some(if s.calls[n].reply == Failed then LookupListFailed else PeerNotFound(peer.ipAddress))
    // The lookup succeeds: the overlaid record is submitted, then a reset follows unless the
    // update failed.
    ensures var n := |old(s.calls)|; var found := Listed(old(s.peers), peer.ipAddress);
      (s.calls[n].reply != Failed && found != []) ==>
        var submitted := Overlaid(found[|found| - 1], peer);
        var address := AddressOf(submitted);
        var port := submitted.transport.value.remotePort;
        |s.calls| >= n + 2 && s.calls[n + 1].op == UpdatePeerOp(submitted) &&
        (s.calls[n + 1].reply == Failed ==>
          |s.calls| == n + 2 && s.peers == old(s.peers) &&
          err == Some(UpdatePeerFailed(address, port, peer.asn))) &&
        (s.calls[n + 1].reply != Failed ==>
          |s.calls| == n + 3 && s.peers == Replaced(old(s.peers), submitted) &&
          s.calls[n + 1].reply.Updated? &&
          s.calls[n + 2].op == ResetPeerOp(ResetAfterUpdate(address, s.calls[n + 1].reply.needsSoftResetIn)) &&
          (s.calls[n + 2].reply == Failed ==> err == Some(ResetAfterUpdateFailed(address, port, peer.asn))) &&
          (s.calls[n + 2].reply != Failed ==> err == None))
  {
    var existing, lookupErr := GetExistingGobgpPeer(s, peer.ipAddress);
    if lookupErr.Some? {
      return lookupErr;
    }
    var e := existing.value;
    // The new record shares the fetched Conf, Transport and GracefulRestart sections.
    var newPeer := Peer(e.conf, e.transport, e.gracefulRestart, None);
    newPeer := newPeer.(conf := Some(newPeer.conf.value.(peerAsn := peer.asn)));
    newPeer := newPeer.(transport := Some(newPeer.transport.value.(remotePort := ToUint32(peer.listenPort))));
    newPeer := newPeer.(conf := Some(newPeer.conf.value.(authPassword := peer.authPassword)));
    newPeer := newPeer.(gracefulRestart := Some(newPeer.gracefulRestart.value.(restartTime := peer.gracefulRestartTime)));
    assert newPeer == Overlaid(e, peer);

    var needsSoftResetIn, updateFailed := s.UpdatePeer(newPeer);
    var address := newPeer.conf.value.neighborAddress;
    var port := newPeer.transport.value.remotePort;
    if updateFailed {
      return Some(UpdatePeerFailed(address, port, newPeer.conf.value.peerAsn));
    }

    var resetReq := GobgpApi.ResetPeerRequest(address, "", false, ZeroSoftResetDirection);
    if needsSoftResetIn {
      resetReq := resetReq.(soft := true, direction := IN);
    }
    var resetFailed := s.ResetPeer(resetReq);
    if resetFailed {
      return Some(ResetAfterUpdateFailed(address, port, newPeer.conf.value.peerAsn));
    }
    return None;
  }

  /** `RemoveBGPPeer`: a delete by address, failing exactly when the engine does. */
  method RemoveBGPPeer(s: BgpServer, peer: BGPPeerConfig) returns (err: Option<Error>)
    requires s.Valid()
    modifies s`peers, s`calls
    ensures s.Valid()
    ensures var n := |old(s.calls)|;
      |s.calls| == n + 1 && s.calls[..n] == old(s.calls) &&
      s.calls[n].op == DeletePeerOp(peer.ipAddress) &&
      (err.Some? <==> s.calls[n].reply == Failed) &&
      (err.Some? ==> err == Some(RemovePeerFailed(peer.asn, peer.ipAddress)))
    ensures s.peers == if err.Some? then old(s.peers) else Removed(old(s.peers), peer.ipAddress)
    ensures !Known(old(s.peers), peer.ipAddress) ==> err.Some?
  {
    var failed := s.DeletePeer(peer.ipAddress);
    if failed {
      return Some(RemovePeerFailed(peer.asn, peer.ipAddress));
    }
    return None;
  }

  /** `ListBGPPeers`: every peer's state in the engine's delivery order, or an empty list
      and an error when listing fails, even after a partial delivery. */
  method ListBGPPeers(s: BgpServer) returns (peers: seq<BGPPeerState>, err: Option<Error>)
    requires s.Valid()
    modifies s`calls
    ensures s.Valid()
    ensures var n := |old(s.calls)|;
      |s.calls| == n + 1 && s.calls[..n] == old(s.calls) && s.calls[n].op == ListPeerOp("") &&
      (s.calls[n].reply == Failed ==> peers == [] && err == Some(ListPeersFailed)) &&
      (s.calls[n].reply != Failed ==> peers == PeerStates(Delivered(s.peers, "")) && err == None)
  {
    var stream, failed := s.ListPeer("");
    forall i | 0 <= i < |stream| && stream[i].Some?
      ensures Translatable(stream[i].value)
    {
      var all := Delivered(s.peers, "");
      assert stream[i] == all[i];
      assert Listed(s.peers, "")[i] in Listed(s.peers, "");
    }
    peers := CollectPeerStates(stream);
    if failed {
      return [], Some(ListPeersFailed);
    }
    err := None;
  }

  /** `ResetBGPPeer`: forwards address, communication and soft flag verbatim and the
      direction through ToGobgpSoftResetDirection; fails exactly when the engine does. */
  method ResetBGPPeer(s: BgpServer, reset: Bgp.ResetPeerRequest) returns (err: Option<Error>)
    modifies s`calls
    ensures var n := |old(s.calls)|;
      |s.calls| == n + 1 && s.calls[..n] == old(s.calls) &&
      s.calls[n].op == ResetPeerOp(ResetRequestOf(reset)) &&
      (err.Some? <==> s.calls[n].reply == Failed) && (err.Some? ==> err == Some(ResetPeerFailed))
  {
    var r := GobgpApi.ResetPeerRequest(reset.ipAddress, reset.communication, reset.softReset,
                                       ToGobgpSoftResetDirection(reset.direction));
    var failed := s.ResetPeer(r);
    if failed {
      return Some(ResetPeerFailed);
    }
    return None;
  }

  /** `GetBGPPeer`: rejects an empty address before any engine call; otherwise the state of
      the peer the lookup finds, or the lookup's error wrapped with the address. */
  method GetBGPPeer(s: BgpServer, peer: BGPPeerConfig) returns (state: BGPPeerState, err: Option<Error>)
    requires s.Valid()
    modifies s`calls
    ensures s.Valid()
    ensures err.Some? ==> state == ZeroPeerState
    ensures peer.ipAddress == "" ==> err == Some(EmptyAddress) && s.calls == old(s.calls)
    ensures peer.ipAddress != "" ==>
      var n := |old(s.calls)|; var found := Listed(s.peers, peer.ipAddress);
      |s.calls| == n + 1 && s.calls[..n] == old(s.calls) && s.calls[n].op == ListPeerOp(peer.ipAddress) &&
      (s.calls[n].reply == Failed ==> err == Some(GetPeerFailed(peer.ipAddress, LookupListFailed))) &&
      (s.calls[n].reply != Failed && found == [] ==>
        err == Some(GetPeerFailed(peer.ipAddress, PeerNotFound(peer.ipAddress)))) &&
      (s.calls[n].reply != Failed && found != [] ==>
        err == None && state == ToBGPPeerState(found[|found| - 1]))
  {
    if peer.ipAddress == "" {
      return ZeroPeerState, Some(EmptyAddress);
    }
    var existing, lookupErr := GetExistingGobgpPeer(s, peer.ipAddress);
    if lookupErr.Some? {
      return ZeroPeerState, Some(GetPeerFailed(peer.ipAddress, lookupErr.value));
    }
    state := ToBGPPeerState(existing.value);
    err := None;
  }

  // ----- Scenarios -----

  /** What a lookup reads back after an Add: the stored record is the last one listed
      under its address, so the fetched state is the added configuration with an Idle
      session. */
  lemma AddedPeerReadsBack(before: seq<Peer>, after: seq<Peer>, peer: BGPPeerConfig, state: BGPPeerState)
    requires peer.ipAddress != ""
    requires after == before + [AddRequestPeer(peer).(state := Some(PeerState(Idle)))]
    requires var found := Listed(after, peer.ipAddress);
      found != [] && Translatable(found[|found| - 1]) && state == ToBGPPeerState(found[|found| - 1])
    ensures state.config == peer.(gracefulRestartTime := 0, peerType := PeerTypeName(Internal))
    ensures state.sessionState == SessionStateName(Idle)
  {
    var p := AddRequestPeer(peer).(state := Some(PeerState(Idle)));
    ListedAfterAppend(before, p, peer.ipAddress);
    var found := Listed(after, peer.ipAddress);
    assert found[|found| - 1] == p;
    AddReadBack(peer);
    assert ToBGPPeerState(p).config == ToBGPPeerState(AddRequestPeer(peer)).config;
  }

  /** A peer added and then fetched reads back with its address, AS number and port, and
      a session that has not been established yet. */
  method AddThenGet(s: BgpServer, peer: BGPPeerConfig) returns (state: BGPPeerState, addErr: Option<Error>, getErr: Option<Error>)
    requires s.Valid() && peer.ipAddress != ""
    modifies s`peers, s`calls
    ensures addErr.None? && getErr.None? ==>
      state.config == peer.(gracefulRestartTime := 0, peerType := PeerTypeName(Internal)) &&
      state.sessionState == SessionStateName(Idle) && state.sessionState != SessionStateName(Established)
  {
    ghost var before := s.peers;
    addErr := AddBGPPeer(s, peer);
    state, getErr := GetBGPPeer(s, peer);
    if addErr.None? && getErr.None? {
      AddedPeerReadsBack(before, s.peers, peer, state);
      SessionStateNamesDistinct(Idle, Established);
    }
  }

  /** A peer removed and then fetched is not found, unless an engine call fails. */
  method RemoveThenGet(s: BgpServer, peer: BGPPeerConfig) returns (removeErr: Option<Error>, getErr: Option<Error>)
    requires s.Valid() && peer.ipAddress != ""
    modifies s`peers, s`calls
    ensures removeErr.None? ==>
      getErr == Some(GetPeerFailed(peer.ipAddress, PeerNotFound(peer.ipAddress))) ||
      getErr == Some(GetPeerFailed(peer.ipAddress, LookupListFailed))
  {
    removeErr := RemoveBGPPeer(s, peer);
    if removeErr.None? {
      NothingListedAfterRemove(old(s.peers), peer.ipAddress);
    }
    var _, e := GetBGPPeer(s, peer);
    getErr := e;
  }
}
