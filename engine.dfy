/** A stand-in for the speaker engine (osrg/gobgp's `BgpServer`), whose implementation is not
    part of this model. It keeps only what the facade can observe: a peer table, the
    adjacency-out paths and the global section. Every operation may fail for reasons of its
    own, chosen nondeterministically, and every request it receives is recorded, with its
    reply, in the ghost log `calls`, so that the facade's contracts can say exactly which
    engine calls it made, in which order, and with which requests. */
module Engine {
  import opened GoTypes
  import opened GobgpApi

  datatype Op =
    | StartBgpOp(global: Global)
    | GetBgpOp
    | AddPeerOp(peer: Peer)
    | UpdatePeerOp(peer: Peer)
    | DeletePeerOp(address: string)
    | ResetPeerOp(reset: ResetPeerRequest)
    | ListPeerOp(address: string)
    | AddPathOp(add: AddPathRequest)
    | ListPathOp(list: ListPathRequest)

  /** The engine's answer: an error, plain success, or UpdatePeer's success flag. */
  datatype Reply = Failed | Done | Updated(needsSoftResetIn: bool)

  datatype Call = Call(op: Op, reply: Reply)

  /** The neighbour address a record is keyed by ("" when it has no Conf). */
  function AddressOf(p: Peer): string {
    if p.conf.Some? then p.conf.value.neighborAddress else ""
  }

  predicate Known(peers: seq<Peer>, address: string) {
    exists i :: 0 <= i < |peers| && AddressOf(peers[i]) == address
  }

  /** The records a ListPeer with this address filter enumerates, in table order;
      the empty filter enumerates every peer. */
  function Listed(peers: seq<Peer>, address: string): (r: seq<Peer>)
    ensures |r| <= |peers|
    ensures forall i :: 0 <= i < |r| ==> r[i] in peers && (address == "" || AddressOf(r[i]) == address)
  {
    if peers == [] then []
    else if address == "" || AddressOf(peers[0]) == address then [peers[0]] + Listed(peers[1..], address)
    else Listed(peers[1..], address)
  }

  /** What the callback of a successful ListPeer receives, one invocation per element. */
  function Delivered(peers: seq<Peer>, address: string): (d: seq<Option<Peer>>)
    ensures |d| == |Listed(peers, address)|
    ensures forall i :: 0 <= i < |d| ==> d[i] == Some(Listed(peers, address)[i])
    ensures forall x :: x in d ==> x.Some? && x.value in peers
  {
    var l := Listed(peers, address);
    seq(|l|, i requires 0 <= i < |l| => Some(l[i]))
  }

  /** The table after UpdatePeer(p): the record with p's address takes p's configuration
      and keeps its session state. */
  function Replaced(peers: seq<Peer>, p: Peer): (r: seq<Peer>)
    ensures |r| == |peers|
  {
    seq(|peers|, i requires 0 <= i < |peers| =>
      if AddressOf(peers[i]) == AddressOf(p) then p.(state := peers[i].state) else peers[i])
  }

  /** The table after DeletePeer(address). */
  function Removed(peers: seq<Peer>, address: string): (r: seq<Peer>)
    ensures |r| <= |peers|
    ensures forall p :: p in r ==> p in peers && AddressOf(p) != address
  {
    if peers == [] then []
    else if AddressOf(peers[0]) == address then Removed(peers[1..], address)
    else [peers[0]] + Removed(peers[1..], address)
  }

  /** The destinations a successful ListPath enumerates: the adjacency-out paths of the
      requested family, in insertion order. */
  function ListedDestinations(paths: seq<Path>, req: ListPathRequest): (r: seq<Destination>)
    ensures req.tableType != TableAdjOut ==> r == []
    ensures |r| <= |paths|
  {
    if req.tableType != TableAdjOut || paths == [] then []
    else if paths[0].family == req.family then
      [Destination(PrefixText(paths[0].nlri))] + ListedDestinations(paths[1..], req)
    else ListedDestinations(paths[1..], req)
  }

  /** The engine's default BGP port, used when a start request gives listen port 0. */
  const DefaultBgpPort: int32 := 179

  /** The Global section the engine keeps after a start request: listen port 0 stands for
      the default port, every other field is kept as sent. */
  function StoredGlobal(g: Global): (stored: Global)
    ensures stored.asn == g.asn && stored.routerId == g.routerId
    ensures stored.listenPort == if g.listenPort == 0 then DefaultBgpPort else g.listenPort
  {
    if g.listenPort == 0 then g.(listenPort := DefaultBgpPort) else g
  }

  class BgpServer {
    var peers: seq<Peer>
    var adjOut: seq<Path>
    var global: Option<Global>
    ghost var calls: seq<Call>

    /** Every record the engine stores, and so every record it delivers, carries its
        Conf, Transport and GracefulRestart sections. */
    ghost predicate Valid()
      reads this
    {
      forall p :: p in peers ==> HasSections(p)
    }

    constructor ()
      ensures Valid()
      ensures peers == [] && adjOut == [] && global == None && calls == []
    {
      peers, adjOut, global := [], [], None;
      calls := [];
    }

    method StartBgp(g: Global) returns (failed: bool)
      modifies this`global, this`calls
      ensures calls == old(calls) + [Call(StartBgpOp(g), if failed then Failed else Done)]
      ensures old(global).Some? ==> failed
      ensures global == if failed then old(global) else Some(StoredGlobal(g))
    {
      failed :| true;
      if global.Some? { failed := true; }
      if !failed { global := Some(StoredGlobal(g)); }
      calls := calls + [Call(StartBgpOp(g), if failed then Failed else Done)];
    }

    method GetBgp() returns (g: Option<Global>, failed: bool)
      modifies this`calls
      ensures calls == old(calls) + [Call(GetBgpOp, if failed then Failed else Done)]
      ensures !failed ==> g == global
    {
      failed :| true;
      g := if failed then None else global;
      calls := calls + [Call(GetBgpOp, if failed then Failed else Done)];
    }

    /** Rejects a duplicate address or a record without its sections; a new peer's
        session starts Idle. */
    method AddPeer(p: Peer) returns (failed: bool)
      requires Valid()
      modifies this`peers, this`calls
      ensures Valid()
      ensures calls == old(calls) + [Call(AddPeerOp(p), if failed then Failed else Done)]
      ensures (Known(old(peers), AddressOf(p)) || !HasSections(p)) ==> failed
      ensures peers == if failed then old(peers) else old(peers) + [p.(state := Some(PeerState(Idle)))]
    {
      failed :| true;
      if Known(peers, AddressOf(p)) || !HasSections(p) { failed := true; }
      if !failed { peers := peers + [p.(state := Some(PeerState(Idle)))]; }
      calls := calls + [Call(AddPeerOp(p), if failed then Failed else Done)];
    }

    method UpdatePeer(p: Peer) returns (needsSoftResetIn: bool, failed: bool)
      requires Valid()
      modifies this`peers, this`calls
      ensures Valid()
      ensures calls == old(calls) + [Call(UpdatePeerOp(p), if failed then Failed else Updated(needsSoftResetIn))]
      ensures (!Known(old(peers), AddressOf(p)) || !HasSections(p)) ==> failed
      ensures peers == if failed then old(peers) else Replaced(old(peers), p)
    {
      failed :| true;
      needsSoftResetIn :| true;
      if !Known(peers, AddressOf(p)) || !HasSections(p) { failed := true; }
      if !failed { peers := Replaced(peers, p); }
      calls := calls + [Call(UpdatePeerOp(p), if failed then Failed else Updated(needsSoftResetIn))];
    }

    method DeletePeer(address: string) returns (failed: bool)
      requires Valid()
      modifies this`peers, this`calls
      ensures Valid()
      ensures calls == old(calls) + [Call(DeletePeerOp(address), if failed then Failed else Done)]
      ensures !Known(old(peers), address) ==> failed
      ensures peers == if failed then old(peers) else Removed(old(peers), address)
    {
      failed :| true;
      if !Known(peers, address) { failed := true; }
      if !failed { peers := Removed(peers, address); }
      calls := calls + [Call(DeletePeerOp(address), if failed then Failed else Done)];
    }

    /** Session resets act on the engine's FSM, which is not modelled: only the request is kept. */
    method ResetPeer(req: ResetPeerRequest) returns (failed: bool)
      modifies this`calls
      ensures calls == old(calls) + [Call(ResetPeerOp(req), if failed then Failed else Done)]
    {
      failed :| true;
      calls := calls + [Call(ResetPeerOp(req), if failed then Failed else Done)];
    }

    /** Enumerates the matching peers to the caller's callback; `stream` holds the arguments
        of the callback's invocations in order. A failure may come after a partial delivery. */
    method ListPeer(address: string) returns (stream: seq<Option<Peer>>, failed: bool)
      modifies this`calls
      ensures calls == old(calls) + [Call(ListPeerOp(address), if failed then Failed else Done)]
      ensures !failed ==> stream == Delivered(peers, address)
      ensures failed ==> stream <= Delivered(peers, address)
    {
      failed :| true;
      var all := Delivered(peers, address);
      if failed {
        var k: nat :| k <= |all|;
        stream := all[..k];
      } else {
        stream := all;
      }
      calls := calls + [Call(ListPeerOp(address), if failed then Failed else Done)];
    }

    /** Only the adjacency-out table is kept by this stand-in; a path for any other
        table is refused. */
    method AddPath(req: AddPathRequest) returns (uuid: nat, failed: bool)
      modifies this`adjOut, this`calls
      ensures calls == old(calls) + [Call(AddPathOp(req), if failed then Failed else Done)]
      ensures req.tableType != TableAdjOut ==> failed
      ensures adjOut == if failed then old(adjOut) else old(adjOut) + [req.path]
    {
      failed :| true;
      if req.tableType != TableAdjOut { failed := true; }
      uuid := |adjOut|;
      if !failed { adjOut := adjOut + [req.path]; }
      calls := calls + [Call(AddPathOp(req), if failed then Failed else Done)];
    }

    /** An adjacency-out listing names a neighbour; it fails when no peer has that address. */
    method ListPath(req: ListPathRequest) returns (stream: seq<Destination>, failed: bool)
      modifies this`calls
      ensures calls == old(calls) + [Call(ListPathOp(req), if failed then Failed else Done)]
      ensures req.tableType == TableAdjOut && !Known(peers, req.name) ==> failed
      ensures !failed ==> stream == ListedDestinations(adjOut, req)
      ensures failed ==> stream <= ListedDestinations(adjOut, req)
    {
      failed :| true;
      if req.tableType == TableAdjOut && !Known(peers, req.name) { failed := true; }
      var all := ListedDestinations(adjOut, req);
      if failed {
        var k: nat :| k <= |all|;
        stream := all[..k];
      } else {
        stream := all;
      }
      calls := calls + [Call(ListPathOp(req), if failed then Failed else Done)];
    }
  }

  /** A peer just added is what a lookup of its address finds last. */
  lemma {:induction false} ListedAfterAppend(peers: seq<Peer>, p: Peer, address: string)
    requires address == "" || AddressOf(p) == address
    ensures Listed(peers + [p], address) == Listed(peers, address) + [p]
  {
    if peers == [] {
      assert peers + [p] == [p];
    } else {
      assert (peers + [p])[1..] == peers[1..] + [p];
      ListedAfterAppend(peers[1..], p, address);
    }
  }

  /** After a peer is deleted, a lookup of its address finds nothing. */
  lemma {:induction false} NothingListedAfterRemove(peers: seq<Peer>, address: string)
    requires address != ""
    ensures Listed(Removed(peers, address), address) == []
  {
    if peers != [] {
      NothingListedAfterRemove(peers[1..], address);
      if AddressOf(peers[0]) != address {
        assert Removed(peers, address) == [peers[0]] + Removed(peers[1..], address);
        assert (Removed(peers, address))[1..] == Removed(peers[1..], address);
      }
    }
  }

  /** A path just added to adjacency-out is the last destination a listing of its family
      and that table delivers. */
  lemma {:induction false} ListedDestinationsAfterAppend(paths: seq<Path>, p: Path, req: ListPathRequest)
    requires req.tableType == TableAdjOut && p.family == req.family
    ensures ListedDestinations(paths + [p], req) ==
      ListedDestinations(paths, req) + [Destination(PrefixText(p.nlri))]
  {
    if paths == [] {
      assert paths + [p] == [p];
    } else {
      assert (paths + [p])[1..] == paths[1..] + [p];
      ListedDestinationsAfterAppend(paths[1..], p, req);
    }
  }
}
