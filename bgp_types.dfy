/** The repository's own, engine-independent data model of a BGP speaker and its peers. */
module Bgp {
  import opened GoTypes

  /** Go declares the reset direction as a plain `int`, so values other than the three
      named constants are representable and every consumer must handle them. */
  type ResetDirection = int64

  const ResetDirectionIn: ResetDirection := 0
  const ResetDirectionOut: ResetDirection := 1
  const ResetDirectionBoth: ResetDirection := 2

  /** Identity and listening endpoint of the local speaker. */
  datatype BGPConfig = BGPConfig(asn: uint32, listenPort: int32, ipAddress: string)

  /** Configuration of one neighbour; `ipAddress` is the key the engine looks peers up by. */
  datatype BGPPeerConfig = BGPPeerConfig(
    asn: uint32,
    listenPort: int32,
    ipAddress: string,
    authPassword: string,
    gracefulRestartTime: uint32,
    peerType: string)

  /** A snapshot of one neighbour: its configuration plus session information. */
  datatype BGPPeerState = BGPPeerState(config: BGPPeerConfig, uptime: int64, sessionState: string)

  /** A request to reset one session, or all of them when `ipAddress` is "" or "all". */
  datatype ResetPeerRequest = ResetPeerRequest(
    ipAddress: string,
    direction: ResetDirection,
    softReset: bool,
    communication: string)

  /** Go's zero values, which the facade returns beside an error. */
  const ZeroBGPConfig := BGPConfig(0, 0, "")
  const ZeroPeerConfig := BGPPeerConfig(0, 0, "", "", 0, "")
  const ZeroPeerState := BGPPeerState(ZeroPeerConfig, 0, "")

  /** The error values the facade returns. Each names the failing step and the context the
      source puts into its message; the engine's own cause is not modelled. */
  datatype Error =
    | AddPeerFailed
    | LookupListFailed
    | PeerNotFound(address: string)
    | UpdatePeerFailed(address: string, port: uint32, asn: uint32)
    | ResetAfterUpdateFailed(address: string, port: uint32, asn: uint32)
    | RemovePeerFailed(asn: uint32, address: string)
    | ListPeersFailed
    | ResetPeerFailed
    | EmptyAddress
    | GetPeerFailed(address: string, cause: Error)
    | StartFailed
    | GetConfigFailed
    | NilGlobalConfig
    | AddPathFailed
    | ListPathsFailed
}
