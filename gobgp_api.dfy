/** The request and record shapes of the speaker engine's API (the `apipb` package of
    osrg/gobgp v3), restricted to the fields the facade reads or writes. Sub-messages that
    Go holds by pointer, and may therefore be nil, are `Option`s. */
module GobgpApi {
  import opened GoTypes

  /** `PeerType` enum; INTERNAL is value 0 and therefore the zero value. */
  datatype PeerType = Internal | External

  /** The enum's `.String()` form. */
  function PeerTypeName(t: PeerType): (name: string)
    ensures name != ""
  {
    match t
    case Internal => "INTERNAL"
    case External => "EXTERNAL"
  }

  /** `PeerState.SessionState` enum; UNKNOWN is value 0, the rest follow the session FSM. */
  datatype SessionState = Unknown | Idle | Connect | Active | OpenSent | OpenConfirm | Established

  /** The enum's `.String()` form: never the empty string. */
  function SessionStateName(s: SessionState): (name: string)
    ensures name != ""
  {
    match s
    case Unknown => "UNKNOWN"
    case Idle => "IDLE"
    case Connect => "CONNECT"
    case Active => "ACTIVE"
    case OpenSent => "OPENSENT"
    case OpenConfirm => "OPENCONFIRM"
    case Established => "ESTABLISHED"
  }

  /** Distinct session states have distinct names, so a state can be told from its name. */
  lemma SessionStateNamesDistinct(a: SessionState, b: SessionState)
    requires a != b
    ensures SessionStateName(a) != SessionStateName(b)
  {
  }

  datatype PeerConf = PeerConf(peerAsn: uint32, neighborAddress: string, authPassword: string, peerType: PeerType)
  datatype Transport = Transport(remotePort: uint32)
  datatype GracefulRestart = GracefulRestart(enabled: bool, restartTime: uint32)
  datatype PeerState = PeerState(sessionState: SessionState)

  /** The engine's peer record: every section may be absent (a nil pointer in Go). */
  datatype Peer = Peer(
    conf: Option<PeerConf>,
    transport: Option<Transport>,
    gracefulRestart: Option<GracefulRestart>,
    state: Option<PeerState>)

  /** The three configuration sections the facade dereferences without a nil check. */
  predicate HasSections(p: Peer) {
    p.conf.Some? && p.transport.Some? && p.gracefulRestart.Some?
  }

  /** `ResetPeerRequest.SoftResetDirection`: IN is value 0 and therefore the zero value. */
  datatype SoftResetDirection = IN | OUT | BOTH

  const ZeroSoftResetDirection: SoftResetDirection := IN

  datatype ResetPeerRequest = ResetPeerRequest(
    address: string,
    communication: string,
    soft: bool,
    direction: SoftResetDirection)

  /** The speaker's global section, as sent in a start request and read back by GetBgp. */
  datatype Global = Global(asn: uint32, routerId: string, listenPort: int32)

  datatype Afi = AfiUnknown | AfiIp | AfiIp6
  datatype Safi = SafiUnknown | SafiUnicast | SafiMulticast
  datatype Family = Family(afi: Afi, safi: Safi)

  datatype TableType = TableGlobal | TableLocal | TableAdjIn | TableAdjOut | TableVrf

  datatype IPAddressPrefix = IPAddressPrefix(prefix: string, prefixLen: uint32)

  /** Path attributes, held directly rather than packed into `anypb.Any`. */
  datatype PathAttribute = OriginAttribute(origin: uint32) | NextHopAttribute(nextHop: string)

  datatype Path = Path(nlri: IPAddressPrefix, family: Option<Family>, pattrs: seq<PathAttribute>)

  datatype AddPathRequest = AddPathRequest(tableType: TableType, path: Path)

  datatype ListPathRequest = ListPathRequest(tableType: TableType, family: Option<Family>, name: string)

  /** One destination delivered by ListPath; only its prefix text is used. */
  datatype Destination = Destination(prefix: string)

  /** The text form of a prefix NLRI, `<address>/<length>`, as it appears in a destination. */
  function PrefixText(n: IPAddressPrefix): (s: string)
    ensures |s| > |n.prefix| + 1 && s[..|n.prefix|] == n.prefix && s[|n.prefix|] == '/'
  {
    n.prefix + "/" + NatText(n.prefixLen as nat)
  }
}
