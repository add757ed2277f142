# gobgp management facade — Dafny model

This project models the translation and control layer that sits between the repository's
own BGP data model (`pkg/bgp/types.go`) and the osrg/gobgp speaker engine
(`pkg/gobgp/peer.go`, `pkg/gobgp/server.go`): how peer configurations become engine peer
records and back, how an update is done as read-modify-write, how a reset direction is
mapped, how callback enumerations are drained into lists, how the speaker is started and
its global configuration read back, and which path is advertised.

Layout (one module per file):

- `go_types.dfy` — `GoTypes`: `Option`, Go's `uint32`/`int32`/`int64`, and the
  `uint32(x)` / `int32(u)` conversions as reinterpretations modulo 2^32.
- `bgp_types.dfy` — `Bgp`: `ResetDirection` and its three constants, `BGPConfig`,
  `BGPPeerConfig`, `BGPPeerState`, `ResetPeerRequest`, Go zero values, and the facade's
  error values (one variant per failing step, carrying the context the error message names).
- `gobgp_api.dfy` — `GobgpApi`: the engine's record shapes. Every Go pointer sub-record
  (`Conf`, `Transport`, `GracefulRestart`, `State`, `Family`) is an `Option`, so a nil
  section is `None`.
- `engine.dfy` — `Engine`: a stand-in for the engine. The class `BgpServer` keeps a peer
  table, the adjacency-out paths and the optional Global section. Every operation may fail
  nondeterministically. Every request it receives is appended, with its reply, to the ghost
  log `calls`. The facade's contracts use that log to say which engine calls were made, in
  which order, with which requests, and how the replies decide the result. `Valid()` says
  that every stored record carries `Conf`, `Transport` and `GracefulRestart`. This is what
  lets the facade dereference them without nil checks.
- `peer.dfy` — `GobgpPeer`: everything in `peer.go`.
- `server.dfy` — `GobgpServer`: everything in `server.go` except `StopBGPServer`.

The Go receiver `g *GobgpServer` is only ever used as `g.Server`. Each operation therefore
takes that engine as its first parameter. `NewGobgpServer` returns the freshly started
engine, or `null` with an error. An engine callback is modelled by the sequence of
arguments the engine passes to it. The closure's effect is a method that consumes that
sequence in order: `LastDelivered`, `CollectPeerStates`, `CollectPrefixes`.

Behaviour worth knowing, as the code has it:

- `UpdateBGPPeer` always issues a reset after a successful update. The reset is soft
  exactly when the engine reports `NeedsSoftResetIn`. The direction is `IN` in both cases,
  because the non-soft request leaves it at the enum's zero value, which is `IN`.
- The record `UpdateBGPPeer` submits carries only the three configuration sections. Its
  `State` is empty.
- `UpdateBGPPeer` does not reject an empty address, unlike `GetBGPPeer`. An empty filter
  lists every peer and the last one wins, so the update then applies to the last peer the
  engine lists (the `found` of its contract).
- Reading a peer, changing its password and writing it back keeps every configuration
  field when graceful restart is enabled (`ReadModifyWritePreserves`). When graceful
  restart is disabled, the stored restart time is rewritten as 0
  (`ReadModifyWriteClearsDisabledRestartTime`).
- `GetBGPConfig` returns a zero configuration with an error when the engine has no Global
  section. This follows the code.

## Model

| member | source | states |
|---|---|---|
| GoTypes.ToUint32 | pkg/gobgp/peer.go:22 | the port stored on Add is congruent to the input modulo 2^32, equal for non-negative ports, and at least 2^31 for negative ones |
| GoTypes.ToInt32 | pkg/gobgp/peer.go:164 | the port read back is congruent to the stored one modulo 2^32, equal below 2^31, and negative at or above it |
| GoTypes.PortRoundTrip | pkg/gobgp/peer.go:22 | writing a port as uint32 and reading it as int32 returns it for every int32 value, and the converse |
| GobgpPeer.AddRequestPeer | pkg/gobgp/peer.go:13-28 | the added record has all three sections and no State; AS, address and password copied; the port reads back as the input; graceful restart enabled with time 0; type at its zero value whatever the input |
| GobgpPeer.AddBGPPeer | pkg/gobgp/peer.go:12-35 | exactly one engine call, AddPeer with AddRequestPeer(peer); an error exactly when that call fails; a duplicate address always fails; the table grows by the new record only on success |
| GobgpPeer.AddReadBack | pkg/gobgp/peer.go:13-28 | an added configuration reads back unchanged except restart time 0 and the type's zero value |
| GobgpPeer.UpdateBGPPeer | pkg/gobgp/peer.go:37-71 | first a lookup; if it fails, no other call and the lookup's error; otherwise UpdatePeer with Overlaid(last found, peer); if that fails, no reset and an update error; otherwise a reset on the same address with ResetAfterUpdate, and an error exactly when the reset fails, with the update already applied |
| GobgpPeer.Overlaid | pkg/gobgp/peer.go:43-51 | the submitted record keeps address, type and graceful-restart switch; exactly AS, port, password and restart time take the input's values; State is dropped |
| GobgpPeer.OverlayReadBack | pkg/gobgp/peer.go:43-51 | an updated record reads back as the input, except address and type from the existing peer and a restart time visible only if graceful restart was enabled |
| GobgpPeer.OverlayIdempotent | pkg/gobgp/peer.go:43-51 | applying the same update twice submits the same record as once |
| GobgpPeer.ReadModifyWritePreserves | pkg/gobgp/peer.go:43-51 | get, change only the password, update: with graceful restart enabled every other configuration field is unchanged |
| GobgpPeer.ReadModifyWriteClearsDisabledRestartTime | pkg/gobgp/peer.go:169-171 | with graceful restart disabled, that same round trip writes restart time 0 |
| GobgpPeer.ResetAfterUpdate | pkg/gobgp/peer.go:58-66 | the follow-up reset targets the given address, is soft exactly when the engine asked, and its direction is IN, the enum's zero value, in both cases |
| GobgpPeer.RemoveBGPPeer | pkg/gobgp/peer.go:74-84 | exactly one DeletePeer by address; an error carrying AS and address exactly when it fails; an unknown address always fails |
| GobgpPeer.ListBGPPeers | pkg/gobgp/peer.go:87-102 | one ListPeer with the empty filter; on failure an empty list and an error; otherwise the translated states of every listed peer in delivery order and no error |
| GobgpPeer.CollectPeerStates | pkg/gobgp/peer.go:89-95 | the accumulated list is PeerStates of the delivered stream: nil entries skipped, the rest translated, in order |
| GobgpPeer.PeerStatesAppend | pkg/gobgp/peer.go:89-95 | accumulation distributes over concatenation of deliveries, so delivery order is kept |
| GobgpPeer.PeerStatesOfPeers | pkg/gobgp/peer.go:89-95 | a stream without nils yields exactly one state per delivery, position by position |
| GobgpPeer.LastDelivered | pkg/gobgp/peer.go:106-108 | the lookup's captured pointer is the last value delivered, a trailing nil included, and nil when nothing was delivered |
| GobgpPeer.GetExistingGobgpPeer | pkg/gobgp/peer.go:104-119 | one ListPeer by address; a listing error when it fails; not-found when nothing matches; otherwise the last matching record, which carries all three sections |
| GobgpPeer.ResetRequestOf | pkg/gobgp/peer.go:122-127 | address (including "" and "all"), communication and soft flag copied verbatim; direction mapped |
| GobgpPeer.ResetBGPPeer | pkg/gobgp/peer.go:121-132 | exactly one ResetPeer with ResetRequestOf(request); an error exactly when it fails |
| GobgpPeer.ToGobgpSoftResetDirection | pkg/gobgp/peer.go:134-142 | In maps to IN and Out to OUT, each if and only if; Both and every other integer map to BOTH |
| GobgpPeer.GetBGPPeer | pkg/gobgp/peer.go:144-157 | an empty address fails before any engine call; otherwise the lookup's error wrapped with the address, or the translation of the found record; zero state with every error |
| GobgpApi.SessionStateNamesDistinct | pkg/gobgp/peer.go:174-176 | distinct session states have distinct names, so IDLE is never reported as ESTABLISHED |
| GobgpPeer.ToBGPPeerState | pkg/gobgp/peer.go:159-178 | configuration fields only from a present Conf, with the port read back as int32; restart time only when graceful restart is present and enabled, else 0; session state empty if and only if State is absent, and otherwise the name of the engine's session state; uptime 0 |
| GobgpPeer.AddedPeerReadsBack | pkg/gobgp/peer.go:144-178 | after an add to the stand-in engine, which stores records as submitted and appends them, a lookup of the address finds the stored record last, and it translates to the added configuration (restart time 0, type INTERNAL) with an Idle session |
| GobgpPeer.AddThenGet | pkg/gobgp/peer.go:144-157 | over the stand-in engine, after a successful add and get, the state carries the added address, AS and port, and a session that is Idle, not Established |
| GobgpPeer.RemoveThenGet | pkg/gobgp/peer.go:74-84 | after a successful remove, a get of the same address fails with not-found, or with a listing error |
| GobgpServer.StartGlobal | pkg/gobgp/server.go:23-29 | the start request's Global carries AS, router id and listen port unchanged |
| GobgpServer.NewGobgpServer | pkg/gobgp/server.go:18-38 | a fresh engine receives exactly one StartBgp with StartGlobal(config); no server and an error exactly when it fails; on success the engine keeps that Global section, with listen port 0 replaced by the default 179 |
| GobgpServer.ConfigOf | pkg/gobgp/server.go:47-57 | no Global section gives the zero configuration and an error; otherwise the configuration whose start request carries exactly that section |
| GobgpServer.GetBGPConfig | pkg/gobgp/server.go:41-58 | one GetBgp; zero configuration and an error when it fails; otherwise ConfigOf of the engine's Global section |
| GobgpServer.StartThenReadBack | pkg/gobgp/server.go:51-57 | a configuration started and read back is returned unchanged, with no error |
| GobgpServer.ReadBackThenStart | pkg/gobgp/server.go:23-29 | every Global section read back is the start request of the configuration returned |
| GobgpServer.StartThenGetConfig | pkg/gobgp/server.go:18-58 | starting a speaker and then reading its configuration returns the start configuration unless an engine call fails, except that listen port 0 reads back as 179 |
| GobgpServer.AdvertiseRequest | pkg/gobgp/server.go:70-92 | the advertised path goes to adjacency-out, IPv4 unicast, prefix 10.0.0.0 with length 24 (text 10.0.0.0/24), attributes origin 0 then next hop 10.0.0.1 |
| GobgpServer.AdvertiseRoutes | pkg/gobgp/server.go:70-100 | the routes argument is ignored: exactly one AddPath with AdvertiseRequest(); an error exactly when it fails; adjacency-out gains that path only on success |
| GobgpServer.WithdrawRoutes | pkg/gobgp/server.go:102-104 | always succeeds; it has no access to the engine, so adjacency-out is unchanged |
| GobgpServer.ListAdvertisedRequest | pkg/gobgp/server.go:111-118 | the listing asks for adjacency-out, IPv4 unicast, neighbour name 192.168.1.3 |
| GobgpServer.CollectPrefixes | pkg/gobgp/server.go:108-110 | one prefix per delivered destination, in delivery order |
| GobgpServer.ListAdvertisedRoutes | pkg/gobgp/server.go:106-124 | one ListPath with ListAdvertisedRequest(); it fails when no peer has address 192.168.1.3; on failure an empty list and an error; otherwise the listed destinations' prefixes in order |
| GobgpServer.AdvertiseThenList | pkg/gobgp/server.go:70-124 | after a successful advertisement, a successful listing (which requires the neighbour 192.168.1.3 to exist) contains 10.0.0.0/24 |

## Left out

- The engine itself (osrg/gobgp): the session FSM of section 8 of RFC 4271, route
  selection, RIB maintenance and the wire encoding are not part of this model. `Engine.BgpServer`
  stands in for it. Its failures are nondeterministic. Its table semantics are a minimal
  choice: a duplicate Add and an Update or Delete of an unknown address fail, a new
  session starts Idle, a start request with listen port 0 is stored with the default
  port 179, peer records are stored exactly as submitted and listed in insertion order,
  and only adjacency-out paths are kept.
- GobgpPeer.AddThenGet: the full read-back it promises (port unchanged, including 0;
  restart time 0; type INTERNAL), like `GobgpPeer.AddedPeerReadsBack`, holds for the
  stand-in. That stand-in keeps a peer record as submitted, applies no engine defaults to
  the remote port, restart time or peer type, and lists peers in insertion order. The real
  engine may fill in defaults and may list peers in another order. Its code is not part of
  this model, so for it only the address, the AS number and a session that is not yet
  Established are expected to carry over.
- Per-neighbour adjacency-out: the stand-in keeps one adjacency-out list for the whole
  speaker. An adjacency-out listing by neighbour name fails when no peer has that address;
  otherwise it returns every adjacency-out path of the requested family, whichever
  neighbour it would be sent to. Which paths the real engine sends to which neighbour
  depends on its policy and session state, which are not modelled.
- `go s.Serve()` in `NewGobgpServer` (pkg/gobgp/server.go:20-21): the engine's background
  loop is concurrency inside the foreign library. Only the start request and its outcome
  are modelled.
- `StopBGPServer` (pkg/gobgp/server.go:61-68): it calls the library's Stop and prints a
  diagnostic. Neither is observable in this model.
- `bgp.Interface` (pkg/bgp/types.go:63-96): Dafny traits are not used here. The interface's
  operation set is the set of methods in `GobgpPeer` and `GobgpServer`, one per interface
  method, all except `StopBGPServer`.
- `fmt.Printf` of the path UUID in `AdvertiseRoutes` and every `fmt.Println`: output only.
  The UUID returned by the engine is discarded, as in the code.
- `anypb.New` packing (pkg/gobgp/server.go:71-80): the NLRI and attributes are held
  directly; the packing errors the code discards cannot arise.
- `.String()` of `PeerType` and `SessionState`: modelled as the enum value names
  (`PeerTypeName`, `SessionStateName`). The proofs depend on the exact text only in that a
  name is never empty and distinct states have distinct names (`AddThenGet` uses that IDLE
  differs from ESTABLISHED).
- Error text and `%w` wrapping: errors are variants of `Bgp.Error`, with the context values
  the messages print; the engine's own cause is not carried.
- `context.Context` and cancellation: not modelled.
- Nil `*BGPPeerConfig` arguments: Dafny values cannot be nil, so the nil dereference this
  would cause is not modelled.
- GobgpPeer.UpdateBGPPeer: the fetched record's sections are shared pointers, and the code
  overwrites them in place. The model builds the new record as a value with the same field
  writes in the same order. Any aliasing between the fetched record and the engine's own
  storage is not captured; it depends on the engine, which is not shown.
- Only the fields of the engine's peer record that the facade reads or writes are modelled.
  Other sections of a real `apipb.Peer` (timers, AFI/SAFI lists and more) are also dropped by
  the update, because it copies only the three sections.
