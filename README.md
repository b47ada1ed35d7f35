# Failover communication channel (HotShot `WebServerWithFallbackCommChannel`)

A consensus node talks to its peers through one communication channel built
from two transports: the web-server network (the primary, `networks.0`,
relayed through a server) and the libp2p network (the fallback or secondary,
`networks.1`, a peer-to-peer overlay). The channel gives each operation its
own rule for combining the two:

- `broadcast_message` sends the message to the committee of its view on both
  transports, awaits both, succeeds if either succeeds, and on double failure
  reports the secondary's error;
- `direct_message`, `recv_msgs` and `lookup_node` ask the primary; on an error
  they ask the secondary once, with the same arguments, and return its answer
  unchanged;
- `inject_consensus_info` goes to the primary only;
- `wait_for_ready` and `shut_down` act on the primary, then on the secondary;
  `is_ready` is `primary.is_ready() && secondary.is_ready()`.

The model is pure, as the channel is: the channel is a value holding the
transport pair (`FallbackChannel.Channel`), each transport is an oracle giving
its answer to every call (`Transports.Transport`), and each operation is a
function returning its result together with the record of the transport calls
it made (`FallbackChannel.Traced`). `Transports.Answer` reads a recorded call
back as the reply of the transport it went to, so each rule is stated as a
relation between the result, the calls made and the answers to those calls
(module `ChannelProperties`). `FallbackChannel.Run` puts all operations behind
one entry point, so that statements about every operation can be proved once.
Module `Scenarios` holds concrete configurations of the two transports.

Messages, keys, errors and payloads are opaque types; the membership oracle
(`get_committee`) is a function from view number to key set carried in the
`Membership` value that broadcast receives, as the source passes the election
in.

Two points of the source worth noting:

- `is_ready` (web_sever_libp2p_fallback.rs:141-143) uses Rust's short-circuit
  `&&`, so the secondary is queried only when the primary is ready.
- In `broadcast_message` the fallback's future is the first element of the
  `join!` tuple (web_sever_libp2p_fallback.rs:161), which is why a double
  failure reports the fallback's error; the call record lists the fallback's
  send first. No lemma claims an order between the two sends, since they run
  concurrently.

## Model

| member | source | states |
|---|---|---|
| FallbackChannel.New | src/traits/networking/web_sever_libp2p_fallback.rs:78-111 | the constructed channel's `network()` is the first transport of the pair and its `fallback()` the second |
| FallbackChannel.Network | src/traits/networking/web_sever_libp2p_fallback.rs:97-108 | no contract of its own; see `FallbackChannel.New` |
| FallbackChannel.Fallback | src/traits/networking/web_sever_libp2p_fallback.rs:109-111 | no contract of its own; see `FallbackChannel.New` |
| FallbackChannel.WaitForReady | src/traits/networking/web_sever_libp2p_fallback.rs:136-139 | no contract of its own; see `WaitForReadySequential` |
| FallbackChannel.IsReady | src/traits/networking/web_sever_libp2p_fallback.rs:141-143 | no contract of its own; see `IsReadyConjunction`, `IsReadyTruthTable` |
| FallbackChannel.ShutDown | src/traits/networking/web_sever_libp2p_fallback.rs:145-148 | no contract of its own; see `ShutDownSequential` |
| FallbackChannel.BroadcastMessage | src/traits/networking/web_sever_libp2p_fallback.rs:150-165 | no contract of its own; see `BroadcastJoinsBoth`, `BroadcastDoubleFailureReportsSecondary`, `BroadcastPrimarySuccessSuffices` |
| FallbackChannel.DirectMessage | src/traits/networking/web_sever_libp2p_fallback.rs:167-183 | no contract of its own; see `DirectMessageFailsOver`, `DirectMessagePrimaryOk`, `DirectMessagePrimaryErr` |
| FallbackChannel.RecvMsgs | src/traits/networking/web_sever_libp2p_fallback.rs:185-196 | no contract of its own; see `RecvMsgsFailsOver`, `RecvMsgsNeverMerged` |
| FallbackChannel.LookupNode | src/traits/networking/web_sever_libp2p_fallback.rs:198-206 | no contract of its own; see `LookupNodeFailsOver` |
| FallbackChannel.InjectConsensusInfo | src/traits/networking/web_sever_libp2p_fallback.rs:208-214 | no contract of its own; see `InjectConsensusInfoPrimaryOnly`, `ConsensusInfoNeverReachesSecondary` |
| ChannelProperties.FailsOverContract | src/traits/networking/web_sever_libp2p_fallback.rs:167-206 | under one-level fallback the primary is asked first and exactly once, every call carries the caller's arguments, the secondary is contacted once if the primary failed and never otherwise, the result is the answer of the last transport asked, and an error means the secondary was asked and failed |
| ChannelProperties.DirectMessageFailsOver | src/traits/networking/web_sever_libp2p_fallback.rs:167-183 | `direct_message` is a one-level fallback of the send with the same message and recipient |
| ChannelProperties.DirectMessagePrimaryOk | src/traits/networking/web_sever_libp2p_fallback.rs:172-177 | when the primary's send succeeds the channel returns `Ok(())` and never contacts the secondary |
| ChannelProperties.DirectMessagePrimaryErr | src/traits/networking/web_sever_libp2p_fallback.rs:178-181 | when the primary's send fails the secondary is called exactly once with the same message and recipient and its result is returned verbatim, the primary's error dropped |
| ChannelProperties.RecvMsgsFailsOver | src/traits/networking/web_sever_libp2p_fallback.rs:185-196 | `recv_msgs` is a one-level fallback of the receive for the same transmit type |
| ChannelProperties.RecvMsgsNeverMerged | src/traits/networking/web_sever_libp2p_fallback.rs:189-195 | on primary success the result is exactly the primary's message list, on primary failure exactly the secondary's result; the two are never combined |
| ChannelProperties.LookupNodeFailsOver | src/traits/networking/web_sever_libp2p_fallback.rs:198-206 | `lookup_node` is a one-level fallback of the lookup for the same key |
| ChannelProperties.BroadcastJoinsBoth | src/traits/networking/web_sever_libp2p_fallback.rs:150-165 | both transports are sent the same message and the committee of the message's view, each exactly once whatever the outcomes; the result is `Ok` iff some send succeeded, and an error means the primary failed too and is the secondary's error |
| ChannelProperties.InjectConsensusInfoPrimaryOnly | src/traits/networking/web_sever_libp2p_fallback.rs:208-214 | the only call is to the primary with the given tuple, the secondary is never called, and the primary's answer is returned unchanged |
| ChannelProperties.IsReadyConjunction | src/traits/networking/web_sever_libp2p_fallback.rs:141-143 | the channel is ready iff both transports are; every call is a readiness query; the primary is queried first and once, the secondary once if the primary is ready and not at all otherwise |
| ChannelProperties.WaitForReadySequential | src/traits/networking/web_sever_libp2p_fallback.rs:136-139 | each transport's readiness is awaited once, the primary's strictly before the secondary's |
| ChannelProperties.ShutDownSequential | src/traits/networking/web_sever_libp2p_fallback.rs:145-148 | each transport is shut down once, the primary strictly before the secondary |
| ChannelProperties.OneCallPerTransport | src/traits/networking/web_sever_libp2p_fallback.rs:136-214 | every channel operation contacts the primary exactly once and the secondary at most once |
| ChannelProperties.ErrorsComeFromSecondary | src/traits/networking/web_sever_libp2p_fallback.rs:150-214 | an error returned by any operation is the answer of a call the operation made (no error is made up), and for every operation but `inject_consensus_info` it is the secondary's answer |
| ChannelProperties.ConsensusInfoNeverReachesSecondary | src/traits/networking/web_sever_libp2p_fallback.rs:208-214 | no channel operation passes consensus info to the secondary |
| Scenarios.DirectMessageSurvivesPrimaryDown | src/traits/networking/web_sever_libp2p_fallback.rs:167-183 | primary failing direct sends with some error and secondary succeeding: the send returns `Ok(())` after exactly one call to the secondary |
| Scenarios.BroadcastDoubleFailureReportsSecondary | src/traits/networking/web_sever_libp2p_fallback.rs:161-164 | primary failing with one error and secondary with another: the broadcast returns the secondary's error |
| Scenarios.BroadcastPrimarySuccessSuffices | src/traits/networking/web_sever_libp2p_fallback.rs:161-164 | primary succeeding and secondary failing: the broadcast returns `Ok(())` |
| Scenarios.IsReadyTruthTable | src/traits/networking/web_sever_libp2p_fallback.rs:141-143 | over all four readiness combinations the channel's readiness is their conjunction |

## Left out

- The async runtime and `join!`: broadcast is modelled as receiving both outcomes and combining them; how the two sends interleave, and cancellation, are not modelled.
- Transports answer as fixed oracles within one operation: each is asked any given request at most once per operation, so their internal state (HTTP polling, gossip, DHT) is not modelled; `WebServerNetwork` and `Libp2pNetwork` are not part of this model.
- `wait_for_ready` and `shut_down` of a transport return nothing, so they appear only in the call record; blocking until ready is not modelled.
- `Arc` sharing and `Clone` of the channel: the pair is never mutated, so sharing has no observable effect.
- `generate_network` (src/traits/networking/web_sever_libp2p_fallback.rs:245-247): a boxed-closure test hook that only wraps `new`.
- The `// TODO log e` points: nothing is logged.
- The contents of `Message`, `SignatureKey`, `NetworkError` and the election: opaque, apart from the message's view number.
- crates/examples/libp2p/types.rs: type aliases and a marker implementation only.
