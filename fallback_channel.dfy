/**
 * `WebServerWithFallbackCommChannel`: a communication channel over a pair of
 * transports, the web-server network (primary, `networks.0`) and the libp2p
 * network (fallback, `networks.1`). Every operation returns its result together
 * with the record of the transport calls it made, in the order it made them.
 */
module FallbackChannel {

  import opened Wrappers
  import opened Types
  import opened Transports

  /** A result plus the transport calls made to obtain it. */
  datatype Traced<T> = Traced(result: T, calls: seq<Call>)

  /** The channel: an immutable (primary, fallback) pair that no operation replaces. */
  datatype Channel = Channel(networks: (Transport, Transport))

  function New(networks: (Transport, Transport)): (c: Channel)
    ensures Network(c) == networks.0 && Fallback(c) == networks.1
  {
    Channel(networks)
  }

  /** The primary transport (`network()`). */
  function Network(c: Channel): Transport {
    c.networks.0
  }

  /** The fallback transport (`fallback()`). */
  function Fallback(c: Channel): Transport {
    c.networks.1
  }

  /** The transport on the given side of the pair. */
  function TransportOn(c: Channel, side: Side): Transport {
    match side
    case Primary => Network(c)
    case Secondary => Fallback(c)
  }

  /** Await the primary's readiness, then the fallback's. */
  function WaitForReady(c: Channel): Traced<()> {
    Traced((), [Call(Primary, AwaitReady), Call(Secondary, AwaitReady)])
  }

  /** `network().is_ready() && fallback().is_ready()`, with Rust's short-circuit `&&`. */
  function IsReady(c: Channel): Traced<bool> {
    if Network(c).isReady then
      Traced(Fallback(c).isReady, [Call(Primary, QueryReady), Call(Secondary, QueryReady)])
    else
      Traced(false, [Call(Primary, QueryReady)])
  }

  /** Shut down the primary, then the fallback; nothing is reported back. */
  function ShutDown(c: Channel): Traced<()> {
    Traced((), [Call(Primary, Shutdown), Call(Secondary, Shutdown)])
  }

  /**
   * Send to the committee of the message's view on both transports and join the
   * two sends (the fallback's future is the first element of the join). Success
   * unless both fail; then the fallback's error.
   */
  function BroadcastMessage(c: Channel, message: Message, election: Membership): Traced<Result<(), NetworkError>> {
    var recipients := election.getCommittee(message.viewNumber);
    var fallback := Fallback(c).broadcastMessage(message, recipients);
    var network := Network(c).broadcastMessage(message, recipients);
    var result := match (fallback, network)
      case (Err(e), Err(_)) => Err(e)
      case _ => Ok(());
    Traced(result, [Call(Secondary, SendBroadcast(message, recipients)), Call(Primary, SendBroadcast(message, recipients))])
  }

  /** Send on the primary; if that fails, send on the fallback and return its result. */
  function DirectMessage(c: Channel, message: Message, recipient: SignatureKey): Traced<Result<(), NetworkError>> {
    var first := Call(Primary, SendDirect(message, recipient));
    match Network(c).directMessage(message, recipient)
    case Ok(_) => Traced(Ok(()), [first])
    case Err(_) => Traced(Fallback(c).directMessage(message, recipient), [first, Call(Secondary, SendDirect(message, recipient))])
  }

  /** Drain the primary's queue; if that fails, drain the fallback's queue of the same type. */
  function RecvMsgs(c: Channel, transmitType: TransmitType): Traced<Result<seq<Message>, NetworkError>> {
    var first := Call(Primary, Receive(transmitType));
    match Network(c).recvMsgs(transmitType)
    case Ok(msgs) => Traced(Ok(msgs), [first])
    case Err(_) => Traced(Fallback(c).recvMsgs(transmitType), [first, Call(Secondary, Receive(transmitType))])
  }

  /** Look the key up on the primary; if that fails, on the fallback. */
  function LookupNode(c: Channel, pk: SignatureKey): Traced<Result<(), NetworkError>> {
    var first := Call(Primary, Lookup(pk));
    match Network(c).lookupNode(pk)
    case Ok(u) => Traced(Ok(u), [first])
    case Err(_) => Traced(Fallback(c).lookupNode(pk), [first, Call(Secondary, Lookup(pk))])
  }

  /** Forward the consensus info to the primary only. */
  function InjectConsensusInfo(c: Channel, info: ConsensusInfo): Traced<Result<(), NetworkError>> {
    Traced(Network(c).injectConsensusInfo(info), [Call(Primary, InjectInfo(info))])
  }

  /** The channel's capability set, so that statements about all operations can be made at once. */
  datatype Operation =
    | WaitForReadyOp
    | IsReadyOp
    | ShutDownOp
    | BroadcastOp(message: Message, election: Membership)
    | DirectOp(message: Message, recipient: SignatureKey)
    | RecvOp(transmitType: TransmitType)
    | LookupOp(pk: SignatureKey)
    | InjectOp(info: ConsensusInfo)

  /** Perform one channel operation, its result wrapped as a transport reply. */
  function Run(c: Channel, op: Operation): Traced<Reply> {
    match op
    case WaitForReadyOp => Traced(Settled, WaitForReady(c).calls)
    case IsReadyOp => var r := IsReady(c); Traced(Readiness(r.result), r.calls)
    case ShutDownOp => Traced(Settled, ShutDown(c).calls)
    case BroadcastOp(m, election) => var r := BroadcastMessage(c, m, election); Traced(Sent(r.result), r.calls)
    case DirectOp(m, k) => var r := DirectMessage(c, m, k); Traced(Sent(r.result), r.calls)
    case RecvOp(tt) => var r := RecvMsgs(c, tt); Traced(Received(r.result), r.calls)
    case LookupOp(pk) => var r := LookupNode(c, pk); Traced(Sent(r.result), r.calls)
    case InjectOp(info) => var r := InjectConsensusInfo(c, info); Traced(Sent(r.result), r.calls)
  }

}
