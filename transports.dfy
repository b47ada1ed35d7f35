/**
 * The two underlying networks seen from the channel: each one is an oracle that
 * answers every call of the transport interface, and a call record says which
 * transport was asked what.
 */
module Transports {

  import opened Wrappers
  import opened Types

  /**
   * One transport (the web-server network or the libp2p network), given by the
   * answer it returns to each call. `wait_for_ready` and `shut_down` return
   * nothing, so they have no answer here; they only show up in a call record.
   */
  datatype Transport = Transport(
    broadcastMessage: (Message, set<SignatureKey>) -> Result<(), NetworkError>,
    directMessage: (Message, SignatureKey) -> Result<(), NetworkError>,
    recvMsgs: TransmitType -> Result<seq<Message>, NetworkError>,
    lookupNode: SignatureKey -> Result<(), NetworkError>,
    injectConsensusInfo: ConsensusInfo -> Result<(), NetworkError>,
    isReady: bool)

  /** Which member of the transport pair a call went to: the primary or the secondary (fallback). */
  datatype Side = Primary | Secondary

  /** A call on the transport interface, with its arguments. */
  datatype Request =
    | SendBroadcast(message: Message, recipients: set<SignatureKey>)
    | SendDirect(message: Message, recipient: SignatureKey)
    | Receive(transmitType: TransmitType)
    | Lookup(key: SignatureKey)
    | InjectInfo(info: ConsensusInfo)
    | QueryReady
    | AwaitReady
    | Shutdown

  /** One awaited call of one transport. */
  datatype Call = Call(side: Side, request: Request)

  /** What a transport hands back for a request. */
  datatype Reply =
    | Sent(sent: Result<(), NetworkError>)
    | Received(received: Result<seq<Message>, NetworkError>)
    | Readiness(ready: bool)
    | Settled

  /** The reply transport `t` gives to `req`; a call record is interpreted through it. */
  function Answer(t: Transport, req: Request): Reply {
    match req
    case SendBroadcast(m, recipients) => Sent(t.broadcastMessage(m, recipients))
    case SendDirect(m, recipient) => Sent(t.directMessage(m, recipient))
    case Receive(tt) => Received(t.recvMsgs(tt))
    case Lookup(key) => Sent(t.lookupNode(key))
    case InjectInfo(info) => Sent(t.injectConsensusInfo(info))
    case QueryReady => Readiness(t.isReady)
    case AwaitReady => Settled
    case Shutdown => Settled
  }

  /** True when the reply is an error. */
  predicate Failed(r: Reply) {
    (r.Sent? && r.sent.Err?) || (r.Received? && r.received.Err?)
  }

  /** The number of calls in `calls` that went to `side`. */
  function Count(calls: seq<Call>, side: Side): (n: nat)
    ensures n <= |calls|
    ensures n == 0 <==> forall i :: 0 <= i < |calls| ==> calls[i].side != side
  {
    if calls == [] then 0
    else (if calls[0].side == side then 1 else 0) + Count(calls[1..], side)
  }

  lemma {:induction false} CountAppend(a: seq<Call>, b: seq<Call>, side: Side)
    ensures Count(a + b, side) == Count(a, side) + Count(b, side)
  {
    if a == [] {
      assert a + b == b;
    } else {
      assert (a + b)[1..] == a[1..] + b;
      CountAppend(a[1..], b, side);
    }
  }

  /** How often each side is contacted in a one- or two-call record. */
  lemma CountSingle(x: Call, side: Side)
    ensures Count([x], side) == if x.side == side then 1 else 0
  {
    assert [x][1..] == [];
  }

  lemma CountPair(x: Call, y: Call, side: Side)
    ensures Count([x, y], side) == (if x.side == side then 1 else 0) + (if y.side == side then 1 else 0)
  {
    assert [x, y] == [x] + [y];
    CountAppend([x], [y], side);
    CountSingle(x, side);
    CountSingle(y, side);
  }

  /** Call `a` appears in `calls` at an earlier position than call `b`. */
  ghost predicate CalledBefore(calls: seq<Call>, a: Call, b: Call) {
    exists i, j :: 0 <= i < j < |calls| && calls[i] == a && calls[j] == b
  }

}
