/**
 * The failover contract of the channel, stated on the call record: which
 * transports an operation contacted, in which order and with which arguments,
 * and how the answers of those calls determine the operation's result.
 */
module ChannelProperties {

  import opened Wrappers
  import opened Types
  import opened Transports
  import opened FallbackChannel

  /**
   * One-level sequential fallback for request `req`: the primary is asked
   * first; if it answers without error that answer is the result and nobody
   * else is asked; otherwise the secondary is asked the same request once and
   * its answer is the result.
   */
  ghost predicate FailsOver(c: Channel, req: Request, result: Reply, calls: seq<Call>) {
    var primary := Answer(Network(c), req);
    if !Failed(primary) then
      calls == [Call(Primary, req)] && result == primary
    else
      calls == [Call(Primary, req), Call(Secondary, req)] && result == Answer(Fallback(c), req)
  }

  /** What a caller can conclude from a one-level fallback. */
  lemma FailsOverContract(c: Channel, req: Request, result: Reply, calls: seq<Call>)
    requires FailsOver(c, req, result, calls)
    ensures |calls| >= 1 && calls[0] == Call(Primary, req)
    ensures forall i :: 0 <= i < |calls| ==> calls[i].request == req
    ensures Count(calls, Primary) == 1
    ensures Count(calls, Secondary) == if Failed(Answer(Network(c), req)) then 1 else 0
    ensures result == Answer(TransportOn(c, calls[|calls| - 1].side), req)
    ensures Failed(result) ==> calls[|calls| - 1] == Call(Secondary, req)
  {
    if Failed(Answer(Network(c), req)) {
      CountPair(Call(Primary, req), Call(Secondary, req), Primary);
      CountPair(Call(Primary, req), Call(Secondary, req), Secondary);
    } else {
      CountSingle(Call(Primary, req), Primary);
      CountSingle(Call(Primary, req), Secondary);
    }
  }

  lemma DirectMessageFailsOver(c: Channel, message: Message, recipient: SignatureKey)
    ensures var r := DirectMessage(c, message, recipient);
      FailsOver(c, SendDirect(message, recipient), Sent(r.result), r.calls)
  {
    match Network(c).directMessage(message, recipient)
    case Ok(u) => assert u == ();
    case Err(_) =>
  }

  lemma RecvMsgsFailsOver(c: Channel, transmitType: TransmitType)
    ensures var r := RecvMsgs(c, transmitType);
      FailsOver(c, Receive(transmitType), Received(r.result), r.calls)
  {
  }

  lemma LookupNodeFailsOver(c: Channel, pk: SignatureKey)
    ensures var r := LookupNode(c, pk);
      FailsOver(c, Lookup(pk), Sent(r.result), r.calls)
  {
  }

  /** A successful primary send ends the call: success, and the secondary is never contacted. */
  lemma DirectMessagePrimaryOk(c: Channel, message: Message, recipient: SignatureKey)
    requires Network(c).directMessage(message, recipient).Ok?
    ensures var r := DirectMessage(c, message, recipient);
      r.result == Ok(()) && Count(r.calls, Secondary) == 0
  {
    var r := DirectMessage(c, message, recipient);
    DirectMessageFailsOver(c, message, recipient);
    FailsOverContract(c, SendDirect(message, recipient), Sent(r.result), r.calls);
  }

  /** A failed primary send is retried once on the secondary, whose result is returned as it is. */
  lemma DirectMessagePrimaryErr(c: Channel, message: Message, recipient: SignatureKey)
    requires Network(c).directMessage(message, recipient).Err?
    ensures var r := DirectMessage(c, message, recipient);
      && r.result == Fallback(c).directMessage(message, recipient)
      && Count(r.calls, Secondary) == 1
      && Call(Secondary, SendDirect(message, recipient)) in r.calls
  {
    var r := DirectMessage(c, message, recipient);
    DirectMessageFailsOver(c, message, recipient);
    FailsOverContract(c, SendDirect(message, recipient), Sent(r.result), r.calls);
  }

  /** A receive returns one transport's whole answer, never a mix of the two queues. */
  lemma RecvMsgsNeverMerged(c: Channel, transmitType: TransmitType)
    ensures var r := RecvMsgs(c, transmitType);
      && (Network(c).recvMsgs(transmitType).Ok? ==> r.result == Network(c).recvMsgs(transmitType))
      && (Network(c).recvMsgs(transmitType).Err? ==> r.result == Fallback(c).recvMsgs(transmitType))
  {
    var r := RecvMsgs(c, transmitType);
    RecvMsgsFailsOver(c, transmitType);
    FailsOverContract(c, Receive(transmitType), Received(r.result), r.calls);
  }

  /**
   * Broadcast sends the same message to the same committee, the one of the
   * message's view, on both transports, always awaits both, and succeeds when
   * either send does; on double failure it reports the secondary's error.
   */
  lemma BroadcastJoinsBoth(c: Channel, message: Message, election: Membership)
    ensures var r := BroadcastMessage(c, message, election);
      var req := SendBroadcast(message, election.getCommittee(message.viewNumber));
      && Count(r.calls, Primary) == 1
      && Count(r.calls, Secondary) == 1
      && (forall i :: 0 <= i < |r.calls| ==> r.calls[i].request == req)
      && (r.result.Ok? <==> exists i :: 0 <= i < |r.calls| && !Failed(Answer(TransportOn(c, r.calls[i].side), r.calls[i].request)))
      && (r.result.Err? ==> Failed(Answer(Network(c), req)) && Sent(r.result) == Answer(Fallback(c), req))
  {
  }

  /** Consensus info goes to the primary alone, whatever the primary answers. */
  lemma InjectConsensusInfoPrimaryOnly(c: Channel, info: ConsensusInfo)
    ensures var r := InjectConsensusInfo(c, info);
      && r.calls == [Call(Primary, InjectInfo(info))]
      && Count(r.calls, Secondary) == 0
      && Sent(r.result) == Answer(Network(c), InjectInfo(info))
  {
    CountSingle(Call(Primary, InjectInfo(info)), Secondary);
  }

  /** The channel is ready iff both transports are; the secondary is asked only if the primary is ready. */
  lemma IsReadyConjunction(c: Channel)
    ensures var r := IsReady(c);
      && r.result == (Network(c).isReady && Fallback(c).isReady)
      && r.calls[0] == Call(Primary, QueryReady)
      && (forall i :: 0 <= i < |r.calls| ==> r.calls[i].request == QueryReady)
      && Count(r.calls, Primary) == 1
      && Count(r.calls, Secondary) == if Network(c).isReady then 1 else 0
  {
  }

  /** Waiting for readiness visits each transport once, the primary strictly first. */
  lemma WaitForReadySequential(c: Channel)
    ensures var r := WaitForReady(c);
      && Count(r.calls, Primary) == 1
      && Count(r.calls, Secondary) == 1
      && CalledBefore(r.calls, Call(Primary, AwaitReady), Call(Secondary, AwaitReady))
  {
  }

  /** Shutting down visits each transport once, the primary strictly first. */
  lemma ShutDownSequential(c: Channel)
    ensures var r := ShutDown(c);
      && Count(r.calls, Primary) == 1
      && Count(r.calls, Secondary) == 1
      && CalledBefore(r.calls, Call(Primary, Shutdown), Call(Secondary, Shutdown))
  {
  }

  /** Every operation contacts the primary exactly once and the secondary at most once. */
  lemma {:induction false} OneCallPerTransport(c: Channel, op: Operation)
    ensures Count(Run(c, op).calls, Primary) == 1
    ensures Count(Run(c, op).calls, Secondary) <= 1
  {
    match op
    case WaitForReadyOp => WaitForReadySequential(c);
    case IsReadyOp => IsReadyConjunction(c);
    case ShutDownOp => ShutDownSequential(c);
    case BroadcastOp(m, election) => BroadcastJoinsBoth(c, m, election);
    case DirectOp(m, k) =>
      var r := DirectMessage(c, m, k);
      DirectMessageFailsOver(c, m, k);
      FailsOverContract(c, SendDirect(m, k), Sent(r.result), r.calls);
    case RecvOp(tt) =>
      var r := RecvMsgs(c, tt);
      RecvMsgsFailsOver(c, tt);
      FailsOverContract(c, Receive(tt), Received(r.result), r.calls);
    case LookupOp(pk) =>
      var r := LookupNode(c, pk);
      LookupNodeFailsOver(c, pk);
      FailsOverContract(c, Lookup(pk), Sent(r.result), r.calls);
    case InjectOp(info) => CountSingle(Call(Primary, InjectInfo(info)), Primary);
  }

  /**
   * The channel never makes up an error: an operation that fails reports the
   * answer of a call it made, and except for consensus info that call went to
   * the secondary, so a caller seeing an error knows the secondary failed.
   */
  lemma ErrorsComeFromSecondary(c: Channel, op: Operation)
    ensures var r := Run(c, op);
      Failed(r.result) ==> exists i :: 0 <= i < |r.calls| && r.result == Answer(TransportOn(c, r.calls[i].side), r.calls[i].request)
    ensures var r := Run(c, op);
      Failed(r.result) && !op.InjectOp? ==> exists i :: 0 <= i < |r.calls| && r.calls[i].side == Secondary && r.result == Answer(Fallback(c), r.calls[i].request)
  {
    var r := Run(c, op);
    match op
    case WaitForReadyOp =>
    case IsReadyOp =>
    case ShutDownOp =>
    case BroadcastOp(m, election) =>
      BroadcastJoinsBoth(c, m, election);
      assert r.calls[0].side == Secondary;
    case DirectOp(m, k) =>
      DirectMessageFailsOver(c, m, k);
      FailsOverContract(c, SendDirect(m, k), r.result, r.calls);
    case RecvOp(tt) =>
      RecvMsgsFailsOver(c, tt);
      FailsOverContract(c, Receive(tt), r.result, r.calls);
    case LookupOp(pk) =>
      LookupNodeFailsOver(c, pk);
      FailsOverContract(c, Lookup(pk), r.result, r.calls);
    case InjectOp(info) =>
      assert r.calls[0] == Call(Primary, InjectInfo(info));
  }

  /** No operation ever hands consensus info to the secondary. */
  lemma ConsensusInfoNeverReachesSecondary(c: Channel, op: Operation)
    ensures var r := Run(c, op);
      forall i :: 0 <= i < |r.calls| && r.calls[i].request.InjectInfo? ==> r.calls[i].side == Primary
  {
  }

}
