/** Concrete configurations of the two transports and what the channel does with them. */
module Scenarios {

  import opened Wrappers
  import opened Types
  import opened Transports
  import opened FallbackChannel

  /** A transport that is ready and answers every call with success (and an empty queue). */
  function Healthy(): Transport {
    Transport((m, r) => Ok(()), (m, k) => Ok(()), tt => Ok([]), k => Ok(()), info => Ok(()), true)
  }

  /** The primary fails direct sends with `primaryDown`, the secondary succeeds: the send succeeds via the secondary. */
  lemma DirectMessageSurvivesPrimaryDown(primaryDown: NetworkError, message: Message, recipient: SignatureKey)
    ensures var primary := Healthy().(directMessage := (m, k) => Err(primaryDown));
      var r := DirectMessage(New((primary, Healthy())), message, recipient);
      && r.result == Ok(())
      && Count(r.calls, Secondary) == 1
      && r.calls[1] == Call(Secondary, SendDirect(message, recipient))
  {
    var primary := Healthy().(directMessage := (m, k) => Err(primaryDown));
    var r := DirectMessage(New((primary, Healthy())), message, recipient);
    CountPair(r.calls[0], r.calls[1], Secondary);
  }

  /** Both transports fail a broadcast, with different errors: the secondary's error is reported. */
  lemma BroadcastDoubleFailureReportsSecondary(errA: NetworkError, errB: NetworkError, message: Message, election: Membership)
    requires errA != errB
    ensures var primary := Healthy().(broadcastMessage := (m, r) => Err(errA));
      var secondary := Healthy().(broadcastMessage := (m, r) => Err(errB));
      BroadcastMessage(New((primary, secondary)), message, election).result == Err(errB)
  {
  }

  /** Only the secondary fails a broadcast: the broadcast succeeds. */
  lemma BroadcastPrimarySuccessSuffices(errB: NetworkError, message: Message, election: Membership)
    ensures var secondary := Healthy().(broadcastMessage := (m, r) => Err(errB));
      BroadcastMessage(New((Healthy(), secondary)), message, election).result == Ok(())
  {
  }

  /** Readiness over all four combinations of the transports' readiness. */
  lemma IsReadyTruthTable(primaryReady: bool, secondaryReady: bool)
    ensures var c := New((Healthy().(isReady := primaryReady), Healthy().(isReady := secondaryReady)));
      IsReady(c).result == (primaryReady && secondaryReady)
  {
  }

}
