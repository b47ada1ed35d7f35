/**
 * The data the channel passes around without looking inside: messages, keys,
 * errors, transmit types, consensus info and the membership oracle.
 */
module Types {

  /** Rust's `u64`. */
  type u64 = x: int | 0 <= x < 0x1_0000_0000_0000_0000

  /** The consensus view (round) a message belongs to. */
  type ViewNumber = u64

  /** The contents of a message; the channel never inspects them. */
  type Payload(==)

  /** The identity (public key) of a node. */
  type SignatureKey(==)

  /** The single error kind shared by both transports. */
  type NetworkError(==)

  /** A message envelope: an opaque payload plus the view number it was sent in. */
  datatype Message = Message(viewNumber: ViewNumber, payload: Payload)

  /** Which inbound queue a receive drains. */
  datatype TransmitType = Broadcast | Direct

  /** The `(u64, bool, bool)` tuple forwarded to the primary transport. */
  type ConsensusInfo = (u64, bool, bool)

  /** The election: maps a view number to the committee that should receive broadcasts of that view. */
  datatype Membership = Membership(getCommittee: ViewNumber -> set<SignatureKey>)

}
