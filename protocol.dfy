/**
 * The value types the multi-Paxos leader exchanges with its collaborators:
 * addresses, proposals, ballots and commander identities.
 */
module Protocol {

  /** A cluster member's address. */
  type Address = string

  /** The operation a client wants placed in a log slot; its contents are opaque here. */
  type Proposal = string

  /** The peer set of a view. */
  type Peers = seq<Address>

  datatype Option<T> = None | Some(value: T)

  /** The entry stored under `k`, or None when there is none (a defaultlist read). */
  function Find<K, V>(m: map<K, V>, k: K): Option<V>
  {
    if k in m then Some(m[k]) else None
  }

  /**
   * A leadership claim: the view it belongs to, a round number within the
   * view and the id of the leader making the claim.
   */
  datatype Ballot = Ballot(view: int, n: int, leader: int)

  /** The lexicographic order on (view, n, leader): `b` is fresher than `a`. */
  predicate Less(a: Ballot, b: Ballot)
  {
    a.view < b.view
    || (a.view == b.view && (a.n < b.n || (a.n == b.n && a.leader < b.leader)))
  }

  /** `Less` is a strict total order, so every finite set of ballots has one maximum. */
  lemma LessIsStrictTotalOrder(a: Ballot, b: Ballot, c: Ballot)
    ensures !Less(a, a)
    ensures Less(a, b) && Less(b, c) ==> Less(a, c)
    ensures a == b || Less(a, b) || Less(b, a)
  {
  }

  /** Identifies the commander for one unit of work: (leader address, slot, proposal). */
  datatype CommanderId = CommanderId(address: Address, slot: int, proposal: Option<Proposal>)
}
