/**
 * The scout (phase 1) and commander (phase 2) instances the leader spawns.
 * Their protocol is not part of this model: a handle only records the
 * arguments it was created with, and starting it does nothing here.
 */
module Handles {
  import opened Protocol

  /** A scout trying to have `ballot` adopted by `peers`. */
  class Scout {
    const ballot: Ballot
    const peers: Option<Peers>

    constructor (ballot: Ballot, peers: Option<Peers>)
      ensures this.ballot == ballot && this.peers == peers
    {
      this.ballot := ballot;
      this.peers := peers;
    }

    /** Begins the phase-1 exchange; its network activity is outside the model. */
    method Start()
    {
    }
  }

  /** A commander driving `proposal` into `slot` under `ballot`, known to the leader as `id`. */
  class Commander {
    const ballot: Ballot
    const slot: int
    const proposal: Proposal
    const id: CommanderId
    const peers: Peers

    constructor (ballot: Ballot, slot: int, proposal: Proposal, id: CommanderId, peers: Peers)
      ensures this.ballot == ballot && this.slot == slot && this.proposal == proposal
      ensures this.id == id && this.peers == peers
    {
      this.ballot := ballot;
      this.slot := slot;
      this.proposal := proposal;
      this.id := id;
      this.peers := peers;
    }

    /** Begins the phase-2 exchange; its network activity is outside the model. */
    method Start()
    {
    }
  }
}
