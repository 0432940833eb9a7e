/**
 * The leader role of multi-Paxos (cluster/leader.py): a sequential state
 * machine that owns a ballot, an active flag, the slot-to-proposal store,
 * at most one outstanding scout and the live commanders, and reacts to view
 * changes, scout results, commander results and PROPOSE requests.
 */
module PaxosLeader {
  import opened Protocol
  import opened Handles

  /** The pipelining window ALPHA: a slot s is governed by the peers recorded at s - ALPHA. */
  type Window = a: int | a > 0 witness 1

  /** What acceptors reported during phase 1: (ballot, slot) to the proposal accepted there. */
  type PVals = map<(Ballot, int), Proposal>

  /** Some element of `s`: the order in which the handlers visit a collection is left open. */
  method Pick<T>(s: set<T>) returns (x: T)
    requires s != {}
    ensures x in s
  {
    x :| x in s;
  }

  // ---------------------------------------------------------------------------
  // Recovery: for each slot keep the proposal accepted under the highest ballot
  // ---------------------------------------------------------------------------

  /** The slots mentioned in `pvals`. */
  ghost function Slots(pvals: PVals): set<int>
  {
    set k | k in pvals :: k.1
  }

  /** `b` is the highest ballot reported for slot `s`. */
  ghost predicate IsLatest(pvals: PVals, b: Ballot, s: int)
  {
    (b, s) in pvals && forall k :: k in pvals && k.1 == s ==> !Less(b, k.0)
  }

  /** `p` is the proposal accepted under the highest ballot reported for slot `s`. */
  ghost predicate IsLatestProposal(pvals: PVals, s: int, p: Proposal)
  {
    exists b :: IsLatest(pvals, b, s) && pvals[(b, s)] == p
  }

  /** `last` maps exactly the slots of `pvals`, each to its latest proposal. */
  ghost predicate RecoveredFrom(pvals: PVals, last: map<int, Proposal>)
  {
    last.Keys == Slots(pvals)
    && forall s :: s in last ==> IsLatestProposal(pvals, s, last[s])
  }

  /** A slot has only one highest ballot. */
  lemma LatestBallotIsUnique(pvals: PVals, s: int, b1: Ballot, b2: Ballot)
    requires IsLatest(pvals, b1, s) && IsLatest(pvals, b2, s)
    ensures b1 == b2
  {
    LessIsStrictTotalOrder(b1, b2, b1);
  }

  /** The recovered per-slot proposals are determined by `pvals`, whatever order they are read in. */
  lemma RecoveryIsDeterministic(pvals: PVals, last1: map<int, Proposal>, last2: map<int, Proposal>)
    requires RecoveredFrom(pvals, last1) && RecoveredFrom(pvals, last2)
    ensures last1 == last2
  {
    forall s | s in last1
      ensures last1[s] == last2[s]
    {
      var b1 :| IsLatest(pvals, b1, s) && pvals[(b1, s)] == last1[s];
      var b2 :| IsLatest(pvals, b2, s) && pvals[(b2, s)] == last2[s];
      LatestBallotIsUnique(pvals, s, b1, b2);
    }
  }

  /** Two proposals for slot 5, accepted under (1, 0, 1) and (2, 0, 2): the second one is recovered. */
  lemma RecoveryPicksHighestBallot(p1: Proposal, p2: Proposal, last: map<int, Proposal>)
    requires RecoveredFrom(map[(Ballot(1, 0, 1), 5) := p1, (Ballot(2, 0, 2), 5) := p2], last)
    ensures last == map[5 := p2]
  {
    var pvals := map[(Ballot(1, 0, 1), 5) := p1, (Ballot(2, 0, 2), 5) := p2];
    assert Slots(pvals) == {5} by {
      assert (Ballot(1, 0, 1), 5) in pvals;
    }
  }

  /**
   * The first loop of scout_finished: the proposal of the highest ballot for
   * every slot in `pvals`. The source walks the keys in descending order and
   * keeps the first proposal seen per slot; this loop visits the keys in any
   * order and keeps a running maximum, which yields the same map.
   */
  method LastBySlot(pvals: PVals) returns (last: map<int, Proposal>)
    ensures RecoveredFrom(pvals, last)
  {
    last := map[];
    var best: map<int, Ballot> := map[];
    var todo := pvals.Keys;
    while todo != {}
      invariant todo <= pvals.Keys
      invariant best.Keys == last.Keys
      invariant forall s :: s in best ==> (best[s], s) in pvals && pvals[(best[s], s)] == last[s]
      invariant forall k :: k in pvals && k !in todo ==> k.1 in best && !Less(best[k.1], k.0)
      decreases todo
    {
      var k := Pick(todo);
      var b, s := k.0, k.1;
      if s !in best || Less(best[s], b) {
        forall j | j in pvals && j !in todo && j.1 == s
          ensures !Less(b, j.0)
        {
          LessIsStrictTotalOrder(best[s], b, j.0);
          LessIsStrictTotalOrder(b, j.0, b);
        }
        LessIsStrictTotalOrder(b, b, b);
        best := best[s := b];
        last := last[s := pvals[k]];
      }
      todo := todo - {k};
    }
    forall s | s in last
      ensures IsLatestProposal(pvals, s, last[s])
    {
      assert IsLatest(pvals, best[s], s);
    }
    forall s | s in Slots(pvals)
      ensures s in last
    {
      var k :| k in pvals && k.1 == s;
    }
    forall s | s in last
      ensures s in Slots(pvals)
    {
      assert (best[s], s) in pvals;
    }
  }

  // ---------------------------------------------------------------------------
  // Ballot arithmetic on preemption
  // ---------------------------------------------------------------------------

  /**
   * The ballot a leader moves to when preempted by `challenger` (None for a view
   * change): the current view, one round past the challenger's round (or past
   * its own round when there is no challenger), and its own leader id.
   */
  function NextBallot(own: Ballot, viewId: int, challenger: Option<Ballot>): (r: Ballot)
    ensures r.view == viewId && r.leader == own.leader
    ensures challenger.Some? ==> r.n > challenger.value.n
    ensures challenger.None? ==> r.n > own.n
  {
    Ballot(viewId, (if challenger.Some? then challenger.value else own).n + 1, own.leader)
  }

  /** When the view has not gone backwards, the next ballot is fresher than the one it answers. */
  lemma NextBallotDominates(own: Ballot, viewId: int, challenger: Option<Ballot>)
    requires challenger.Some? ==> challenger.value.view <= viewId
    requires challenger.None? ==> own.view <= viewId
    ensures Less(if challenger.Some? then challenger.value else own, NextBallot(own, viewId, challenger))
  {
  }

  /**
   * The round follows the challenger, not the leader's own round: a commander
   * of an older ballot that reports a preemption can move the leader back.
   */
  lemma NextBallotCanLowerOwnRound()
    ensures NextBallot(Ballot(4, 5, 1), 4, Some(Ballot(4, 2, 2))) == Ballot(4, 3, 1)
    ensures Less(NextBallot(Ballot(4, 5, 1), 4, Some(Ballot(4, 2, 2))), Ballot(4, 5, 1))
  {
  }

  // ---------------------------------------------------------------------------
  // The leader state machine
  // ---------------------------------------------------------------------------

  class Leader {
    /** This member's address (used in commander ids and to recognise being primary). */
    const address: Address
    /** The leader id carried by every ballot of this leader. */
    const uniqueId: int
    /** ALPHA. */
    const alpha: Window

    var ballotNum: Ballot
    var active: bool
    /** The sparse proposal store: an absent slot reads as None. */
    var proposals: map<int, Proposal>
    var commanders: map<CommanderId, Commander>
    var scout: Option<Scout>
    var viewId: int
    var peers: Option<Peers>
    /** None until the first view change sets it. */
    var isPrimary: Option<bool>
    var peerHistory: map<int, Peers>

    /**
     * The invariant every handler keeps: the leader id never changes, an active
     * leader has no scout outstanding, and each live commander is registered
     * under its own id, which names this leader and a slot of the store.
     */
    ghost predicate Valid()
      reads this
    {
      ballotNum.leader == uniqueId
      && (active ==> scout.None?)
      && forall c :: c in commanders ==>
           c.address == address && c.slot in proposals && commanders[c].id == c
    }

    /** The id under which a commander for `slot` is registered: built from the stored proposal. */
    function CommanderIdFor(slot: int): CommanderId
      reads this
    {
      CommanderId(address, slot, Find(proposals, slot))
    }

    /** A new scout was spawned: view raised to viewId, round and leader id kept. */
    twostate predicate SpawnedScout()
      reads this
    {
      ballotNum == Ballot(viewId, old(ballotNum).n, old(ballotNum).leader)
      && scout.Some? && fresh(scout.value)
      && scout.value.ballot == ballotNum && scout.value.peers == peers
    }

    /**
     * The effect of preempted(challenger) on ballot, active flag and scout, where
     * `scoutBefore` is the scout field when preempted runs: the leader is
     * inactive, on the next ballot, and re-scouts exactly when no scout was
     * outstanding and it is primary.
     */
    twostate predicate PreemptedBy(challenger: Option<Ballot>, scoutBefore: Option<Scout>)
      reads this
    {
      !active
      && ballotNum == NextBallot(old(ballotNum), viewId, challenger)
      && if scoutBefore.None? && isPrimary == Some(true) then
           scout.Some? && fresh(scout.value)
           && scout.value.ballot == ballotNum && scout.value.peers == peers
         else
           scout == scoutBefore
    }

    /**
     * Commanders were only added: every old entry is kept, and every new one is
     * a fresh commander for a stored slot whose window is known, registered under
     * CommanderIdFor(slot) and started on the current ballot with the stored
     * proposal and the peers recorded ALPHA slots earlier.
     */
    twostate predicate CommandersExtended()
      reads this
    {
      (forall c :: c in old(commanders) ==> c in commanders && commanders[c] == old(commanders)[c])
      && forall c :: c in commanders && c !in old(commanders) ==>
           fresh(commanders[c]) && c.slot in proposals && c == CommanderIdFor(c.slot)
           && c.slot - alpha in peerHistory
           && commanders[c].ballot == ballotNum && commanders[c].slot == c.slot
           && commanders[c].proposal == proposals[c.slot]
           && commanders[c].peers == peerHistory[c.slot - alpha]
    }

    constructor (address: Address, uniqueId: int, alpha: Window, peerHistory: map<int, Peers>)
      ensures Valid()
      ensures this.address == address && this.uniqueId == uniqueId && this.alpha == alpha
      ensures ballotNum == Ballot(-1, 0, uniqueId) && !active
      ensures proposals == map[] && commanders == map[] && scout == None
      ensures viewId == -1 && peers == None && isPrimary == None
      ensures this.peerHistory == peerHistory
    {
      this.address := address;
      this.uniqueId := uniqueId;
      this.alpha := alpha;
      ballotNum := Ballot(-1, 0, uniqueId);
      active := false;
      proposals := map[];
      commanders := map[];
      scout := None;
      viewId := -1;
      peers := None;
      isPrimary := None;
      this.peerHistory := peerHistory;
    }

    /** on_update_peer_history_event: replace the peer history wholesale. */
    method OnUpdatePeerHistory(history: map<int, Peers>)
      requires Valid()
      modifies this`peerHistory
      ensures Valid() && peerHistory == history
    {
      peerHistory := history;
    }

    /**
     * on_view_change_event: record the view, then finish an outstanding scout
     * with a null result (which preempts), or preempt an active leader, or
     * scout if primary; otherwise nothing further changes.
     * `primary` is view_primary(viewid, peers), computed by view management.
     */
    method OnViewChange(slot: int, viewid: int, newPeers: Peers, primary: Address)
      requires Valid()
      modifies this
      ensures Valid()
      ensures viewId == viewid && peers == Some(newPeers) && isPrimary == Some(primary == address)
      ensures old(scout).Some? || old(active) ==> PreemptedBy(None, None)
      ensures old(scout).None? && !old(active) && primary == address ==> SpawnedScout() && !active
      ensures old(scout).None? && !old(active) && primary != address ==>
                ballotNum == old(ballotNum) && !active && scout == None
      ensures proposals == old(proposals) && commanders == old(commanders)
      ensures peerHistory == old(peerHistory)
    {
      viewId := viewid;
      peers := Some(newPeers);
      isPrimary := Some(primary == address);
      if scout.Some? {
        // the scout reports back at once with a null result
        ScoutFinished(false, None, map[]);
      } else if active {
        Preempted(None);
      } else if isPrimary.value {
        SpawnScout();
      }
    }

    /** spawn_scout: asserts no scout is outstanding; raises the ballot's view and starts a scout. */
    method SpawnScout()
      requires scout.None?
      modifies this`ballotNum, this`scout
      ensures SpawnedScout()
    {
      ballotNum := Ballot(viewId, ballotNum.n, ballotNum.leader);
      var sct := new Scout(ballotNum, peers);
      scout := Some(sct);
      sct.Start();
    }

    /**
     * scout_finished: clear the scout; when adopted, store the latest proposal
     * of every slot in `pvals`, re-spawn commanders for the stored slots
     * ALPHA past each peer-history key, and become active; otherwise preempt.
     * A null `adopted` is false.
     */
    method ScoutFinished(adopted: bool, challenger: Option<Ballot>, pvals: PVals)
      requires Valid()
      requires adopted || isPrimary.Some?
      modifies this
      ensures Valid()
      ensures !adopted ==> PreemptedBy(challenger, None)
      ensures !adopted ==> proposals == old(proposals) && commanders == old(commanders)
      ensures adopted ==> active && scout == None && ballotNum == old(ballotNum)
      ensures adopted ==> forall s :: s in Slots(pvals) ==>
                s in proposals && IsLatestProposal(pvals, s, proposals[s])
      ensures adopted ==> forall s :: s !in Slots(pvals) ==>
                Find(proposals, s) == Find(old(proposals), s)
      ensures adopted ==> CommandersExtended()
      ensures adopted ==> forall k :: k in peerHistory && k + alpha in proposals ==>
                CommanderIdFor(k + alpha) in commanders
      ensures viewId == old(viewId) && peers == old(peers) && isPrimary == old(isPrimary)
      ensures peerHistory == old(peerHistory)
    {
      scout := None;
      if adopted {
        var last := LastBySlot(pvals);
        StoreRecovered(last);
        RespawnCommanders();
        active := true;
      } else {
        Preempted(challenger);
      }
    }

    /** The second loop of scout_finished: copy every recovered slot into the store. */
    method StoreRecovered(last: map<int, Proposal>)
      modifies this`proposals
      ensures forall s :: s in last ==> s in proposals && proposals[s] == last[s]
      ensures forall s :: s !in last ==> Find(proposals, s) == Find(old(proposals), s)
    {
      var toCopy := last.Keys;
      while toCopy != {}
        invariant toCopy <= last.Keys
        invariant forall s :: s in last && s !in toCopy ==> s in proposals && proposals[s] == last[s]
        invariant forall s :: s !in last || s in toCopy ==> Find(proposals, s) == Find(old(proposals), s)
        decreases toCopy
      {
        var s := Pick(toCopy);
        proposals := proposals[s := last[s]];
        toCopy := toCopy - {s};
      }
    }

    /**
     * The third loop of scout_finished: for every peer-history key k whose slot
     * k + ALPHA is stored, spawn a commander for that slot on the current ballot.
     */
    method RespawnCommanders()
      requires Valid()
      modifies this`commanders
      ensures Valid()
      ensures CommandersExtended()
      ensures forall k :: k in peerHistory && k + alpha in proposals ==> CommanderIdFor(k + alpha) in commanders
    {
      var pending := peerHistory.Keys;
      while pending != {}
        invariant pending <= peerHistory.Keys
        invariant Valid()
        invariant CommandersExtended()
        invariant forall k :: k in peerHistory && k !in pending && k + alpha in proposals ==>
                    CommanderIdFor(k + alpha) in commanders
        decreases pending
      {
        var k := Pick(pending);
        var slot := k + alpha;
        if slot in proposals {
          SpawnCommander(ballotNum, slot, proposals[slot], peerHistory[k]);
        }
        pending := pending - {k};
      }
    }

    /**
     * preempted: become inactive, move to the next ballot and, when no scout
     * is outstanding and this member is primary, re-scout at once. The source
     * reads is_primary only when no scout is outstanding, so only then must a
     * view change have set it.
     */
    method Preempted(challenger: Option<Ballot>)
      requires Valid()
      requires scout.Some? || isPrimary.Some?
      modifies this`active, this`ballotNum, this`scout
      ensures Valid()
      ensures PreemptedBy(challenger, old(scout))
    {
      active := false;
      ballotNum := NextBallot(ballotNum, viewId, challenger);
      if scout.None? && isPrimary.value {
        SpawnScout();
      }
    }

    /**
     * spawn_commander: register a commander under CommanderIdFor(slot) unless
     * one is already live under that id. The commander runs `ballot` and the
     * `proposal` argument against the peers recorded at slot - ALPHA (the
     * `advisoryPeers` argument is ignored); a missing window key is an error
     * in the source.
     */
    method SpawnCommander(ballot: Ballot, slot: int, proposal: Proposal, advisoryPeers: Peers)
      requires slot - alpha in peerHistory
      modifies this`commanders
      ensures CommanderIdFor(slot) in old(commanders) ==> commanders == old(commanders)
      ensures commanders.Keys == old(commanders).Keys + {CommanderIdFor(slot)}
      ensures forall c :: c in old(commanders) ==> commanders[c] == old(commanders)[c]
      ensures CommanderIdFor(slot) !in old(commanders) ==>
                var cmd := commanders[CommanderIdFor(slot)];
                fresh(cmd) && cmd.ballot == ballot && cmd.slot == slot && cmd.proposal == proposal
                && cmd.id == CommanderIdFor(slot) && cmd.peers == peerHistory[slot - alpha]
    {
      var windowPeers := peerHistory[slot - alpha];
      var id := CommanderIdFor(slot);
      if id in commanders {
        return;
      }
      var cmd := new Commander(ballot, slot, proposal, id, windowPeers);
      commanders := commanders[id := cmd];
      cmd.Start();
    }

    /**
     * commander_finished: drop the live commander `id` (it must be live) and,
     * when it was preempted by `challenger`, preempt this leader.
     */
    method CommanderFinished(id: CommanderId, challenger: Option<Ballot>, preempted: bool)
      requires Valid()
      requires id in commanders
      requires preempted ==> scout.Some? || isPrimary.Some?
      modifies this
      ensures Valid()
      ensures commanders == old(commanders) - {id}
      ensures preempted ==> PreemptedBy(challenger, old(scout))
      ensures !preempted ==> ballotNum == old(ballotNum) && active == old(active) && scout == old(scout)
      ensures proposals == old(proposals) && viewId == old(viewId) && peers == old(peers)
      ensures isPrimary == old(isPrimary) && peerHistory == old(peerHistory)
    {
      commanders := commanders - {id};
      if preempted {
        Preempted(challenger);
      }
    }

    /**
     * do_PROPOSE: a slot already stored is left alone; an active leader stores
     * the proposal and spawns its commander when the window slot - ALPHA is
     * known, and drops it otherwise; an inactive leader never stores it, and
     * scouts when no scout is outstanding.
     */
    method DoPropose(slot: int, proposal: Proposal)
      requires Valid()
      modifies this
      ensures Valid()
      ensures slot in old(proposals) ==> unchanged(this)
      ensures slot !in old(proposals) && old(active) && slot - alpha !in peerHistory ==> unchanged(this)
      ensures slot !in old(proposals) && old(active) && slot - alpha in peerHistory ==>
                proposals == old(proposals)[slot := proposal]
                && CommanderIdFor(slot) == CommanderId(address, slot, Some(proposal))
                && CommanderIdFor(slot) !in old(commanders)
                && commanders.Keys == old(commanders).Keys + {CommanderIdFor(slot)}
                && CommandersExtended()
                && ballotNum == old(ballotNum) && active && scout == old(scout)
      ensures slot !in old(proposals) && !old(active) && old(scout).Some? ==> unchanged(this)
      ensures slot !in old(proposals) && !old(active) && old(scout).None? ==>
                SpawnedScout() && !active && proposals == old(proposals) && commanders == old(commanders)
      ensures forall s :: s in old(proposals) ==> s in proposals && proposals[s] == old(proposals)[s]
      ensures viewId == old(viewId) && peers == old(peers) && isPrimary == old(isPrimary)
      ensures peerHistory == old(peerHistory)
    {
      if slot !in proposals {
        if active {
          if slot - alpha !in peerHistory {
            return;
          }
          proposals := proposals[slot := proposal];
          SpawnCommander(ballotNum, slot, proposal, peerHistory[slot - alpha]);
        } else {
          if scout.None? {
            SpawnScout();
          }
        }
      }
    }
  }
}
