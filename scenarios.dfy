/**
 * Clients of the leader that follow a few concrete runs and check, from the
 * handlers' contracts alone, the outcome each run is expected to have.
 */
module Scenarios {
  import opened Protocol
  import opened Handles
  import opened PaxosLeader

  /** A fresh leader that becomes primary of view 7 and then has its scout adopted with no pvals. */
  method PrimaryAdoptsEmptyLog()
  {
    var members := ["A", "B", "C"];
    var l := new Leader("A", 1, 3, map[0 := members]);
    l.OnViewChange(0, 7, members, "A");
    assert l.ballotNum == Ballot(7, 0, 1) && l.scout.Some? && !l.active;

    l.ScoutFinished(true, Some(l.ballotNum), map[]);
    assert Slots(map[]) == {};
    assert forall s :: Find(l.proposals, s) == None;
    assert l.active && l.scout == None && l.commanders == map[];
  }

  /** With ALPHA = 3 and windows {50, 60, 70}, slot 105 is dropped and slot 63 gets a commander. */
  method ActiveLeaderWindowGating()
  {
    var members := ["A", "B", "C"];
    var l := new Leader("A", 1, 3, map[50 := members, 60 := members, 70 := members]);
    l.OnViewChange(0, 7, members, "A");
    l.ScoutFinished(true, Some(l.ballotNum), map[]);
    assert l.active;

    var before := l.commanders;
    l.DoPropose(105, "x");
    assert 105 !in l.proposals && l.commanders == before;

    l.DoPropose(63, "y");
    assert l.proposals[63] == "y";
    assert CommanderId("A", 63, Some("y")) in l.commanders;

    // a second request for the same slot changes nothing
    var commanders := l.commanders;
    l.DoPropose(63, "z");
    assert l.proposals[63] == "y" && l.commanders == commanders;
  }

  /** A leader that is not primary for the new view is preempted and waits without a scout. */
  method NonPrimaryIsPreemptedAndWaits()
  {
    var members := ["A", "B", "C"];
    var l := new Leader("A", 1, 3, map[]);
    l.OnViewChange(0, 7, members, "A");
    l.ScoutFinished(true, Some(l.ballotNum), map[]);
    assert l.active && l.ballotNum == Ballot(7, 0, 1);

    l.OnViewChange(10, 8, members, "B");
    assert !l.active && l.scout == None && l.ballotNum == Ballot(8, 1, 1);
  }

  /** A scout that is not adopted makes a primary leader re-scout past the challenger's round. */
  method RejectedScoutReScouts()
  {
    var members := ["A", "B"];
    var l := new Leader("A", 1, 3, map[]);
    l.OnViewChange(0, 2, members, "A");
    l.ScoutFinished(false, Some(Ballot(2, 4, 9)), map[]);
    assert !l.active && l.ballotNum == Ballot(2, 5, 1);
    assert l.scout.Some? && l.scout.value.ballot == Ballot(2, 5, 1);
  }

  /** First stage of OldCommanderLowersRound: become active on (4, 0, 1) and start a commander for slot 3. */
  method ProposeOnFirstBallot() returns (l: Leader, id: CommanderId)
    ensures fresh(l) && l.Valid() && l.address == "A" && l.isPrimary == Some(true)
    ensures l.active && l.ballotNum == Ballot(4, 0, 1) && l.viewId == 4
    ensures id in l.commanders && l.commanders[id].ballot == Ballot(4, 0, 1)
  {
    var members := ["A", "B", "C"];
    l := new Leader("A", 1, 3, map[0 := members]);
    l.OnViewChange(0, 4, members, "A");
    l.ScoutFinished(true, Some(l.ballotNum), map[]);
    assert l.active && l.ballotNum == Ballot(4, 0, 1);

    l.DoPropose(3, "x");
    id := CommanderId("A", 3, Some("x"));
  }

  /**
   * Second stage: a view change within view 4 and a scout rejected by (4, 4, 2)
   * take the leader to (4, 5, 1); the next scout is adopted and the old
   * commander is still live.
   */
  method ReScoutPastChallenger(l: Leader, id: CommanderId)
    requires l.Valid() && l.address == "A" && l.isPrimary == Some(true)
    requires l.active && l.ballotNum == Ballot(4, 0, 1) && l.viewId == 4
    requires id in l.commanders
    modifies l
    ensures l.Valid() && l.isPrimary == Some(true) && l.viewId == 4
    ensures l.active && l.ballotNum == Ballot(4, 5, 1)
    ensures id in l.commanders && l.commanders[id] == old(l.commanders[id])
  {
    l.OnViewChange(5, 4, ["A", "B", "C"], "A");
    assert l.ballotNum == Ballot(4, 1, 1) && l.scout.Some?;
    l.ScoutFinished(false, Some(Ballot(4, 4, 2)), map[]);
    assert l.ballotNum == Ballot(4, 5, 1) && l.scout.Some?;
    l.ScoutFinished(true, Some(l.ballotNum), map[]);
  }

  /**
   * A commander started on ballot (4, 0, 1) outlives two preemptions that take
   * the leader to (4, 5, 1); when it reports a preemption by (4, 2, 2), the
   * leader's ballot drops to (4, 3, 1).
   */
  method OldCommanderLowersRound()
  {
    var l, id := ProposeOnFirstBallot();
    ReScoutPastChallenger(l, id);
    assert l.commanders[id].ballot == Ballot(4, 0, 1);

    l.CommanderFinished(id, Some(Ballot(4, 2, 2)), true);
    assert !l.active && l.ballotNum == Ballot(4, 3, 1);
    assert Less(l.ballotNum, Ballot(4, 5, 1));
  }
}
