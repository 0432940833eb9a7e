# Multi-Paxos leader role, modelled in Dafny

This project models the leader of a multi-Paxos replicated log, `Leader` in
`cluster/leader.py`. The leader owns:

- a ballot `(view, n, leader)`;
- an `active` flag;
- a sparse slot-to-proposal store;
- at most one outstanding scout (phase 1);
- a map of live commanders (phase 2), keyed by `CommanderId(address, slot, proposal)`;
- the latest view snapshot (`viewId`, `peers`, `isPrimary`);
- the peer history, which maps a view slot to the peer set of that view.

The leader reacts to peer-history updates, view changes, scout results,
commander results and `PROPOSE` requests. Each handler is an atomic
transition of the class `PaxosLeader.Leader`.

Files:

- `protocol.dfy` (module `Protocol`): addresses, proposals, `Option`, ballots
  with their lexicographic order, and commander ids.
- `handles.dfy` (module `Handles`): `Scout` and `Commander` as opaque handle
  objects. A handle only records what it was created with, and `Start()` does
  nothing.
- `leader.dfy` (module `PaxosLeader`):
  - the recovery rule, stated as a specification (`IsLatest`,
    `IsLatestProposal`, `RecoveredFrom`);
  - the loop that computes it (`LastBySlot`);
  - the ballot arithmetic of preemption (`NextBallot`);
  - the class `Leader`, whose object invariant `Valid()` every handler keeps.
- `scenarios.dfy` (module `Scenarios`): client methods that follow concrete
  runs and check the expected outcome from the handlers' contracts alone:
  - a primary that adopts an empty log;
  - window gating with ALPHA = 3;
  - a non-primary that is preempted by a view change;
  - a rejected scout that leads to a re-scout;
  - a commander of an older ballot whose preemption lowers the leader's round.

`Valid()` states three things:

- the ballot's leader id is always the leader's own id;
- an active leader has no outstanding scout;
- every live commander is registered under its own id, which names this
  leader and a slot of the store.

Each handler's contract gives its whole new state. Three two-state predicates
name the effects that several handlers share:

- `SpawnedScout`: the view is set to `viewId`, the round and leader id are
  kept, and a fresh scout exists for the new ballot;
- `PreemptedBy`: the leader is inactive and on `NextBallot`, and it has
  re-scouted exactly when no scout was outstanding and it is primary;
- `CommandersExtended`: commanders were only added, each new one is fresh and
  registered under the id built from the stored proposal of its slot.

Model choices:

- `view_primary(viewid, peers)` belongs to view management. It is an input of
  `OnViewChange` (`primary`); `isPrimary` becomes `Some(primary == address)`.
- `is_primary` is not set until the first view change. `preempted` reads it
  only when no scout is outstanding, and reading it unset fails. `isPrimary`
  is therefore `None` at first. `Preempted`, `ScoutFinished` (when not
  adopted) and `CommanderFinished` (when preempted) require it to be set
  exactly where the source would read it.
- The scout's `finished(None, None)` at line 32 is modelled as the synchronous
  call `ScoutFinished(false, None, map[])`, which then preempts. A null
  `adopted` reads as false.
- ALPHA is a positive constant whose value is not shown. It is a constant
  field `alpha` of type `Window` (a positive int) fixed by the constructor.
  Every proof holds for any positive value.
- The proposal store (`defaultlist`) is a `map<int, Proposal>`; an absent slot
  reads as `None` (`Protocol.Find`).
- `pvals` is a `map<(Ballot, int), Proposal>`.
- Internal methods and loops are framed field by field (for example
  ``modifies this`commanders``), so their contracts need not repeat what stays
  the same.

Lines 78-81 set the new round to the challenger's round + 1, whatever the
leader's own round is, so a leader's round can go down.
`NextBallotCanLowerOwnRound` shows the arithmetic, and the scenario
`OldCommanderLowersRound` reaches it through the handlers: a commander started
on an older ballot reports a preemption by a ballot that is still below the
leader's current one.

## Model

| member | source | states |
|---|---|---|
| Protocol.LessIsStrictTotalOrder | cluster/leader.py:51 | the ballot order behind `sorted(pvals.keys())` is irreflexive, transitive and total |
| PaxosLeader.LatestBallotIsUnique | cluster/leader.py:51-54 | each slot of `pvals` has at most one highest ballot |
| PaxosLeader.RecoveryIsDeterministic | cluster/leader.py:50-54 | two maps that both keep, for every reported slot, the proposal of its highest ballot are equal, so the recovered value does not depend on the visiting order |
| PaxosLeader.RecoveryPicksHighestBallot | cluster/leader.py:50-57 | for proposals p1 under (1,0,1) and p2 under (2,0,2) in slot 5, recovery yields exactly {5: p2} |
| PaxosLeader.LastBySlot | cluster/leader.py:50-54 | the result maps exactly the slots named in `pvals`, each to the proposal accepted under that slot's highest ballot |
| PaxosLeader.NextBallot | cluster/leader.py:78-81 | the preemption ballot has the current view and the leader's own id, and its round is above the challenger's round, or above the leader's own round when there is no challenger |
| PaxosLeader.NextBallotDominates | cluster/leader.py:78-81 | when the view has not gone backwards, the new ballot is strictly fresher than the challenger (or than the old own ballot after a view change) |
| PaxosLeader.NextBallotCanLowerOwnRound | cluster/leader.py:78-81 | leader (4,5,1) preempted by (4,2,2) in view 4 moves to (4,3,1), which is below its old ballot |
| PaxosLeader.Leader.constructor | cluster/leader.py:9-20 | the initial state: ballot (-1, 0, id), inactive, empty store, no commanders, no scout, view -1, no peers, primary flag unset, the given peer history; the object invariant holds |
| PaxosLeader.Leader.OnUpdatePeerHistory | cluster/leader.py:22-23 | the peer history is replaced wholesale and nothing else changes |
| PaxosLeader.Leader.OnViewChange | cluster/leader.py:25-36 | view, peers and primary flag are recorded; with a scout outstanding or while active, the leader ends preempted with no challenger; otherwise a primary spawns a scout and a non-primary keeps ballot, flag and (absent) scout; store, commanders and history are untouched |
| PaxosLeader.Leader.SpawnScout | cluster/leader.py:38-42 | requires no outstanding scout; afterwards a fresh scout exists for ballot (viewId, old n, old leader) and the current peers, and nothing else changes |
| PaxosLeader.Leader.ScoutFinished | cluster/leader.py:44-69 | adopted: scout cleared, every slot of `pvals` holds its latest proposal, other slots keep their value, commanders are only added and exactly for the stored slots k + ALPHA of peer-history keys k, and the leader is active on the same ballot; not adopted: preempted by the reported ballot with store and commanders untouched |
| PaxosLeader.Leader.StoreRecovered | cluster/leader.py:55-57 | every recovered slot holds its recovered proposal and every other slot keeps its old value |
| PaxosLeader.Leader.RespawnCommanders | cluster/leader.py:59-63 | for every peer-history key k whose slot k + ALPHA is stored, the commander id of that slot is live; commanders are only added, on the current ballot with the stored proposal and the window's peers |
| PaxosLeader.Leader.Preempted | cluster/leader.py:71-85 | the leader is inactive on `NextBallot(old ballot, viewId, challenger)`; a fresh scout for that ballot exists exactly when none was outstanding and the leader is primary, otherwise the scout field is unchanged |
| PaxosLeader.Leader.SpawnCommander | cluster/leader.py:87-94 | requires the window slot - ALPHA to be known; the commander id is built from the stored proposal; if it is already live nothing changes, otherwise exactly that id is added, with a fresh commander for the given ballot and proposal and the window's peers, and every other entry is kept |
| PaxosLeader.Leader.CommanderFinished | cluster/leader.py:96-99 | requires the id to be live; removes exactly that id; when preempted, the leader goes through preemption by the reported ballot and ends inactive, otherwise ballot, flag and scout are unchanged |
| PaxosLeader.Leader.DoPropose | cluster/leader.py:101-118 | a stored slot changes nothing; an active leader without the window changes nothing; an active leader with the window stores the proposal and adds exactly one new commander for it; an inactive leader never stores and spawns a scout only if none is outstanding; no stored slot is ever overwritten |

## Left out

- Scout and Commander internals (phase 1 and 2 messaging, quorum counting, `start()` network activity): they are external. They appear only as handle objects that record their creation arguments.
- The `Component` base class, event dispatch and `self.logger`: logging has no effect on state. `self.address` is a constructor argument.
- The `commander_cls` and `scout_cls` factory arguments: the handle classes are used directly.
- `view_primary`: it is an input to `OnViewChange`. The `slot` argument of the view-change event is unused, as in the source.
- Concurrency and serialisation of callbacks: every handler is one atomic sequential transition.
- The sort at line 51 and the orders of the loops at lines 51 and 59: the loops visit keys in an arbitrary order. Recovery keeps a running maximum per slot, which gives the same result as taking the first proposal of the descending walk. The order in which commanders are started is not observable in the model.
- Negative slot indices of `defaultlist`: the store and the recovered map are maps over all integers. Python list indexing from the end for a negative slot is not modelled.
- The value of ALPHA and the field layout of `Ballot`, `CommanderId` and proposals (module `protocol`, not part of this model): proposals are opaque strings, and leader ids are integers ordered numerically.
- NextBallot: its ensures states only that the new round is strictly above the challenger's (or the own) round. The exact `+ 1` is fixed by its body, which the handlers use through `PreemptedBy`.
- Preempted: requires `isPrimary` to be set when no scout is outstanding. The source reads the unset `is_primary` at line 83 there and fails; one way to reach it is `do_PROPOSE` before any view change followed by a rejected scout. The model does not describe that failure.
- ScoutFinished: requires `isPrimary` to be set when the scout was not adopted, for the same reason (it preempts with the scout already cleared).
- CommanderFinished: requires `isPrimary` to be set or a scout to be outstanding when the commander was preempted, for the same reason.
