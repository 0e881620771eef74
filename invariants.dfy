/** What every reachable state of the election satisfies, why each call keeps
    it, and what follows for whole runs of calls. */
module ElectionInvariants {
  import opened Election
  import ElectionCalls

  /** The registered voters whose ballot went to proposal `id`. */
  ghost function Ballots(voters: map<Address, Voter>, id: nat): set<Address>
  {
    set a | a in voters && voters[a].hasVoted && voters[a].votedProposalId == id
  }

  /** The registered voters who have cast their ballot. */
  ghost function VotersWhoVoted(voters: map<Address, Voter>): set<Address>
  {
    set a | a in voters && voters[a].hasVoted
  }

  /** The sum of the vote counts of all proposals. */
  ghost function TotalVotes(ps: seq<Proposal>): nat
  {
    if ps == [] then 0 else TotalVotes(ps[..|ps| - 1]) + ps[|ps| - 1].voteCount
  }

  /** The election's invariant:
      - the proposal list is empty exactly while voters are being registered,
        and from then on starts with GENESIS; no description is empty;
      - every stored voter record is registered; a voter who has not voted
        has the default proposal id; a ballot names an existing proposal and
        is only cast once the voting session has started;
      - each proposal's count is the number of voters whose ballot names it;
      - the winning id is 0 until the tally, and then names a proposal with
        a maximal count. */
  ghost predicate Inv(s: ElectionState)
  {
    && (s.status == RegisteringVoters <==> s.proposals == [])
    && (s.proposals != [] ==> s.proposals[0].description == Genesis)
    && (forall i | 0 <= i < |s.proposals| :: s.proposals[i].description != "")
    && (forall a | a in s.voters :: s.voters[a].isRegistered)
    && (forall a | a in s.voters && !s.voters[a].hasVoted :: s.voters[a].votedProposalId == 0)
    && (forall a | a in s.voters && s.voters[a].hasVoted ::
          s.voters[a].votedProposalId < |s.proposals| && s.status.Code() >= 3)
    && (forall i | 0 <= i < |s.proposals| :: s.proposals[i].voteCount == |Ballots(s.voters, i)|)
    && (if s.status == VotesTallied then IsWinner(s.proposals, s.winningProposalID)
        else s.winningProposalID == 0)
  }

  lemma InitialInv(deployer: Address)
    ensures Inv(Initial(deployer))
  {
  }

  /** A first ballot for `id` adds the voter to `id`'s box and to no other. */
  lemma BallotsAfterVote(voters: map<Address, Voter>, c: Address, id: nat, i: nat)
    requires c in voters && !voters[c].hasVoted
    ensures var voters' := voters[c := voters[c].(hasVoted := true, votedProposalId := id)];
      && (i == id ==> Ballots(voters', i) == Ballots(voters, i) + {c} && c !in Ballots(voters, i))
      && (i != id ==> Ballots(voters', i) == Ballots(voters, i))
  {
  }

  lemma AddVoterKeepsInv(s: ElectionState, caller: Address, addr: Address)
    requires Inv(s)
    ensures Inv(AddVoter(s, caller, addr).after)
  {
  }

  lemma AddProposalKeepsInv(s: ElectionState, caller: Address, description: string)
    requires Inv(s)
    ensures Inv(AddProposal(s, caller, description).after)
  {
  }

  lemma SetVoteKeepsInv(s: ElectionState, caller: Address, id: nat)
    requires Inv(s)
    ensures Inv(SetVote(s, caller, id).after)
  {
    var t := SetVote(s, caller, id);
    if t.outcome.Ok? {
      assert caller in s.voters;
      forall i | 0 <= i < |t.after.proposals|
        ensures t.after.proposals[i].voteCount == |Ballots(t.after.voters, i)|
      {
        BallotsAfterVote(s.voters, caller, id, i);
      }
    }
  }

  lemma StartProposalsRegisteringKeepsInv(s: ElectionState, caller: Address)
    requires Inv(s)
    ensures Inv(StartProposalsRegistering(s, caller).after)
  {
  }

  /** The three transitions that only move the phase on. */
  lemma PhaseChangeKeepsInv(s: ElectionState, caller: Address, from: WorkflowStatus, reason: string)
    requires Inv(s)
    requires from.ProposalsRegistrationStarted? || from.ProposalsRegistrationEnded? || from.VotingSessionStarted?
    ensures Inv(Advance(s, caller, from, reason).after)
  {
  }

  lemma TallyVotesKeepsInv(s: ElectionState, caller: Address, winner: nat)
    requires Inv(s)
    requires TallyVotes(s, caller, winner).outcome.Ok? ==> IsWinner(s.proposals, winner)
    ensures Inv(TallyVotes(s, caller, winner).after)
  {
  }

  /** Every call, successful or reverted, keeps the invariant. */
  lemma StepKeepsInv(s: ElectionState, caller: Address, op: ElectionCalls.Op, t: Transition)
    requires Inv(s) && ElectionCalls.Step(s, caller, op, t)
    ensures Inv(t.after)
  {
    match op
    case AddVoter(a) => AddVoterKeepsInv(s, caller, a);
    case AddProposal(d) => AddProposalKeepsInv(s, caller, d);
    case SetVote(id) => SetVoteKeepsInv(s, caller, id);
    case StartProposalsRegistering => StartProposalsRegisteringKeepsInv(s, caller);
    case EndProposalsRegistering => PhaseChangeKeepsInv(s, caller, ProposalsRegistrationStarted, ProposalsNotStarted);
    case StartVotingSession => PhaseChangeKeepsInv(s, caller, ProposalsRegistrationEnded, ProposalsNotFinished);
    case EndVotingSession => PhaseChangeKeepsInv(s, caller, VotingSessionStarted, VotingNotStarted);
    case TallyVotes => TallyVotesKeepsInv(s, caller, t.after.winningProposalID);
  }

  /** The voters whose ballot names one of the first `n` proposals. */
  ghost function VotedBelow(voters: map<Address, Voter>, n: nat): set<Address>
  {
    set a | a in voters && voters[a].hasVoted && voters[a].votedProposalId < n
  }

  lemma {:induction false} TotalVotesBelow(s: ElectionState, n: nat)
    requires Inv(s) && n <= |s.proposals|
    ensures TotalVotes(s.proposals[..n]) == |VotedBelow(s.voters, n)|
  {
    if n == 0 {
      assert VotedBelow(s.voters, 0) == {};
    } else {
      TotalVotesBelow(s, n - 1);
      assert s.proposals[..n][..n - 1] == s.proposals[..n - 1];
      var below, box := VotedBelow(s.voters, n - 1), Ballots(s.voters, n - 1);
      assert VotedBelow(s.voters, n) == below + box;
      assert below * box == {};
    }
  }

  /** The counts of all proposals add up to the number of voters who voted:
      no ballot is lost and none is counted twice. */
  lemma VoteAccounting(s: ElectionState)
    requires Inv(s)
    ensures TotalVotes(s.proposals) == |VotersWhoVoted(s.voters)|
  {
    TotalVotesBelow(s, |s.proposals|);
    assert s.proposals[..|s.proposals|] == s.proposals;
    assert VotedBelow(s.voters, |s.proposals|) == VotersWhoVoted(s.voters);
  }

  /** After the tally, no proposal was chosen by more voters than the winner. */
  lemma WinnerHasMostBallots(s: ElectionState)
    requires Inv(s) && s.status == VotesTallied
    ensures s.winningProposalID < |s.proposals|
    ensures forall i | 0 <= i < |s.proposals| ::
      |Ballots(s.voters, i)| <= |Ballots(s.voters, s.winningProposalID)|
  {
  }

  /** What a state may become through any sequence of calls: the owner stays,
      the phase never goes back, registered voters stay registered, a cast
      ballot is never changed, proposals are only appended and their counts
      never drop. */
  ghost predicate Progress(s: ElectionState, s': ElectionState)
  {
    && s'.owner == s.owner
    && s.status.Code() <= s'.status.Code()
    && (forall a | a in s.voters && s.voters[a].isRegistered :: a in s'.voters && s'.voters[a].isRegistered)
    && (forall a | a in s.voters && s.voters[a].isRegistered && s.voters[a].hasVoted ::
          a in s'.voters && s'.voters[a] == s.voters[a])
    && |s.proposals| <= |s'.proposals|
    && (forall i | 0 <= i < |s.proposals| ::
          && s'.proposals[i].description == s.proposals[i].description
          && s.proposals[i].voteCount <= s'.proposals[i].voteCount)
  }

  lemma ProgressTransitive(s1: ElectionState, s2: ElectionState, s3: ElectionState)
    requires Progress(s1, s2) && Progress(s2, s3)
    ensures Progress(s1, s3)
  {
  }

  /** One call makes progress, and moves the phase by at most one step, only
      when it succeeds and announces the change. */
  lemma StepProgress(s: ElectionState, caller: Address, op: ElectionCalls.Op, t: Transition)
    requires ElectionCalls.Step(s, caller, op, t)
    ensures Progress(s, t.after)
    ensures t.after.status != s.status ==>
      && !s.status.VotesTallied?
      && t.after.status == s.status.Next()
      && t.outcome == Ok(WorkflowStatusChange(s.status, s.status.Next()))
  {
  }

  /** A call as the dispatching environment sees it: who calls, and what. */
  datatype Call = Call(caller: Address, op: ElectionCalls.Op)

  /** `states[k + 1]` is a possible state after `calls[k]` in `states[k]`,
      with outcome `outcomes[k]`. */
  ghost predicate IsRun(states: seq<ElectionState>, calls: seq<Call>, outcomes: seq<Outcome>)
  {
    && |states| == |calls| + 1
    && |outcomes| == |calls|
    && forall k | 0 <= k < |calls| ::
         ElectionCalls.Step(states[k], calls[k].caller, calls[k].op, Transition(outcomes[k], states[k + 1]))
  }

  lemma {:induction false} RunKeepsInv(states: seq<ElectionState>, calls: seq<Call>, outcomes: seq<Outcome>, k: nat)
    requires IsRun(states, calls, outcomes) && Inv(states[0]) && k < |states|
    ensures Inv(states[k])
  {
    if k > 0 {
      RunKeepsInv(states, calls, outcomes, k - 1);
      StepKeepsInv(states[k - 1], calls[k - 1].caller, calls[k - 1].op, Transition(outcomes[k - 1], states[k]));
    }
  }

  lemma {:induction false} RunProgress(states: seq<ElectionState>, calls: seq<Call>, outcomes: seq<Outcome>, j: nat, k: nat)
    requires IsRun(states, calls, outcomes) && j <= k < |states|
    ensures Progress(states[j], states[k])
  {
    if j < k {
      RunProgress(states, calls, outcomes, j, k - 1);
      StepProgress(states[k - 1], calls[k - 1].caller, calls[k - 1].op, Transition(outcomes[k - 1], states[k]));
      ProgressTransitive(states[j], states[k - 1], states[k]);
    }
  }

  /** Every state reached from a deployment satisfies the invariant, and the
      phase along the run never decreases. */
  lemma ReachableStates(deployer: Address, states: seq<ElectionState>, calls: seq<Call>, outcomes: seq<Outcome>)
    requires IsRun(states, calls, outcomes) && states[0] == Initial(deployer)
    ensures forall k | 0 <= k < |states| :: Inv(states[k])
    ensures forall j, k | 0 <= j <= k < |states| :: states[j].status.Code() <= states[k].status.Code()
  {
    InitialInv(deployer);
    forall k | 0 <= k < |states| ensures Inv(states[k]) {
      RunKeepsInv(states, calls, outcomes, k);
    }
    forall j, k | 0 <= j <= k < |states|
      ensures states[j].status.Code() <= states[k].status.Code()
    {
      RunProgress(states, calls, outcomes, j, k);
    }
  }

  /** A voter who has voted can never vote again, whatever happens later:
      during the voting session the call reverts with "You have already
      voted", and outside it with the phase's reason. */
  lemma VotedNeverVotesAgain(states: seq<ElectionState>, calls: seq<Call>, outcomes: seq<Outcome>,
                             j: nat, k: nat, voter: Address, id: nat)
    requires IsRun(states, calls, outcomes) && j <= k < |states| && Inv(states[j])
    requires VoterOf(states[j].voters, voter).hasVoted
    ensures SetVote(states[k], voter, id).outcome.Err?
    ensures states[k].status == VotingSessionStarted ==>
      SetVote(states[k], voter, id).outcome == Err(Reverted(AlreadyVoted))
  {
    RunProgress(states, calls, outcomes, j, k);
    assert states[k].voters[voter] == states[j].voters[voter];
  }

  /** Owner rule: every owner-only call by anyone else reverts with
      OwnableUnauthorizedAccount(caller) and changes nothing. */
  lemma OwnerOnly(s: ElectionState, caller: Address, addr: Address, winner: nat)
    requires caller != s.owner
    ensures var revert := Transition(Err(OwnableUnauthorizedAccount(caller)), s);
      && AddVoter(s, caller, addr) == revert
      && StartProposalsRegistering(s, caller) == revert
      && EndProposalsRegistering(s, caller) == revert
      && StartVotingSession(s, caller) == revert
      && EndVotingSession(s, caller) == revert
      && TallyVotes(s, caller, winner) == revert
  {
  }

  /** Each phase transition, once it has succeeded, reverts with its own
      reason when called again. */
  lemma TransitionsDoNotRepeat(s: ElectionState, caller: Address, winner: nat)
    ensures var t := StartProposalsRegistering(s, caller);
      t.outcome.Ok? ==> StartProposalsRegistering(t.after, caller).outcome == Err(Reverted(CannotStartProposals))
    ensures var t := EndProposalsRegistering(s, caller);
      t.outcome.Ok? ==> EndProposalsRegistering(t.after, caller).outcome == Err(Reverted(ProposalsNotStarted))
    ensures var t := StartVotingSession(s, caller);
      t.outcome.Ok? ==> StartVotingSession(t.after, caller).outcome == Err(Reverted(ProposalsNotFinished))
    ensures var t := EndVotingSession(s, caller);
      t.outcome.Ok? ==> EndVotingSession(t.after, caller).outcome == Err(Reverted(VotingNotStarted))
    ensures var t := TallyVotes(s, caller, winner);
      t.outcome.Ok? ==> TallyVotes(t.after, caller, winner).outcome == Err(Reverted(NotVotingSessionEnded))
  {
  }

  /** A registered address reads as registered, and registering it again
      reverts with "Already registered". */
  lemma RegisterTwiceFails(s: ElectionState, caller: Address, addr: Address)
    requires AddVoter(s, caller, addr).outcome.Ok?
    ensures var t := AddVoter(s, caller, addr);
      && t.outcome == Ok(VoterRegistered(addr))
      && VoterOf(t.after.voters, addr) == Voter(true, false, 0)
      && AddVoter(t.after, caller, addr) == Transition(Err(Reverted(AlreadyRegistered)), t.after)
  {
  }

  /** A caller who is not a registered voter is turned away from proposing
      and voting before any phase or argument check. */
  lemma NonVotersRejectedFirst(s: ElectionState, caller: Address, description: string, id: nat)
    requires !VoterOf(s.voters, caller).isRegistered
    ensures AddProposal(s, caller, description) == Transition(Err(Reverted(NotAVoter)), s)
    ensures SetVote(s, caller, id) == Transition(Err(Reverted(NotAVoter)), s)
  {
  }

  /** Which reason each guard reverts with, once the guards checked before
      it have passed: the owner or voter check, then the phase, then the
      arguments. Every such revert leaves the state as it was. */
  lemma RevertReasons(s: ElectionState, caller: Address, addr: Address, description: string, id: nat, winner: nat)
    ensures caller == s.owner && s.status != RegisteringVoters ==>
      AddVoter(s, caller, addr) == Transition(Err(Reverted(VotersRegistrationClosed)), s)
    ensures caller == s.owner && s.status == RegisteringVoters && VoterOf(s.voters, addr).isRegistered ==>
      AddVoter(s, caller, addr) == Transition(Err(Reverted(AlreadyRegistered)), s)
    ensures VoterOf(s.voters, caller).isRegistered && s.status != ProposalsRegistrationStarted ==>
      AddProposal(s, caller, description) == Transition(Err(Reverted(ProposalsNotAllowed)), s)
    ensures VoterOf(s.voters, caller).isRegistered && s.status == ProposalsRegistrationStarted && description == "" ==>
      AddProposal(s, caller, description) == Transition(Err(Reverted(EmptyDescription)), s)
    ensures VoterOf(s.voters, caller).isRegistered && s.status != VotingSessionStarted ==>
      SetVote(s, caller, id) == Transition(Err(Reverted(VotingNotStarted)), s)
    ensures VoterOf(s.voters, caller).isRegistered && s.status == VotingSessionStarted && VoterOf(s.voters, caller).hasVoted ==>
      SetVote(s, caller, id) == Transition(Err(Reverted(AlreadyVoted)), s)
    ensures && VoterOf(s.voters, caller).isRegistered && s.status == VotingSessionStarted
            && !VoterOf(s.voters, caller).hasVoted && id >= |s.proposals| ==>
      SetVote(s, caller, id) == Transition(Err(Reverted(ProposalNotFound)), s)
    ensures caller == s.owner && s.status != RegisteringVoters ==>
      StartProposalsRegistering(s, caller) == Transition(Err(Reverted(CannotStartProposals)), s)
    ensures caller == s.owner && s.status != ProposalsRegistrationStarted ==>
      EndProposalsRegistering(s, caller) == Transition(Err(Reverted(ProposalsNotStarted)), s)
    ensures caller == s.owner && s.status != ProposalsRegistrationEnded ==>
      StartVotingSession(s, caller) == Transition(Err(Reverted(ProposalsNotFinished)), s)
    ensures caller == s.owner && s.status != VotingSessionStarted ==>
      EndVotingSession(s, caller) == Transition(Err(Reverted(VotingNotStarted)), s)
    ensures caller == s.owner && s.status != VotingSessionEnded ==>
      TallyVotes(s, caller, winner) == Transition(Err(Reverted(NotVotingSessionEnded)), s)
  {
  }

  /** A successful addProposal gives the new proposal the next id in creation
      order, with no votes; it reads back at that id, every earlier id reads
      as before, and the voters and the phase are untouched. */
  lemma ProposalGetsNextId(s: ElectionState, caller: Address, description: string, i: nat)
    requires AddProposal(s, caller, description).outcome.Ok?
    ensures var t := AddProposal(s, caller, description);
      && t.outcome == Ok(ProposalRegistered(|s.proposals|))
      && GetOneProposal(t.after, |s.proposals|) == Some(Proposal(description, 0))
      && GetOneProposal(t.after, |s.proposals| + 1) == None
      && (i < |s.proposals| ==> GetOneProposal(t.after, i) == GetOneProposal(s, i))
      && t.after.voters == s.voters && t.after.status == s.status
      && t.after.owner == s.owner && t.after.winningProposalID == s.winningProposalID
  {
  }

  /** Opening proposal registration creates GENESIS at id 0, so the first
      proposal a voter submits gets id 1. */
  lemma FirstProposalGetsIdOne(s: ElectionState, voter: Address, description: string)
    requires Inv(s) && s.status == RegisteringVoters
    requires VoterOf(s.voters, voter).isRegistered && description != ""
    ensures var t1 := StartProposalsRegistering(s, s.owner);
      var t2 := AddProposal(t1.after, voter, description);
      && t1.outcome == Ok(WorkflowStatusChange(RegisteringVoters, ProposalsRegistrationStarted))
      && GetOneProposal(t1.after, 0) == Some(Proposal(Genesis, 0))
      && t2.outcome == Ok(ProposalRegistered(1))
      && GetOneProposal(t2.after, 1) == Some(Proposal(description, 0))
  {
  }

  /** A successful vote is recorded on the voter and counted once on the
      proposal, and any second vote by the same voter reverts. */
  lemma VoteIsRecordedOnce(s: ElectionState, caller: Address, id: nat, id': nat)
    requires SetVote(s, caller, id).outcome.Ok?
    ensures var t := SetVote(s, caller, id);
      && t.outcome == Ok(Voted(caller, id))
      && VoterOf(t.after.voters, caller) == Voter(true, true, id)
      && t.after.proposals[id].voteCount == s.proposals[id].voteCount + 1
      && SetVote(t.after, caller, id') == Transition(Err(Reverted(AlreadyVoted)), t.after)
  {
  }
}
