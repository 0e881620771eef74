/** The Voting contract as an object whose calls update its fields in place.
    Every call names its caller explicitly and returns the event it emits, or
    the reason it reverts with; a reverted call changes no field. Each
    state-changing method is proved to perform the reference transition of
    module Election (the tally: a result that `Step` allows) and to keep the
    invariant of module ElectionInvariants. */
module VotingContract {
  import opened Election
  import ElectionCalls
  import ElectionInvariants

  /** The tally's scan over the proposals in ascending id order: the leader
      is replaced only by a proposal with a strictly greater count. The
      contract promises a proposal with a maximal count, not which one among
      equals. */
  method ScanForWinner(ps: seq<Proposal>) returns (w: nat)
    ensures ps == [] ==> w == 0
    ensures ps != [] ==> IsWinner(ps, w)
  {
    w := 0;
    var p := 0;
    while p < |ps|
      invariant p <= |ps|
      invariant w == 0 || w < p
      invariant forall i | 0 <= i < p :: ps[i].voteCount <= ps[w].voteCount
    {
      if ps[p].voteCount > ps[w].voteCount {
        w := p;
      }
      p := p + 1;
    }
  }

  class Voting {
    /** The deployer, who alone registers voters and moves the phase on. */
    const owner: Address
    var workflowStatus: WorkflowStatus
    var voters: map<Address, Voter>
    var proposals: seq<Proposal>
    var winningProposalID: nat

    /** The fields as one value. */
    ghost function State(): ElectionState
      reads this
    {
      ElectionState(owner, workflowStatus, voters, proposals, winningProposalID)
    }

    ghost predicate Valid()
      reads this
    {
      ElectionInvariants.Inv(State())
    }

    /** Deployment: the deployer becomes the owner; voter registration is open. */
    constructor (deployer: Address)
      ensures Valid()
      ensures State() == Initial(deployer)
    {
      owner := deployer;
      workflowStatus := RegisteringVoters;
      voters := map[];
      proposals := [];
      winningProposalID := 0;
      ElectionInvariants.InitialInv(deployer);
    }

    /** `getVoter(addr)`. */
    function GetVoter(addr: Address): (v: Voter)
      reads this
      requires Valid()
      ensures v.isRegistered <==> addr in voters
      ensures addr in voters ==> v == voters[addr]
      ensures addr !in voters ==> v == NoVoter
    {
      VoterOf(voters, addr)
    }

    /** `getOneProposal(id)`: nothing past the end of the list. */
    function GetOneProposal(id: nat): (p: Option<Proposal>)
      reads this
      ensures p == Election.GetOneProposal(State(), id)
    {
      if id < |proposals| then Some(proposals[id]) else None
    }

    method AddVoter(caller: Address, addr: Address) returns (r: Outcome)
      requires Valid()
      modifies this
      ensures Valid()
      ensures Transition(r, State()) == Election.AddVoter(old(State()), caller, addr)
    {
      ElectionInvariants.AddVoterKeepsInv(State(), caller, addr);
      if caller != owner {
        return Err(OwnableUnauthorizedAccount(caller));
      }
      if workflowStatus != RegisteringVoters {
        return Err(Reverted(VotersRegistrationClosed));
      }
      if VoterOf(voters, addr).isRegistered {
        return Err(Reverted(AlreadyRegistered));
      }
      voters := voters[addr := Voter(true, false, 0)];
      r := Ok(VoterRegistered(addr));
    }

    method AddProposal(caller: Address, description: string) returns (r: Outcome)
      requires Valid()
      modifies this
      ensures Valid()
      ensures Transition(r, State()) == Election.AddProposal(old(State()), caller, description)
    {
      ElectionInvariants.AddProposalKeepsInv(State(), caller, description);
      if !VoterOf(voters, caller).isRegistered {
        return Err(Reverted(NotAVoter));
      }
      if workflowStatus != ProposalsRegistrationStarted {
        return Err(Reverted(ProposalsNotAllowed));
      }
      if description == "" {
        return Err(Reverted(EmptyDescription));
      }
      proposals := proposals + [Proposal(description, 0)];
      r := Ok(ProposalRegistered(|proposals| - 1));
    }

    method SetVote(caller: Address, id: nat) returns (r: Outcome)
      requires Valid()
      modifies this
      ensures Valid()
      ensures Transition(r, State()) == Election.SetVote(old(State()), caller, id)
    {
      ElectionInvariants.SetVoteKeepsInv(State(), caller, id);
      var v := VoterOf(voters, caller);
      if !v.isRegistered {
        return Err(Reverted(NotAVoter));
      }
      if workflowStatus != VotingSessionStarted {
        return Err(Reverted(VotingNotStarted));
      }
      if v.hasVoted {
        return Err(Reverted(AlreadyVoted));
      }
      if id >= |proposals| {
        return Err(Reverted(ProposalNotFound));
      }
      voters := voters[caller := v.(hasVoted := true, votedProposalId := id)];
      proposals := proposals[id := proposals[id].(voteCount := proposals[id].voteCount + 1)];
      r := Ok(Voted(caller, id));
    }

    method StartProposalsRegistering(caller: Address) returns (r: Outcome)
      requires Valid()
      modifies this
      ensures Valid()
      ensures Transition(r, State()) == Election.StartProposalsRegistering(old(State()), caller)
    {
      ElectionInvariants.StartProposalsRegisteringKeepsInv(State(), caller);
      if caller != owner {
        return Err(OwnableUnauthorizedAccount(caller));
      }
      if workflowStatus != RegisteringVoters {
        return Err(Reverted(CannotStartProposals));
      }
      workflowStatus := ProposalsRegistrationStarted;
      proposals := proposals + [Proposal(Genesis, 0)];
      r := Ok(WorkflowStatusChange(RegisteringVoters, ProposalsRegistrationStarted));
    }

    method EndProposalsRegistering(caller: Address) returns (r: Outcome)
      requires Valid()
      modifies this
      ensures Valid()
      ensures Transition(r, State()) == Election.EndProposalsRegistering(old(State()), caller)
    {
      ElectionInvariants.PhaseChangeKeepsInv(State(), caller, ProposalsRegistrationStarted, ProposalsNotStarted);
      if caller != owner {
        return Err(OwnableUnauthorizedAccount(caller));
      }
      if workflowStatus != ProposalsRegistrationStarted {
        return Err(Reverted(ProposalsNotStarted));
      }
      workflowStatus := ProposalsRegistrationEnded;
      r := Ok(WorkflowStatusChange(ProposalsRegistrationStarted, ProposalsRegistrationEnded));
    }

    method StartVotingSession(caller: Address) returns (r: Outcome)
      requires Valid()
      modifies this
      ensures Valid()
      ensures Transition(r, State()) == Election.StartVotingSession(old(State()), caller)
    {
      ElectionInvariants.PhaseChangeKeepsInv(State(), caller, ProposalsRegistrationEnded, ProposalsNotFinished);
      if caller != owner {
        return Err(OwnableUnauthorizedAccount(caller));
      }
      if workflowStatus != ProposalsRegistrationEnded {
        return Err(Reverted(ProposalsNotFinished));
      }
      workflowStatus := VotingSessionStarted;
      r := Ok(WorkflowStatusChange(ProposalsRegistrationEnded, VotingSessionStarted));
    }

    method EndVotingSession(caller: Address) returns (r: Outcome)
      requires Valid()
      modifies this
      ensures Valid()
      ensures Transition(r, State()) == Election.EndVotingSession(old(State()), caller)
    {
      ElectionInvariants.PhaseChangeKeepsInv(State(), caller, VotingSessionStarted, VotingNotStarted);
      if caller != owner {
        return Err(OwnableUnauthorizedAccount(caller));
      }
      if workflowStatus != VotingSessionStarted {
        return Err(Reverted(VotingNotStarted));
      }
      workflowStatus := VotingSessionEnded;
      r := Ok(WorkflowStatusChange(VotingSessionStarted, VotingSessionEnded));
    }

    /** `tallyVotes()`: on success the recorded winner is a proposal with a
        maximal vote count, that is, one chosen by the most voters. */
    method TallyVotes(caller: Address) returns (r: Outcome)
      requires Valid()
      modifies this
      ensures Valid()
      ensures ElectionCalls.Step(old(State()), caller, ElectionCalls.TallyVotes, Transition(r, State()))
      ensures r.Ok? ==> IsWinner(proposals, winningProposalID)
    {
      ghost var s := State();
      if caller != owner {
        ElectionInvariants.TallyVotesKeepsInv(s, caller, winningProposalID);
        return Err(OwnableUnauthorizedAccount(caller));
      }
      if workflowStatus != VotingSessionEnded {
        ElectionInvariants.TallyVotesKeepsInv(s, caller, winningProposalID);
        return Err(Reverted(NotVotingSessionEnded));
      }
      workflowStatus := VotesTallied;
      winningProposalID := ScanForWinner(proposals);
      r := Ok(WorkflowStatusChange(VotingSessionEnded, VotesTallied));
      ElectionInvariants.TallyVotesKeepsInv(s, caller, winningProposalID);
    }
  }
}
