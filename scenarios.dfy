/** The unit-test cases of the Voting contract, each as a client of the
    class: a fresh deployment, the calls the case makes, and what it expects,
    proved from the methods' contracts alone. Distinct signers are distinct
    addresses. */
module VotingScenarios {
  import opened Election
  import opened VotingContract

  /** The deployer is the owner. */
  method DeployerIsOwner(deployer: Address) returns (owner: Address)
    ensures owner == deployer
  {
    var voting := new Voting(deployer);
    owner := voting.owner;
  }

  /** The owner registers voter1; VoterRegistered(voter1) is emitted and
      voter1 reads as registered. */
  method AddVoterRegisters(deployer: Address, voter1: Address) returns (r: Outcome, registered: bool)
    ensures r == Ok(VoterRegistered(voter1))
    ensures registered
  {
    var voting := new Voting(deployer);
    r := voting.AddVoter(deployer, voter1);
    registered := voting.GetVoter(voter1).isRegistered;
  }

  /** Every owner-only call by another account reverts with
      OwnableUnauthorizedAccount(caller). */
  method NonOwnerIsRejected(deployer: Address, other: Address, addr: Address)
    returns (add: Outcome, start: Outcome, end: Outcome, open: Outcome, close: Outcome, tally: Outcome)
    requires other != deployer
    ensures add == start == end == open == close == tally == Err(OwnableUnauthorizedAccount(other))
  {
    var voting := new Voting(deployer);
    add := voting.AddVoter(other, addr);
    start := voting.StartProposalsRegistering(other);
    end := voting.EndProposalsRegistering(other);
    open := voting.StartVotingSession(other);
    close := voting.EndVotingSession(other);
    tally := voting.TallyVotes(other);
  }

  /** Registering the same address twice reverts with "Already registered". */
  method AddVoterTwice(deployer: Address, voter1: Address) returns (r: Outcome)
    ensures r == Err(Reverted(AlreadyRegistered))
  {
    var voting := new Voting(deployer);
    var first := voting.AddVoter(deployer, voter1);
    r := voting.AddVoter(deployer, voter1);
  }

  /** Once proposal registration opened, registering reverts. */
  method AddVoterTooLate(deployer: Address, voter2: Address) returns (r: Outcome)
    ensures r == Err(Reverted(VotersRegistrationClosed))
  {
    var voting := new Voting(deployer);
    var start := voting.StartProposalsRegistering(deployer);
    r := voting.AddVoter(deployer, voter2);
  }

  /** The first proposal a voter submits gets id 1 and reads back with its
      description. */
  method AddProposalGetsIdOne(deployer: Address, description: string) returns (r: Outcome, p: Option<Proposal>)
    requires description != ""
    ensures r == Ok(ProposalRegistered(1))
    ensures p.Some? && p.value.description == description
  {
    var voting := new Voting(deployer);
    var added := voting.AddVoter(deployer, deployer);
    var start := voting.StartProposalsRegistering(deployer);
    r := voting.AddProposal(deployer, description);
    p := voting.GetOneProposal(1);
  }

  /** A caller who is not a voter is rejected, even before proposals open. */
  method AddProposalByNonVoter(deployer: Address, voter1: Address, description: string) returns (r: Outcome)
    ensures r == Err(Reverted(NotAVoter))
  {
    var voting := new Voting(deployer);
    r := voting.AddProposal(voter1, description);
  }

  /** An empty description is rejected. */
  method AddEmptyProposal(deployer: Address) returns (r: Outcome)
    ensures r == Err(Reverted(EmptyDescription))
  {
    var voting := new Voting(deployer);
    var added := voting.AddVoter(deployer, deployer);
    var start := voting.StartProposalsRegistering(deployer);
    r := voting.AddProposal(deployer, "");
  }

  /** Once proposal registration ended, proposing is rejected. */
  method AddProposalTooLate(deployer: Address, description: string) returns (r: Outcome)
    ensures r == Err(Reverted(ProposalsNotAllowed))
  {
    var voting := new Voting(deployer);
    var added := voting.AddVoter(deployer, deployer);
    var start := voting.StartProposalsRegistering(deployer);
    var end := voting.EndProposalsRegistering(deployer);
    r := voting.AddProposal(deployer, description);
  }

  /** The common set-up of the voting cases: voter1 registered, one proposal
      "Une proposition" at id 1, voting session open. */
  method OpenVotingWithOneProposal(deployer: Address, voter1: Address) returns (voting: Voting)
    ensures fresh(voting) && voting.Valid() && voting.owner == deployer
    ensures voting.workflowStatus == VotingSessionStarted
    ensures voting.voters == map[voter1 := Voter(true, false, 0)]
    ensures |voting.proposals| == 2
  {
    voting := new Voting(deployer);
    var added := voting.AddVoter(deployer, voter1);
    var start := voting.StartProposalsRegistering(deployer);
    var proposed := voting.AddProposal(voter1, "Une proposition");
    var end := voting.EndProposalsRegistering(deployer);
    var open := voting.StartVotingSession(deployer);
  }

  /** A vote emits Voted(voter1, 1) and is recorded on the voter. */
  method SetVoteRecords(deployer: Address, voter1: Address) returns (r: Outcome, v: Voter)
    ensures r == Ok(Voted(voter1, 1))
    ensures v.hasVoted && v.votedProposalId == 1
  {
    var voting := OpenVotingWithOneProposal(deployer, voter1);
    r := voting.SetVote(voter1, 1);
    v := voting.GetVoter(voter1);
  }

  method SetVoteByNonVoter(deployer: Address, voter1: Address, voter2: Address) returns (r: Outcome)
    requires voter2 != voter1
    ensures r == Err(Reverted(NotAVoter))
  {
    var voting := OpenVotingWithOneProposal(deployer, voter1);
    r := voting.SetVote(voter2, 1);
  }

  method SetVoteTwice(deployer: Address, voter1: Address) returns (r: Outcome)
    ensures r == Err(Reverted(AlreadyVoted))
  {
    var voting := OpenVotingWithOneProposal(deployer, voter1);
    var first := voting.SetVote(voter1, 1);
    r := voting.SetVote(voter1, 1);
  }

  method SetVoteUnknownProposal(deployer: Address, voter1: Address) returns (r: Outcome)
    ensures r == Err(Reverted(ProposalNotFound))
  {
    var voting := OpenVotingWithOneProposal(deployer, voter1);
    r := voting.SetVote(voter1, 999);
  }

  method SetVoteTooLate(deployer: Address, voter1: Address) returns (r: Outcome)
    ensures r == Err(Reverted(VotingNotStarted))
  {
    var voting := OpenVotingWithOneProposal(deployer, voter1);
    var close := voting.EndVotingSession(deployer);
    r := voting.SetVote(voter1, 1);
  }

  /** Opening proposal registration moves the status from 0 to 1, emits the
      change and creates GENESIS at id 0. */
  method StartProposalsCreatesGenesis(deployer: Address)
    returns (before: nat, r: Outcome, after: nat, genesis: Option<Proposal>)
    ensures before == 0 && after == 1
    ensures r == Ok(WorkflowStatusChange(RegisteringVoters, ProposalsRegistrationStarted))
    ensures genesis.Some? && genesis.value.description == Genesis
  {
    var voting := new Voting(deployer);
    var added := voting.AddVoter(deployer, deployer);
    before := voting.workflowStatus.Code();
    r := voting.StartProposalsRegistering(deployer);
    after := voting.workflowStatus.Code();
    genesis := voting.GetOneProposal(0);
  }

  /** Each phase transition succeeds from its predecessor with the matching
      event, and a second call reverts with its own reason. */
  method PhaseTransitionsRunOnce(deployer: Address)
    returns (start: Outcome, startAgain: Outcome, end: Outcome, endAgain: Outcome,
             open: Outcome, openAgain: Outcome, close: Outcome, closeAgain: Outcome)
    ensures start == Ok(WorkflowStatusChange(RegisteringVoters, ProposalsRegistrationStarted))
    ensures startAgain == Err(Reverted(CannotStartProposals))
    ensures end == Ok(WorkflowStatusChange(ProposalsRegistrationStarted, ProposalsRegistrationEnded))
    ensures endAgain == Err(Reverted(ProposalsNotStarted))
    ensures open == Ok(WorkflowStatusChange(ProposalsRegistrationEnded, VotingSessionStarted))
    ensures openAgain == Err(Reverted(ProposalsNotFinished))
    ensures close == Ok(WorkflowStatusChange(VotingSessionStarted, VotingSessionEnded))
    ensures closeAgain == Err(Reverted(VotingNotStarted))
  {
    var voting := new Voting(deployer);
    start := voting.StartProposalsRegistering(deployer);
    startAgain := voting.StartProposalsRegistering(deployer);
    end := voting.EndProposalsRegistering(deployer);
    endAgain := voting.EndProposalsRegistering(deployer);
    open := voting.StartVotingSession(deployer);
    openAgain := voting.StartVotingSession(deployer);
    close := voting.EndVotingSession(deployer);
    closeAgain := voting.EndVotingSession(deployer);
  }

  /** The first half of the tally case's set-up: voter1 and voter2
      registered, proposal registration open. */
  method RegisterTwoVoters(deployer: Address, voter1: Address, voter2: Address) returns (voting: Voting)
    requires voter1 != voter2
    ensures fresh(voting) && voting.Valid() && voting.owner == deployer
    ensures voting.workflowStatus == ProposalsRegistrationStarted
    ensures voting.voters == map[voter1 := Voter(true, false, 0), voter2 := Voter(true, false, 0)]
    ensures voting.proposals == [Proposal(Genesis, 0)]
  {
    voting := new Voting(deployer);
    var added1 := voting.AddVoter(deployer, voter1);
    var added2 := voting.AddVoter(deployer, voter2);
    var start := voting.StartProposalsRegistering(deployer);
  }

  /** The set-up of the tally case: voter1 and voter2 registered, voter1
      proposed "Proposition 1" and "Proposition 2", voting session open. */
  method OpenVotingWithTwoProposals(deployer: Address, voter1: Address, voter2: Address) returns (voting: Voting)
    requires voter1 != voter2
    ensures fresh(voting) && voting.Valid() && voting.owner == deployer
    ensures voting.workflowStatus == VotingSessionStarted
    ensures voting.voters == map[voter1 := Voter(true, false, 0), voter2 := Voter(true, false, 0)]
    ensures |voting.proposals| == 3
    ensures forall i | 0 <= i < 3 :: voting.proposals[i].voteCount == 0
  {
    voting := RegisterTwoVoters(deployer, voter1, voter2);
    var p1 := voting.AddProposal(voter1, "Proposition 1");
    var p2 := voting.AddProposal(voter1, "Proposition 2");
    var end := voting.EndProposalsRegistering(deployer);
    var open := voting.StartVotingSession(deployer);
  }

  /** Two voters both vote for proposal 1 of {0, 1, 2}; the tally emits the
      change from 4 to 5 and records proposal 1 as the winner. */
  method TallyPicksMostVoted(deployer: Address, voter1: Address, voter2: Address)
    returns (r: Outcome, winner: nat)
    requires voter1 != voter2
    ensures r == Ok(WorkflowStatusChange(VotingSessionEnded, VotesTallied))
    ensures winner == 1
  {
    var voting := OpenVotingWithTwoProposals(deployer, voter1, voter2);
    var vote1 := voting.SetVote(voter1, 1);
    var vote2 := voting.SetVote(voter2, 1);
    var close := voting.EndVotingSession(deployer);
    assert voting.proposals[0].voteCount == voting.proposals[2].voteCount == 0;
    assert voting.proposals[1].voteCount == 2;
    r := voting.TallyVotes(deployer);
    winner := voting.winningProposalID;
  }

  /** Tallying during the voting session reverts. */
  method TallyTooEarly(deployer: Address) returns (r: Outcome)
    ensures r == Err(Reverted(NotVotingSessionEnded))
  {
    var voting := new Voting(deployer);
    var start := voting.StartProposalsRegistering(deployer);
    var end := voting.EndProposalsRegistering(deployer);
    var open := voting.StartVotingSession(deployer);
    r := voting.TallyVotes(deployer);
  }
}
