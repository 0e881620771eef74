/** The Voting election contract as values: its phases, voter and proposal
    records, events and revert reasons, and the reference transition of every
    call. A call either succeeds with one event, or reverts with one reason
    and leaves every field as it was. */
module Election {

  /** An account address; the model only compares addresses for equality. */
  type Address = nat

  /** The six phases of the election, in the order they are passed through. */
  datatype WorkflowStatus =
    | RegisteringVoters
    | ProposalsRegistrationStarted
    | ProposalsRegistrationEnded
    | VotingSessionStarted
    | VotingSessionEnded
    | VotesTallied
  {
    /** The number the public `workflowStatus` getter reports for the phase. */
    function Code(): (c: nat)
      ensures c <= 5
      ensures c == 0 <==> RegisteringVoters?
      ensures c == 5 <==> VotesTallied?
    {
      match this
      case RegisteringVoters => 0
      case ProposalsRegistrationStarted => 1
      case ProposalsRegistrationEnded => 2
      case VotingSessionStarted => 3
      case VotingSessionEnded => 4
      case VotesTallied => 5
    }

    /** The phase one step later; VotesTallied has none. */
    function Next(): (n: WorkflowStatus)
      requires !VotesTallied?
      ensures n.Code() == Code() + 1
    {
      match this
      case RegisteringVoters => ProposalsRegistrationStarted
      case ProposalsRegistrationStarted => ProposalsRegistrationEnded
      case ProposalsRegistrationEnded => VotingSessionStarted
      case VotingSessionStarted => VotingSessionEnded
      case VotingSessionEnded => VotesTallied
    }
  }

  /** A voter record as `getVoter` returns it. */
  datatype Voter = Voter(isRegistered: bool, hasVoted: bool, votedProposalId: nat)

  /** The record an address that was never registered reads as. */
  const NoVoter := Voter(false, false, 0)

  /** A proposal record as `getOneProposal` returns it. */
  datatype Proposal = Proposal(description: string, voteCount: nat)

  /** Description of proposal 0, created when proposal registration opens. */
  const Genesis := "GENESIS"

  datatype Event =
    | VoterRegistered(voterAddress: Address)
    | WorkflowStatusChange(previousStatus: WorkflowStatus, newStatus: WorkflowStatus)
    | ProposalRegistered(proposalId: nat)
    | Voted(voter: Address, proposalId: nat)

  /** Why a call reverted: the owner check's custom error, or a reason string. */
  datatype Failure =
    | OwnableUnauthorizedAccount(account: Address)
    | Reverted(reason: string)

  datatype Outcome = Ok(event: Event) | Err(failure: Failure)

  datatype Option<T> = None | Some(value: T)

  // Revert reasons, one per guard.
  const VotersRegistrationClosed := "Voters registration is not open yet"
  const AlreadyRegistered := "Already registered"
  const NotAVoter := "You're not a voter"
  const ProposalsNotAllowed := "Proposals are not allowed yet"
  const EmptyDescription := "Vous ne pouvez pas ne rien proposer"
  const VotingNotStarted := "Voting session havent started yet"
  const AlreadyVoted := "You have already voted"
  const ProposalNotFound := "Proposal not found"
  const CannotStartProposals := "Registering proposals cant be started now"
  const ProposalsNotStarted := "Registering proposals havent started yet"
  const ProposalsNotFinished := "Registering proposals phase is not finished"
  const NotVotingSessionEnded := "Current status is not voting session ended"

  /** Everything the contract stores. `voters` holds the addresses that were
      ever registered; every other address reads as NoVoter. The index of a
      proposal in `proposals` is its id. */
  datatype ElectionState = ElectionState(
    owner: Address,
    status: WorkflowStatus,
    voters: map<Address, Voter>,
    proposals: seq<Proposal>,
    winningProposalID: nat)

  /** A call's result: the outcome and the state after it. */
  datatype Transition = Transition(outcome: Outcome, after: ElectionState)

  /** The state right after deployment by `deployer`. */
  function Initial(deployer: Address): (s: ElectionState)
    ensures s.owner == deployer && s.status.Code() == 0
    ensures s.voters == map[] && s.proposals == [] && s.winningProposalID == 0
  {
    ElectionState(deployer, RegisteringVoters, map[], [], 0)
  }

  /** `getVoter(a)`: the record stored for `a`, with the mapping's all-zero
      default. */
  function VoterOf(voters: map<Address, Voter>, a: Address): (v: Voter)
    ensures a in voters ==> v == voters[a]
    ensures a !in voters ==> v == NoVoter && !v.isRegistered && !v.hasVoted
  {
    if a in voters then voters[a] else NoVoter
  }

  /** `w` names a proposal whose vote count no other proposal exceeds. */
  ghost predicate IsWinner(ps: seq<Proposal>, w: nat)
  {
    w < |ps| && forall i | 0 <= i < |ps| :: ps[i].voteCount <= ps[w].voteCount
  }

  /** `addVoter(addr)`: owner only, during voter registration, once per address. */
  function AddVoter(s: ElectionState, caller: Address, addr: Address): (t: Transition)
    ensures t.outcome.Err? ==> t.after == s
    ensures t.outcome.Ok? <==>
      caller == s.owner && s.status == RegisteringVoters && !VoterOf(s.voters, addr).isRegistered
    ensures t.outcome.Ok? ==>
      && t.outcome == Ok(VoterRegistered(addr))
      && t.after == s.(voters := s.voters[addr := Voter(true, false, 0)])
  {
    if caller != s.owner then Transition(Err(OwnableUnauthorizedAccount(caller)), s)
    else if s.status != RegisteringVoters then Transition(Err(Reverted(VotersRegistrationClosed)), s)
    else if VoterOf(s.voters, addr).isRegistered then Transition(Err(Reverted(AlreadyRegistered)), s)
    else Transition(Ok(VoterRegistered(addr)), s.(voters := s.voters[addr := Voter(true, false, 0)]))
  }

  /** `addProposal(description)`: registered voters only, while proposal
      registration is open, with a non-empty description; the new proposal's
      id is the number of proposals before it. */
  function AddProposal(s: ElectionState, caller: Address, description: string): (t: Transition)
    ensures t.outcome.Err? ==> t.after == s
    ensures t.outcome.Ok? <==>
      VoterOf(s.voters, caller).isRegistered && s.status == ProposalsRegistrationStarted && description != ""
  {
    if !VoterOf(s.voters, caller).isRegistered then Transition(Err(Reverted(NotAVoter)), s)
    else if s.status != ProposalsRegistrationStarted then Transition(Err(Reverted(ProposalsNotAllowed)), s)
    else if description == "" then Transition(Err(Reverted(EmptyDescription)), s)
    else
      Transition(Ok(ProposalRegistered(|s.proposals|)),
                 s.(proposals := s.proposals + [Proposal(description, 0)]))
  }

  /** `setVote(id)`: registered voters only, during the voting session, once
      per voter, for an existing proposal id. */
  function SetVote(s: ElectionState, caller: Address, id: nat): (t: Transition)
    ensures t.outcome.Err? ==> t.after == s
    ensures t.outcome.Ok? <==>
      && VoterOf(s.voters, caller).isRegistered && s.status == VotingSessionStarted
      && !VoterOf(s.voters, caller).hasVoted && id < |s.proposals|
    ensures t.outcome.Ok? ==>
      && t.outcome == Ok(Voted(caller, id))
      && t.after == s.(voters := s.voters[caller := Voter(true, true, id)],
                       proposals := s.proposals[id := s.proposals[id].(voteCount := s.proposals[id].voteCount + 1)])
  {
    var v := VoterOf(s.voters, caller);
    if !v.isRegistered then Transition(Err(Reverted(NotAVoter)), s)
    else if s.status != VotingSessionStarted then Transition(Err(Reverted(VotingNotStarted)), s)
    else if v.hasVoted then Transition(Err(Reverted(AlreadyVoted)), s)
    else if id >= |s.proposals| then Transition(Err(Reverted(ProposalNotFound)), s)
    else
      var p := s.proposals[id];
      Transition(Ok(Voted(caller, id)),
                 s.(voters := s.voters[caller := v.(hasVoted := true, votedProposalId := id)],
                    proposals := s.proposals[id := p.(voteCount := p.voteCount + 1)]))
  }

  /** The shared shape of the five phase transitions: owner only, and only
      from the phase `from`, which it leaves for the next one. */
  function Advance(s: ElectionState, caller: Address, from: WorkflowStatus, reason: string): (t: Transition)
    requires !from.VotesTallied?
    ensures t.outcome.Err? ==> t.after == s
    ensures t.outcome.Ok? <==> caller == s.owner && s.status == from
    ensures caller != s.owner ==> t.outcome == Err(OwnableUnauthorizedAccount(caller))
    ensures caller == s.owner && s.status != from ==> t.outcome == Err(Reverted(reason))
    ensures t.outcome.Ok? ==>
      && t.outcome.event == WorkflowStatusChange(from, from.Next())
      && t.after == s.(status := from.Next())
      && t.after.status.Code() == s.status.Code() + 1
  {
    if caller != s.owner then Transition(Err(OwnableUnauthorizedAccount(caller)), s)
    else if s.status != from then Transition(Err(Reverted(reason)), s)
    else Transition(Ok(WorkflowStatusChange(from, from.Next())), s.(status := from.Next()))
  }

  /** `startProposalsRegistering()`: owner only, from phase 0 to phase 1; also
      creates proposal 0, "GENESIS". */
  function StartProposalsRegistering(s: ElectionState, caller: Address): (t: Transition)
    ensures t.outcome.Err? ==> t.after == s
    ensures t.outcome.Ok? <==> caller == s.owner && s.status == RegisteringVoters
    ensures caller == s.owner && s.status != RegisteringVoters ==>
      t.outcome == Err(Reverted(CannotStartProposals))
    ensures t.outcome.Ok? ==>
      && t.outcome.event == WorkflowStatusChange(RegisteringVoters, ProposalsRegistrationStarted)
      && t.after == s.(status := ProposalsRegistrationStarted, proposals := s.proposals + [Proposal(Genesis, 0)])
  {
    var t := Advance(s, caller, RegisteringVoters, CannotStartProposals);
    if t.outcome.Ok? then t.(after := t.after.(proposals := s.proposals + [Proposal(Genesis, 0)])) else t
  }

  /** `endProposalsRegistering()`: owner only, from phase 1 to phase 2. */
  function EndProposalsRegistering(s: ElectionState, caller: Address): (t: Transition)
    ensures t.outcome.Err? ==> t.after == s
    ensures t.outcome.Ok? <==> caller == s.owner && s.status == ProposalsRegistrationStarted
    ensures caller == s.owner && s.status != ProposalsRegistrationStarted ==>
      t.outcome == Err(Reverted(ProposalsNotStarted))
    ensures t.outcome.Ok? ==>
      && t.outcome.event == WorkflowStatusChange(ProposalsRegistrationStarted, ProposalsRegistrationEnded)
      && t.after == s.(status := ProposalsRegistrationEnded)
  {
    Advance(s, caller, ProposalsRegistrationStarted, ProposalsNotStarted)
  }

  /** `startVotingSession()`: owner only, from phase 2 to phase 3. */
  function StartVotingSession(s: ElectionState, caller: Address): (t: Transition)
    ensures t.outcome.Err? ==> t.after == s
    ensures t.outcome.Ok? <==> caller == s.owner && s.status == ProposalsRegistrationEnded
    ensures caller == s.owner && s.status != ProposalsRegistrationEnded ==>
      t.outcome == Err(Reverted(ProposalsNotFinished))
    ensures t.outcome.Ok? ==>
      && t.outcome.event == WorkflowStatusChange(ProposalsRegistrationEnded, VotingSessionStarted)
      && t.after == s.(status := VotingSessionStarted)
  {
    Advance(s, caller, ProposalsRegistrationEnded, ProposalsNotFinished)
  }

  /** `endVotingSession()`: owner only, from phase 3 to phase 4. */
  function EndVotingSession(s: ElectionState, caller: Address): (t: Transition)
    ensures t.outcome.Err? ==> t.after == s
    ensures t.outcome.Ok? <==> caller == s.owner && s.status == VotingSessionStarted
    ensures caller == s.owner && s.status != VotingSessionStarted ==>
      t.outcome == Err(Reverted(VotingNotStarted))
    ensures t.outcome.Ok? ==>
      && t.outcome.event == WorkflowStatusChange(VotingSessionStarted, VotingSessionEnded)
      && t.after == s.(status := VotingSessionEnded)
  {
    Advance(s, caller, VotingSessionStarted, VotingNotStarted)
  }

  /** `tallyVotes()`: owner only, after the voting session ended; records
      `winner` as the winning id. Which proposal the scan picks is left to the
      caller of this function, constrained by IsWinner (see Step). */
  function TallyVotes(s: ElectionState, caller: Address, winner: nat): (t: Transition)
    ensures t.outcome.Err? ==> t.after == s
    ensures t.outcome.Ok? <==> caller == s.owner && s.status == VotingSessionEnded
    ensures caller == s.owner && s.status != VotingSessionEnded ==>
      t.outcome == Err(Reverted(NotVotingSessionEnded))
    ensures t.outcome.Ok? ==>
      && t.outcome.event == WorkflowStatusChange(VotingSessionEnded, VotesTallied)
      && t.after == s.(status := VotesTallied, winningProposalID := winner)
  {
    var t := Advance(s, caller, VotingSessionEnded, NotVotingSessionEnded);
    if t.outcome.Ok? then t.(after := t.after.(winningProposalID := winner)) else t
  }

  /** `getOneProposal(id)`: nothing for an id past the end of the list. */
  function GetOneProposal(s: ElectionState, id: nat): (p: Option<Proposal>)
    ensures p.Some? <==> id < |s.proposals|
    ensures p.Some? ==> p.value == s.proposals[id]
  {
    if id < |s.proposals| then Some(s.proposals[id]) else None
  }
}
