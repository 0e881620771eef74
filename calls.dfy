/** The calls a client can make, as values, and the relation between a state,
    a call and its possible results. */
module ElectionCalls {
  import opened Election

  /** The state-changing calls, by name, with their arguments. They carry
      the names of the transition functions of module Election, which are
      therefore written qualified here. */
  datatype Op =
    | AddVoter(addr: Address)
    | AddProposal(description: string)
    | SetVote(proposalId: nat)
    | StartProposalsRegistering
    | EndProposalsRegistering
    | StartVotingSession
    | EndVotingSession
    | TallyVotes

  /** `t` is a possible result of `caller` calling `op` in state `s`. All calls
      but the tally are deterministic; the tally may record any id whose
      proposal has a maximal vote count. */
  ghost predicate Step(s: ElectionState, caller: Address, op: Op, t: Transition)
  {
    match op
    case AddVoter(a) => t == Election.AddVoter(s, caller, a)
    case AddProposal(d) => t == Election.AddProposal(s, caller, d)
    case SetVote(id) => t == Election.SetVote(s, caller, id)
    case StartProposalsRegistering => t == Election.StartProposalsRegistering(s, caller)
    case EndProposalsRegistering => t == Election.EndProposalsRegistering(s, caller)
    case StartVotingSession => t == Election.StartVotingSession(s, caller)
    case EndVotingSession => t == Election.EndVotingSession(s, caller)
    case TallyVotes =>
      && t == Election.TallyVotes(s, caller, t.after.winningProposalID)
      && (t.outcome.Ok? ==> IsWinner(s.proposals, t.after.winningProposalID))
  }
}
