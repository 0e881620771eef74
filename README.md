# Voting election contract, modelled in Dafny

The `Voting` contract runs one election. Its owner (the deployer) registers
voters. It then moves the election through six phases:
RegisteringVoters (0), ProposalsRegistrationStarted (1),
ProposalsRegistrationEnded (2), VotingSessionStarted (3), VotingSessionEnded (4)
and VotesTallied (5).

- Registered voters submit proposals while phase 1 is open.
- Opening phase 1 also creates proposal 0, "GENESIS".
- Each voter casts one vote in phase 3.
- The tally in phase 4 records a proposal with the most votes as `winningProposalID`.

Every state-changing call either emits one event or reverts with a fixed
reason. A revert leaves every field unchanged. The getters `getVoter` and
`getOneProposal` only read.

The contract's Solidity source is not part of this model. Its behaviour is
taken from the assertions of `test/unit/Voting.test.js`.

## Files

- `election.dfy`, module `Election`, holds the values:
  - the phases, with their getter numbers;
  - voter and proposal records, events and revert reasons;
  - the whole stored state, `ElectionState`;
  - one reference transition function per call.
- `calls.dfy`, module `ElectionCalls`, holds the calls as values (`Op`) and
  `Step`, the relation that says which results a call may have. Every call
  except the tally is deterministic. The tally may record any proposal whose
  vote count is maximal.
- `invariants.dfy`, module `ElectionInvariants`, holds the proofs:
  - the invariant `Inv` and a proof that every call keeps it;
  - vote accounting: the counts add up to the number of voters who voted;
  - runs of calls: the phase never goes back, and a voter who voted can never vote again;
  - the owner rule, the reason each guard reverts with once the guards before it pass, and the GENESIS/id-1 property.
- `voting.dfy`, module `VotingContract`, holds the class `Voting`. Its fields
  are `owner`, `workflowStatus`, `voters`, `proposals` and `winningProposalID`.
  Each method takes the caller explicitly. Each state-changing method is
  proved to keep `Inv` and to perform the reference transition; for the
  tally, to produce one of the results `Step` allows. The tally's loop over
  the proposals is `ScanForWinner`.
- `scenarios.dfy`, module `VotingScenarios`, holds the unit-test cases. Each
  case is a client method: it deploys a fresh `Voting`, makes the calls the
  case makes, and its postcondition states what the case expects.

## Model

| member | source | states |
|---|---|---|
| Election.WorkflowStatus.Code | test/unit/Voting.test.js:171-177 | the getter numbers of the six phases run 0..5; 0 only for RegisteringVoters, 5 only for VotesTallied |
| Election.WorkflowStatus.Next | test/unit/Voting.test.js:173-177 | the phase after a phase has the getter number one higher |
| Election.Initial | test/unit/Voting.test.js:7-16 | after deployment the deployer is owner, the phase is 0, no voter, no proposal, winner 0 |
| Election.AddVoter | test/unit/Voting.test.js:21-45 | addVoter succeeds exactly for the owner, in phase 0, for an address not yet registered; success emits VoterRegistered(addr) and stores Voter(true, false, 0) for addr, changing nothing else; a revert changes nothing |
| Election.AddProposal | test/unit/Voting.test.js:49-89 | addProposal succeeds exactly for a registered voter, in phase 1, with a non-empty description; a revert changes nothing |
| Election.SetVote | test/unit/Voting.test.js:94-161 | setVote succeeds exactly for a registered voter who has not voted, in phase 3, for an existing proposal id; success emits Voted(caller, id), records Voter(true, true, id) for the caller and adds one to proposal id's count, changing nothing else (no other count, voter, phase or winner); a revert changes nothing |
| Election.VoterOf | test/unit/Voting.test.js:27-28 | getVoter returns the stored record, or the all-false record for an address never registered |
| Election.Advance | test/unit/Voting.test.js:165-274 | a phase transition succeeds exactly for the owner in its predecessor phase, emits WorkflowStatusChange(k, k+1) and changes only the phase, raising its getter number by one; a non-owner gets OwnableUnauthorizedAccount, the owner in another phase gets the transition's reason; a revert changes nothing |
| Election.StartProposalsRegistering | test/unit/Voting.test.js:165-192 | succeeds exactly for the owner in phase 0, emits WorkflowStatusChange(0, 1), moves to phase 1 and appends GENESIS with no votes, changing nothing else; the owner in another phase gets "Registering proposals cant be started now"; a revert changes nothing |
| Election.EndProposalsRegistering | test/unit/Voting.test.js:195-217 | succeeds exactly for the owner in phase 1, emits WorkflowStatusChange(1, 2) and changes only the phase; the owner in another phase gets "Registering proposals havent started yet"; a revert changes nothing |
| Election.StartVotingSession | test/unit/Voting.test.js:220-244 | succeeds exactly for the owner in phase 2, emits WorkflowStatusChange(2, 3) and changes only the phase; the owner in another phase gets "Registering proposals phase is not finished"; a revert changes nothing |
| Election.EndVotingSession | test/unit/Voting.test.js:247-273 | succeeds exactly for the owner in phase 3, emits WorkflowStatusChange(3, 4) and changes only the phase; the owner in another phase gets "Voting session havent started yet"; a revert changes nothing |
| Election.TallyVotes | test/unit/Voting.test.js:277-313 | succeeds exactly for the owner in phase 4, emits WorkflowStatusChange(4, 5), moves to phase 5 and records the winner it is given, changing nothing else; the owner in another phase gets "Current status is not voting session ended"; a revert changes nothing |
| Election.GetOneProposal | test/unit/Voting.test.js:63-64 | a proposal is returned exactly for an id below the number of proposals, and it is the one stored at that id |
| ElectionInvariants.InitialInv | test/unit/Voting.test.js:7-11 | the deployed state satisfies the invariant |
| ElectionInvariants.BallotsAfterVote | test/unit/Voting.test.js:104-110 | a first vote for id adds the voter to id's ballot set and to no other |
| ElectionInvariants.AddVoterKeepsInv | test/unit/Voting.test.js:22-29 | addVoter keeps the invariant |
| ElectionInvariants.AddProposalKeepsInv | test/unit/Voting.test.js:50-65 | addProposal keeps the invariant, in particular the new proposal has no votes |
| ElectionInvariants.SetVoteKeepsInv | test/unit/Voting.test.js:95-111 | setVote keeps the invariant: each count stays equal to the number of voters whose ballot names that proposal |
| ElectionInvariants.StartProposalsRegisteringKeepsInv | test/unit/Voting.test.js:166-181 | opening proposal registration keeps the invariant (GENESIS at id 0) |
| ElectionInvariants.PhaseChangeKeepsInv | test/unit/Voting.test.js:195-274 | the three transitions between phases 1 and 4 keep the invariant |
| ElectionInvariants.TallyVotesKeepsInv | test/unit/Voting.test.js:278-298 | a tally that records a maximal proposal keeps the invariant |
| ElectionInvariants.StepKeepsInv | test/unit/Voting.test.js:20-313 | every call, successful or reverted, keeps the invariant |
| ElectionInvariants.TotalVotesBelow | test/unit/Voting.test.js:287-288 | the counts of the first n proposals add up to the number of voters whose ballot names one of them |
| ElectionInvariants.VoteAccounting | test/unit/Voting.test.js:287-297 | the counts of all proposals add up to the number of voters who voted |
| ElectionInvariants.WinnerHasMostBallots | test/unit/Voting.test.js:295-297 | after the tally no proposal was chosen by more voters than the winner |
| ElectionInvariants.ProgressTransitive | test/unit/Voting.test.js:164-274 | making progress twice is making progress |
| ElectionInvariants.StepProgress | test/unit/Voting.test.js:171-177 | a call never moves the phase back; it moves it by exactly one step only on success, announcing the change; owner, registrations, cast ballots and proposals are kept |
| ElectionInvariants.RunKeepsInv | test/unit/Voting.test.js:7-11 | every state of a run from an invariant state satisfies the invariant |
| ElectionInvariants.RunProgress | test/unit/Voting.test.js:164-274 | any later state of a run has made progress over any earlier one |
| ElectionInvariants.ReachableStates | test/unit/Voting.test.js:164-274 | every state reached from deployment satisfies the invariant, and the phase along a run never decreases |
| ElectionInvariants.VotedNeverVotesAgain | test/unit/Voting.test.js:125-136 | a voter who voted can never vote again later in the run; during the session the reason is "You have already voted" |
| ElectionInvariants.OwnerOnly | test/unit/Voting.test.js:31-304 | every owner-only call by another account reverts with OwnableUnauthorizedAccount(caller) and changes nothing (the tests at lines 31-35, 183-187, 205-209, 231-235, 259-263 and 300-304) |
| ElectionInvariants.TransitionsDoNotRepeat | test/unit/Voting.test.js:189-192 | after a transition succeeds, repeating it reverts with that transition's own reason |
| ElectionInvariants.RegisterTwiceFails | test/unit/Voting.test.js:37-40 | a registered address reads as registered, and registering it again reverts with "Already registered" |
| ElectionInvariants.RevertReasons | test/unit/Voting.test.js:37-313 | once the owner or voter check passes, each phase and argument guard reverts with its own reason and changes nothing: addVoter (phase, already registered), addProposal (phase, empty description), setVote (phase, already voted, unknown id), and each phase transition and the tally from any other phase |
| ElectionInvariants.NonVotersRejectedFirst | test/unit/Voting.test.js:67-70 | a non-voter's addProposal and setVote revert with "You're not a voter" in every phase and for any argument |
| ElectionInvariants.ProposalGetsNextId | test/unit/Voting.test.js:50-65 | a successful addProposal emits ProposalRegistered with the next id in creation order; the proposal reads back there with no votes, nothing lies past it, earlier ids read as before, and voters, phase, owner and winner are unchanged |
| ElectionInvariants.FirstProposalGetsIdOne | test/unit/Voting.test.js:50-65 | after opening proposals, GENESIS is at id 0, and the first submitted proposal gets id 1 and reads back with its description |
| ElectionInvariants.VoteIsRecordedOnce | test/unit/Voting.test.js:104-111 | a vote records hasVoted and the id on the voter, adds one to the proposal's count, and any second vote by that voter reverts |
| VotingContract.ScanForWinner | test/unit/Voting.test.js:291-297 | the loop over the proposals returns an id whose count no proposal exceeds (0 for an empty list) |
| VotingContract.Voting.constructor | test/unit/Voting.test.js:7-16 | deployment yields the initial state with the deployer as owner |
| VotingContract.Voting.GetVoter | test/unit/Voting.test.js:27-28 | the stored record, or the all-false record for an address never registered |
| VotingContract.Voting.GetOneProposal | test/unit/Voting.test.js:63-64 | the proposal at id, or none past the end |
| VotingContract.Voting.AddVoter | test/unit/Voting.test.js:21-45 | performs the addVoter transition on the fields and keeps the invariant |
| VotingContract.Voting.AddProposal | test/unit/Voting.test.js:49-89 | performs the addProposal transition on the fields and keeps the invariant |
| VotingContract.Voting.SetVote | test/unit/Voting.test.js:94-161 | performs the setVote transition on the fields and keeps the invariant |
| VotingContract.Voting.StartProposalsRegistering | test/unit/Voting.test.js:165-192 | performs startProposalsRegistering (phase 0 to 1, GENESIS appended) and keeps the invariant |
| VotingContract.Voting.EndProposalsRegistering | test/unit/Voting.test.js:195-217 | performs endProposalsRegistering (phase 1 to 2) and keeps the invariant |
| VotingContract.Voting.StartVotingSession | test/unit/Voting.test.js:220-244 | performs startVotingSession (phase 2 to 3) and keeps the invariant |
| VotingContract.Voting.EndVotingSession | test/unit/Voting.test.js:247-273 | performs endVotingSession (phase 3 to 4) and keeps the invariant |
| VotingContract.Voting.TallyVotes | test/unit/Voting.test.js:277-313 | performs tallyVotes (phase 4 to 5) and records a proposal with a maximal count |
| VotingScenarios.DeployerIsOwner | test/unit/Voting.test.js:15-17 | the owner is the deployer |
| VotingScenarios.AddVoterRegisters | test/unit/Voting.test.js:22-29 | addVoter emits VoterRegistered(voter1) and voter1 then reads as registered |
| VotingScenarios.NonOwnerIsRejected | test/unit/Voting.test.js:31-304 | addVoter, the four transitions and tallyVotes by a non-owner all revert with OwnableUnauthorizedAccount(caller) (the tests at lines 31-35, 183-187, 205-209, 231-235, 259-263 and 300-304) |
| VotingScenarios.AddVoterTwice | test/unit/Voting.test.js:37-40 | a second addVoter of the same address reverts with "Already registered" |
| VotingScenarios.AddVoterTooLate | test/unit/Voting.test.js:42-45 | addVoter after proposals opened reverts with "Voters registration is not open yet" |
| VotingScenarios.AddProposalGetsIdOne | test/unit/Voting.test.js:50-65 | the first proposal emits ProposalRegistered(1) and getOneProposal(1) returns its description |
| VotingScenarios.AddProposalByNonVoter | test/unit/Voting.test.js:67-70 | a non-voter gets "You're not a voter" while the phase is still 0 |
| VotingScenarios.AddEmptyProposal | test/unit/Voting.test.js:72-79 | an empty description gets "Vous ne pouvez pas ne rien proposer" |
| VotingScenarios.AddProposalTooLate | test/unit/Voting.test.js:81-89 | addProposal after proposals ended gets "Proposals are not allowed yet" |
| VotingScenarios.SetVoteRecords | test/unit/Voting.test.js:95-111 | setVote(1) emits Voted(voter1, 1) and the voter then has hasVoted and votedProposalId 1 |
| VotingScenarios.SetVoteByNonVoter | test/unit/Voting.test.js:113-123 | a non-voter's vote gets "You're not a voter" |
| VotingScenarios.SetVoteTwice | test/unit/Voting.test.js:125-136 | a second vote gets "You have already voted" |
| VotingScenarios.SetVoteUnknownProposal | test/unit/Voting.test.js:138-148 | a vote for id 999 with ids 0..1 gets "Proposal not found" |
| VotingScenarios.SetVoteTooLate | test/unit/Voting.test.js:150-161 | a vote after the session ended gets "Voting session havent started yet" |
| VotingScenarios.StartProposalsCreatesGenesis | test/unit/Voting.test.js:166-181 | the status reads 0, then 1 after WorkflowStatusChange(0, 1), and proposal 0 is "GENESIS" |
| VotingScenarios.PhaseTransitionsRunOnce | test/unit/Voting.test.js:189-273 | each transition emits WorkflowStatusChange(k, k+1) from its predecessor, and repeating it reverts with its own reason |
| VotingScenarios.TallyPicksMostVoted | test/unit/Voting.test.js:278-298 | with two votes for proposal 1 of {0, 1, 2}, the tally emits WorkflowStatusChange(4, 5) and the winner is 1 |
| VotingScenarios.TallyTooEarly | test/unit/Voting.test.js:306-313 | tallying during the voting session gets "Current status is not voting session ended" |

## Left out

- The Solidity source of `Voting` is not part of this model. Guards, reasons and effects follow the test assertions.
- Where the tests do not fix the order of two checks, the model uses this order: the owner or voter check, then the phase, then the argument checks. The tests fix two orders: addProposal checks the voter before the phase (test/unit/Voting.test.js:67-70); endProposalsRegistering, startVotingSession, endVotingSession and tallyVotes check the owner before the phase (test/unit/Voting.test.js:205-209, 231-235, 259-263 and 300-304, all called in phase 0).
- VotingContract.Voting.TallyVotes: does not state which of several equally voted proposals wins. No test has a tie. The scan keeps the first leader in ascending id order, but the contract claims only a maximal count.
- VotingContract.ScanForWinner: same as above; it promises a maximal count, not the lowest id among equals.
- Election.TallyVotes: takes the recorded winner as a parameter; `Step` and the invariant require only that the winner has a maximal count.
- `getVoter` and `getOneProposal` are modelled without a caller check. Every test reads as a registered voter, so none shows what a non-voter gets.
- An id past the end returns no proposal. The revert that such an array read causes is not modelled.
- Whitespace-only descriptions: the model rejects only the empty string. No test shows whether other blank text is rejected.
- Ownable's `transferOwnership` and `renounceOwnership` are not modelled. The owner is fixed at deployment.
- Event transport, gas, EVM storage layout and `uint256` overflow are not modelled. Events are returned values; ids and counts are unbounded naturals; addresses are naturals compared for equality.
- Hardhat and ethers plumbing (signers, factories, `connect`, async calls, chai matchers) is not modelled. The caller is an explicit parameter.
