/** The consensus client's per-node session: the state cells of the page
    component as fields, and one method per inbound event or local action. */
module Node {
  import opened Messages
  import opened Selection
  import opened Protocol

  class NodeSession {
    /** Generated once when the session starts; never reassigned. */
    const nodeId: NodeId
    var chainLength: int
    var reputation: real
    var availableTransactions: seq<TxId>
    var proposedBlock: Option<Block>
    var roundInfo: RoundInfo
    var hasVoted: bool
    var isProposer: bool
    var isOnline: bool

    /** The session's fields as one value. */
    function State(): SessionState
      reads this
    {
      SessionState(nodeId, chainLength, reputation, availableTransactions, proposedBlock,
                   roundInfo, hasVoted, isProposer, isOnline)
    }

    /** A fresh session for a newly generated identifier; every cell holds its
        initial value, and the node counts as online until the first round. */
    constructor (id: NodeId)
      ensures nodeId == id && chainLength == 0 && reputation == 0.0
      ensures availableTransactions == [] && proposedBlock == None
      ensures roundInfo == RoundInfo(0, None, None)
      ensures !hasVoted && !isProposer && isOnline
      ensures State() == Initial(id)
    {
      nodeId := id;
      chainLength := 0;
      reputation := 0.0;
      availableTransactions := [];
      proposedBlock := None;
      roundInfo := RoundInfo(0, None, None);
      hasVoted := false;
      isProposer := false;
      isOnline := true;
    }

    /** Completion of the join request: chain length and reputation come from
        the reply; nothing else changes. */
    method OnJoinReply(reply: JoinReply)
      modifies this`chainLength, this`reputation
      ensures chainLength == reply.currentChainLength && reputation == reply.reputation
      ensures State() == Step(old(State()), Joined(reply)).next
    {
      chainLength := reply.currentChainLength;
      reputation := reply.reputation;
    }

    /** `round_start`: the round context is replaced whatever it was. The
        proposal and the vote are cleared, any winner or error is dropped, and
        `online` is this round's sampled connectivity. Only the identifier and
        the reputation survive. */
    method OnRoundStart(p: RoundStartPayload, online: bool)
      modifies this
      ensures roundInfo == RoundInfo(p.round, None, None)
      ensures availableTransactions == p.availableTransactions
      ensures chainLength == p.currentChainLength
      ensures isProposer == (p.proposer == nodeId)
      ensures proposedBlock == None && !hasVoted
      ensures isOnline == online
      ensures reputation == old(reputation)
      ensures State() == Step(old(State()), RoundStart(p, online)).next
    {
      roundInfo := RoundInfo(p.round, None, None);
      availableTransactions := p.availableTransactions;
      chainLength := p.currentChainLength;
      isProposer := p.proposer == nodeId;
      proposedBlock := None;
      hasVoted := false;
      isOnline := online;
    }

    /** `new_block_proposal`: the stored proposal is replaced unconditionally,
        with no check of round or sender; nothing else changes. */
    method OnNewBlockProposal(p: ProposalPayload)
      modifies this`proposedBlock
      ensures proposedBlock == Some(Block(p.proposer, p.blockHash, p.transactions))
      ensures State() == Step(old(State()), NewBlockProposal(p)).next
    {
      proposedBlock := Some(Block(p.proposer, p.blockHash, p.transactions));
    }

    /** `round_end`: with a winning block, the chain length is overwritten (no
        check that it grows) and the winner is recorded; without one, the error
        is recorded and the chain length kept. The round number, and whichever
        of winner and error is not written, stay as they were. */
    method OnRoundEnd(p: RoundEndPayload)
      modifies this`chainLength, this`roundInfo
      ensures roundInfo.round == old(roundInfo.round)
      ensures p.winningBlock.Some? ==>
        chainLength == p.newChainLength &&
        roundInfo == old(roundInfo).(winner := p.winningBlock)
      ensures p.winningBlock.None? ==>
        chainLength == old(chainLength) &&
        roundInfo == old(roundInfo).(error := p.error)
      ensures State() == Step(old(State()), RoundEnd(p)).next
    {
      if p.winningBlock.Some? {
        chainLength := p.newChainLength;
        roundInfo := roundInfo.(winner := p.winningBlock);
      } else {
        roundInfo := roundInfo.(error := p.error);
      }
    }

    /** `reputation_update`: only a present, non-zero entry for this node is
        taken; anything else leaves the session as it was. */
    method OnReputationUpdate(table: ReputationTable)
      modifies this`reputation
      ensures HasReputationFor(table, nodeId) ==> reputation == table[nodeId]
      ensures !HasReputationFor(table, nodeId) ==> reputation == old(reputation)
      ensures State() == Step(old(State()), ReputationUpdate(table)).next
    {
      if HasReputationFor(table, nodeId) {
        reputation := table[nodeId];
      }
    }

    /** `proposeBlock`: sends a proposal exactly when online and the proposer,
        carrying this node's identifier, the first (at most five) available
        transactions in order, and the placeholder previous hash. It changes
        nothing, so it does not check whether a proposal was already sent. */
    method ProposeBlock() returns (msg: Option<Outbound>)
      ensures msg.Some? <==> isOnline && isProposer
      ensures msg.Some? ==>
        msg.value.ProposeBlockMsg? &&
        msg.value.nodeId == nodeId &&
        |msg.value.transactions| == Min(MaxBlockTransactions, |availableTransactions|) &&
        msg.value.transactions == availableTransactions[..|msg.value.transactions|] &&
        msg.value.previousHash == PlaceholderPreviousHash
      ensures msg == Step(State(), Propose).out && Step(State(), Propose).next == State()
    {
      if isOnline && isProposer {
        var selected := SelectTransactions(availableTransactions);
        msg := Some(ProposeBlockMsg(nodeId, selected, PlaceholderPreviousHash));
      } else {
        msg := None;
      }
    }

    /** `voteOnBlock`: when online and holding a proposal, sends a vote for its
        hash and marks the node as having voted; otherwise does nothing. It does
        not look at `hasVoted`. */
    method VoteOnBlock() returns (msg: Option<Outbound>)
      modifies this`hasVoted
      ensures msg.Some? <==> isOnline && proposedBlock.Some?
      ensures msg.Some? ==> msg == Some(VoteOnBlockMsg(nodeId, proposedBlock.value.hash)) && hasVoted
      ensures msg.None? ==> hasVoted == old(hasVoted)
      ensures State() == Step(old(State()), Vote).next && msg == Step(old(State()), Vote).out
    {
      if isOnline && proposedBlock.Some? {
        msg := Some(VoteOnBlockMsg(nodeId, proposedBlock.value.hash));
        hasVoted := true;
      } else {
        msg := None;
      }
    }
  }
}
