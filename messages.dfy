/** Values exchanged between a node and the coordinating authority, and the
    records a node keeps about the current round. */
module Messages {

  datatype Option<+T> = None | Some(value: T)

  /** Node identifiers and transaction identifiers are opaque strings. */
  type NodeId = string
  type TxId = string

  /** Maximum number of transactions a proposer puts into a block. */
  const MaxBlockTransactions: nat := 5

  /** The fixed value sent as `previous_hash`: blocks are not hash-chained. */
  const PlaceholderPreviousHash: string := "previous_hash_would_be_here_in_real_implementation"

  /** A block proposal as the node stores it: proposer, hash and transactions. */
  datatype Block = Block(proposer: NodeId, hash: string, transactions: seq<TxId>)

  /** The winning block announced at the end of a round. */
  datatype WinningBlock = WinningBlock(proposer: NodeId, transactions: seq<TxId>)

  /** The node's view of the round: its number, and what `round_end` added to it.
      `winner` carries both the winner and its winning transactions, which the
      success branch of `round_end` always sets together. */
  datatype RoundInfo = RoundInfo(round: int, winner: Option<WinningBlock>, error: Option<string>)

  /** Reply to the join request. */
  datatype JoinReply = JoinReply(currentChainLength: int, reputation: real)

  /** Payload of `round_start`. */
  datatype RoundStartPayload = RoundStartPayload(
    round: int,
    availableTransactions: seq<TxId>,
    currentChainLength: int,
    proposer: NodeId)

  /** Payload of `new_block_proposal`. */
  datatype ProposalPayload = ProposalPayload(proposer: NodeId, blockHash: string, transactions: seq<TxId>)

  /** Payload of `round_end`: a winning block with the new chain length, or
      (when `winningBlock` is absent) an error, which itself may be absent. */
  datatype RoundEndPayload = RoundEndPayload(
    winningBlock: Option<WinningBlock>,
    newChainLength: int,
    error: Option<string>)

  /** Payload of `reputation_update`: reputations of possibly many nodes. */
  type ReputationTable = map<NodeId, real>

  /** Messages a node sends to the authority. */
  datatype Outbound =
    | ProposeBlockMsg(nodeId: NodeId, transactions: seq<TxId>, previousHash: string)
    | VoteOnBlockMsg(nodeId: NodeId, blockHash: string)
}
