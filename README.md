# Node session of the reputation-based consensus demo

This project models the participant ("node") side of a round-based,
reputation-weighted blockchain consensus demo. A node joins the network,
receives `round_start` announcements, may be chosen as the round's proposer,
proposes a block or votes on one, and keeps its reputation and chain length as
the coordinating authority reports them.

The client keeps all of this in the state cells and socket handlers of one
page component. The model splits it into these modules:

- `Messages` (messages.dfy): payloads of the authority's messages, the two
  outbound messages (`propose_block`, `vote_on_block`), the stored proposal and
  the round information, and the constants (five transactions per block, the
  placeholder previous hash).
- `Selection` (selection.dfy): `slice(0, 5)` on the available transactions.
- `Protocol` (protocol.dfy): the whole session as a value `SessionState`, the
  events that reach it, and `Step`, the transition each event makes. It also
  defines `Run` and `Emitted` over event sequences, and `Gated`. `Gated`
  says that each button press happened while the page was showing that button.
- `Node` (node_session.dfy): the class `NodeSession`, one field per state cell
  and one method per socket handler or button action. Each method states its
  new fields outright and ties them to `Step`. The two actions return the
  message they would emit instead of emitting it.
- `Properties` (properties.dfy): what holds over sequences of events. Votes
  are limited to one per round when the button is gated. The chain length
  is always the authority's last value. Messages carry the node's identifier.
  `round_start` replaces the round context. Reputation updates read only
  this node's entry.
- `Scenarios` (scenarios.dfy): clients of the class that walk through
  concrete rounds using only the methods' contracts.

The client's intended protocol has a node vote at most once per round and
propose at most once. Its chain length should never decrease, and it should
ignore round traffic until it has joined. A round's outcome should stay
visible until the next round end. The code guarantees less, and the model
follows the code:

- `voteOnBlock` does not check `hasVoted`. A second call sends a second vote.
  Only the hidden button prevents it.
- `proposeBlock` does not check whether a proposal was already made. The
  button stays visible until the authority's `new_block_proposal` arrives, so
  even a gated proposer can propose twice in a round.
- The chain length is overwritten by the join reply, `round_start` and a
  winning `round_end` with no check that it grows.
- A proposal replaces the stored one with no round-number or sender check.
- Round numbers are stored without any check that they increase.
- A reputation entry of zero is ignored, just like a missing entry.
- Socket events are handled before the join reply arrives. Nothing marks the
  session as joined, and a late join reply overwrites the chain length that a
  `round_start` set.
- `round_start` drops the previous round's winner and error. The outcome is
  shown only until the next round starts, not until the next round end.
- A failed `round_end` after a winning one keeps the winner next to the new
  error. A failed `round_end` without error text erases an earlier error.

## Model

| member | source | states |
|---|---|---|
| Selection.Slice | src/App.js:80 | `slice` with non-negative bounds clamps both to the length; the result's length is the clamped difference and its elements are the source's from the start index on |
| Selection.SelectTransactions | src/App.js:80 | the proposed transactions are a prefix of the available ones, of length min(5, number available) |
| Selection.SelectTransactionsCases | src/App.js:80 | up to five available: all are proposed; more: exactly the first five; nothing outside the available list is ever proposed |
| Protocol.Step | src/App.js:27-97 | only the two local actions send messages, always under the node's own id; the id never changes; proposing changes no state and sends iff online and proposer; voting sends iff online with a proposal; `hasVoted` can become true only through a vote cast online with a proposal present |
| Node.NodeSession.constructor | src/App.js:7-20 | a new session has the generated id, chain length 0, reputation 0, no transactions, no proposal, round 0 with no winner or error, not voted, not proposer, online |
| Node.NodeSession.OnJoinReply | src/App.js:27-30 | chain length and reputation come from the join reply; no other field changes |
| Node.NodeSession.OnRoundStart | src/App.js:33-41 | whatever the previous state: proposal cleared, vote reset, round info holds only the new round number, transactions and chain length from the payload, proposer iff payload proposer equals own id, online equals the sampled value, reputation kept |
| Node.NodeSession.OnNewBlockProposal | src/App.js:43-49 | the stored proposal becomes (proposer, hash, transactions) of the payload unconditionally; no other field changes |
| Node.NodeSession.OnRoundEnd | src/App.js:51-62 | with a winning block: chain length := new length and winner recorded; without: chain length kept and error recorded; round number and all other fields unchanged |
| Node.NodeSession.OnReputationUpdate | src/App.js:64-68 | reputation changes iff the table has a present non-zero entry for this node, and then becomes that value; nothing else changes |
| Node.NodeSession.ProposeBlock | src/App.js:78-87 | emits iff online and proposer; the message carries the node id, the first min(5, n) available transactions in order and the placeholder previous hash; no state changes |
| Node.NodeSession.VoteOnBlock | src/App.js:89-97 | emits iff online with a proposal; the message carries the node id and the proposal's hash and `hasVoted` becomes true; otherwise nothing is emitted and nothing changes |
| Protocol.Enabled | src/App.js:108-131 | the page offers an action only while online; "Propose Block" only to the proposer with no proposal; "Vote for this Block" only with a proposal and no vote yet; a press of a shown button always passes the action's guard and sends; authority messages are never gated |
| Protocol.Gated | src/App.js:108-131 | a sequence is gated exactly when each of its events is enabled in the state reached by the events before it |
| Properties.VotesBoundedByRounds | src/App.js:123-133 | when every button press happens while the page shows that button (online; vote: a proposal and no vote yet; propose: proposer and no proposal), the node sends no more votes than there are round starts, plus one if it had not voted at the beginning |
| Properties.AtMostOneVotePerRound | src/App.js:123-133 | within one round a gated node votes at most once, and not at all once it has voted |
| Properties.UngatedVoteRepeats | src/App.js:89-97 | calling `voteOnBlock` twice while online with a proposal sends two votes; that sequence is not gated |
| Properties.GatedProposalRepeats | src/App.js:119-121 | a proposer with no proposal yet can press "Propose Block" twice, and both presses send a proposal |
| Properties.ChainLengthFromAuthority | src/App.js:27-62 | after any sequence of events the chain length is the last value sent by a join reply, `round_start` or winning `round_end`, or the initial value if there was none |
| Properties.ChainLengthNeverDecreases | src/App.js:27-62 | if the authority's chain lengths never decrease, neither does the node's |
| Properties.RoundStartCanLowerChainLength | src/App.js:33-41 | a `round_start` with a smaller chain length lowers the node's chain length |
| Properties.RoundEndCanLowerChainLength | src/App.js:51-58 | a winning `round_end` with a smaller chain length lowers the node's chain length |
| Properties.MessagesCarryNodeId | src/App.js:78-97 | over any sequence of events the id is unchanged and every sent message carries it |
| Properties.RoundStartReplacesContext | src/App.js:33-41 | the state after `round_start` depends only on the payload, the sample, the id and the reputation |
| Properties.RoundStartIdempotent | src/App.js:33-41 | delivering the same `round_start` (same sample) twice gives the same state as once |
| Properties.RoundStartClears | src/App.js:33-41 | after any history followed by `round_start`: no proposal, no vote, no winner or error, transactions and online status from the new round |
| Properties.ReputationIgnoresOtherIds | src/App.js:64-68 | adding or changing another node's entry in a reputation update makes no difference |
| Properties.ZeroReputationIgnored | src/App.js:64-68 | a missing or zero entry for this node leaves the state unchanged |

## Left out

- The socket.io connection and its subscription management (`on`, `off`, teardown on unmount). Emitting is modelled by returning the outbound message from the action.
- The `/join` HTTP request and its JSON parsing. Only its completion is modelled, by `OnJoinReply` taking the reply's fields. A failed request is not modelled: the code has no failure path.
- `Math.random()`: the node id is a constructor argument, and the per-round online sample (true with probability 0.95) is a parameter of `OnRoundStart`.
- React machinery: hooks, the effect re-registering its handlers when the id changes, and stale closures. In particular, handlers registered before the generated id is set compare against a null id. This is not modelled; the model uses the generated id throughout.
- Rendering and `reputation.toFixed(2)`. The render guards appear only as the `Enabled`/`Gated` predicates.
- Payload values of unexpected JSON types or with missing fields. Every payload field is typed, and absent optional fields are `None`.
- Numbers: reputations are modelled as reals and chain lengths and round numbers as unbounded integers. IEEE-754 doubles are not modelled, so a NaN reputation entry, which is falsy and would be ignored, cannot be expressed.
