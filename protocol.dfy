/** The node's round state machine as values: a session state, the events that
    reach it (authority messages and the two local actions), and the transition
    each event makes. The class `NodeSession` is specified by these functions. */
module Protocol {
  import opened Messages
  import opened Selection

  /** Everything a node holds about its session. */
  datatype SessionState = SessionState(
    nodeId: NodeId,
    chainLength: int,
    reputation: real,
    availableTransactions: seq<TxId>,
    proposedBlock: Option<Block>,
    roundInfo: RoundInfo,
    hasVoted: bool,
    isProposer: bool,
    isOnline: bool)

  /** One thing that can happen to a session. `RoundStart` carries the sampled
      connectivity of the new round alongside the authority's payload. */
  datatype Event =
    | Joined(reply: JoinReply)
    | RoundStart(payload: RoundStartPayload, online: bool)
    | NewBlockProposal(proposal: ProposalPayload)
    | RoundEnd(outcome: RoundEndPayload)
    | ReputationUpdate(table: ReputationTable)
    | Propose
    | Vote

  /** The state after an event and the message (if any) the node sends. */
  datatype Transition = Transition(next: SessionState, out: Option<Outbound>)

  /** The state of a session whose identifier has just been generated. */
  function Initial(id: NodeId): SessionState
  {
    SessionState(id, 0, 0.0, [], None, RoundInfo(0, None, None), false, false, true)
  }

  /** The reputation-table entry that `reputation_update` acts on: present and
      truthy, that is, not zero. */
  predicate HasReputationFor(table: ReputationTable, id: NodeId)
  {
    id in table && table[id] != 0.0
  }

  /** The transition an event makes. Only the local actions send anything, both
      send under this node's identifier, the identifier never changes, and a
      vote can be recorded only while online and holding a proposal. */
  function Step(s: SessionState, e: Event): (t: Transition)
    ensures t.next.nodeId == s.nodeId
    ensures t.out.Some? ==> (e.Propose? || e.Vote?) && t.out.value.nodeId == s.nodeId
    ensures e.Propose? ==> t.next == s && (t.out.Some? <==> s.isOnline && s.isProposer)
    ensures e.Vote? ==> (t.out.Some? <==> s.isOnline && s.proposedBlock.Some?)
    ensures !s.hasVoted && t.next.hasVoted ==> e.Vote? && s.isOnline && s.proposedBlock.Some?
  {
    match e
    case Joined(reply) =>
      Transition(s.(chainLength := reply.currentChainLength, reputation := reply.reputation), None)
    case RoundStart(p, online) =>
      Transition(s.(roundInfo := RoundInfo(p.round, None, None),
                    availableTransactions := p.availableTransactions,
                    chainLength := p.currentChainLength,
                    isProposer := p.proposer == s.nodeId,
                    proposedBlock := None,
                    hasVoted := false,
                    isOnline := online), None)
    case NewBlockProposal(p) =>
      Transition(s.(proposedBlock := Some(Block(p.proposer, p.blockHash, p.transactions))), None)
    case RoundEnd(p) =>
      if p.winningBlock.Some? then
        Transition(s.(chainLength := p.newChainLength,
                      roundInfo := s.roundInfo.(winner := p.winningBlock)), None)
      else
        Transition(s.(roundInfo := s.roundInfo.(error := p.error)), None)
    case ReputationUpdate(table) =>
      if HasReputationFor(table, s.nodeId) then
        Transition(s.(reputation := table[s.nodeId]), None)
      else
        Transition(s, None)
    case Propose =>
      if s.isOnline && s.isProposer then
        Transition(s, Some(ProposeBlockMsg(s.nodeId, SelectTransactions(s.availableTransactions),
                                           PlaceholderPreviousHash)))
      else
        Transition(s, None)
    case Vote =>
      if s.isOnline && s.proposedBlock.Some? then
        Transition(s.(hasVoted := true), Some(VoteOnBlockMsg(s.nodeId, s.proposedBlock.value.hash)))
      else
        Transition(s, None)
  }

  /** Whether the rendered page offers the action at all: both buttons sit in
      the online branch; "Propose Block" shows for the proposer while there is
      no proposal, "Vote for this Block" while there is one and no vote yet.
      Authority messages are always delivered. A press of a shown button
      always passes the action's own guard, so it always sends. */
  predicate Enabled(s: SessionState, e: Event)
    ensures Enabled(s, e) && (e.Propose? || e.Vote?) ==> s.isOnline && Step(s, e).out.Some?
    ensures Enabled(s, e) && e.Propose? ==> s.proposedBlock.None?
    ensures Enabled(s, e) && e.Vote? ==> !s.hasVoted
    ensures !e.Propose? && !e.Vote? ==> Enabled(s, e)
  {
    match e
    case Propose => s.isOnline && s.isProposer && s.proposedBlock.None?
    case Vote => s.isOnline && s.proposedBlock.Some? && !s.hasVoted
    case _ => true
  }

  /** The state after a sequence of events. */
  function Run(s: SessionState, es: seq<Event>): SessionState
    decreases |es|
  {
    if es == [] then s else Run(Step(s, es[0]).next, es[1..])
  }

  function OptionToSeq<T>(o: Option<T>): seq<T>
  {
    if o.Some? then [o.value] else []
  }

  /** The messages sent, in order, while a sequence of events is processed. */
  function Emitted(s: SessionState, es: seq<Event>): seq<Outbound>
    decreases |es|
  {
    if es == [] then [] else OptionToSeq(Step(s, es[0]).out) + Emitted(Step(s, es[0]).next, es[1..])
  }

  /** Every local action in the sequence was offered by the page when taken:
      each event is enabled in the state reached by the events before it. */
  predicate Gated(s: SessionState, es: seq<Event>)
    ensures Gated(s, es) <==> forall k :: 0 <= k < |es| ==> Enabled(Run(s, es[..k]), es[k])
    decreases |es|
  {
    if es == [] then true
    else
      var t := Step(s, es[0]).next;
      assert Run(s, es[..0]) == s;
      assert forall k :: 0 <= k < |es| - 1 ==> Run(s, es[..k + 1]) == Run(t, es[1..][..k]) by {
        forall k | 0 <= k < |es| - 1 ensures Run(s, es[..k + 1]) == Run(t, es[1..][..k]) {
          assert es[..k + 1][0] == es[0];
          assert es[..k + 1][1..] == es[1..][..k];
        }
      }
      Enabled(s, es[0]) && Gated(t, es[1..])
  }
}
