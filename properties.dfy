/** Properties of whole sequences of events, proved on the transition function
    that specifies `NodeSession`. */
module Properties {
  import opened Messages
  import opened Selection
  import opened Protocol

  function CountVotes(ms: seq<Outbound>): nat
    decreases |ms|
  {
    if ms == [] then 0 else (if ms[0].VoteOnBlockMsg? then 1 else 0) + CountVotes(ms[1..])
  }

  function CountProposals(ms: seq<Outbound>): nat
    decreases |ms|
  {
    if ms == [] then 0 else (if ms[0].ProposeBlockMsg? then 1 else 0) + CountProposals(ms[1..])
  }

  function CountRoundStarts(es: seq<Event>): nat
    decreases |es|
  {
    if es == [] then 0 else (if es[0].RoundStart? then 1 else 0) + CountRoundStarts(es[1..])
  }

  lemma {:induction false} CountVotesAppend(a: seq<Outbound>, b: seq<Outbound>)
    ensures CountVotes(a + b) == CountVotes(a) + CountVotes(b)
    decreases |a|
  {
    if a != [] {
      assert (a + b)[1..] == a[1..] + b;
      CountVotesAppend(a[1..], b);
    } else {
      assert a + b == b;
    }
  }

  /** Processing two sequences one after the other is processing their
      concatenation. */
  lemma {:induction false} RunAppend(s: SessionState, a: seq<Event>, b: seq<Event>)
    ensures Run(s, a + b) == Run(Run(s, a), b)
    decreases |a|
  {
    if a != [] {
      assert (a + b)[0] == a[0];
      assert (a + b)[1..] == a[1..] + b;
      RunAppend(Step(s, a[0]).next, a[1..], b);
    } else {
      assert a + b == b;
    }
  }

  /** With the voting button shown only while no vote was cast, a node sends
      at most one vote per round: no more votes than round starts, plus one if
      it had not yet voted when the sequence began. */
  lemma {:induction false} VotesBoundedByRounds(s: SessionState, es: seq<Event>)
    requires Gated(s, es)
    ensures CountVotes(Emitted(s, es)) <= CountRoundStarts(es) + (if s.hasVoted then 0 else 1)
    decreases |es|
  {
    if es != [] {
      var t := Step(s, es[0]);
      VotesBoundedByRounds(t.next, es[1..]);
      CountVotesAppend(OptionToSeq(t.out), Emitted(t.next, es[1..]));
      if es[0].Vote? {
        assert t.next.hasVoted;
      } else if !es[0].RoundStart? {
        assert t.next.hasVoted == s.hasVoted;
        assert CountVotes(OptionToSeq(t.out)) == 0;
      }
    }
  }

  /** Within one round (no `round_start` in between), a gated node votes at
      most once, and not at all if it has already voted. */
  lemma AtMostOneVotePerRound(s: SessionState, es: seq<Event>)
    requires Gated(s, es)
    requires forall i :: 0 <= i < |es| ==> !es[i].RoundStart?
    ensures CountVotes(Emitted(s, es)) <= if s.hasVoted then 0 else 1
  {
    NoRoundStarts(es);
    VotesBoundedByRounds(s, es);
  }

  lemma {:induction false} NoRoundStarts(es: seq<Event>)
    requires forall i :: 0 <= i < |es| ==> !es[i].RoundStart?
    ensures CountRoundStarts(es) == 0
    decreases |es|
  {
    if es != [] {
      NoRoundStarts(es[1..]);
    }
  }

  /** `voteOnBlock` itself does not look at `hasVoted`: called twice while
      online with a proposal, it sends two votes. Only the hidden button keeps
      a page from doing so. */
  lemma UngatedVoteRepeats(s: SessionState)
    requires s.isOnline && s.proposedBlock.Some?
    ensures !Gated(s, [Vote, Vote])
    ensures CountVotes(Emitted(s, [Vote, Vote])) == 2
  {
    var s1 := Step(s, Vote).next;
    assert [Vote, Vote][1..] == [Vote];
    assert Emitted(s1, [Vote]) == OptionToSeq(Step(s1, Vote).out);
    var m := VoteOnBlockMsg(s.nodeId, s.proposedBlock.value.hash);
    assert Emitted(s, [Vote, Vote]) == [m, m];
    assert [m, m][1..] == [m] && [m][1..] == [];
    assert CountVotes([m]) == 1;
    assert CountVotes([m, m]) == 2;
  }

  /** Proposing leaves the session unchanged, so the "Propose Block" button
      stays until a proposal comes back from the authority: even a gated
      proposer can send two proposals in one round. */
  lemma GatedProposalRepeats(s: SessionState)
    requires s.isOnline && s.isProposer && s.proposedBlock.None?
    ensures Gated(s, [Propose, Propose])
    ensures CountProposals(Emitted(s, [Propose, Propose])) == 2
  {
    assert [Propose, Propose][1..] == [Propose];
    assert Gated(s, [Propose]);
    var m := ProposeBlockMsg(s.nodeId, SelectTransactions(s.availableTransactions), PlaceholderPreviousHash);
    assert Emitted(s, [Propose]) == [m];
    assert Emitted(s, [Propose, Propose]) == [m, m];
    assert [m, m][1..] == [m] && [m][1..] == [];
    assert CountProposals([m]) == 1;
    assert CountProposals([m, m]) == 2;
  }

  /** The chain length an event would install, if it sets one at all: only
      the join reply, `round_start` and a successful `round_end` do. */
  function ChainLengthSetBy(e: Event): Option<int>
  {
    match e
    case Joined(reply) => Some(reply.currentChainLength)
    case RoundStart(p, _) => Some(p.currentChainLength)
    case RoundEnd(p) => if p.winningBlock.Some? then Some(p.newChainLength) else None
    case _ => None
  }

  /** The last chain length the authority sent in `es`, or `c` if it sent none. */
  function LastChainLength(c: int, es: seq<Event>): int
    decreases |es|
  {
    if es == [] then c
    else LastChainLength(if ChainLengthSetBy(es[0]).Some? then ChainLengthSetBy(es[0]).value else c, es[1..])
  }

  /** The node's chain length is always the last one the authority sent: no
      event of its own changes it. */
  lemma {:induction false} ChainLengthFromAuthority(s: SessionState, es: seq<Event>)
    ensures Run(s, es).chainLength == LastChainLength(s.chainLength, es)
    decreases |es|
  {
    if es != [] {
      ChainLengthFromAuthority(Step(s, es[0]).next, es[1..]);
    }
  }

  /** The authority's chain lengths in `es` never fall below `c` or below one
      another. */
  predicate AuthorityNonDecreasing(c: int, es: seq<Event>)
    decreases |es|
  {
    es == [] ||
    (match ChainLengthSetBy(es[0])
     case Some(v) => c <= v && AuthorityNonDecreasing(v, es[1..])
     case None => AuthorityNonDecreasing(c, es[1..]))
  }

  /** The chain length never decreases as long as the authority's values do
      not: the node relies on the authority for this, it checks nothing. */
  lemma {:induction false} ChainLengthNeverDecreases(s: SessionState, es: seq<Event>)
    requires AuthorityNonDecreasing(s.chainLength, es)
    ensures Run(s, es).chainLength >= s.chainLength
    decreases |es|
  {
    if es != [] {
      ChainLengthNeverDecreases(Step(s, es[0]).next, es[1..]);
    }
  }

  /** A `round_start` with a smaller chain length is taken as it is. */
  lemma RoundStartCanLowerChainLength(s: SessionState, p: RoundStartPayload, online: bool)
    requires p.currentChainLength < s.chainLength
    ensures Step(s, RoundStart(p, online)).next.chainLength < s.chainLength
  {
  }

  /** A winning `round_end` with a smaller chain length is taken as it is. */
  lemma RoundEndCanLowerChainLength(s: SessionState, p: RoundEndPayload)
    requires p.winningBlock.Some? && p.newChainLength < s.chainLength
    ensures Step(s, RoundEnd(p)).next.chainLength < s.chainLength
  {
  }

  /** The identifier never changes, and every message the node sends carries it. */
  lemma {:induction false} MessagesCarryNodeId(s: SessionState, es: seq<Event>)
    ensures Run(s, es).nodeId == s.nodeId
    ensures forall m :: m in Emitted(s, es) ==> m.nodeId == s.nodeId
    decreases |es|
  {
    if es != [] {
      var t := Step(s, es[0]);
      MessagesCarryNodeId(t.next, es[1..]);
      assert Emitted(s, es) == OptionToSeq(t.out) + Emitted(t.next, es[1..]);
    }
  }

  /** `round_start` replaces the round context wholesale: two sessions that
      differ in anything but identifier and reputation end up identical. */
  lemma RoundStartReplacesContext(s1: SessionState, s2: SessionState, p: RoundStartPayload, online: bool)
    requires s1.nodeId == s2.nodeId && s1.reputation == s2.reputation
    ensures Step(s1, RoundStart(p, online)).next == Step(s2, RoundStart(p, online)).next
  {
  }

  /** A duplicated `round_start` (with the same sampled connectivity) changes
      nothing further. */
  lemma RoundStartIdempotent(s: SessionState, p: RoundStartPayload, online: bool)
    ensures Step(Step(s, RoundStart(p, online)).next, RoundStart(p, online)).next
         == Step(s, RoundStart(p, online)).next
  {
  }

  /** Whatever happened before, a session that has just processed a
      `round_start` has no proposal, no vote, and no winner or error. */
  lemma RoundStartClears(s: SessionState, es: seq<Event>, p: RoundStartPayload, online: bool)
    ensures var r := Run(s, es + [RoundStart(p, online)]);
      r.proposedBlock.None? && !r.hasVoted &&
      r.roundInfo == RoundInfo(p.round, None, None) &&
      r.availableTransactions == p.availableTransactions && r.isOnline == online
  {
    RunAppend(s, es, [RoundStart(p, online)]);
  }

  /** Entries of a reputation table for other identifiers have no effect. */
  lemma ReputationIgnoresOtherIds(s: SessionState, table: ReputationTable, id: NodeId, v: real)
    requires id != s.nodeId
    ensures Step(s, ReputationUpdate(table[id := v])).next == Step(s, ReputationUpdate(table)).next
  {
  }

  /** A zero entry for this node is ignored, as is a missing one. */
  lemma ZeroReputationIgnored(s: SessionState, table: ReputationTable)
    requires s.nodeId !in table || table[s.nodeId] == 0.0
    ensures Step(s, ReputationUpdate(table)).next == s
  {
  }
}
