/** Clients of `NodeSession` that follow the round scenarios of the protocol,
    using only the methods' contracts. */
module Scenarios {
  import opened Messages
  import opened Node

  /** The proposer with eight transactions on offer proposes the first five. */
  method ProposerSendsFirstFive()
  {
    var n := new NodeSession("self");
    n.OnJoinReply(JoinReply(0, 1.0));
    var txs := ["t1", "t2", "t3", "t4", "t5", "t6", "t7", "t8"];
    n.OnRoundStart(RoundStartPayload(1, txs, 0, "self"), true);
    var m := n.ProposeBlock();
    assert m.Some?;
    assert m.value.transactions == ["t1", "t2", "t3", "t4", "t5"];
    assert m.value.previousHash == PlaceholderPreviousHash;
  }

  /** A node that is not this round's proposer sends nothing when proposing,
      and neither does the proposer while offline. */
  method NonProposerSendsNothing()
  {
    var n := new NodeSession("self");
    n.OnRoundStart(RoundStartPayload(1, ["t1"], 0, "other"), true);
    var m := n.ProposeBlock();
    assert m == None;
    n.OnRoundStart(RoundStartPayload(2, ["t1"], 0, "self"), false);
    m := n.ProposeBlock();
    assert m == None;
  }

  /** A vote names the proposal's hash. A second call of `VoteOnBlock` in the
      same round sends a second vote: the action itself keeps no count. */
  method VoteNamesProposal()
  {
    var n := new NodeSession("self");
    n.OnRoundStart(RoundStartPayload(1, ["t1"], 0, "other"), true);
    n.OnNewBlockProposal(ProposalPayload("other", "h1", ["t1"]));
    var m := n.VoteOnBlock();
    assert m == Some(VoteOnBlockMsg("self", "h1")) && n.hasVoted;
    m := n.VoteOnBlock();
    assert m == Some(VoteOnBlockMsg("self", "h1"));
    n.OnRoundStart(RoundStartPayload(2, [], 0, "other"), true);
    assert !n.hasVoted;
    m := n.VoteOnBlock();
    assert m == None;
  }

  /** A winning round end sets the chain length and the winner; a failed one
      keeps the chain length and records the error next to the earlier winner. */
  method RoundEndOutcomes()
  {
    var n := new NodeSession("self");
    n.OnRoundStart(RoundStartPayload(1, ["t1", "t2"], 4, "n2"), true);
    var w := WinningBlock("n2", ["t1", "t2"]);
    n.OnRoundEnd(RoundEndPayload(Some(w), 5, None));
    assert n.chainLength == 5 && n.roundInfo == RoundInfo(1, Some(w), None);
    n.OnRoundEnd(RoundEndPayload(None, 0, Some("no_quorum")));
    assert n.chainLength == 5 && n.roundInfo == RoundInfo(1, Some(w), Some("no_quorum"));
  }

  /** Only this node's non-zero entry updates its reputation. */
  method ReputationFromOwnEntry()
  {
    var n := new NodeSession("x");
    n.OnJoinReply(JoinReply(3, 0.5));
    n.OnReputationUpdate(map["y" := 0.9]);
    assert n.reputation == 0.5;
    n.OnReputationUpdate(map["x" := 0.0]);
    assert n.reputation == 0.5;
    n.OnReputationUpdate(map["x" := 0.73, "y" := 0.1]);
    assert n.reputation == 0.73 && n.chainLength == 3;
  }
}
