/** Choosing the transactions a proposer puts into its block. */
module Selection {
  import opened Messages

  function Min(a: int, b: int): int { if a < b then a else b }

  /** `Array.prototype.slice(start, end)` for non-negative bounds: both bounds
      are clamped to the length, and an end before the start gives nothing. */
  function Slice<T>(s: seq<T>, start: nat, end: nat): (r: seq<T>)
    ensures |r| == if Min(end, |s|) <= Min(start, |s|) then 0 else Min(end, |s|) - Min(start, |s|)
    ensures forall i :: 0 <= i < |r| ==> start + i < |s| && r[i] == s[start + i]
  {
    var b := Min(start, |s|);
    var e := Min(end, |s|);
    if e <= b then [] else s[b..e]
  }

  /** The transactions a proposer offers: `slice(0, 5)` of those available. */
  function SelectTransactions(available: seq<TxId>): (r: seq<TxId>)
    ensures |r| == Min(MaxBlockTransactions, |available|)
    ensures r == available[..|r|]
  {
    Slice(available, 0, MaxBlockTransactions)
  }

  /** With at most five transactions available, all of them are proposed; with
      more, exactly the first five, and every later one is left out. */
  lemma SelectTransactionsCases(available: seq<TxId>)
    ensures |available| <= MaxBlockTransactions ==> SelectTransactions(available) == available
    ensures |available| > MaxBlockTransactions ==>
      SelectTransactions(available) == available[..MaxBlockTransactions]
    ensures forall t :: t in SelectTransactions(available) ==> t in available
  {
  }
}
