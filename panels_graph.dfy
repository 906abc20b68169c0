/**
 * The earlier chart history: plain samples with no gaps and no fixed cap;
 * each render trims it to the highest index the chart body asked for.
 */
module PanelsGraph {
  import opened Base

  /** The highest of 0 and every index in `queried`. */
  function HighestIndex(queried: seq<nat>): (m: nat)
    ensures forall k :: 0 <= k < |queried| ==> queried[k] <= m
    ensures m == 0 || exists k :: 0 <= k < |queried| && queried[k] == m
  {
    if queried == [] then 0
    else Max(HighestIndex(queried[..|queried| - 1]), queried[|queried| - 1])
  }

  /**
   * The purge keeps exactly `highest` entries when it can, so an entry at
   * the highest queried index, just drawn, is gone for the next lookup.
   */
  lemma PurgeDropsHighestQueried<T>(h: seq<T>, queried: seq<nat>)
    requires |h| > HighestIndex(queried)
    ensures |Truncated(h, HighestIndex(queried))| == HighestIndex(queried)
    ensures Get(Truncated(h, HighestIndex(queried)), HighestIndex(queried)) == None
  {
  }

  /** `GraphViewer`: a chart's history and its render-driven purge. */
  class GraphViewer<T> {
    var historical: seq<T>

    constructor ()
      ensures historical == []
    {
      historical := [];
    }

    /** Pushes `value` at the front; nothing is removed here. */
    method Update(value: T)
      modifies this
      ensures historical == [value] + old(historical)
      ensures Get(historical, 0) == Some(value)
      ensures forall i :: 0 <= i < |old(historical)| ==> historical[i + 1] == old(historical)[i]
    {
      historical := [value] + historical;
    }

    /**
     * One render. The chart body asks for the indices in `queried`, in
     * order, and is `served` the lookups; then entries are dropped from the
     * back while the length exceeds the highest index asked for.
     */
    method Render(queried: seq<nat>) returns (served: seq<Option<T>>, highestIndex: nat)
      modifies this
      ensures highestIndex == HighestIndex(queried)
      ensures |served| == |queried|
      ensures forall k :: 0 <= k < |queried| ==> served[k] == Get(old(historical), queried[k])
      ensures historical == Truncated(old(historical), highestIndex)
    {
      highestIndex := 0;
      served := [];
      for k := 0 to |queried|
        invariant highestIndex == HighestIndex(queried[..k])
        invariant |served| == k
        invariant forall j :: 0 <= j < k ==> served[j] == Get(historical, queried[j])
      {
        assert queried[..k + 1][..k] == queried[..k];
        highestIndex := Max(highestIndex, queried[k]);
        served := served + [Get(historical, queried[k])];
      }
      assert queried[..|queried|] == queried;

      while |historical| > highestIndex
        invariant |historical| >= Min(|old(historical)|, highestIndex)
        invariant historical == old(historical)[..|historical|]
        decreases |historical|
      {
        historical := historical[..|historical| - 1];
      }
    }
  }
}
