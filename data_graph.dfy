/**
 * The bounded sample history behind every chart: a most-recent-first
 * deque of optional samples that never holds more than `MaxLen` entries.
 */
module DataGraph {
  import opened Base

  /** The history's fixed capacity. */
  const MaxLen: nat := 5000

  /** The history after pushing `v` at the front and trimming from the back. */
  function Pushed<T>(h: seq<Option<T>>, v: Option<T>): (r: seq<Option<T>>)
    ensures |r| == Min(|h| + 1, MaxLen) <= MaxLen
    ensures r[0] == v
    ensures forall i :: 0 <= i < |r| - 1 ==> r[i + 1] == h[i]
  {
    Truncated([v] + h, MaxLen)
  }

  /** The history after pushing each of `vs` in turn, `vs[0]` first. */
  ghost function PushedAll<T>(h: seq<Option<T>>, vs: seq<Option<T>>): seq<Option<T>>
    decreases |vs|
  {
    if vs == [] then h else Pushed(PushedAll(h, vs[..|vs| - 1]), vs[|vs| - 1])
  }

  function Reversed<T>(s: seq<T>): (r: seq<T>)
    ensures |r| == |s|
    ensures forall i :: 0 <= i < |s| ==> r[i] == s[|s| - 1 - i]
  {
    if s == [] then [] else [s[|s| - 1]] + Reversed(s[..|s| - 1])
  }

  /** Pushing one more value in front commutes with trimming. */
  lemma TruncatedCons<T>(v: T, s: seq<T>, n: nat)
    requires n > 0
    ensures Truncated([v] + Truncated(s, n), n) == Truncated([v] + s, n)
  {
    var a, b := Truncated([v] + Truncated(s, n), n), Truncated([v] + s, n);
    assert |a| == |b|;
    forall i | 0 <= i < |a| ensures a[i] == b[i] {
      if i > 0 { assert a[i] == Truncated(s, n)[i - 1]; }
    }
  }

  /**
   * Any run of pushes leaves the pushed values newest first in front of
   * the old history, cut to the capacity.
   */
  lemma {:induction false} PushedAllIsTruncatedReverse<T>(h: seq<Option<T>>, vs: seq<Option<T>>)
    requires |h| <= MaxLen
    ensures PushedAll(h, vs) == Truncated(Reversed(vs) + h, MaxLen)
    decreases |vs|
  {
    if vs == [] {
      assert Reversed(vs) + h == h;
    } else {
      var init, last := vs[..|vs| - 1], vs[|vs| - 1];
      PushedAllIsTruncatedReverse(h, init);
      TruncatedCons(last, Reversed(init) + h, MaxLen);
      assert [last] + (Reversed(init) + h) == Reversed(vs) + h;
    }
  }

  /**
   * After at least `MaxLen` pushes into any history within capacity, it
   * holds exactly the last `MaxLen` pushed values, the newest at index 0.
   */
  lemma KeepsLastPushed<T>(h: seq<Option<T>>, vs: seq<Option<T>>)
    requires |h| <= MaxLen && |vs| >= MaxLen
    ensures |PushedAll(h, vs)| == MaxLen
    ensures forall i :: 0 <= i < MaxLen ==> PushedAll(h, vs)[i] == vs[|vs| - 1 - i]
  {
    PushedAllIsTruncatedReverse(h, vs);
  }

  /** Fewer than `MaxLen` pushes into an empty history lose nothing. */
  lemma KeepsEveryPushed<T>(vs: seq<Option<T>>)
    requires |vs| <= MaxLen
    ensures PushedAll([], vs) == Reversed(vs)
  {
    PushedAllIsTruncatedReverse([], vs);
    assert Reversed(vs) + [] == Reversed(vs);
  }

  /** `GraphViewerData`: one metric's sample history. */
  class GraphViewerData<T> {
    var historical: seq<Option<T>>

    ghost predicate Valid()
      reads this
    {
      |historical| <= MaxLen
    }

    constructor ()
      ensures Valid() && historical == []
      ensures forall i: nat :: GetValueAt(i) == None
    {
      historical := [];
    }

    /** Pushes `value` at the front, then trims the history to its capacity. */
    method Update(value: Option<T>)
      modifies this
      ensures Valid()
      ensures historical == Pushed(old(historical), value)
      ensures GetValueAt(0) == value
    {
      historical := [value] + historical;
      TrimLength();
    }

    /** Drops entries from the back while the history is over capacity. */
    method TrimLength()
      modifies this
      ensures Valid()
      ensures historical == Truncated(old(historical), MaxLen)
    {
      while |historical| > MaxLen
        invariant |historical| >= Min(|old(historical)|, MaxLen)
        invariant historical == old(historical)[..|historical|]
        decreases |historical|
      {
        historical := historical[..|historical| - 1];
      }
    }

    /**
     * The sample `index` entries back: `None` past the end and for a gap,
     * the stored value otherwise.
     */
    function GetValueAt(index: nat): (r: Option<T>)
      reads this
      ensures index >= |historical| ==> r == None
      ensures index < |historical| ==> r == historical[index]
    {
      match Get(historical, index)
      case None => None
      case Some(sample) => sample
    }
  }
}
