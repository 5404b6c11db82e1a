/**
 * The dictionary-shaped dumps the recorders produce (`get_dict`), and the
 * derived sequences they contain: cumulative counts and sums of totals.
 */
module Reports {
  import opened Payload

  /**
   * The running count `[1, 2, ..., n]` reported next to a series of n events:
   * it counts events by their order, it does not add up their values.
   */
  function CumulativeCounts(n: nat): (c: seq<nat>)
    ensures |c| == n
    ensures forall i :: 0 <= i < n ==> c[i] == i + 1
  {
    if n == 0 then [] else CumulativeCounts(n - 1) + [n]
  }

  /** The fields every recorder reports for its base series. */
  datatype SeriesDict<Y> = SeriesDict(
    recordName: string,
    x: seq<Time>,
    y: seq<Y>,
    cumulativeY: seq<nat>,
    totalEvents: nat)

  /** The base dump of a series named `recordName` with times `x` and values `y`. */
  function SeriesDictOf<Y>(recordName: string, x: seq<Time>, y: seq<Y>): (d: SeriesDict<Y>)
    ensures d.recordName == recordName && d.x == x && d.y == y
    ensures d.totalEvents == |y| && |d.cumulativeY| == |y|
    ensures forall i :: 0 <= i < |y| ==> d.cumulativeY[i] == i + 1
    ensures |y| > 0 ==> d.cumulativeY[|y| - 1] == d.totalEvents
  {
    SeriesDict(recordName, x, y, CumulativeCounts(|y|), |y|)
  }

  /** The dump of a compromise recorder: the base series plus the non-exposed sub-series. */
  datatype CompromiseDict = CompromiseDict(
    base: SeriesDict<HostId>,
    notExposedX: seq<Time>,
    notExposedY: seq<HostId>,
    cumulativeNotExposedY: seq<nat>,
    totalNotExposedEvents: nat)

  /** The dump of the exploited-vulnerability recorder. It has no `y` entry. */
  datatype VulnDict = VulnDict(
    recordName: string,
    x: seq<Time>,
    cumulativeExploitedVulns: seq<nat>,
    roa: seq<real>,
    impact: seq<real>,
    complexity: seq<real>,
    totalHadOsDependency: nat,
    totalWereDependentOnAnotherVuln: nat)

  /** The dump of one MTD strategy's recorder: triggers in `base`, blocks beside them. */
  datatype MtdDict = MtdDict(
    base: SeriesDict<int>,
    blockedTimes: seq<Time>,
    totalBlocks: nat,
    blockedValues: seq<string>,
    cumulativeBlocked: seq<nat>)

  /** The "total events" entry of each MTD dump, in order. */
  function EventCounts(ds: seq<MtdDict>): seq<nat>
  {
    seq(|ds|, i requires 0 <= i < |ds| => ds[i].base.totalEvents)
  }

  /** The "total blocks" entry of each MTD dump, in order. */
  function BlockCounts(ds: seq<MtdDict>): seq<nat>
  {
    seq(|ds|, i requires 0 <= i < |ds| => ds[i].totalBlocks)
  }

  /** `sum(s)`. */
  function Sum(s: seq<nat>): nat
  {
    if s == [] then 0 else s[0] + Sum(s[1..])
  }

  /** No single entry exceeds the sum. */
  lemma {:induction false} SumBounds(s: seq<nat>)
    ensures forall i :: 0 <= i < |s| ==> s[i] <= Sum(s)
  {
    if s != [] {
      SumBounds(s[1..]);
      assert forall i :: 1 <= i < |s| ==> s[i] == s[1..][i - 1];
    }
  }

  /** No strategy's count exceeds the report total it is summed into. */
  lemma TotalsBound(ds: seq<MtdDict>)
    ensures forall i :: 0 <= i < |ds| ==>
              ds[i].base.totalEvents <= Sum(EventCounts(ds)) && ds[i].totalBlocks <= Sum(BlockCounts(ds))
  {
    assert forall i :: 0 <= i < |ds| ==> EventCounts(ds)[i] == ds[i].base.totalEvents;
    assert forall i :: 0 <= i < |ds| ==> BlockCounts(ds)[i] == ds[i].totalBlocks;
    SumBounds(EventCounts(ds));
    SumBounds(BlockCounts(ds));
  }

  /** Replacing one entry changes the sum by exactly the difference. */
  lemma {:induction false} SumUpdate(s: seq<nat>, i: nat, v: nat)
    requires i < |s|
    ensures Sum(s[i := v]) + s[i] == Sum(s) + v
  {
    if i == 0 {
      assert s[i := v][1..] == s[1..];
    } else {
      assert s[i := v][1..] == s[1..][i - 1 := v];
      SumUpdate(s[1..], i - 1, v);
    }
  }

  /** Appending an entry adds it to the sum (the report total after a registration). */
  lemma {:induction false} SumAppend(s: seq<nat>, v: nat)
    ensures Sum(s + [v]) == Sum(s) + v
  {
    if s != [] {
      assert (s + [v])[1..] == s[1..] + [v];
      SumAppend(s[1..], v);
    }
  }

  /**
   * Replacing one strategy's dump changes each report total by exactly the
   * change in that strategy's own count.
   */
  lemma TotalsAfterUpdate(ds: seq<MtdDict>, i: nat, d: MtdDict)
    requires i < |ds|
    ensures Sum(EventCounts(ds[i := d])) + ds[i].base.totalEvents == Sum(EventCounts(ds)) + d.base.totalEvents
    ensures Sum(BlockCounts(ds[i := d])) + ds[i].totalBlocks == Sum(BlockCounts(ds)) + d.totalBlocks
  {
    assert EventCounts(ds[i := d]) == EventCounts(ds)[i := d.base.totalEvents];
    assert BlockCounts(ds[i := d]) == BlockCounts(ds)[i := d.totalBlocks];
    SumUpdate(EventCounts(ds), i, d.base.totalEvents);
    SumUpdate(BlockCounts(ds), i, d.totalBlocks);
  }

  /** A newly registered strategy's dump adds its counts to the report totals. */
  lemma TotalsAfterAppend(ds: seq<MtdDict>, d: MtdDict)
    ensures Sum(EventCounts(ds + [d])) == Sum(EventCounts(ds)) + d.base.totalEvents
    ensures Sum(BlockCounts(ds + [d])) == Sum(BlockCounts(ds)) + d.totalBlocks
  {
    assert EventCounts(ds + [d]) == EventCounts(ds) + [d.base.totalEvents];
    assert BlockCounts(ds + [d]) == BlockCounts(ds) + [d.totalBlocks];
    SumAppend(EventCounts(ds), d.base.totalEvents);
    SumAppend(BlockCounts(ds), d.totalBlocks);
  }
}
