/**
 * The event recorders: `Statistics` and its three specialisations. Dafny has
 * no class inheritance, so each specialisation carries the base fields
 * (`recordType`, `xList`, `yList`) itself; what they share is the dump shape
 * `SeriesDictOf` and the running count `CumulativeCounts`.
 *
 * Each recorder is append-only. Where a recorder derives its lists from a
 * payload (a host, a vulnerability), a ghost `log` keeps the payloads
 * recorded so far and `Valid()` says how every list is a view of that log.
 */
module Recorders {
  import opened Payload
  import opened Reports

  /** The times of a log of (time, payload) events, in order. */
  ghost function TimesOf<P>(log: seq<(Time, P)>): (ts: seq<Time>)
  {
    seq(|log|, i requires 0 <= i < |log| => log[i].0)
  }

  /** The host ids of a log of compromises, in order. */
  ghost function IdsOf(log: seq<(Time, Host)>): (ids: seq<HostId>)
  {
    seq(|log|, i requires 0 <= i < |log| => log[i].1.hostId)
  }

  /**
   * The compromises of hosts that are not exposed endpoints, in the order
   * they were recorded.
   */
  ghost function NonExposed(log: seq<(Time, Host)>): (sub: seq<(Time, Host)>)
    ensures |sub| <= |log|
    ensures forall e :: e in sub <==> e in log && !e.1.exposed
  {
    if log == [] then []
    else
      var front := NonExposed(log[..|log| - 1]);
      var e := log[|log| - 1];
      assert forall f :: f in log <==> f in log[..|log| - 1] || f == e;
      if e.1.exposed then front else front + [e]
  }

  /** How many of the logged vulnerabilities depend on the OS. */
  ghost function OsDependentCount(log: seq<(Time, Vuln)>): (n: nat)
    ensures n <= |log|
  {
    if log == [] then 0
    else OsDependentCount(log[..|log| - 1]) + (if log[|log| - 1].1.hasOsDependency then 1 else 0)
  }

  /** How many of the logged vulnerabilities depend on another vulnerability. */
  ghost function DependentCount(log: seq<(Time, Vuln)>): (n: nat)
    ensures n <= |log|
  {
    if log == [] then 0
    else DependentCount(log[..|log| - 1]) + (if log[|log| - 1].1.hasDependentVulns then 1 else 0)
  }

  /** The base recorder: two parallel lists of times and values. */
  class Statistics<Y> {
    const recordType: string
    var xList: seq<Time>
    var yList: seq<Y>

    ghost predicate Valid()
      reads this
    {
      |xList| == |yList|
    }

    constructor (recordType: string)
      ensures Valid()
      ensures this.recordType == recordType && xList == [] && yList == []
    {
      this.recordType := recordType;
      xList := [];
      yList := [];
    }

    /** Appends one event; earlier events are kept as they were. */
    method AddEvent(x: Time, y: Y)
      requires Valid()
      modifies this
      ensures Valid()
      ensures xList == old(xList) + [x] && yList == old(yList) + [y]
    {
      xList := xList + [x];
      yList := yList + [y];
    }

    function GetDict(): (d: SeriesDict<Y>)
      reads this
      requires Valid()
      ensures d.recordName == recordType && d.x == xList && d.y == yList
      ensures d.totalEvents == |xList| == |yList| == |d.cumulativeY|
      ensures forall i :: 0 <= i < d.totalEvents ==> d.cumulativeY[i] == i + 1
    {
      SeriesDictOf(recordType, xList, yList)
    }
  }

  /**
   * Records compromised hosts by id, and keeps a second series of the
   * compromises of hosts that are not exposed endpoints.
   */
  class CompromiseStatistics {
    const recordType: string
    var xList: seq<Time>
    var yList: seq<HostId>
    var nonExposedX: seq<Time>
    var nonExposedY: seq<HostId>
    /** Every (time, host) recorded so far, in order. */
    ghost var log: seq<(Time, Host)>

    ghost predicate Valid()
      reads this
    {
      xList == TimesOf(log) && yList == IdsOf(log) &&
      nonExposedX == TimesOf(NonExposed(log)) && nonExposedY == IdsOf(NonExposed(log))
    }

    constructor (recordType: string)
      ensures Valid()
      ensures this.recordType == recordType && log == []
      ensures xList == [] && yList == [] && nonExposedX == [] && nonExposedY == []
    {
      this.recordType := recordType;
      xList, yList := [], [];
      nonExposedX, nonExposedY := [], [];
      log := [];
    }

    /**
     * Always appends `(x, host id)` to the base series; appends it to the
     * non-exposed series exactly when the host is not an exposed endpoint.
     */
    method AddEvent(x: Time, host: Host)
      requires Valid()
      modifies this
      ensures Valid()
      ensures log == old(log) + [(x, host)]
      ensures xList == old(xList) + [x] && yList == old(yList) + [host.hostId]
      ensures !host.exposed ==>
                nonExposedX == old(nonExposedX) + [x] && nonExposedY == old(nonExposedY) + [host.hostId]
      ensures host.exposed ==>
                nonExposedX == old(nonExposedX) && nonExposedY == old(nonExposedY)
    {
      var hostId := host.hostId;
      if !host.exposed {
        nonExposedX := nonExposedX + [x];
        nonExposedY := nonExposedY + [hostId];
      }
      xList := xList + [x];
      yList := yList + [hostId];
      log := log + [(x, host)];
      assert log[..|log| - 1] == old(log);
    }

    function GetDict(): (d: CompromiseDict)
      reads this
      requires Valid()
      ensures d.base.recordName == recordType && d.base.x == xList && d.base.y == yList
      ensures d.base.totalEvents == |log|
      ensures d.notExposedX == nonExposedX && d.notExposedY == nonExposedY
      ensures d.totalNotExposedEvents == |d.cumulativeNotExposedY| <= d.base.totalEvents
      ensures forall i :: 0 <= i < d.totalNotExposedEvents ==> d.cumulativeNotExposedY[i] == i + 1
    {
      CompromiseDict(
        SeriesDictOf(recordType, xList, yList),
        nonExposedX,
        nonExposedY,
        CumulativeCounts(|nonExposedY|),
        |nonExposedY|)
    }
  }

  /**
   * Records exploited vulnerabilities: a time and the three scores per event,
   * and two counters. `yList` is inherited and never appended to.
   */
  class VulnStatistics {
    const recordType: string
    var xList: seq<Time>
    var yList: seq<int>
    var roaList: seq<real>
    var impactList: seq<real>
    var complexityList: seq<real>
    var hasOsDependency: nat
    var hasDependentVulns: nat
    /** Every (time, vulnerability) recorded so far, in order. */
    ghost var log: seq<(Time, Vuln)>

    ghost predicate Valid()
      reads this
    {
      xList == TimesOf(log) && yList == [] &&
      |roaList| == |impactList| == |complexityList| == |log| &&
      (forall i :: 0 <= i < |log| ==>
         roaList[i] == log[i].1.roa && impactList[i] == log[i].1.impact &&
         complexityList[i] == log[i].1.complexity) &&
      hasOsDependency == OsDependentCount(log) &&
      hasDependentVulns == DependentCount(log)
    }

    constructor (recordType: string)
      ensures Valid()
      ensures this.recordType == recordType && log == []
    {
      this.recordType := recordType;
      xList, yList := [], [];
      roaList, impactList, complexityList := [], [], [];
      hasOsDependency, hasDependentVulns := 0, 0;
      log := [];
    }

    /** Appends the time and the three scores; each counter grows by 0 or 1. */
    method AddEvent(currTime: Time, vuln: Vuln)
      requires Valid()
      modifies this
      ensures Valid()
      ensures log == old(log) + [(currTime, vuln)]
      ensures xList == old(xList) + [currTime] && yList == old(yList)
      ensures roaList == old(roaList) + [vuln.roa]
      ensures impactList == old(impactList) + [vuln.impact]
      ensures complexityList == old(complexityList) + [vuln.complexity]
      ensures hasOsDependency == old(hasOsDependency) + (if vuln.hasOsDependency then 1 else 0)
      ensures hasDependentVulns == old(hasDependentVulns) + (if vuln.hasDependentVulns then 1 else 0)
    {
      xList := xList + [currTime];
      roaList := roaList + [vuln.roa];
      impactList := impactList + [vuln.impact];
      complexityList := complexityList + [vuln.complexity];
      hasOsDependency := hasOsDependency + (if vuln.hasOsDependency then 1 else 0);
      hasDependentVulns := hasDependentVulns + (if vuln.hasDependentVulns then 1 else 0);
      log := log + [(currTime, vuln)];
      assert log[..|log| - 1] == old(log);
    }

    function GetDict(): (d: VulnDict)
      reads this
      requires Valid()
      ensures d.recordName == recordType && d.x == xList
      ensures d.roa == roaList && d.impact == impactList && d.complexity == complexityList
      ensures |d.cumulativeExploitedVulns| == |d.x| == |d.roa| == |d.impact| == |d.complexity|
      ensures forall i :: 0 <= i < |d.x| ==> d.cumulativeExploitedVulns[i] == i + 1
      ensures d.totalHadOsDependency <= |d.x| && d.totalWereDependentOnAnotherVuln <= |d.x|
    {
      VulnDict(
        recordType,
        xList,
        CumulativeCounts(|xList|),
        roaList,
        impactList,
        complexityList,
        hasOsDependency,
        hasDependentVulns)
    }
  }

  /**
   * Records one MTD strategy: its triggers in the base lists and, separately,
   * the attacker actions it blocked.
   */
  class MTDStatistics {
    const recordType: string
    var xList: seq<Time>
    var yList: seq<int>
    var blockedXList: seq<Time>
    var blockedYList: seq<string>

    ghost predicate Valid()
      reads this
    {
      |xList| == |yList| && |blockedXList| == |blockedYList|
    }

    constructor (recordType: string)
      ensures Valid()
      ensures this.recordType == recordType
      ensures xList == [] && yList == [] && blockedXList == [] && blockedYList == []
    {
      this.recordType := recordType;
      xList, yList := [], [];
      blockedXList, blockedYList := [], [];
    }

    /** A trigger: only the base lists change. */
    method AddEvent(x: Time, y: int)
      requires Valid()
      modifies this
      ensures Valid()
      ensures xList == old(xList) + [x] && yList == old(yList) + [y]
      ensures blockedXList == old(blockedXList) && blockedYList == old(blockedYList)
    {
      xList := xList + [x];
      yList := yList + [y];
    }

    /** A block: only the blocked lists change. */
    method AddBlockedEvent(x: Time, y: string)
      requires Valid()
      modifies this
      ensures Valid()
      ensures blockedXList == old(blockedXList) + [x] && blockedYList == old(blockedYList) + [y]
      ensures xList == old(xList) && yList == old(yList)
    {
      blockedXList := blockedXList + [x];
      blockedYList := blockedYList + [y];
    }

    function GetDict(): (d: MtdDict)
      reads this
      ensures d.base.recordName == recordType && d.base.x == xList && d.base.y == yList
      ensures d.base.totalEvents == |yList| && d.totalBlocks == |blockedXList|
      ensures d.blockedTimes == blockedXList && d.blockedValues == blockedYList
      ensures |d.cumulativeBlocked| == |blockedYList|
      ensures forall i :: 0 <= i < |blockedYList| ==> d.cumulativeBlocked[i] == i + 1
    {
      MtdDict(
        SeriesDictOf(recordType, xList, yList),
        blockedXList,
        |blockedXList|,
        blockedYList,
        CumulativeCounts(|blockedYList|))
    }
  }

  /**
   * A strategy's recorder that only ever saw blocks: K blocks and no trigger
   * report zero events and K blocks, with the block times in order.
   */
  method BlocksWithoutTriggers(name: string, times: seq<Time>) returns (d: MtdDict)
    ensures d.base.totalEvents == 0 && d.base.cumulativeY == []
    ensures d.totalBlocks == |times| && d.blockedTimes == times
    ensures |d.blockedValues| == |d.cumulativeBlocked| == |times|
    ensures forall i :: 0 <= i < |times| ==> d.blockedValues[i] == name && d.cumulativeBlocked[i] == i + 1
  {
    var m := new MTDStatistics(name);
    var i := 0;
    while i < |times|
      invariant 0 <= i <= |times|
      invariant m.Valid() && m.recordType == name
      invariant m.xList == [] && m.yList == []
      invariant m.blockedXList == times[..i]
      invariant forall k :: 0 <= k < i ==> m.blockedYList[k] == name
    {
      m.AddBlockedEvent(times[i], m.recordType);
      i := i + 1;
    }
    assert times[..|times|] == times;
    d := m.GetDict();
  }
}
