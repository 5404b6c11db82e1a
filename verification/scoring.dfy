/**
 * The scorer: the aggregation root the simulation reports every event to. It
 * owns one recorder per compromise cause, one for leaked user accounts, one
 * for exploited vulnerabilities and one per registered MTD strategy, routes
 * MTD triggers and blocks to the strategy that fired last, and builds the
 * report.
 */
module Scoring {
  import opened Payload
  import opened Reports
  import opened Recorders
  import opened Snapshot

  datatype Option<T> = None | Some(value: T)

  /** The one error the scorer raises: an MTD trigger or block while no strategy is active. */
  datatype ScorerError = CannotAddMTDEventToScorerError

  datatype Outcome = Pass | Fail(error: ScorerError)

  /** The report `get_statistics` returns. */
  datatype Report = Report(
    initial: InitialStats,
    hostCompromises: CompromiseDict,
    vulnCompromises: CompromiseDict,
    reusePasswordCompromises: CompromiseDict,
    passwordSprayCompromises: CompromiseDict,
    userAccountLeaks: SeriesDict<string>,
    vulnerabilitiesExploited: VulnDict,
    mtdStatistics: seq<MtdDict>,
    totalMtdEvents: nat,
    totalMtdBlockingHackerEvents: nat)

  /** The dumps of a list of MTD recorders, in order. */
  function MtdDicts(ms: seq<MTDStatistics>): seq<MtdDict>
    reads ms
  {
    seq(|ms|, i requires 0 <= i < |ms| reads ms => ms[i].GetDict())
  }

  /** The position of a recorder in a list that holds it. */
  function IndexOf(ms: seq<MTDStatistics>, m: MTDStatistics): (i: nat)
    requires m in ms
    ensures i < |ms| && ms[i] == m
    ensures forall j :: 0 <= j < i ==> ms[j] != m
  {
    if ms[0] == m then 0 else 1 + IndexOf(ms[1..], m)
  }

  /**
   * What the scorer ever stores in an MTD recorder: the marker 1 for each
   * trigger and the strategy's own name for each block.
   */
  ghost predicate RoutedOnly(m: MTDStatistics)
    reads m
  {
    (forall i :: 0 <= i < |m.yList| ==> m.yList[i] == 1) &&
    (forall i :: 0 <= i < |m.blockedYList| ==> m.blockedYList[i] == m.recordType)
  }

  /** `m` is the first recorder of `ms` named `name`. */
  ghost predicate FirstNamed(ms: seq<MTDStatistics>, m: MTDStatistics, name: string)
  {
    exists i :: 0 <= i < |ms| && ms[i] == m && m.recordType == name &&
                forall j :: 0 <= j < i ==> ms[j].recordType != name
  }

  class Scorer {
    const hostCompromises: CompromiseStatistics
    const hostVulnCompromises: CompromiseStatistics
    const hostReusePassCompromises: CompromiseStatistics
    const hostPassSprayCompromises: CompromiseStatistics
    const userAccountLeaks: Statistics<string>
    const vulnCompromises: VulnStatistics
    /** The strategy that fired last; MTD triggers and blocks are recorded there. */
    var lastMtd: MTDStatistics?
    var mtdStatistics: seq<MTDStatistics>
    /** The initial-network statistics; absent until SetInitialStatistics. */
    var stats: Option<InitialStats>
    /** How many compromises were recorded without a cause (AddHostCompromise). */
    ghost var directCompromises: nat

    /** The owned recorders are distinct, consistent, and the aggregate counts every cause. */
    ghost predicate RecordersValid()
      reads this`directCompromises, hostCompromises, hostVulnCompromises, hostReusePassCompromises,
            hostPassSprayCompromises, userAccountLeaks, vulnCompromises
    {
      hostCompromises != hostVulnCompromises && hostCompromises != hostReusePassCompromises &&
      hostCompromises != hostPassSprayCompromises && hostVulnCompromises != hostReusePassCompromises &&
      hostVulnCompromises != hostPassSprayCompromises && hostReusePassCompromises != hostPassSprayCompromises &&
      hostCompromises.Valid() && hostVulnCompromises.Valid() &&
      hostReusePassCompromises.Valid() && hostPassSprayCompromises.Valid() &&
      userAccountLeaks.Valid() && vulnCompromises.Valid() &&
      // every cause-specific compromise is counted once more in the aggregate
      |hostCompromises.log| == directCompromises + |hostVulnCompromises.log| +
                               |hostReusePassCompromises.log| + |hostPassSprayCompromises.log|
    }

    /** The MTD recorders are distinct and consistent, and the active one is among them. */
    ghost predicate MtdValid()
      reads this`mtdStatistics, this`lastMtd, mtdStatistics
    {
      (forall i, j :: 0 <= i < j < |mtdStatistics| ==> mtdStatistics[i] != mtdStatistics[j]) &&
      (forall m :: m in mtdStatistics ==> m.Valid() && RoutedOnly(m)) &&
      (lastMtd != null ==> lastMtd in mtdStatistics)
    }

    ghost predicate Valid()
      reads this, hostCompromises, hostVulnCompromises, hostReusePassCompromises,
            hostPassSprayCompromises, userAccountLeaks, vulnCompromises, mtdStatistics
    {
      RecordersValid() && MtdValid()
    }

    /** "Total MTD Events": the triggers of all strategies. */
    function TotalMtdEvents(): nat
      reads this`mtdStatistics, mtdStatistics
    {
      Sum(EventCounts(MtdDicts(mtdStatistics)))
    }

    /** "Total MTD Blocking Hacker Events": the blocks of all strategies. */
    function TotalMtdBlocks(): nat
      reads this`mtdStatistics, mtdStatistics
    {
      Sum(BlockCounts(MtdDicts(mtdStatistics)))
    }

    constructor ()
      ensures Valid()
      ensures fresh(hostCompromises) && fresh(hostVulnCompromises) && fresh(hostReusePassCompromises)
      ensures fresh(hostPassSprayCompromises) && fresh(userAccountLeaks) && fresh(vulnCompromises)
      ensures hostCompromises.log == [] && hostVulnCompromises.log == []
      ensures hostReusePassCompromises.log == [] && hostPassSprayCompromises.log == []
      ensures userAccountLeaks.xList == [] && vulnCompromises.log == []
      ensures hostCompromises.recordType == "Host Compromises"
      ensures hostVulnCompromises.recordType == "Vuln Compromises"
      ensures hostReusePassCompromises.recordType == "Reuse Password Compromises"
      ensures hostPassSprayCompromises.recordType == "Password Spray Compromises"
      ensures userAccountLeaks.recordType == "User Account Has Been Leaked By Compromise"
      ensures vulnCompromises.recordType == "Vulnerabilities Exploited"
      ensures lastMtd == null && mtdStatistics == [] && stats == None && directCompromises == 0
    {
      hostCompromises := new CompromiseStatistics("Host Compromises");
      hostVulnCompromises := new CompromiseStatistics("Vuln Compromises");
      hostReusePassCompromises := new CompromiseStatistics("Reuse Password Compromises");
      hostPassSprayCompromises := new CompromiseStatistics("Password Spray Compromises");
      userAccountLeaks := new Statistics<string>("User Account Has Been Leaked By Compromise");
      vulnCompromises := new VulnStatistics("Vulnerabilities Exploited");
      lastMtd := null;
      mtdStatistics := [];
      stats := None;
      directCompromises := 0;
      new;
      assert RecordersValid();
    }

    /**
     * Appends a new, empty recorder named after the strategy. A name that is
     * already registered is not checked for: it gets a second recorder.
     */
    method RegisterMtd(strategy: MtdStrategy)
      requires Valid()
      modifies this`mtdStatistics
      ensures Valid()
      ensures |mtdStatistics| == |old(mtdStatistics)| + 1
      ensures mtdStatistics[..|old(mtdStatistics)|] == old(mtdStatistics)
      ensures var m := mtdStatistics[|old(mtdStatistics)|];
              fresh(m) && m.recordType == strategy.name &&
              m.xList == [] && m.yList == [] && m.blockedXList == [] && m.blockedYList == []
      ensures TotalMtdEvents() == old(TotalMtdEvents()) && TotalMtdBlocks() == old(TotalMtdBlocks())
    {
      var m := new MTDStatistics(strategy.name);
      mtdStatistics := mtdStatistics + [m];
      RegistrationKeepsValid();
      RegistrationKeepsTotals();
    }

    /** After an empty recorder was appended to the MTD recorders, the scorer is still consistent. */
    twostate lemma RegistrationKeepsValid()
      requires old(RecordersValid())
      requires old(MtdValid())
      requires |mtdStatistics| == |old(mtdStatistics)| + 1
      requires mtdStatistics[..|old(mtdStatistics)|] == old(mtdStatistics)
      requires lastMtd == old(lastMtd) && directCompromises == old(directCompromises)
      requires unchanged(hostCompromises, hostVulnCompromises, hostReusePassCompromises)
      requires unchanged(hostPassSprayCompromises, userAccountLeaks, vulnCompromises)
      requires forall m :: m in old(mtdStatistics) ==> unchanged(m)
      requires var m := mtdStatistics[|old(mtdStatistics)|];
               fresh(m) && m.Valid() && m.yList == [] && m.blockedYList == []
      ensures Valid()
    {
      var registered := old(mtdStatistics);
      var m := mtdStatistics[|registered|];
      assert mtdStatistics == registered + [m];
      assert RecordersValid();
      assert RoutedOnly(m);
      forall x | x in mtdStatistics
        ensures x.Valid() && RoutedOnly(x)
      {
        if x != m {
          assert x in registered;
          assert old(x.Valid() && RoutedOnly(x));
        }
      }
    }

    /** A newly appended empty recorder leaves both report totals as they were. */
    twostate lemma RegistrationKeepsTotals()
      requires |mtdStatistics| == |old(mtdStatistics)| + 1
      requires mtdStatistics[..|old(mtdStatistics)|] == old(mtdStatistics)
      requires forall m :: m in old(mtdStatistics) ==> unchanged(m)
      requires var m := mtdStatistics[|old(mtdStatistics)|];
               m.yList == [] && m.blockedXList == []
      ensures TotalMtdEvents() == old(TotalMtdEvents()) && TotalMtdBlocks() == old(TotalMtdBlocks())
    {
      var registered := old(mtdStatistics);
      var m := mtdStatistics[|registered|];
      forall j | 0 <= j < |registered|
        ensures MtdDicts(mtdStatistics)[j] == old(MtdDicts(mtdStatistics))[j]
      {
        assert mtdStatistics[j] == registered[j] && registered[j] in registered;
      }
      assert MtdDicts(mtdStatistics) == old(MtdDicts(mtdStatistics)) + [m.GetDict()];
      TotalsAfterAppend(old(MtdDicts(mtdStatistics)), m.GetDict());
    }

    /**
     * Makes the first recorder named like the strategy the active one, or
     * clears the active recorder when there is none of that name, whatever
     * was active before.
     */
    method SetLastMtd(strategy: MtdStrategy)
      requires Valid()
      modifies this`lastMtd
      ensures Valid()
      ensures lastMtd == null <==> forall m :: m in mtdStatistics ==> m.recordType != strategy.name
      ensures lastMtd != null ==> FirstNamed(mtdStatistics, lastMtd, strategy.name)
    {
      var mtdName := strategy.name;
      var i := 0;
      while i < |mtdStatistics|
        invariant 0 <= i <= |mtdStatistics|
        invariant forall j :: 0 <= j < i ==> mtdStatistics[j].recordType != mtdName
      {
        var mtdStat := mtdStatistics[i];
        if mtdName == mtdStat.recordType {
          lastMtd := mtdStat;
          return;
        }
        i := i + 1;
      }
      lastMtd := null;
    }

    /**
     * Records a block by the active strategy, labelled with its name; with no
     * active strategy, fails and changes nothing.
     */
    method AddMtdBlockedEvent(currTime: Time) returns (outcome: Outcome)
      requires Valid()
      modifies lastMtd
      ensures Valid()
      ensures lastMtd == null ==> outcome == Fail(CannotAddMTDEventToScorerError)
      ensures lastMtd != null ==>
                outcome == Pass &&
                lastMtd.blockedXList == old(lastMtd.blockedXList) + [currTime] &&
                lastMtd.blockedYList == old(lastMtd.blockedYList) + [lastMtd.recordType] &&
                lastMtd.xList == old(lastMtd.xList) && lastMtd.yList == old(lastMtd.yList)
      ensures forall m :: m in mtdStatistics && m != lastMtd ==> unchanged(m)
      ensures TotalMtdEvents() == old(TotalMtdEvents())
      ensures TotalMtdBlocks() == old(TotalMtdBlocks()) + (if lastMtd == null then 0 else 1)
    {
      if lastMtd != null {
        lastMtd.AddBlockedEvent(currTime, lastMtd.recordType);
        ActiveChangeKeepsValid();
        ActiveChangeTotals();
        outcome := Pass;
      } else {
        outcome := Fail(CannotAddMTDEventToScorerError);
      }
    }

    /**
     * Records a trigger of the active strategy (value 1); with no active
     * strategy, fails and changes nothing.
     */
    method AddMtdEvent(currTime: Time) returns (outcome: Outcome)
      requires Valid()
      modifies lastMtd
      ensures Valid()
      ensures lastMtd == null ==> outcome == Fail(CannotAddMTDEventToScorerError)
      ensures lastMtd != null ==>
                outcome == Pass &&
                lastMtd.xList == old(lastMtd.xList) + [currTime] &&
                lastMtd.yList == old(lastMtd.yList) + [1] &&
                lastMtd.blockedXList == old(lastMtd.blockedXList) &&
                lastMtd.blockedYList == old(lastMtd.blockedYList)
      ensures forall m :: m in mtdStatistics && m != lastMtd ==> unchanged(m)
      ensures TotalMtdEvents() == old(TotalMtdEvents()) + (if lastMtd == null then 0 else 1)
      ensures TotalMtdBlocks() == old(TotalMtdBlocks())
    {
      if lastMtd != null {
        lastMtd.AddEvent(currTime, 1);
        ActiveChangeKeepsValid();
        ActiveChangeTotals();
        outcome := Pass;
      } else {
        outcome := Fail(CannotAddMTDEventToScorerError);
      }
    }

    /** After the active recorder alone changed, consistently, the scorer is still consistent. */
    twostate lemma ActiveChangeKeepsValid()
      requires old(RecordersValid())
      requires old(MtdValid())
      requires lastMtd != null && lastMtd == old(lastMtd) && mtdStatistics == old(mtdStatistics)
      requires lastMtd.Valid() && RoutedOnly(lastMtd)
      requires directCompromises == old(directCompromises)
      requires unchanged(hostCompromises, hostVulnCompromises, hostReusePassCompromises)
      requires unchanged(hostPassSprayCompromises, userAccountLeaks, vulnCompromises)
      requires forall m :: m in mtdStatistics && m != lastMtd ==> unchanged(m)
      ensures Valid()
    {
      assert RecordersValid();
      forall m | m in mtdStatistics
        ensures m.Valid() && RoutedOnly(m)
      {
        if m != lastMtd {
          assert old(m.Valid() && RoutedOnly(m));
        }
      }
    }

    /**
     * After the active recorder alone changed, each report total changed by
     * exactly the change in that recorder's own count.
     */
    twostate lemma ActiveChangeTotals()
      requires old(MtdValid())
      requires lastMtd != null && lastMtd == old(lastMtd) && mtdStatistics == old(mtdStatistics)
      requires forall m :: m in mtdStatistics && m != lastMtd ==> unchanged(m)
      ensures TotalMtdEvents() + old(|lastMtd.yList|) == old(TotalMtdEvents()) + |lastMtd.yList|
      ensures TotalMtdBlocks() + old(|lastMtd.blockedXList|) == old(TotalMtdBlocks()) + |lastMtd.blockedXList|
    {
      var i := IndexOf(mtdStatistics, lastMtd);
      forall j | 0 <= j < |mtdStatistics| && j != i
        ensures MtdDicts(mtdStatistics)[j] == old(MtdDicts(mtdStatistics))[j]
      {
        var m := mtdStatistics[j];
        assert m in mtdStatistics && m != lastMtd;
        assert m.GetDict() == old(m.GetDict());
      }
      assert MtdDicts(mtdStatistics) == old(MtdDicts(mtdStatistics))[i := lastMtd.GetDict()];
      TotalsAfterUpdate(old(MtdDicts(mtdStatistics)), i, lastMtd.GetDict());
    }

    /** Records a compromise with no particular cause, in the aggregate series only. */
    method AddHostCompromise(currTime: Time, host: Host)
      requires Valid()
      modifies this`directCompromises, hostCompromises
      ensures Valid()
      ensures hostCompromises.log == old(hostCompromises.log) + [(currTime, host)]
      ensures directCompromises == old(directCompromises) + 1
    {
      hostCompromises.AddEvent(currTime, host);
      directCompromises := directCompromises + 1;
    }

    /** Records a compromise through a vulnerability: in the aggregate and in its own series. */
    method AddHostVulnCompromise(currTime: Time, host: Host)
      requires Valid()
      modifies hostCompromises, hostVulnCompromises
      ensures Valid()
      ensures hostCompromises.log == old(hostCompromises.log) + [(currTime, host)]
      ensures hostVulnCompromises.log == old(hostVulnCompromises.log) + [(currTime, host)]
    {
      hostCompromises.AddEvent(currTime, host);
      hostVulnCompromises.AddEvent(currTime, host);
    }

    /** Records a compromise through a reused password: in the aggregate and in its own series. */
    method AddHostReusePassCompromise(currTime: Time, host: Host)
      requires Valid()
      modifies hostCompromises, hostReusePassCompromises
      ensures Valid()
      ensures hostCompromises.log == old(hostCompromises.log) + [(currTime, host)]
      ensures hostReusePassCompromises.log == old(hostReusePassCompromises.log) + [(currTime, host)]
    {
      hostCompromises.AddEvent(currTime, host);
      hostReusePassCompromises.AddEvent(currTime, host);
    }

    /** Records a compromise through password spraying: in the aggregate and in its own series. */
    method AddHostPassSprayCompromise(currTime: Time, host: Host)
      requires Valid()
      modifies hostCompromises, hostPassSprayCompromises
      ensures Valid()
      ensures hostCompromises.log == old(hostCompromises.log) + [(currTime, host)]
      ensures hostPassSprayCompromises.log == old(hostPassSprayCompromises.log) + [(currTime, host)]
    {
      hostCompromises.AddEvent(currTime, host);
      hostPassSprayCompromises.AddEvent(currTime, host);
    }

    /** Records the leak of a user account. */
    method AddUserAccountLeak(currTime: Time, username: string)
      requires Valid()
      modifies userAccountLeaks
      ensures Valid()
      ensures userAccountLeaks.xList == old(userAccountLeaks.xList) + [currTime]
      ensures userAccountLeaks.yList == old(userAccountLeaks.yList) + [username]
    {
      userAccountLeaks.AddEvent(currTime, username);
    }

    /** Records an exploited vulnerability. */
    method AddVulnCompromise(currTime: Time, vuln: Vuln)
      requires Valid()
      modifies vulnCompromises
      ensures Valid()
      ensures vulnCompromises.log == old(vulnCompromises.log) + [(currTime, vuln)]
    {
      vulnCompromises.AddEvent(currTime, vuln);
    }

    /**
     * Takes the one-time statistics of the initial network: the counts are
     * those of the specification functions, the OS histogram counts every host
     * once, and the per-OS vulnerability counts add up to the total.
     */
    method SetInitialStatistics(network: Network)
      requires Valid()
      modifies this`stats
      ensures Valid()
      ensures stats.Some?
      ensures stats.value.totalInitialVulnerabilities == TotalVulns(network.hosts)
      ensures stats.value.initialHostsWithoutVulnerabilities == HostsWithoutVulns(network.hosts) <= |network.hosts|
      ensures stats.value.osTypesInInitialNetwork == OsHistogram(network.hosts)
      ensures stats.value.initialRoaPerOs == RoaTableOf(network.hosts)
      ensures MapSum(stats.value.osTypesInInitialNetwork) == |network.hosts|
      ensures stats.value.initialVulnsPerOs == VulnsPerOs(RoaTableOf(network.hosts))
      ensures PerOsTotal(stats.value.initialVulnsPerOs) == stats.value.totalInitialVulnerabilities
    {
      var initial := CollectInitialStatistics(network);
      HistogramTotal(network.hosts);
      VulnsPerOsTotal(network.hosts);
      stats := Some(initial);
    }

    /**
     * The report: the initial-network statistics with the dump of every
     * recorder and the two MTD totals. There is none before the initial
     * statistics were taken.
     */
    function GetStatistics(): (report: Option<Report>)
      reads this, hostCompromises, hostVulnCompromises, hostReusePassCompromises,
            hostPassSprayCompromises, userAccountLeaks, vulnCompromises, mtdStatistics
      requires Valid()
      ensures report.Some? <==> stats.Some?
      ensures report.Some? ==> report.value.initial == stats.value
      ensures report.Some? ==>
                report.value.totalMtdEvents == TotalMtdEvents() &&
                report.value.totalMtdBlockingHackerEvents == TotalMtdBlocks()
      ensures report.Some? ==>
                var r := report.value;
                |r.mtdStatistics| == |mtdStatistics| &&
                (forall i :: 0 <= i < |r.mtdStatistics| ==>
                   r.mtdStatistics[i] == mtdStatistics[i].GetDict() &&
                   r.mtdStatistics[i].base.totalEvents <= r.totalMtdEvents &&
                   r.mtdStatistics[i].totalBlocks <= r.totalMtdBlockingHackerEvents)
      ensures report.Some? ==>
                var r := report.value;
                r.hostCompromises.base.totalEvents ==
                  directCompromises + r.vulnCompromises.base.totalEvents +
                  r.reusePasswordCompromises.base.totalEvents + r.passwordSprayCompromises.base.totalEvents
      ensures report.Some? ==>
                var r := report.value;
                r.hostCompromises.totalNotExposedEvents <= r.hostCompromises.base.totalEvents &&
                r.vulnerabilitiesExploited.totalHadOsDependency <= |r.vulnerabilitiesExploited.x| &&
                r.vulnerabilitiesExploited.totalWereDependentOnAnotherVuln <= |r.vulnerabilitiesExploited.x|
    {
      if stats.None? then None
      else
        var ds := MtdDicts(mtdStatistics);
        assert forall i :: 0 <= i < |ds| ==> ds[i] == mtdStatistics[i].GetDict();
        TotalsBound(ds);
        Some(Report(
          stats.value,
          hostCompromises.GetDict(),
          hostVulnCompromises.GetDict(),
          hostReusePassCompromises.GetDict(),
          hostPassSprayCompromises.GetDict(),
          userAccountLeaks.GetDict(),
          vulnCompromises.GetDict(),
          ds,
          Sum(EventCounts(ds)),
          Sum(BlockCounts(ds))))
    }
  }

  /**
   * Register "IPShuffle", make it active, trigger at 1, block at 1.5 and
   * trigger at 2: both triggers are recorded with the marker 1 and counted
   * 1, 2; the block is recorded with the name.
   */
  method IpShuffleScenario() returns (d: MtdDict)
    ensures d.base.recordName == "IPShuffle"
    ensures d.base.x == [1.0, 2.0] && d.base.y == [1, 1]
    ensures d.base.cumulativeY == [1, 2] && d.base.totalEvents == 2
    ensures d.blockedTimes == [1.5] && d.blockedValues == ["IPShuffle"]
    ensures d.cumulativeBlocked == [1] && d.totalBlocks == 1
  {
    var scorer := new Scorer();
    scorer.RegisterMtd(MtdStrategy("IPShuffle"));
    scorer.SetLastMtd(MtdStrategy("IPShuffle"));
    var ip := scorer.mtdStatistics[0];
    assert scorer.lastMtd == ip;
    IpShuffleTriggerAndBlock(scorer);
    IpShuffleSecondTrigger(scorer);
    d := IpShuffleDump(ip);
  }

  /** Trigger at 1 and block at 1.5 on a scorer whose active recorder is empty. */
  method IpShuffleTriggerAndBlock(scorer: Scorer)
    requires scorer.Valid() && scorer.lastMtd != null
    requires scorer.lastMtd.xList == [] && scorer.lastMtd.yList == []
    requires scorer.lastMtd.blockedXList == [] && scorer.lastMtd.blockedYList == []
    modifies scorer.lastMtd
    ensures scorer.Valid() && scorer.lastMtd == old(scorer.lastMtd)
    ensures scorer.lastMtd.xList == [1.0] && scorer.lastMtd.yList == [1]
    ensures scorer.lastMtd.blockedXList == [1.5]
    ensures scorer.lastMtd.blockedYList == [scorer.lastMtd.recordType]
  {
    var trigger := scorer.AddMtdEvent(1.0);
    var block := scorer.AddMtdBlockedEvent(1.5);
  }

  /** A second trigger, at 2, on the scorer left by `IpShuffleTriggerAndBlock`. */
  method IpShuffleSecondTrigger(scorer: Scorer)
    requires scorer.Valid() && scorer.lastMtd != null
    requires scorer.lastMtd.xList == [1.0] && scorer.lastMtd.yList == [1]
    requires scorer.lastMtd.blockedXList == [1.5]
    requires scorer.lastMtd.blockedYList == [scorer.lastMtd.recordType]
    modifies scorer.lastMtd
    ensures scorer.Valid() && scorer.lastMtd == old(scorer.lastMtd)
    ensures scorer.lastMtd.xList == [1.0, 2.0] && scorer.lastMtd.yList == [1, 1]
    ensures scorer.lastMtd.blockedXList == [1.5]
    ensures scorer.lastMtd.blockedYList == [scorer.lastMtd.recordType]
  {
    var trigger := scorer.AddMtdEvent(2.0);
  }

  /** The dump of the "IPShuffle" recorder once it holds two triggers and one block. */
  method IpShuffleDump(ip: MTDStatistics) returns (d: MtdDict)
    requires ip.Valid() && ip.recordType == "IPShuffle"
    requires ip.xList == [1.0, 2.0] && ip.yList == [1, 1]
    requires ip.blockedXList == [1.5] && ip.blockedYList == ["IPShuffle"]
    ensures d.base.recordName == "IPShuffle"
    ensures d.base.x == [1.0, 2.0] && d.base.y == [1, 1]
    ensures d.base.cumulativeY == [1, 2] && d.base.totalEvents == 2
    ensures d.blockedTimes == [1.5] && d.blockedValues == ["IPShuffle"]
    ensures d.cumulativeBlocked == [1] && d.totalBlocks == 1
  {
    d := ip.GetDict();
    assert d.base == SeriesDictOf("IPShuffle", [1.0, 2.0], [1, 1]);
  }

  /**
   * A trigger or a block reported before any strategy was made active fails,
   * even once a strategy is registered.
   */
  method UnroutedEventsFail() returns (trigger: Outcome, block: Outcome)
    ensures trigger == Fail(CannotAddMTDEventToScorerError)
    ensures block == Fail(CannotAddMTDEventToScorerError)
  {
    var scorer := new Scorer();
    scorer.RegisterMtd(MtdStrategy("IPShuffle"));
    trigger := scorer.AddMtdEvent(1.0);
    block := scorer.AddMtdBlockedEvent(1.0);
  }

  /**
   * A host that is not an exposed endpoint, compromised at 5 by password
   * spraying: one event in the aggregate, in the spray series and in the
   * aggregate's non-exposed series, all with the host's id.
   */
  method PasswordSprayScenario(hostId: HostId) returns (total: CompromiseDict, spray: CompromiseDict)
    ensures total.base.totalEvents == 1 && total.base.y == [hostId] && total.base.x == [5.0]
    ensures spray.base.totalEvents == 1 && spray.base.y == [hostId]
    ensures total.totalNotExposedEvents == 1 && total.notExposedY == [hostId]
    ensures spray.totalNotExposedEvents == 1 && spray.notExposedY == [hostId]
  {
    var scorer := new Scorer();
    var host := Host(hostId, false, "Linux", "5.0", []);
    scorer.AddHostPassSprayCompromise(5.0, host);
    total := scorer.hostCompromises.GetDict();
    spray := scorer.hostPassSprayCompromises.GetDict();
  }
}
