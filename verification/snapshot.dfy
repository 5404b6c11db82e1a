/**
 * The one-time statistics on the initial network (`set_initial_statistics`):
 * how many vulnerabilities there are, how they spread over OS types and
 * versions, which OS types and versions the hosts run, and how many hosts have
 * no vulnerability at all.
 *
 * Each quantity is specified by a function over the hosts in iteration order,
 * written the way the loop accumulates it (the value for a prefix, updated by
 * the next host); the methods run the loops and are proved to compute them.
 */
module Snapshot {
  import opened Payload

  /** Per OS type, per OS version, the initial RoA of each vulnerability found on such hosts. */
  type RoaTable = map<string, map<string, seq<real>>>

  /** The initial-network part of the report. */
  datatype InitialStats = InitialStats(
    totalInitialVulnerabilities: nat,
    initialVulnsPerOs: map<string, map<string, nat>>,
    initialRoaPerOs: RoaTable,           // the RoA lists "Average Initial RoA Per OS" averages
    osTypesInInitialNetwork: map<string, nat>,
    initialHostsWithoutVulnerabilities: nat)

  /** The histogram key of a host: its OS type and version joined by a space. */
  function OsTypeKey(h: Host): string
  {
    h.osType + " " + h.osVersion
  }

  /** The sum of the lengths of the hosts' vulnerability lists. */
  function TotalVulns(hosts: seq<Host>): nat
  {
    if hosts == [] then 0
    else TotalVulns(hosts[..|hosts| - 1]) + |hosts[|hosts| - 1].vulns|
  }

  /** How many hosts have an empty vulnerability list. */
  function HostsWithoutVulns(hosts: seq<Host>): (n: nat)
    ensures n <= |hosts|
  {
    if hosts == [] then 0
    else HostsWithoutVulns(hosts[..|hosts| - 1]) + (if |hosts[|hosts| - 1].vulns| == 0 then 1 else 0)
  }

  /** How many hosts run the OS type and version `key`. */
  function CountOsType(hosts: seq<Host>, key: string): (n: nat)
    ensures n <= |hosts|
  {
    if hosts == [] then 0
    else CountOsType(hosts[..|hosts| - 1], key) + (if OsTypeKey(hosts[|hosts| - 1]) == key then 1 else 0)
  }

  /** The "OS Types In Initial Network" histogram, as the loop builds it. */
  function OsHistogram(hosts: seq<Host>): map<string, nat>
  {
    if hosts == [] then map[]
    else
      var h := OsHistogram(hosts[..|hosts| - 1]);
      var key := OsTypeKey(hosts[|hosts| - 1]);
      h[key := (if key in h then h[key] else 0) + 1]
  }

  /** Files `roa` under OS type `os` and version `ver`, creating the entries it needs. */
  function AddRoa(table: RoaTable, os: string, ver: string, roa: real): RoaTable
  {
    var t := if os in table then table else table[os := map[]];
    var known := if ver in t[os] then t[os][ver] else [];
    t[os := t[os][ver := known + [roa]]]
  }

  /** Files the initial RoA of each of `vs`, in order. */
  function AddVulnRoas(table: RoaTable, os: string, ver: string, vs: seq<Vuln>): RoaTable
  {
    if vs == [] then table
    else AddRoa(AddVulnRoas(table, os, ver, vs[..|vs| - 1]), os, ver, vs[|vs| - 1].initialRoa)
  }

  /** The table of initial RoA lists for the whole network. */
  function RoaTableOf(hosts: seq<Host>): RoaTable
  {
    if hosts == [] then map[]
    else
      var h := hosts[|hosts| - 1];
      AddVulnRoas(RoaTableOf(hosts[..|hosts| - 1]), h.osType, h.osVersion, h.vulns)
  }

  /** The length of each RoA list of one OS type, per version. */
  function Lengths(versions: map<string, seq<real>>): map<string, nat>
  {
    map ver | ver in versions :: |versions[ver]|
  }

  /** "Initial Vulns Per OS": the length of every RoA list of the table. */
  function VulnsPerOs(table: RoaTable): map<string, map<string, nat>>
  {
    map os | os in table :: Lengths(table[os])
  }

  /** Some key of a non-empty map (used to define the sum of its values). */
  ghost function Pick(m: map<string, nat>): string
    requires m != map[]
  {
    assert exists k :: k in m by {
      assert m.Keys != {};
      var k :| k in m.Keys;
    }
    var k :| k in m; k
  }

  /** The sum of the values of a map. */
  ghost function MapSum(m: map<string, nat>): nat
    decreases |m|
  {
    if m == map[] then 0
    else
      var k := Pick(m);
      assert |m - {k}| < |m| by {
        assert (m - {k}).Keys == m.Keys - {k};
      }
      m[k] + MapSum(m - {k})
  }

  /** The sum counts any one key's value once, whichever key MapSum starts from. */
  lemma {:induction false} MapSumRemove(m: map<string, nat>, k: string)
    requires k in m
    ensures MapSum(m) == m[k] + MapSum(m - {k})
    decreases |m|
  {
    var j := Pick(m);
    if j != k {
      assert (m - {j}).Keys == m.Keys - {j};
      assert (m - {k}).Keys == m.Keys - {k};
      MapSumRemove(m - {j}, k);
      MapSumRemove(m - {k}, j);
      assert m - {j} - {k} == m - {k} - {j};
    }
  }

  /** Setting one key changes the sum by the difference between the new and the old value. */
  lemma MapSumUpdate(m: map<string, nat>, k: string, v: nat)
    ensures MapSum(m[k := v]) + (if k in m then m[k] else 0) == MapSum(m) + v
  {
    MapSumRemove(m[k := v], k);
    assert m[k := v] - {k} == m - {k};
    if k in m {
      MapSumRemove(m, k);
    } else {
      assert m - {k} == m;
    }
  }

  /** The OS-type histogram counts every host exactly once. */
  lemma {:induction false} HistogramTotal(hosts: seq<Host>)
    ensures MapSum(OsHistogram(hosts)) == |hosts|
  {
    if hosts != [] {
      var front := hosts[..|hosts| - 1];
      HistogramTotal(front);
      var h := OsHistogram(front);
      var key := OsTypeKey(hosts[|hosts| - 1]);
      MapSumUpdate(h, key, (if key in h then h[key] else 0) + 1);
    }
  }

  /**
   * The histogram has an entry for exactly the OS types and versions some host
   * runs, and the entry is the number of hosts running it.
   */
  lemma {:induction false} HistogramCounts(hosts: seq<Host>, key: string)
    ensures key in OsHistogram(hosts) <==> CountOsType(hosts, key) > 0
    ensures key in OsHistogram(hosts) ==> OsHistogram(hosts)[key] == CountOsType(hosts, key)
  {
    if hosts != [] {
      HistogramCounts(hosts[..|hosts| - 1], key);
    }
  }

  /** Every host either has a vulnerability, counted in the total, or is counted as having none. */
  lemma {:induction false} VulnsCoverHosts(hosts: seq<Host>)
    ensures TotalVulns(hosts) + HostsWithoutVulns(hosts) >= |hosts|
    ensures TotalVulns(hosts) == 0 <==> HostsWithoutVulns(hosts) == |hosts|
  {
    if hosts != [] {
      VulnsCoverHosts(hosts[..|hosts| - 1]);
    }
  }

  /** The grand total of a per-OS, per-version count table. */
  ghost function PerOsTotal(counts: map<string, map<string, nat>>): nat
  {
    MapSum(Subtotals(counts))
  }

  /** Setting one version's RoA list sets that version's count to the list's length. */
  lemma LengthsUpdate(versions: map<string, seq<real>>, ver: string, roas: seq<real>)
    ensures Lengths(versions[ver := roas]) == Lengths(versions)[ver := |roas|]
  {
  }

  /** Setting one OS type's entry of the table sets that OS type's counts. */
  lemma VulnsPerOsUpdate(table: RoaTable, os: string, versions: map<string, seq<real>>)
    ensures VulnsPerOs(table[os := versions]) == VulnsPerOs(table)[os := Lengths(versions)]
  {
  }

  /** The per-OS subtotals, as the map that PerOsTotal sums. */
  ghost function Subtotals(counts: map<string, map<string, nat>>): map<string, nat>
  {
    map os | os in counts :: MapSum(counts[os])
  }

  /** Setting one OS type's counts sets that OS type's subtotal. */
  lemma SubtotalsUpdate(counts: map<string, map<string, nat>>, os: string, perVersion: map<string, nat>)
    ensures Subtotals(counts[os := perVersion]) == Subtotals(counts)[os := MapSum(perVersion)]
  {
  }

  /** The counts of OS type `os`, empty when the table has none. */
  function CountsOf(counts: map<string, map<string, nat>>, os: string): map<string, nat>
  {
    if os in counts then counts[os] else map[]
  }

  /** Counting one more vulnerability for an OS type and version. */
  function Bump(counts: map<string, map<string, nat>>, os: string, ver: string): map<string, map<string, nat>>
  {
    var perVersion := CountsOf(counts, os);
    counts[os := perVersion[ver := (if ver in perVersion then perVersion[ver] else 0) + 1]]
  }

  /** Filing one RoA counts one more vulnerability for its OS type and version, and nothing else. */
  lemma AddRoaBumps(table: RoaTable, os: string, ver: string, roa: real)
    ensures VulnsPerOs(AddRoa(table, os, ver, roa)) == Bump(VulnsPerOs(table), os, ver)
  {
    var inner := if os in table then table[os] else map[];
    var known := if ver in inner then inner[ver] else [];
    assert AddRoa(table, os, ver, roa) == table[os := inner[ver := known + [roa]]];
    assert CountsOf(VulnsPerOs(table), os) == Lengths(inner);
    VulnsPerOsUpdate(table, os, inner[ver := known + [roa]]);
    LengthsUpdate(inner, ver, known + [roa]);
  }

  /** One more vulnerability counted adds one to the grand total. */
  lemma BumpTotal(counts: map<string, map<string, nat>>, os: string, ver: string)
    ensures PerOsTotal(Bump(counts, os, ver)) == PerOsTotal(counts) + 1
  {
    var ci := CountsOf(counts, os);
    var n := if ver in ci then ci[ver] else 0;
    var ci' := ci[ver := n + 1];
    MapSumUpdate(ci, ver, n + 1);
    SubtotalsUpdate(counts, os, ci');
    MapSumUpdate(Subtotals(counts), os, MapSum(ci'));
    assert (if os in Subtotals(counts) then Subtotals(counts)[os] else 0) == MapSum(ci);
  }

  /** Filing the RoAs of a host's vulnerabilities adds their number to the per-OS counts. */
  lemma {:induction false} AddVulnRoasCount(table: RoaTable, os: string, ver: string, vs: seq<Vuln>)
    ensures PerOsTotal(VulnsPerOs(AddVulnRoas(table, os, ver, vs))) == PerOsTotal(VulnsPerOs(table)) + |vs|
  {
    if vs != [] {
      AddVulnRoasCount(table, os, ver, vs[..|vs| - 1]);
      var prefix := AddVulnRoas(table, os, ver, vs[..|vs| - 1]);
      AddRoaBumps(prefix, os, ver, vs[|vs| - 1].initialRoa);
      BumpTotal(VulnsPerOs(prefix), os, ver);
    }
  }

  /**
   * "Initial Vulns Per OS" adds up to "Total Initial Vulnerabilities": no
   * vulnerability is dropped from, or counted twice in, the per-OS table.
   */
  lemma {:induction false} VulnsPerOsTotal(hosts: seq<Host>)
    ensures PerOsTotal(VulnsPerOs(RoaTableOf(hosts))) == TotalVulns(hosts)
  {
    if hosts == [] {
      assert VulnsPerOs(map[]) == map[];
    } else {
      var front := hosts[..|hosts| - 1];
      var h := hosts[|hosts| - 1];
      VulnsPerOsTotal(front);
      AddVulnRoasCount(RoaTableOf(front), h.osType, h.osVersion, h.vulns);
    }
  }

  /**
   * Three hosts: two "Linux 5.0" hosts with one vulnerability each and one
   * "Windows 10" host without any.
   */
  lemma ExampleNetwork(v: Vuln)
    ensures var hosts := [Host(1, false, "Linux", "5.0", [v]), Host(2, false, "Linux", "5.0", [v]),
                          Host(3, true, "Windows", "10", [])];
            HostsWithoutVulns(hosts) == 1 && TotalVulns(hosts) == 2 &&
            OsHistogram(hosts) == map["Linux 5.0" := 2, "Windows 10" := 1]
  {
    var hosts := [Host(1, false, "Linux", "5.0", [v]), Host(2, false, "Linux", "5.0", [v]),
                  Host(3, true, "Windows", "10", [])];
    assert OsTypeKey(hosts[0]) == OsTypeKey(hosts[1]) == "Linux 5.0";
    assert OsTypeKey(hosts[2]) == "Windows 10";
    assert hosts[..2][..1] == hosts[..1] && hosts[..1][..0] == [];
    assert hosts[..3] == hosts;
    assert HostsWithoutVulns(hosts[..1]) == 0 && TotalVulns(hosts[..1]) == 1;
    assert OsHistogram(hosts[..1]) == map["Linux 5.0" := 1];
    assert HostsWithoutVulns(hosts[..2]) == 0 && TotalVulns(hosts[..2]) == 2;
    assert OsHistogram(hosts[..2]) == map["Linux 5.0" := 2];
  }

  /** The inner loop of the per-OS count: the number of RoAs under each version of one OS. */
  method CountVersions(versions: map<string, seq<real>>) returns (perVersion: map<string, nat>)
    ensures perVersion == Lengths(versions)
  {
    perVersion := map[];
    var remaining := versions.Keys;
    while remaining != {}
      invariant remaining <= versions.Keys
      invariant perVersion.Keys == versions.Keys - remaining
      invariant forall ver :: ver in perVersion ==> perVersion[ver] == |versions[ver]|
      decreases |remaining|
    {
      var ver :| ver in remaining;
      perVersion := perVersion[ver := |versions[ver]|];
      remaining := remaining - {ver};
    }
  }

  /** The second loop of the snapshot: the length of every RoA list, per OS type and version. */
  method CountVulnsPerOs(table: RoaTable) returns (counts: map<string, map<string, nat>>)
    ensures counts == VulnsPerOs(table)
  {
    counts := map[];
    var remaining := table.Keys;
    while remaining != {}
      invariant remaining <= table.Keys
      invariant counts.Keys == table.Keys - remaining
      invariant forall os :: os in counts ==> counts[os] == Lengths(table[os])
      decreases |remaining|
    {
      var hostOs :| hostOs in remaining;
      var perVersion := CountVersions(table[hostOs]);
      counts := counts[hostOs := perVersion];
      remaining := remaining - {hostOs};
    }
    assert counts == VulnsPerOs(table);
  }

  /** The inner loop over one host's vulnerabilities: each initial RoA filed under the host's OS and version. */
  method RecordRoas(table: RoaTable, hostOs: string, hostVersion: string, hostVulns: seq<Vuln>)
    returns (updated: RoaTable)
    ensures updated == AddVulnRoas(table, hostOs, hostVersion, hostVulns)
  {
    updated := table;
    var j := 0;
    while j < |hostVulns|
      invariant 0 <= j <= |hostVulns|
      invariant updated == AddVulnRoas(table, hostOs, hostVersion, hostVulns[..j])
    {
      var roa := hostVulns[j].initialRoa;
      if hostOs !in updated {
        updated := updated[hostOs := map[]];
      }
      var known := if hostVersion in updated[hostOs] then updated[hostOs][hostVersion] else [];
      updated := updated[hostOs := updated[hostOs][hostVersion := known + [roa]]];
      assert hostVulns[..j + 1][..j] == hostVulns[..j];
      j := j + 1;
    }
    assert hostVulns[..j] == hostVulns;
  }

  /**
   * The snapshot loops over the hosts: every quantity of the initial-network
   * report, each equal to its specification over the whole host list.
   */
  method CollectInitialStatistics(network: Network) returns (stats: InitialStats)
    ensures stats.totalInitialVulnerabilities == TotalVulns(network.hosts)
    ensures stats.initialHostsWithoutVulnerabilities == HostsWithoutVulns(network.hosts)
    ensures stats.osTypesInInitialNetwork == OsHistogram(network.hosts)
    ensures stats.initialRoaPerOs == RoaTableOf(network.hosts)
    ensures stats.initialVulnsPerOs == VulnsPerOs(stats.initialRoaPerOs)
  {
    var hosts := network.hosts;
    var totalVulns := 0;
    var table: RoaTable := map[];
    var osTypes: map<string, nat> := map[];
    var hostsWithoutVulns := 0;
    var i := 0;
    while i < |hosts|
      invariant 0 <= i <= |hosts|
      invariant totalVulns == TotalVulns(hosts[..i])
      invariant hostsWithoutVulns == HostsWithoutVulns(hosts[..i])
      invariant osTypes == OsHistogram(hosts[..i])
      invariant table == RoaTableOf(hosts[..i])
    {
      var host := hosts[i];
      var hostOs := host.osType;
      var hostVersion := host.osVersion;
      var osType := hostOs + " " + hostVersion;
      osTypes := osTypes[osType := (if osType in osTypes then osTypes[osType] else 0) + 1];
      var hostVulns := host.vulns;
      totalVulns := totalVulns + |hostVulns|;
      if |hostVulns| == 0 {
        hostsWithoutVulns := hostsWithoutVulns + 1;
      }
      table := RecordRoas(table, hostOs, hostVersion, hostVulns);
      assert hosts[..i + 1][..i] == hosts[..i];
      i := i + 1;
    }
    assert hosts[..i] == hosts;
    var vulnsPerOs := CountVulnsPerOs(table);
    stats := InitialStats(totalVulns, vulnsPerOs, table, osTypes, hostsWithoutVulns);
  }
}
