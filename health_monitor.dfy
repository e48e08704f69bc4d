/**
 * Health monitoring (src/health_monitor.py): the status rules of the file
 * and resource checks, the overall status, and the alerts a round of checks
 * raises. Measurements (file existence, age and readability; CPU, memory and
 * disk percentages; an API probe's answer and latency) are inputs. The
 * stored checks are a dictionary in insertion order, held as a sequence of
 * entries with distinct keys; an alert sent to the callbacks is an element
 * of the returned alert sequence.
 */
module HealthMonitor {
  import opened Common

  datatype HealthStatus = Healthy | Degraded | Unhealthy | Unknown

  /** One stored check: its dictionary key and its status (message and timings are left out). */
  datatype Entry = Entry(key: string, status: HealthStatus)

  datatype AlertKind = UnhealthyAlert | DegradedAlert

  /** One call of `_send_alert`: its type and the name of the check. */
  datatype Alert = Alert(kind: AlertKind, name: string)

  // ---------------------------------------------------------------- check rules

  /** What a file check finds: no file, a failure while checking, or the file's age and whether it reads. */
  datatype FileProbe = Missing | CheckFailed | Present(ageSeconds: real, readable: bool)

  /**
   * `check_file_health`: a missing or unreadable file is unhealthy, a file
   * older than the limit is degraded (before readability is tried), a
   * failing check is unknown, and only a fresh readable file is healthy.
   */
  function FileStatus(p: FileProbe, maxAgeSeconds: int): (s: HealthStatus)
    ensures s == Healthy <==> p.Present? && p.ageSeconds <= maxAgeSeconds as real && p.readable
    ensures s == Degraded <==> p.Present? && p.ageSeconds > maxAgeSeconds as real
    ensures s == Unknown <==> p.CheckFailed?
    ensures s == Unhealthy <==> p.Missing? || (p.Present? && p.ageSeconds <= maxAgeSeconds as real && !p.readable)
  {
    match p
    case Missing => Unhealthy
    case CheckFailed => Unknown
    case Present(age, readable) =>
      if age > maxAgeSeconds as real then Degraded
      else if !readable then Unhealthy
      else Healthy
  }

  /** The monitored files, in the order they are checked. */
  const MonitoredFiles: seq<string> := ["signals", "historical", "live_feed"]

  /** Historical data is updated hourly; the other files must be at most a minute old. */
  function MaxAge(name: string): (limit: int)
    ensures limit == 3600 || limit == 60
    ensures limit == 3600 <==> name == "historical"
  {
    if name == "historical" then 3600 else 60
  }

  /** The CPU, memory and disk percentages, or the failure to measure them. */
  datatype Option3 = None3 | Some3(cpu: real, memory: real, disk: real)

  /** A usage percentage above 90 is an issue. */
  function IssueCount(cpu: real, memory: real, disk: real): (n: nat)
    ensures n <= 3
    ensures n == 0 <==> cpu <= 90.0 && memory <= 90.0 && disk <= 90.0
    ensures n == 3 <==> cpu > 90.0 && memory > 90.0 && disk > 90.0
  {
    (if cpu > 90.0 then 1 else 0) + (if memory > 90.0 then 1 else 0) + (if disk > 90.0 then 1 else 0)
  }

  /**
   * `check_system_resources`: healthy with no issue, degraded with exactly
   * one, unhealthy with two or more; unknown when the measurement fails
   * (`None`, e.g. psutil missing).
   */
  function ResourceStatus(usage: Option3): (s: HealthStatus)
    ensures usage.None3? <==> s == Unknown
    ensures usage.Some3? ==>
              var n := IssueCount(usage.cpu, usage.memory, usage.disk);
              (s == Healthy <==> n == 0) && (s == Degraded <==> n == 1) && (s == Unhealthy <==> n >= 2)
  {
    match usage
    case None3 => Unknown
    case Some3(cpu, memory, disk) =>
      var n := IssueCount(cpu, memory, disk);
      if n == 0 then Healthy else if n < 2 then Degraded else Unhealthy
  }

  /**
   * `check_api_health`: a probe that answers true is healthy under 5000 ms
   * and degraded from there on; a probe that answers false or raises
   * (`None`) is unhealthy.
   */
  function ApiStatus(answer: Option<bool>, responseTimeMs: real): (s: HealthStatus)
    ensures s == Healthy <==> answer == Some(true) && responseTimeMs < 5000.0
    ensures s == Degraded <==> answer == Some(true) && responseTimeMs >= 5000.0
    ensures s == Unhealthy <==> answer != Some(true)
  {
    match answer
    case Some(true) => if responseTimeMs < 5000.0 then Healthy else Degraded
    case _ => Unhealthy
  }

  /** The round of checks `run_all_checks` builds, in dictionary order. */
  function BuildChecks(signals: FileProbe, historical: FileProbe, liveFeed: FileProbe, usage: Option3): (checks: seq<Entry>)
    ensures DistinctKeys(checks) && |checks| == 4
    ensures checks[0] == Entry("file_signals", FileStatus(signals, 60))
    ensures checks[1] == Entry("file_historical", FileStatus(historical, 3600))
    ensures checks[2] == Entry("file_live_feed", FileStatus(liveFeed, 60))
    ensures checks[3] == Entry("system_resources", ResourceStatus(usage))
  {
    [Entry("file_" + MonitoredFiles[0], FileStatus(signals, MaxAge(MonitoredFiles[0]))),
     Entry("file_" + MonitoredFiles[1], FileStatus(historical, MaxAge(MonitoredFiles[1]))),
     Entry("file_" + MonitoredFiles[2], FileStatus(liveFeed, MaxAge(MonitoredFiles[2]))),
     Entry("system_resources", ResourceStatus(usage))]
  }

  predicate DistinctKeys(checks: seq<Entry>)
  {
    forall i, j :: 0 <= i < j < |checks| ==> checks[i].key != checks[j].key
  }

  // ---------------------------------------------------------------- overall status

  /** The statuses of the stored checks, in order. */
  function Statuses(checks: seq<Entry>): (r: seq<HealthStatus>)
    ensures |r| == |checks| && forall i :: 0 <= i < |checks| ==> r[i] == checks[i].status
  {
    if checks == [] then [] else [checks[0].status] + Statuses(checks[1..])
  }

  /** `get_overall_status`. */
  function OverallStatus(checks: seq<Entry>): HealthStatus
  {
    if checks == [] then Unknown
    else
      var statuses := Statuses(checks);
      if Unhealthy in statuses then Unhealthy
      else if Degraded in statuses then Degraded
      else if forall s :: s in statuses ==> s == Healthy then Healthy
      else Unknown
  }

  /** How bad a status is: an unknown check ranks between healthy and degraded. */
  function Severity(s: HealthStatus): nat
  {
    match s
    case Healthy => 0
    case Unknown => 1
    case Degraded => 2
    case Unhealthy => 3
  }

  /** The worst status among the checks, by a left-to-right maximum (healthy for none). */
  function Worst(checks: seq<Entry>): HealthStatus
    decreases |checks|
  {
    if checks == [] then Healthy
    else
      var w := Worst(checks[..|checks| - 1]);
      var s := checks[|checks| - 1].status;
      if Severity(s) > Severity(w) then s else w
  }

  lemma {:induction false} WorstIsMaximum(checks: seq<Entry>)
    requires checks != []
    ensures forall i :: 0 <= i < |checks| ==> Severity(checks[i].status) <= Severity(Worst(checks))
    ensures exists i :: 0 <= i < |checks| && checks[i].status == Worst(checks)
    decreases |checks|
  {
    var n := |checks|;
    if n == 1 {
      assert checks[0].status == Worst(checks);
    } else {
      var init := checks[..n - 1];
      WorstIsMaximum(init);
      var i0 :| 0 <= i0 < |init| && init[i0].status == Worst(init);
      if Severity(checks[n - 1].status) > Severity(Worst(init)) {
        assert checks[n - 1].status == Worst(checks);
      } else {
        assert checks[i0].status == Worst(checks);
      }
      forall i | 0 <= i < n
        ensures Severity(checks[i].status) <= Severity(Worst(checks))
      {
        if i < n - 1 {
          assert checks[i] == init[i];
        }
      }
    }
  }

  /**
   * The overall status is unknown with no checks and otherwise the worst
   * status of any check: unhealthy before degraded, degraded before unknown,
   * healthy only when every check is healthy.
   */
  lemma OverallIsWorst(checks: seq<Entry>)
    ensures checks == [] ==> OverallStatus(checks) == Unknown
    ensures checks != [] ==> OverallStatus(checks) == Worst(checks)
  {
    if checks != [] {
      WorstIsMaximum(checks);
      var statuses := Statuses(checks);
      var w := Worst(checks);
      var i0 :| 0 <= i0 < |checks| && checks[i0].status == w;
      assert statuses[i0] == w;
      assert w in statuses;
      if w == Healthy {
        forall s | s in statuses
          ensures s == Healthy
        {
          var i :| 0 <= i < |statuses| && statuses[i] == s;
          assert Severity(checks[i].status) <= 0;
        }
      }
      if w != Unhealthy {
        assert Unhealthy !in statuses by {
          forall i | 0 <= i < |statuses|
            ensures statuses[i] != Unhealthy
          {
            assert Severity(checks[i].status) <= Severity(w);
          }
        }
      }
      if w == Healthy || w == Unknown {
        assert Degraded !in statuses by {
          forall i | 0 <= i < |statuses|
            ensures statuses[i] != Degraded
          {
            assert Severity(checks[i].status) <= Severity(w);
          }
        }
      }
    }
  }

  // ---------------------------------------------------------------- alerts

  /** `self._health_checks.get(name)`: the status stored under a key. */
  function Lookup(checks: seq<Entry>, key: string): (r: Option<HealthStatus>)
    ensures r.None? <==> forall i :: 0 <= i < |checks| ==> checks[i].key != key
    ensures r.Some? ==> exists i :: 0 <= i < |checks| && checks[i] == Entry(key, r.value)
  {
    if checks == [] then None
    else if checks[0].key == key then Some(checks[0].status)
    else
      var r := Lookup(checks[1..], key);
      assert r.Some? ==> exists i :: 0 <= i < |checks| - 1 && checks[1..][i] == Entry(key, r.value);
      r
  }

  /** With distinct keys the lookup finds the entry's own status. */
  lemma {:induction false} LookupDistinct(checks: seq<Entry>, i: int)
    requires DistinctKeys(checks) && 0 <= i < |checks|
    ensures Lookup(checks, checks[i].key) == Some(checks[i].status)
    decreases |checks|
  {
    if i > 0 {
      assert DistinctKeys(checks[1..]) by {
        forall a, b | 0 <= a < b < |checks| - 1
          ensures checks[1..][a].key != checks[1..][b].key
        {
          assert checks[1..][a] == checks[a + 1] && checks[1..][b] == checks[b + 1];
        }
      }
      assert checks[0].key != checks[i].key;
      LookupDistinct(checks[1..], i - 1);
      assert checks[1..][i - 1] == checks[i];
    }
  }

  /** The alert one check raises, given the stored checks consulted for persistence. */
  function AlertOf(e: Entry, stored: seq<Entry>): seq<Alert>
  {
    if e.status == Unhealthy then [Alert(UnhealthyAlert, e.key)]
    else if e.status == Degraded && Lookup(stored, e.key) == Some(Degraded) then [Alert(DegradedAlert, e.key)]
    else []
  }

  /** The alerts of `_check_alerts(checks)` with `stored` as `self._health_checks`, in order. */
  function AlertsFor(checks: seq<Entry>, stored: seq<Entry>): seq<Alert>
    decreases |checks|
  {
    if checks == [] then []
    else AlertsFor(checks[..|checks| - 1], stored) + AlertOf(checks[|checks| - 1], stored)
  }

  lemma {:induction false} AlertsMembership(checks: seq<Entry>, stored: seq<Entry>, a: Alert)
    ensures a in AlertsFor(checks, stored) <==> exists i :: 0 <= i < |checks| && a in AlertOf(checks[i], stored)
    decreases |checks|
  {
    if checks != [] {
      var n := |checks|;
      var init, last := checks[..n - 1], checks[n - 1];
      var before, here := AlertsFor(init, stored), AlertOf(last, stored);
      assert AlertsFor(checks, stored) == before + here;
      AlertsMembership(init, stored, a);
      assert a in before + here <==> a in before || a in here;
      if a in before {
        var i :| 0 <= i < |init| && a in AlertOf(init[i], stored);
        assert checks[i] == init[i];
      }
      if exists i :: 0 <= i < n && a in AlertOf(checks[i], stored) {
        var i :| 0 <= i < n && a in AlertOf(checks[i], stored);
        if i < n - 1 {
          assert init[i] == checks[i];
        }
      }
    }
  }

  /** Every unhealthy check alerts UNHEALTHY, and nothing else does. */
  lemma UnhealthyAlertsSpec(checks: seq<Entry>, stored: seq<Entry>, name: string)
    ensures Alert(UnhealthyAlert, name) in AlertsFor(checks, stored) <==>
              exists i :: 0 <= i < |checks| && checks[i] == Entry(name, Unhealthy)
  {
    var a := Alert(UnhealthyAlert, name);
    AlertsMembership(checks, stored, a);
    forall i | 0 <= i < |checks|
      ensures a in AlertOf(checks[i], stored) <==> checks[i] == Entry(name, Unhealthy)
    {
    }
  }

  /**
   * The alert rule as intended for degraded checks: one alerts DEGRADED
   * only when the stored check of the same name was degraded too.
   */
  lemma DegradedAlertsSpec(checks: seq<Entry>, stored: seq<Entry>, name: string)
    ensures Alert(DegradedAlert, name) in AlertsFor(checks, stored) <==>
              (exists i :: 0 <= i < |checks| && checks[i] == Entry(name, Degraded)) &&
              Lookup(stored, name) == Some(Degraded)
  {
    var a := Alert(DegradedAlert, name);
    AlertsMembership(checks, stored, a);
    forall i | 0 <= i < |checks|
      ensures a in AlertOf(checks[i], stored) <==> checks[i] == Entry(name, Degraded) && Lookup(stored, name) == Some(Degraded)
    {
    }
  }

  /**
   * The alerts as `run_all_checks` raises them: the new round is stored
   * first and then consulted as the "previous" checks, so with distinct keys
   * every degraded check alerts on its first occurrence.
   */
  function AlertsAsWritten(checks: seq<Entry>): seq<Alert>
  {
    AlertsFor(checks, checks)
  }

  lemma DegradedAlertsImmediately(checks: seq<Entry>, i: int)
    requires DistinctKeys(checks) && 0 <= i < |checks| && checks[i].status == Degraded
    ensures Alert(DegradedAlert, checks[i].key) in AlertsAsWritten(checks)
  {
    LookupDistinct(checks, i);
    DegradedAlertsSpec(checks, checks, checks[i].key);
  }

  /**
   * The input that shows it: a fresh monitor whose first round finds only
   * a stale signals file alerts DEGRADED at once, where the persistence rule
   * (compare with the checks stored before) would stay silent.
   */
  lemma FirstStaleFileAlerts()
    ensures var checks := BuildChecks(Present(120.0, true), Present(10.0, true), Present(10.0, true), Some3(5.0, 5.0, 5.0));
            AlertsAsWritten(checks) == [Alert(DegradedAlert, "file_signals")] &&
            AlertsFor(checks, []) == []
  {
    var checks := BuildChecks(Present(120.0, true), Present(10.0, true), Present(10.0, true), Some3(5.0, 5.0, 5.0));
    LookupDistinct(checks, 0);
    assert AlertOf(checks[0], checks) == [Alert(DegradedAlert, "file_signals")];
    assert AlertOf(checks[0], []) == [];
    FourAlerts(checks, checks);
    FourAlerts(checks, []);
  }

  /** The alerts of a round of four checks, one check at a time. */
  lemma FourAlerts(checks: seq<Entry>, stored: seq<Entry>)
    requires |checks| == 4
    ensures AlertsFor(checks, stored) ==
              AlertOf(checks[0], stored) + AlertOf(checks[1], stored) + AlertOf(checks[2], stored) + AlertOf(checks[3], stored)
  {
    assert checks[..1][..0] == [];
    assert checks[..2][..1] == checks[..1];
    assert checks[..3][..2] == checks[..2];
    assert checks[..4] == checks;
    assert checks[..4][..3] == checks[..3];
    assert AlertsFor(checks[..1], stored) == AlertOf(checks[0], stored);
    assert AlertsFor(checks[..2], stored) == AlertsFor(checks[..1], stored) + AlertOf(checks[1], stored);
    assert AlertsFor(checks[..3], stored) == AlertsFor(checks[..2], stored) + AlertOf(checks[2], stored);
    assert AlertsFor(checks, stored) == AlertsFor(checks[..3], stored) + AlertOf(checks[3], stored);
  }

  /** The monitor's stored round of checks. */
  class Monitor {
    var healthChecks: seq<Entry>

    constructor()
      ensures healthChecks == []
    {
      healthChecks := [];
    }

    /** `_check_alerts`: the alerts for `checks`, consulting the stored checks. */
    method CheckAlerts(checks: seq<Entry>) returns (alerts: seq<Alert>)
      ensures alerts == AlertsFor(checks, healthChecks)
    {
      alerts := [];
      var k := 0;
      while k < |checks|
        invariant 0 <= k <= |checks|
        invariant alerts == AlertsFor(checks[..k], healthChecks)
      {
        var e := checks[k];
        if e.status == Unhealthy {
          alerts := alerts + [Alert(UnhealthyAlert, e.key)];
        } else if e.status == Degraded {
          var prev := Lookup(healthChecks, e.key);
          if prev.Some? && prev.value == Degraded {
            alerts := alerts + [Alert(DegradedAlert, e.key)];
          }
        }
        assert checks[..k + 1][..k] == checks[..k];
        k := k + 1;
      }
      assert checks[..k] == checks;
    }

    /** `run_all_checks` as written: store the new round, then raise its alerts. */
    method RunAllChecksAsWritten(signals: FileProbe, historical: FileProbe, liveFeed: FileProbe, usage: Option3)
      returns (checks: seq<Entry>, alerts: seq<Alert>)
      modifies this
      ensures checks == BuildChecks(signals, historical, liveFeed, usage)
      ensures healthChecks == checks && alerts == AlertsAsWritten(checks)
    {
      checks := BuildChecks(signals, historical, liveFeed, usage);
      healthChecks := checks;
      alerts := CheckAlerts(checks);
    }

    /** `run_all_checks` with the persistence rule honoured: alerts against the previous round, then store. */
    method RunAllChecks(signals: FileProbe, historical: FileProbe, liveFeed: FileProbe, usage: Option3)
      returns (checks: seq<Entry>, alerts: seq<Alert>)
      modifies this
      ensures checks == BuildChecks(signals, historical, liveFeed, usage)
      ensures healthChecks == checks && alerts == AlertsFor(checks, old(healthChecks))
    {
      checks := BuildChecks(signals, historical, liveFeed, usage);
      alerts := CheckAlerts(checks);
      healthChecks := checks;
    }
  }

  /**
   * With the corrected order a check must be degraded in two consecutive
   * rounds before it alerts DEGRADED, while an unhealthy check alerts every
   * round.
   */
  lemma DegradedAlertsOnSecondRound(r1: seq<Entry>, r2: seq<Entry>, i: int, j: int)
    requires DistinctKeys(r1) && 0 <= i < |r1| && 0 <= j < |r2|
    requires r1[i].status == Degraded && r2[j] == Entry(r1[i].key, Degraded)
    ensures Alert(DegradedAlert, r1[i].key) in AlertsFor(r2, r1)
    ensures Alert(DegradedAlert, r1[i].key) !in AlertsFor(r1, [])
  {
    LookupDistinct(r1, i);
    DegradedAlertsSpec(r2, r1, r1[i].key);
    DegradedAlertsSpec(r1, [], r1[i].key);
  }
}
