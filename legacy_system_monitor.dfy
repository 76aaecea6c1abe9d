/**
  The older resource monitors (system_monitor.py at the top of the
  repository): each check takes its thresholds as separate integers, the GPU
  alerts carry the older resource names, and the aggregate holds an optional
  GPU monitor instead of a flag.
  */
module LegacySystemMonitor {
  import SM = SystemMonitor
  import LegacyNotifier

  /** DiskMonitor.check_health on one disk. */
  function CheckDisk(percentFree: real, threshold: int): (h: SM.Health)
    ensures h.healthy <==> !SM.Breached(SM.Disk, percentFree, threshold)
    ensures h.alerts == if h.healthy then [] else [SM.Alert("Disks", threshold)]
  {
    if percentFree <= threshold as real then SM.Health(false, [SM.Alert("Disks", threshold)]) else SM.Health(true, [])
  }

  /** CpuMonitor.check_health. */
  function CheckCpu(cpuUsage: real, threshold: int): (h: SM.Health)
    ensures h.healthy <==> !SM.Breached(SM.Cpu, cpuUsage, threshold)
    ensures h.alerts == if h.healthy then [] else [SM.Alert("CPU", threshold)]
  {
    if cpuUsage >= threshold as real then SM.Health(false, [SM.Alert("CPU", threshold)]) else SM.Health(true, [])
  }

  /** RamMonitor.check_health. */
  function CheckRam(percentRamUsed: real, threshold: int): (h: SM.Health)
    ensures h.healthy <==> !SM.Breached(SM.Ram, percentRamUsed, threshold)
    ensures h.alerts == if h.healthy then [] else [SM.Alert("RAM", threshold)]
  {
    if percentRamUsed >= threshold as real then SM.Health(false, [SM.Alert("RAM", threshold)]) else SM.Health(true, [])
  }

  /** The GPU metrics in the order this revision tests them, with its names. */
  function GpuMetrics(r: SM.Readings, gpuThreshold: int, gpuMemoryThreshold: int, gpuTempThreshold: int): seq<SM.Metric>
  {
    [ SM.Metric("GPU Usage", SM.GpuUtilization, r.gpuUtilization, gpuThreshold),
      SM.Metric("GPU Memory Usage", SM.GpuMemory, r.memoryUtilization, gpuMemoryThreshold),
      SM.Metric("GPU Temperature", SM.GpuTemperature, r.gpuTemperature, gpuTempThreshold) ]
  }

  /** GpuMonitor.check_health: append one entry per metric at or above its
      threshold, then notify once per entry, in order. */
  method CheckGpu(r: SM.Readings, gpuThreshold: int, gpuMemoryThreshold: int, gpuTempThreshold: int)
    returns (h: SM.Health)
    ensures h.alerts == SM.Breaches(GpuMetrics(r, gpuThreshold, gpuMemoryThreshold, gpuTempThreshold))
    ensures h.healthy <==> h.alerts == []
    ensures h.healthy <==> r.gpuUtilization < gpuThreshold as real && r.memoryUtilization < gpuMemoryThreshold as real
                           && r.gpuTemperature < gpuTempThreshold as real
  {
    ghost var ms := GpuMetrics(r, gpuThreshold, gpuMemoryThreshold, gpuTempThreshold);
    var alertInfo: seq<SM.Alert> := [];
    if r.gpuUtilization >= gpuThreshold as real {
      alertInfo := alertInfo + [SM.Alert("GPU Usage", gpuThreshold)];
    }
    assert alertInfo == SM.Flag(ms[0]);
    if r.memoryUtilization >= gpuMemoryThreshold as real {
      alertInfo := alertInfo + [SM.Alert("GPU Memory Usage", gpuMemoryThreshold)];
    }
    assert alertInfo == SM.Flag(ms[0]) + SM.Flag(ms[1]);
    if r.gpuTemperature >= gpuTempThreshold as real {
      alertInfo := alertInfo + [SM.Alert("GPU Temperature", gpuTempThreshold)];
    }
    assert alertInfo == SM.Flag(ms[0]) + SM.Flag(ms[1]) + SM.Flag(ms[2]);
    SM.BreachesOfThree(ms[0], ms[1], ms[2]);
    assert ms == [ms[0], ms[1], ms[2]];
    var notified: seq<SM.Alert> := [];
    if alertInfo != [] {
      for i := 0 to |alertInfo|
        invariant notified == alertInfo[..i]
      {
        notified := notified + [alertInfo[i]];
      }
      assert notified == alertInfo;
      return SM.Health(false, notified);
    }
    return SM.Health(true, notified);
  }

  /**
    SystemMonitor.check_gpu_presence: `any(name.lower().startswith("nvidia"))`
    over the devices. The generator stops at the first match, so a device
    name that fails to read after a match does not matter; one that fails
    before it raises NVMLError, and any NVMLError answers false.
    */
  function GpuPresence(nvml: SM.Nvml): (present: bool)
    ensures present <==> SM.NvidiaFound(nvml)
  {
    nvml.Devices? && AnyNvidia(nvml.names)
  }

  /** The lazy `any` over the device names from the first on. */
  function AnyNvidia(names: seq<SM.Option>): (found: bool)
    ensures found <==> exists i :: 0 <= i < |names| && names[i].Some? && SM.IsNvidia(names[i].value)
                                   && SM.ReadableBefore(names, i)
  {
    if names == [] then false
    else if names[0].None? then false
    else if SM.IsNvidia(names[0].value) then (assert SM.ReadableBefore(names, 0); true)
    else
      var rest := AnyNvidia(names[1..]);
      assert rest ==> exists i :: 0 <= i < |names| && names[i].Some? && SM.IsNvidia(names[i].value)
                                  && SM.ReadableBefore(names, i) by {
        if rest {
          var k :| 0 <= k < |names[1..]| && names[1..][k].Some? && SM.IsNvidia(names[1..][k].value)
                   && SM.ReadableBefore(names[1..], k);
          assert names[k + 1] == names[1..][k];
          assert SM.ReadableBefore(names, k + 1) by {
            forall j | 0 <= j < k + 1 ensures names[j].Some? {
              if j > 0 { assert names[j] == names[1..][j - 1]; }
            }
          }
        }
      }
      assert (exists i :: 0 <= i < |names| && names[i].Some? && SM.IsNvidia(names[i].value)
                          && SM.ReadableBefore(names, i)) ==> rest by {
        if exists i :: 0 <= i < |names| && names[i].Some? && SM.IsNvidia(names[i].value)
                       && SM.ReadableBefore(names, i) {
          var i :| 0 <= i < |names| && names[i].Some? && SM.IsNvidia(names[i].value) && SM.ReadableBefore(names, i);
          assert i > 0;
          assert names[1..][i - 1] == names[i];
          assert SM.ReadableBefore(names[1..], i - 1) by {
            forall j | 0 <= j < i - 1 ensures names[1..][j].Some? { assert names[1..][j] == names[j + 1]; }
          }
        }
      }
      rest
  }

  class SystemMonitor {
    /** Whether gpu_monitor holds a GpuMonitor (rather than None). */
    const hasGpuMonitor: bool

    constructor (nvml: SM.Nvml)
      ensures hasGpuMonitor <==> SM.NvidiaFound(nvml)
    {
      hasGpuMonitor := GpuPresence(nvml);
    }

    /** SystemMonitor.check_health for one disk, thresholds read from the
        `general` section: every monitor runs, then the results are ANDed;
        without a GPU monitor the GPU counts as healthy and is not checked. */
    method CheckHealth(r: SM.Readings, t: SM.Thresholds) returns (h: SM.Health)
      ensures h.healthy <==>
                && !SM.Breached(SM.Disk, r.percentFree, t.disk)
                && !SM.Breached(SM.Cpu, r.cpuUsage, t.cpu)
                && !SM.Breached(SM.Ram, r.percentRamUsed, t.ram)
                && (hasGpuMonitor ==> SM.Breaches(GpuMetrics(r, t.gpu, t.gpuMemory, t.gpuTemp)) == [])
      ensures h.alerts == CheckDisk(r.percentFree, t.disk).alerts + CheckCpu(r.cpuUsage, t.cpu).alerts
                          + CheckRam(r.percentRamUsed, t.ram).alerts
                          + (if hasGpuMonitor then SM.Breaches(GpuMetrics(r, t.gpu, t.gpuMemory, t.gpuTemp)) else [])
      ensures h.healthy <==> h.alerts == []
    {
      var disk := CheckDisk(r.percentFree, t.disk);
      var cpu := CheckCpu(r.cpuUsage, t.cpu);
      var ram := CheckRam(r.percentRamUsed, t.ram);
      var gpu := SM.Health(true, []);
      if hasGpuMonitor {
        gpu := CheckGpu(r, t.gpu, t.gpuMemory, t.gpuTemp);
      }
      h := SM.Health(disk.healthy && cpu.healthy && ram.healthy && gpu.healthy,
                     disk.alerts + cpu.alerts + ram.alerts + gpu.alerts);
    }
  }

  /** Every alert this revision can raise names a resource that the same
      revision's notifier starts tracking, so none hits the "initialise" path. */
  lemma AlertNamesAreTracked(r: SM.Readings, t: SM.Thresholds, a: SM.Alert)
    requires a in CheckDisk(r.percentFree, t.disk).alerts + CheckCpu(r.cpuUsage, t.cpu).alerts
                  + CheckRam(r.percentRamUsed, t.ram).alerts
                  + SM.Breaches(GpuMetrics(r, t.gpu, t.gpuMemory, t.gpuTemp))
    ensures a.resourceName in LegacyNotifier.INITIAL_LAST_ALERT_TIMES
  {
    var ms := GpuMetrics(r, t.gpu, t.gpuMemory, t.gpuTemp);
    if a in SM.Breaches(ms) {
      SM.BreachesMembership(ms, a);
    }
  }

  /** The two revisions reach the same verdict on the same readings and
      thresholds and raise the same number of alerts; only the GPU names differ. */
  lemma RevisionsAgreeOnGpu(r: SM.Readings, t: SM.Thresholds)
    ensures SM.Breaches(GpuMetrics(r, t.gpu, t.gpuMemory, t.gpuTemp)) == [] <==> SM.Breaches(SM.GpuMetrics(r, t)) == []
    ensures |SM.Breaches(GpuMetrics(r, t.gpu, t.gpuMemory, t.gpuTemp))| == |SM.Breaches(SM.GpuMetrics(r, t))|
  {
    var old3 := GpuMetrics(r, t.gpu, t.gpuMemory, t.gpuTemp);
    var new3 := SM.GpuMetrics(r, t);
    SM.BreachesOfThree(old3[0], old3[1], old3[2]);
    SM.BreachesOfThree(new3[0], new3[1], new3[2]);
    assert old3 == [old3[0], old3[1], old3[2]];
    assert new3 == [new3[0], new3[1], new3[2]];
  }
}
