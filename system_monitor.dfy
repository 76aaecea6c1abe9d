/**
  The current resource monitors (package system_monitors): threshold checks
  for disk, CPU, RAM and GPU, the GPU presence check, and the aggregate
  health check. Readings are inputs; the notifier is the sequence of
  `alert_format(device, resource_name, threshold)` calls a check makes.
  */
module SystemMonitor {
  import Cooldown
  import Retry

  /** One `alert_format` call: the resource name and the threshold crossed. */
  datatype Alert = Alert(resourceName: string, threshold: int)

  /** What a check returns and the alerts it raised, in order. */
  datatype Health = Health(healthy: bool, alerts: seq<Alert>)

  /** The thresholds dictionary built from the `general` section. */
  datatype Thresholds = Thresholds(disk: int, cpu: int, ram: int, gpu: int, gpuMemory: int, gpuTemp: int)

  /** The probe readings of one check: disk percent free, usage percentages
      and the GPU temperature in degrees Celsius. */
  datatype Readings = Readings(percentFree: real, cpuUsage: real, percentRamUsed: real,
                               gpuUtilization: real, memoryUtilization: real, gpuTemperature: real)

  // ---- reference evaluator: one comparison direction per resource kind ----

  datatype Kind = Disk | Cpu | Ram | GpuUtilization | GpuMemory | GpuTemperature

  /** Disk alerts when free space falls to the threshold; everything else
      when usage reaches it. Equality is unhealthy in both directions. */
  predicate Breached(kind: Kind, reading: real, threshold: int)
  {
    if kind == Disk then reading <= threshold as real else reading >= threshold as real
  }

  /** A GPU metric with the resource name its alert carries. */
  datatype Metric = Metric(name: string, kind: Kind, reading: real, threshold: int)

  /** The alert for one metric if it is breached. */
  function Flag(m: Metric): seq<Alert>
  {
    if Breached(m.kind, m.reading, m.threshold) then [Alert(m.name, m.threshold)] else []
  }

  /** The alerts for the breached metrics, in the order given. */
  function Breaches(metrics: seq<Metric>): (alerts: seq<Alert>)
    ensures |alerts| <= |metrics|
    ensures alerts == [] <==> forall i :: 0 <= i < |metrics| ==> !Breached(metrics[i].kind, metrics[i].reading, metrics[i].threshold)
  {
    if metrics == [] then [] else Flag(metrics[0]) + Breaches(metrics[1..])
  }

  lemma BreachesOfThree(a: Metric, b: Metric, c: Metric)
    ensures Breaches([a, b, c]) == Flag(a) + Flag(b) + Flag(c)
  {
    assert [c][1..] == [];
    assert Breaches([c]) == Flag(c) + Breaches([]) == Flag(c);
    assert [b, c][1..] == [c];
    assert Breaches([b, c]) == Flag(b) + Breaches([c]);
    assert [a, b, c][1..] == [b, c];
    assert Breaches([a, b, c]) == Flag(a) + Breaches([b, c]);
  }

  /** An alert is in Breaches exactly when some breached metric carries it. */
  lemma {:induction false} BreachesMembership(metrics: seq<Metric>, a: Alert)
    ensures a in Breaches(metrics) <==>
              exists i :: 0 <= i < |metrics| && Breached(metrics[i].kind, metrics[i].reading, metrics[i].threshold)
                          && a == Alert(metrics[i].name, metrics[i].threshold)
  {
    if metrics != [] {
      BreachesMembership(metrics[1..], a);
      var m := metrics[0];
      if a in Breaches(metrics[1..]) {
        var i :| 0 <= i < |metrics[1..]| && Breached(metrics[1..][i].kind, metrics[1..][i].reading, metrics[1..][i].threshold)
                 && a == Alert(metrics[1..][i].name, metrics[1..][i].threshold);
        assert metrics[i + 1] == metrics[1..][i];
      }
      if exists i :: 0 <= i < |metrics| && Breached(metrics[i].kind, metrics[i].reading, metrics[i].threshold)
                     && a == Alert(metrics[i].name, metrics[i].threshold) {
        var i :| 0 <= i < |metrics| && Breached(metrics[i].kind, metrics[i].reading, metrics[i].threshold)
                 && a == Alert(metrics[i].name, metrics[i].threshold);
        if i > 0 { assert metrics[1..][i - 1] == metrics[i]; }
      }
    }
  }

  // ---- the four monitors ----

  /** DiskMonitor.check_health on one disk. */
  function CheckDisk(percentFree: real, t: Thresholds): (h: Health)
    ensures h.healthy <==> !Breached(Disk, percentFree, t.disk)
    ensures h.healthy <==> percentFree > t.disk as real
    ensures h.alerts == if h.healthy then [] else [Alert("Disks", t.disk)]
  {
    if percentFree <= t.disk as real then Health(false, [Alert("Disks", t.disk)]) else Health(true, [])
  }

  /** CpuMonitor.check_health. */
  function CheckCpu(cpuUsage: real, t: Thresholds): (h: Health)
    ensures h.healthy <==> !Breached(Cpu, cpuUsage, t.cpu)
    ensures h.healthy <==> cpuUsage < t.cpu as real
    ensures h.alerts == if h.healthy then [] else [Alert("CPU", t.cpu)]
  {
    if cpuUsage >= t.cpu as real then Health(false, [Alert("CPU", t.cpu)]) else Health(true, [])
  }

  /** RamMonitor.check_health. */
  function CheckRam(percentRamUsed: real, t: Thresholds): (h: Health)
    ensures h.healthy <==> !Breached(Ram, percentRamUsed, t.ram)
    ensures h.healthy <==> percentRamUsed < t.ram as real
    ensures h.alerts == if h.healthy then [] else [Alert("RAM", t.ram)]
  {
    if percentRamUsed >= t.ram as real then Health(false, [Alert("RAM", t.ram)]) else Health(true, [])
  }

  /** The GPU metrics in the order GpuMonitor.check_health tests them. */
  function GpuMetrics(r: Readings, t: Thresholds): seq<Metric>
  {
    [ Metric("GPU utilization", GpuUtilization, r.gpuUtilization, t.gpu),
      Metric("GPU Memory Utilization", GpuMemory, r.memoryUtilization, t.gpuMemory),
      Metric("GPU Temperature", GpuTemperature, r.gpuTemperature, t.gpuTemp) ]
  }

  /**
    GpuMonitor.check_health: collect one alert per metric at or above its
    threshold into alert_info, then notify once per entry, in order.
    */
  method CheckGpu(r: Readings, t: Thresholds) returns (h: Health)
    ensures h.alerts == Breaches(GpuMetrics(r, t))
    ensures h.healthy <==> h.alerts == []
    ensures h.healthy <==> r.gpuUtilization < t.gpu as real && r.memoryUtilization < t.gpuMemory as real
                           && r.gpuTemperature < t.gpuTemp as real
  {
    ghost var ms := GpuMetrics(r, t);
    var alertInfo: seq<Alert> := [];
    if r.gpuUtilization >= t.gpu as real {
      alertInfo := alertInfo + [Alert("GPU utilization", t.gpu)];
    }
    assert alertInfo == Flag(ms[0]);
    if r.memoryUtilization >= t.gpuMemory as real {
      alertInfo := alertInfo + [Alert("GPU Memory Utilization", t.gpuMemory)];
    }
    assert alertInfo == Flag(ms[0]) + Flag(ms[1]);
    if r.gpuTemperature >= t.gpuTemp as real {
      alertInfo := alertInfo + [Alert("GPU Temperature", t.gpuTemp)];
    }
    assert alertInfo == Flag(ms[0]) + Flag(ms[1]) + Flag(ms[2]);
    BreachesOfThree(ms[0], ms[1], ms[2]);
    assert ms == [ms[0], ms[1], ms[2]];
    var notified: seq<Alert> := [];
    if alertInfo != [] {
      for i := 0 to |alertInfo|
        invariant notified == alertInfo[..i]
      {
        notified := notified + [alertInfo[i]];
      }
      assert notified == alertInfo;
      return Health(false, notified);
    }
    return Health(true, notified);
  }

  // ---- GPU presence ----

  /** What NVML reports at startup: initialisation or the device count failed,
      or one name per device, None where reading that name failed. */
  datatype Nvml = NvmlError | Devices(names: seq<Option>)

  datatype Option = None | Some(value: string)

  /** ASCII lower-casing of one character. */
  function LowerChar(c: char): (l: char)
    ensures 'A' <= c <= 'Z' ==> l as int == c as int + 32
    ensures !('A' <= c <= 'Z') ==> l == c
  {
    if 'A' <= c <= 'Z' then (c as int + 32) as char else c
  }

  function Lower(s: string): (l: string)
    ensures |l| == |s|
    ensures forall i :: 0 <= i < |s| ==> l[i] == LowerChar(s[i])
  {
    seq(|s|, i requires 0 <= i < |s| => LowerChar(s[i]))
  }

  /** `name.lower().startswith("nvidia")`: the name has at least six
      characters and they spell "nvidia" in any mix of cases. */
  function IsNvidia(name: string): (nvidia: bool)
    ensures nvidia <==> |name| >= 6 && forall i :: 0 <= i < 6 ==> LowerChar(name[i]) == "nvidia"[i]
  {
    "nvidia" <= Lower(name)
  }

  /** Device i was reached: no name before it failed to read. */
  predicate ReadableBefore(names: seq<Option>, i: int)
    requires 0 <= i <= |names|
  {
    forall j :: 0 <= j < i ==> names[j].Some?
  }

  /** Some device, reached before any failing one, is an NVIDIA device. */
  predicate NvidiaFound(nvml: Nvml)
  {
    nvml.Devices? &&
    exists i :: 0 <= i < |nvml.names| && nvml.names[i].Some? && IsNvidia(nvml.names[i].value)
                && ReadableBefore(nvml.names, i)
  }

  /**
    SystemMonitor.check_gpu_presence: scan the devices in order and answer
    true at the first NVIDIA name; an NVML error at any point answers false.
    */
  method CheckGpuPresence(nvml: Nvml) returns (present: bool)
    ensures present <==> NvidiaFound(nvml)
  {
    if nvml.NvmlError? {
      return false;
    }
    var names := nvml.names;
    for i := 0 to |names|
      invariant ReadableBefore(names, i)
      invariant forall j :: 0 <= j < i ==> !IsNvidia(names[j].value)
    {
      if names[i].None? {
        return false;
      }
      if IsNvidia(names[i].value) {
        return true;
      }
    }
    return false;
  }

  lemma PresenceExamples()
    ensures IsNvidia("NVIDIA GeForce RTX 3080")
    ensures IsNvidia("nvidia a100")
    ensures !IsNvidia("AMD Radeon")
    ensures !IsNvidia("NVIDI")
  {
    assert Lower("NVIDIA GeForce RTX 3080")[..6] == "nvidia";
    assert Lower("nvidia a100")[..6] == "nvidia";
    assert Lower("AMD Radeon")[0] == 'a';
  }

  // ---- the aggregate check ----

  class SystemMonitor {
    /** gpu_present, decided once when the monitor is built. */
    const gpuPresent: bool

    constructor (nvml: Nvml)
      ensures gpuPresent <==> NvidiaFound(nvml)
    {
      var present := CheckGpuPresence(nvml);
      gpuPresent := present;
    }

    /**
      SystemMonitor.check_health for one disk: every monitor runs and raises
      its alerts before the results are combined with AND; the GPU counts as
      healthy, and is not checked, when no GPU was found.
      */
    method CheckHealth(r: Readings, t: Thresholds) returns (h: Health)
      ensures h.healthy <==>
                && !Breached(Disk, r.percentFree, t.disk)
                && !Breached(Cpu, r.cpuUsage, t.cpu)
                && !Breached(Ram, r.percentRamUsed, t.ram)
                && (gpuPresent ==> Breaches(GpuMetrics(r, t)) == [])
      ensures h.alerts == CheckDisk(r.percentFree, t).alerts + CheckCpu(r.cpuUsage, t).alerts
                          + CheckRam(r.percentRamUsed, t).alerts
                          + (if gpuPresent then Breaches(GpuMetrics(r, t)) else [])
      ensures h.healthy <==> h.alerts == []
    {
      var disk := CheckDisk(r.percentFree, t);
      var cpu := CheckCpu(r.cpuUsage, t);
      var ram := CheckRam(r.percentRamUsed, t);
      var gpu := Health(true, []);
      if gpuPresent {
        gpu := CheckGpu(r, t);
      }
      h := Health(disk.healthy && cpu.healthy && ram.healthy && gpu.healthy,
                  disk.alerts + cpu.alerts + ram.alerts + gpu.alerts);
    }
  }

  // ---- monitors feeding the cooldown gate ----

  /**
    A disk at 4% free against a threshold of 5 with a 300-second cooldown:
    the first check alerts, a check one second after the delivered alert is
    suppressed, and one 301 seconds after it alerts again.
    */
  lemma DiskCooldownScenario<E>(t: Thresholds, send: Retry.Outcome<E>)
    requires t.disk == 5
    ensures var h := CheckDisk(4.0, t);
      && !h.healthy && h.alerts == [Alert("Disks", 5)]
      && var first: Cooldown.Step<E> := Cooldown.AlertStep(map[], "Disks", 1000, 300, Retry.Delivered, 1000);
         && first.gate == Cooldown.Attempted(Retry.Delivered)
         && Cooldown.AlertStep(first.tracker, "Disks", 1001, 300, send, 1001).gate == Cooldown.Suppressed
         && Cooldown.AlertStep(first.tracker, "Disks", 1301, 300, send, 1301).gate == Cooldown.Attempted(send)
  {
    var first: Cooldown.Step<E> := Cooldown.AlertStep(map[], "Disks", 1000, 300, Retry.Delivered, 1000);
    Cooldown.NoRealertWithinCooldown(map[], "Disks", 1000, 300, 1000, 1001, send, 1001);
    Cooldown.NoRealertWithinCooldown(map[], "Disks", 1000, 300, 1000, 1301, send, 1301);
  }
}
