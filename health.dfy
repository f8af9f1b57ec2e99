/**
 * The health checker (health_check.py): the fold of `run_all_checks` over
 * the registered checks and the threshold each check applies. Sensor
 * readings and the answers of the probed services are inputs.
 */
module Health {
  import opened Common
  import opened Text

  /** A check's dictionary as far as the fold reads it: `healthy` (absent counts as healthy) and `error`. */
  datatype CheckResult = CheckResult(healthy: Option<bool>, error: Option<string>)

  /** A check either returns its dictionary or raises. */
  datatype Outcome = Returned(result: CheckResult) | Raised(message: string)

  /** What the report records for a check: its dictionary, or `{healthy: False, error: str(e)}`. */
  function Recorded(o: Outcome): CheckResult {
    match o
    case Returned(r) => r
    case Raised(m) => CheckResult(Some(false), Some(m))
  }

  /** A check passes when it returned and did not say `healthy: False`. */
  predicate Passed(o: Outcome): (b: bool)
    ensures b <==> Recorded(o).healthy != Some(false)
  {
    o.Returned? && o.result.healthy != Some(false)
  }

  /**
   * The overall status the fold arrives at: it starts healthy and a single
   * check that does not pass makes it unhealthy for good.
   */
  function Status(outcomes: seq<Outcome>): (s: string)
    ensures s == "healthy" || s == "unhealthy"
    ensures s == "unhealthy" <==> exists i :: 0 <= i < |outcomes| && !Passed(outcomes[i])
  {
    if forall i :: 0 <= i < |outcomes| ==> Passed(outcomes[i]) then "healthy" else "unhealthy"
  }

  /**
   * `run_all_checks`: one entry per check, in registration order, each
   * recorded whether it returned or raised, and every check runs even after
   * one has failed; the status starts healthy and turns unhealthy at the
   * first check that does not pass.
   */
  method RunAllChecks(names: seq<string>, outcomes: seq<Outcome>) returns (status: string, checks: seq<(string, CheckResult)>)
    requires |outcomes| == |names|
    ensures |checks| == |names|
    ensures forall i :: 0 <= i < |checks| ==> checks[i] == (names[i], Recorded(outcomes[i]))
    ensures status == Status(outcomes)
    ensures status == "healthy" <==> forall i :: 0 <= i < |outcomes| ==> Passed(outcomes[i])
  {
    status := "healthy";
    checks := [];
    var i := 0;
    while i < |names|
      invariant 0 <= i <= |names| && |checks| == i
      invariant forall j :: 0 <= j < i ==> checks[j] == (names[j], Recorded(outcomes[j]))
      invariant status == Status(outcomes[..i])
    {
      var o := outcomes[i];
      checks := checks + [(names[i], Recorded(o))];
      if !Passed(o) {
        status := "unhealthy";
      }
      assert forall j :: 0 <= j < i ==> outcomes[..i + 1][j] == outcomes[..i][j];
      assert outcomes[..i + 1][i] == o;
      i := i + 1;
    }
    assert outcomes[..i] == outcomes;
  }

  /** The names `HealthChecker` registers, in order. */
  function CheckNames(): seq<string> {
    ["system", "whisper", "ollama", "disk_space", "memory", "gpu"]
  }

  /** `check_system_resources`: healthy when CPU and memory use are both below 90 percent. */
  function SystemCheck(cpuPercent: real, memoryPercent: real): (r: CheckResult)
    ensures r.healthy == Some(cpuPercent < 90.0 && memoryPercent < 90.0)
  {
    CheckResult(Some(cpuPercent < 90.0 && memoryPercent < 90.0), None)
  }

  /** The answer of a probed HTTP service, or the exception the probe raised. */
  datatype Probe = HttpReply(status: nat, loaded: Option<bool>, modelCount: nat) | ProbeFailed(reason: string)

  /** `check_whisper_service`: healthy when the status endpoint answers 200 with `loaded` true. */
  function WhisperCheck(p: Probe): (r: CheckResult)
    ensures r.healthy == Some(p.HttpReply? && p.status == 200 && p.loaded == Some(true))
  {
    match p
    case HttpReply(status, loaded, _) =>
      if status == 200 then CheckResult(Some(match loaded case Some(b) => b case None => false), None)
      else CheckResult(Some(false), Some("HTTP " + NatToString(status)))
    case ProbeFailed(reason) => CheckResult(Some(false), Some(reason))
  }

  /** `check_ollama_service`: healthy when the tag list answers 200 with at least one model. */
  function OllamaCheck(p: Probe): (r: CheckResult)
    ensures r.healthy == Some(p.HttpReply? && p.status == 200 && p.modelCount > 0)
  {
    match p
    case HttpReply(status, _, count) =>
      if status == 200 then CheckResult(Some(count > 0), None)
      else CheckResult(Some(false), Some("HTTP " + NatToString(status)))
    case ProbeFailed(reason) => CheckResult(Some(false), Some(reason))
  }

  /** `check_disk_space`: healthy with more than 5 GiB free. */
  function DiskCheck(freeBytes: nat): (r: CheckResult)
    ensures r.healthy == Some(freeBytes > 5 * 1073741824)
  {
    CheckResult(Some(freeBytes as real / 1073741824.0 > 5.0), None)
  }

  /** `check_memory_usage`: healthy below 85 percent. */
  function MemoryCheck(memoryPercent: real): (r: CheckResult)
    ensures r.healthy == Some(memoryPercent < 85.0)
  {
    CheckResult(Some(memoryPercent < 85.0), None)
  }

  /** The GPU as `check_gpu_status` finds it. */
  datatype Gpu = NoGpu | GpuReadable | GpuUnreadable(reason: string)

  /** `check_gpu_status`: no GPU at all counts as healthy; only a GPU whose statistics cannot be read is not. */
  function GpuCheck(g: Gpu): (r: CheckResult)
    ensures r.healthy == Some(!g.GpuUnreadable?)
  {
    match g
    case NoGpu => CheckResult(Some(true), None)
    case GpuReadable => CheckResult(Some(true), None)
    case GpuUnreadable(reason) => CheckResult(Some(false), Some(reason))
  }

  /** What the checks see: the sensor readings and the probes' answers. */
  datatype Readings = Readings(
    cpuPercent: real,
    systemMemoryPercent: real,
    whisper: Probe,
    ollama: Probe,
    freeBytes: nat,
    memoryPercent: real,
    gpu: Gpu)

  /**
   * The outcomes of the six registered checks when none of them raises: the
   * service and GPU checks catch their own probe failures, and the system,
   * disk and memory readings are taken to succeed (a sensor that raises
   * instead is the `Raised` outcome the report folds separately).
   */
  function Outcomes(r: Readings): (os: seq<Outcome>)
    ensures |os| == |CheckNames()|
  {
    [ Returned(SystemCheck(r.cpuPercent, r.systemMemoryPercent)),
      Returned(WhisperCheck(r.whisper)),
      Returned(OllamaCheck(r.ollama)),
      Returned(DiskCheck(r.freeBytes)),
      Returned(MemoryCheck(r.memoryPercent)),
      Returned(GpuCheck(r.gpu)) ]
  }

  /** The service reports healthy exactly when every threshold holds and every probed service is up. */
  lemma HealthyIffAllWithin(r: Readings)
    ensures Status(Outcomes(r)) == "healthy" <==>
      && r.cpuPercent < 90.0 && r.systemMemoryPercent < 90.0
      && r.whisper.HttpReply? && r.whisper.status == 200 && r.whisper.loaded == Some(true)
      && r.ollama.HttpReply? && r.ollama.status == 200 && r.ollama.modelCount > 0
      && r.freeBytes > 5 * 1073741824
      && r.memoryPercent < 85.0
      && !r.gpu.GpuUnreadable?
  {
    var os := Outcomes(r);
    assert Passed(os[0]) && Passed(os[1]) && Passed(os[2]) && Passed(os[3]) && Passed(os[4]) && Passed(os[5])
      ==> forall i :: 0 <= i < |os| ==> Passed(os[i]);
  }
}
