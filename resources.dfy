/**
 * The resource manager (resource_manager.py): two flags that keep speech
 * recognition and image generation from running at the same time, the
 * choice of a speech model by free memory, and the wait for resources.
 * Memory figures and clock readings are inputs.
 */
module Resources {

  /** The two flags. */
  datatype Flags = Flags(whisperActive: bool, stableDiffusionActive: bool)

  /** The property the flags exist for: never both on. */
  predicate Exclusive(f: Flags) {
    !(f.whisperActive && f.stableDiffusionActive)
  }

  /** `can_use_whisper`: memory use at most 85 percent and no image generation running. */
  predicate WhisperAllowed(f: Flags, memoryPercent: real) {
    memoryPercent <= 85.0 && !f.stableDiffusionActive
  }

  /** The operations on the flags, with the memory reading a reservation sees. */
  datatype Op = ReserveWhisper(memoryPercent: real) | ReleaseWhisper | ReserveStableDiffusion | ReleaseStableDiffusion

  /** The new flags after one operation. */
  function Apply(f: Flags, op: Op): Flags {
    match op
    case ReserveWhisper(m) => if WhisperAllowed(f, m) then f.(whisperActive := true) else f
    case ReleaseWhisper => f.(whisperActive := false)
    case ReserveStableDiffusion => if !f.whisperActive then f.(stableDiffusionActive := true) else f
    case ReleaseStableDiffusion => f.(stableDiffusionActive := false)
  }

  /** The flags after a sequence of operations. */
  function Run(f: Flags, ops: seq<Op>): Flags
    decreases |ops|
  {
    if ops == [] then f else Run(Apply(f, ops[0]), ops[1..])
  }

  /** One operation never turns both flags on. */
  lemma ApplyKeepsExclusive(f: Flags, op: Op)
    requires Exclusive(f)
    ensures Exclusive(Apply(f, op))
  {
  }

  /** No sequence of reservations and releases turns both flags on. */
  lemma {:induction false} RunKeepsExclusive(f: Flags, ops: seq<Op>)
    requires Exclusive(f)
    ensures Exclusive(Run(f, ops))
    decreases |ops|
  {
    if ops != [] {
      ApplyKeepsExclusive(f, ops[0]);
      RunKeepsExclusive(Apply(f, ops[0]), ops[1..]);
    }
  }

  /** A release is idempotent and leaves the other flag alone. */
  lemma ReleaseIdempotent(f: Flags)
    ensures Apply(Apply(f, ReleaseWhisper), ReleaseWhisper) == Apply(f, ReleaseWhisper)
    ensures Apply(f, ReleaseWhisper).stableDiffusionActive == f.stableDiffusionActive
    ensures Apply(Apply(f, ReleaseStableDiffusion), ReleaseStableDiffusion) == Apply(f, ReleaseStableDiffusion)
    ensures Apply(f, ReleaseStableDiffusion).whisperActive == f.whisperActive
  {
  }

  /**
   * The lock as written: a step either completes with a value and new
   * flags, or blocks forever because it waits for a lock the same thread
   * already holds.
   */
  datatype Step = Blocked | Completed(result: bool, flags: Flags)

  /** `with self.lock:` around `can_use_whisper`, for a caller that may already hold the lock. */
  function CanUseWhisperAsWritten(f: Flags, lockHeld: bool, memoryPercent: real): Step {
    if lockHeld then Blocked else Completed(WhisperAllowed(f, memoryPercent), f)
  }

  /** `reserve_whisper` as written: it takes the lock and then calls `can_use_whisper`, which takes it again. */
  function ReserveWhisperAsWritten(f: Flags, lockHeld: bool, memoryPercent: real): Step {
    if lockHeld then Blocked
    else
      match CanUseWhisperAsWritten(f, true, memoryPercent)
      case Blocked => Blocked
      case Completed(ok, g) => Completed(ok, if ok then g.(whisperActive := true) else g)
  }

  /** As written, reserving speech recognition never returns, whatever the flags and the memory reading. */
  lemma ReserveWhisperDeadlocks(f: Flags, memoryPercent: real)
    ensures ReserveWhisperAsWritten(f, false, memoryPercent).Blocked?
  {
  }

  /** The manager object. */
  class ResourceManager {
    var whisperActive: bool
    var stableDiffusionActive: bool

    function State(): Flags
      reads this
    {
      Flags(whisperActive, stableDiffusionActive)
    }

    constructor ()
      ensures State() == Flags(false, false) && Exclusive(State())
    {
      whisperActive := false;
      stableDiffusionActive := false;
    }

    /** `can_use_whisper` for a memory reading. */
    function CanUseWhisper(memoryPercent: real): (ok: bool)
      reads this
      ensures ok <==> memoryPercent <= 85.0 && !stableDiffusionActive
    {
      WhisperAllowed(State(), memoryPercent)
    }

    /**
     * `reserve_whisper`, with the check made under the one acquisition of
     * the lock: it succeeds exactly when speech recognition may run, and
     * then sets its flag; a refusal changes nothing.
     */
    method ReserveWhisper(memoryPercent: real) returns (ok: bool)
      modifies this`whisperActive
      ensures ok == old(CanUseWhisper(memoryPercent))
      ensures State() == Apply(old(State()), Op.ReserveWhisper(memoryPercent))
      ensures ok ==> whisperActive
      ensures old(Exclusive(State())) ==> Exclusive(State())
    {
      ok := CanUseWhisper(memoryPercent);
      if ok {
        whisperActive := true;
      }
    }

    /** `release_whisper`: clears its own flag only. */
    method ReleaseWhisper()
      modifies this`whisperActive
      ensures State() == Apply(old(State()), Op.ReleaseWhisper)
      ensures !whisperActive
    {
      whisperActive := false;
    }

    /** `reserve_stable_diffusion`: succeeds exactly when speech recognition is not running. */
    method ReserveStableDiffusion() returns (ok: bool)
      modifies this`stableDiffusionActive
      ensures ok == !whisperActive
      ensures State() == Apply(old(State()), Op.ReserveStableDiffusion)
      ensures ok ==> stableDiffusionActive
      ensures old(Exclusive(State())) ==> Exclusive(State())
    {
      ok := !whisperActive;
      if ok {
        stableDiffusionActive := true;
      }
    }

    /** `release_stable_diffusion`: clears its own flag only. */
    method ReleaseStableDiffusion()
      modifies this`stableDiffusionActive
      ensures State() == Apply(old(State()), Op.ReleaseStableDiffusion)
      ensures !stableDiffusionActive
    {
      stableDiffusionActive := false;
    }

    /**
     * `wait_for_resources`: polls until the service may run or the clock
     * reaches the timeout. `probes` are the successive (elapsed seconds,
     * memory percent) readings, the last one at or past the timeout. It only
     * reads the flags.
     */
    method WaitForResources(service: string, timeout: real, probes: seq<(real, real)>) returns (ok: bool)
      requires |probes| > 0 && probes[|probes| - 1].0 >= timeout
      ensures ok == Waited(State(), service, timeout, probes)
    {
      var i := 0;
      while i < |probes| && probes[i].0 < timeout
        invariant 0 <= i <= |probes|
        invariant Waited(State(), service, timeout, probes) == Waited(State(), service, timeout, probes[i..])
      {
        assert probes[i..][1..] == probes[i + 1..];
        if service == "whisper" && CanUseWhisper(probes[i].1) {
          return true;
        } else if service == "stable_diffusion" && !whisperActive {
          return true;
        }
        i := i + 1;
      }
      ok := false;
    }
  }

  /** Whether the service may run, as the wait loop tests it. */
  predicate Ready(f: Flags, service: string, memoryPercent: real) {
    (service == "whisper" && WhisperAllowed(f, memoryPercent)) || (service == "stable_diffusion" && !f.whisperActive)
  }

  /** The result of the wait over the clock and memory readings. */
  function Waited(f: Flags, service: string, timeout: real, probes: seq<(real, real)>): bool
    decreases |probes|
  {
    if probes == [] || probes[0].0 >= timeout then false
    else Ready(f, service, probes[0].1) || Waited(f, service, timeout, probes[1..])
  }

  /** Reading `i` found the service ready, and it and every reading before it came before the timeout. */
  predicate ReadyAt(f: Flags, service: string, timeout: real, probes: seq<(real, real)>, i: nat)
    requires i < |probes|
  {
    Ready(f, service, probes[i].1) && forall j :: 0 <= j <= i ==> probes[j].0 < timeout
  }

  /**
   * The wait succeeds exactly when some reading taken before the timeout
   * found the service ready; any other service name always times out.
   */
  lemma WaitedMeaning(f: Flags, service: string, timeout: real, probes: seq<(real, real)>)
    ensures Waited(f, service, timeout, probes) <==>
      exists i :: 0 <= i < |probes| && ReadyAt(f, service, timeout, probes, i)
    ensures service != "whisper" && service != "stable_diffusion" ==> !Waited(f, service, timeout, probes)
  {
    if Waited(f, service, timeout, probes) {
      WaitedFinds(f, service, timeout, probes);
    }
    if exists i :: 0 <= i < |probes| && ReadyAt(f, service, timeout, probes, i) {
      var i :| 0 <= i < |probes| && ReadyAt(f, service, timeout, probes, i);
      ReadyAtWaits(f, service, timeout, probes, i);
    }
  }

  /** A successful wait has a reading that found the service ready in time. */
  lemma {:induction false} WaitedFinds(f: Flags, service: string, timeout: real, probes: seq<(real, real)>)
    requires Waited(f, service, timeout, probes)
    ensures exists i :: 0 <= i < |probes| && ReadyAt(f, service, timeout, probes, i)
    decreases |probes|
  {
    if Ready(f, service, probes[0].1) {
      assert ReadyAt(f, service, timeout, probes, 0);
    } else {
      var rest := probes[1..];
      WaitedFinds(f, service, timeout, rest);
      var k :| 0 <= k < |rest| && ReadyAt(f, service, timeout, rest, k);
      ReadyAtShift(f, service, timeout, probes, k + 1);
    }
  }

  /** A reading that found the service ready in time makes the wait succeed. */
  lemma {:induction false} ReadyAtWaits(f: Flags, service: string, timeout: real, probes: seq<(real, real)>, i: nat)
    requires i < |probes| && ReadyAt(f, service, timeout, probes, i)
    ensures Waited(f, service, timeout, probes)
    decreases i
  {
    if i > 0 && !Ready(f, service, probes[0].1) {
      ReadyAtShift(f, service, timeout, probes, i);
      ReadyAtWaits(f, service, timeout, probes[1..], i - 1);
    }
  }

  /** Readings after the first are ready in time exactly when the first came in time and they are ready in time among the rest. */
  lemma ReadyAtShift(f: Flags, service: string, timeout: real, probes: seq<(real, real)>, i: nat)
    requires 0 < i < |probes|
    ensures ReadyAt(f, service, timeout, probes, i) <==>
      probes[0].0 < timeout && ReadyAt(f, service, timeout, probes[1..], i - 1)
  {
    var rest := probes[1..];
    assert forall j :: 0 <= j < |rest| ==> rest[j] == probes[j + 1];
    if probes[0].0 < timeout && ReadyAt(f, service, timeout, rest, i - 1) {
      forall j | 0 <= j <= i
        ensures probes[j].0 < timeout
      {
        if j > 0 {
          assert probes[j] == rest[j - 1];
        }
      }
    }
  }

  /** The speech model sizes, ordered. */
  function Rank(model: string): nat {
    if model == "medium" then 3 else if model == "small" then 2 else if model == "base" then 1 else 0
  }

  /** `get_optimal_model` for the available memory in bytes. */
  function OptimalModel(availableBytes: nat): (m: string)
    ensures m in {"medium", "small", "base", "tiny"}
  {
    var gb := availableBytes as real / 1073741824.0;
    if gb > 10.0 then "medium"
    else if gb > 5.0 then "small"
    else if gb > 2.0 then "base"
    else "tiny"
  }

  /** More free memory never yields a smaller model. */
  lemma OptimalModelMonotone(a: nat, b: nat)
    requires a <= b
    ensures Rank(OptimalModel(a)) <= Rank(OptimalModel(b))
  {
    assert a as real / 1073741824.0 <= b as real / 1073741824.0;
  }
}
