/** The GPU temperature protection node: a threshold-gated wait inserted into a
    workflow. A disabled invocation does nothing. Each enabled invocation reads the GPU
    temperature; when the minimum re-check interval has passed since the last check,
    it reads again and, if the GPU is above `sleepTemp`, sleeps and polls until it is
    at or below `wakeTemp`, the optional deadline passes, or the node is disabled. */
module GpuTemperatureProtection {
  import opened Environment

  datatype Option<+T> = None | Some(value: T)

  /** The node's instance attributes, given by the host as keyword arguments. The two
      switches are the strings "True" / "False" that the host passes. */
  datatype Config = Config(
    enabled: string,
    printEnabled: string,
    minInterval: int,
    sleepTime: int,
    maxSleepTime: int,
    sleepTemp: int,
    wakeTemp: int)

  /** The source's `flag == 'True'` test. */
  predicate IsTrue(flag: string)
  {
    flag == "True"
  }

  /** What the host's widgets guarantee and the gate relies on: both thresholds are at
      least 0. A negative `sleepTemp` would be a negative sleep, which the runtime
      refuses; a negative `wakeTemp` would let failed (0) readings keep the wait going. */
  predicate Runnable(cfg: Config)
  {
    0 <= cfg.sleepTemp && 0 <= cfg.wakeTemp
  }

  /** The temperature `get_gpu_temperature` returns for one sensor run: the reported
      value, or 0 whatever the failure. */
  function TemperatureOf(o: SensorOutcome): int
  {
    match o
    case Reported(celsius) => celsius
    case CalledProcessError => 0
    case OtherException => 0
  }

  /** The temperature the k-th read of the sensor returns. */
  function ReadingAt(trace: seq<SensorOutcome>, k: nat): int
  {
    TemperatureOf(SensorAt(trace, k))
  }

  /** The local state of one invocation: the reading in hand, the clock, and how many
      sensor runs have been used up. */
  datatype Probe = Probe(temp: int, clock: int, runs: nat)

  /** The guard of the wait loop. A `maxSleepTime` of 0 is falsy in the source and means
      that there is no deadline. */
  predicate KeepWaiting(cfg: Config, callTime: int, s: Probe)
  {
    s.temp > cfg.wakeTemp
    && (cfg.maxSleepTime == 0 || cfg.maxSleepTime > s.clock - callTime)
    && IsTrue(cfg.enabled)
  }

  /** One poll: sleep for `sleepTemp` seconds (the source passes the threshold, not
      `sleepTime`, to the sleep), then read the sensor. */
  function SleepThenRead(cfg: Config, s: Probe, trace: seq<SensorOutcome>): Probe
  {
    Probe(ReadingAt(trace, s.runs), s.clock + cfg.sleepTemp, s.runs + 1)
  }

  /** Bounds the polls left: one per unused sensor run, and one more while hot (a run
      past the end of the history reads 0, which ends the wait). */
  function PollsLeft(cfg: Config, trace: seq<SensorOutcome>, s: Probe): nat
  {
    (if s.runs < |trace| then |trace| - s.runs else 0) + (if s.temp > cfg.wakeTemp then 1 else 0)
  }

  /** The wait loop, from the probe taken after the first sleep to the probe in hand when
      the guard fails. On exit the guard is false; every poll slept `sleepTemp` seconds
      and took exactly one reading, and the reading in hand is the last one taken. */
  function Wait(cfg: Config, callTime: int, s: Probe, trace: seq<SensorOutcome>): (r: Probe)
    requires Runnable(cfg)
    ensures !KeepWaiting(cfg, callTime, r)
    ensures s.runs <= r.runs
    ensures r.clock == s.clock + cfg.sleepTemp * (r.runs - s.runs)
    ensures r.runs == s.runs ==> r == s
    ensures r.runs > s.runs ==> r.temp == ReadingAt(trace, r.runs - 1)
    decreases PollsLeft(cfg, trace, s)
  {
    if KeepWaiting(cfg, callTime, s) then
      var next := SleepThenRead(cfg, s, trace);
      var r := Wait(cfg, callTime, next, trace);
      assert cfg.sleepTemp * (r.runs - s.runs) == cfg.sleepTemp + cfg.sleepTemp * (r.runs - next.runs);
      r
    else
      s
  }

  /** The outcome of one invocation: its result, the shared `last_call_time` after it,
      the clock after it and the sensor runs used up by then. */
  datatype After<T> = After(result: T, lastCallTime: int, clock: int, runs: nat)

  /** Whether an invocation at `now` re-checks: enabled, and strictly more than
      `minInterval` seconds since the last check. */
  predicate Rechecks(cfg: Config, lastCallTime: int, now: int)
  {
    IsTrue(cfg.enabled) && now - lastCallTime > cfg.minInterval
  }

  /** `gpu_temperature_protection` as a function of the configuration, the shared
      timestamp, the clock at the call and the sensor history from run `k` on. */
  function CheckAndWaitSpec(cfg: Config, lastCallTime: int, now: int, trace: seq<SensorOutcome>, k: nat): (r: After<int>)
    requires Runnable(cfg)
    // the returned temperature is always the last reading taken, and time never runs back
    ensures k < r.runs && r.result == ReadingAt(trace, r.runs - 1)
    ensures now <= r.clock
    // debounced or disabled: one read, no sleep, the shared timestamp untouched
    ensures !Rechecks(cfg, lastCallTime, now) ==>
              r == After(ReadingAt(trace, k), lastCallTime, now, k + 1)
    // every re-check stamps the shared timestamp with the time at which it finished
    ensures Rechecks(cfg, lastCallTime, now) ==> r.lastCallTime == r.clock
    // cool on re-check: no sleep, stamped with the call time
    ensures Rechecks(cfg, lastCallTime, now) && ReadingAt(trace, k + 1) <= cfg.sleepTemp ==>
              r == After(ReadingAt(trace, k + 1), now, now, k + 2)
    // hot on re-check: one sleep of `sleepTemp` per reading after the triggering one,
    // ending cool or past a non-zero deadline
    ensures Rechecks(cfg, lastCallTime, now) && ReadingAt(trace, k + 1) > cfg.sleepTemp ==>
              k + 3 <= r.runs
              && r.clock == now + cfg.sleepTemp * (r.runs - (k + 2))
              && (r.result <= cfg.wakeTemp || (cfg.maxSleepTime != 0 && r.clock - now >= cfg.maxSleepTime))
  {
    var first := ReadingAt(trace, k);
    if !Rechecks(cfg, lastCallTime, now) then
      After(first, lastCallTime, now, k + 1)
    else
      var second := ReadingAt(trace, k + 1);
      if second <= cfg.sleepTemp then
        After(second, now, now, k + 2)
      else
        var s := Wait(cfg, now, Probe(ReadingAt(trace, k + 2), now + cfg.sleepTemp, k + 3), trace);
        assert cfg.sleepTemp * (s.runs - (k + 2)) == cfg.sleepTemp + cfg.sleepTemp * (s.runs - (k + 3));
        After(s.temp, s.clock, s.clock, s.runs)
  }

  /** `process`: the gate when enabled; otherwise no result, no read, nothing changed. */
  function ProcessSpec(cfg: Config, lastCallTime: int, now: int, trace: seq<SensorOutcome>, k: nat): (r: After<Option<int>>)
    requires Runnable(cfg)
    ensures !IsTrue(cfg.enabled) ==> r == After(None, lastCallTime, now, k)
    ensures IsTrue(cfg.enabled) ==> r.result.Some? && k < r.runs && r.result.value == ReadingAt(trace, r.runs - 1)
  {
    if IsTrue(cfg.enabled) then
      var g := CheckAndWaitSpec(cfg, lastCallTime, now, trace, k);
      After(Some(g.result), g.lastCallTime, g.clock, g.runs)
    else
      After(None, lastCallTime, now, k)
  }

  /** The class object: `last_call_time` is a class attribute, one timestamp shared by
      every instance of the node, set when the class is defined. `stamps` counts the
      assignments to it. */
  class NodeClass {
    var lastCallTime: int
    ghost var stamps: nat

    constructor (definedAt: int)
      ensures lastCallTime == definedAt && stamps == 0
    {
      lastCallTime := definedAt;
      stamps := 0;
    }
  }

  /** `main`'s result: a 1-tuple holding what `process` returned. */
  datatype NodeOutput = NodeOutput(gpuCoreTemp: Option<int>)

  /** One instance of the node: its attributes and the class it shares the timestamp with. */
  class GpuTemperatureProtection {
    var attrs: Config
    const nodeClass: NodeClass

    constructor (kwargs: Config, nodeClass: NodeClass)
      ensures attrs == kwargs && this.nodeClass == nodeClass
    {
      attrs := kwargs;
      this.nodeClass := nodeClass;
    }

    /** `get_gpu_temperature`: one sensor run; a non-zero exit or any other exception
        reads 0. The outcomes carry no output bytes, so an error output that fails to
        decode, which the source lets escape, is not represented. */
    static method GetGpuTemperature(m: Machine) returns (t: int)
      modifies m`runs
      ensures m.runs == old(m.runs) + 1
      ensures SensorAt(m.sensor, old(m.runs)).Reported? ==> t == SensorAt(m.sensor, old(m.runs)).celsius
      ensures !SensorAt(m.sensor, old(m.runs)).Reported? ==> t == 0
    {
      var o := m.QuerySensor();
      match o {
        case Reported(celsius) => t := celsius;
        case CalledProcessError => t := 0;
        case OtherException => t := 0;
      }
    }

    /** `gpu_temperature_protection`. */
    method CheckAndWait(m: Machine) returns (temp: int)
      requires Runnable(attrs)
      modifies nodeClass, m`clock, m`runs
      ensures var r := CheckAndWaitSpec(attrs, old(nodeClass.lastCallTime), old(m.clock), m.sensor, old(m.runs));
              temp == r.result && nodeClass.lastCallTime == r.lastCallTime && m.clock == r.clock && m.runs == r.runs
      ensures nodeClass.stamps == old(nodeClass.stamps) + if Rechecks(attrs, old(nodeClass.lastCallTime), old(m.clock)) then 1 else 0
    {
      temp := GetGpuTemperature(m);
      if IsTrue(attrs.enabled) {
        var callTime := m.Time();
        if callTime - nodeClass.lastCallTime > attrs.minInterval {
          temp := GetGpuTemperature(m);
          if temp > attrs.sleepTemp {
            m.Sleep(attrs.sleepTemp);
            temp := GetGpuTemperature(m);
            ghost var start := Probe(temp, m.clock, m.runs);
            while
              temp > attrs.wakeTemp
              && (attrs.maxSleepTime == 0 || attrs.maxSleepTime > m.Time() - callTime)
              && IsTrue(attrs.enabled)
              invariant nodeClass.lastCallTime == old(nodeClass.lastCallTime)
              invariant nodeClass.stamps == old(nodeClass.stamps)
              invariant Wait(attrs, callTime, Probe(temp, m.clock, m.runs), m.sensor)
                     == Wait(attrs, callTime, start, m.sensor)
              decreases PollsLeft(attrs, m.sensor, Probe(temp, m.clock, m.runs))
            {
              m.Sleep(attrs.sleepTemp);
              temp := GetGpuTemperature(m);
            }
            assert Wait(attrs, callTime, start, m.sensor) == Probe(temp, m.clock, m.runs);
            nodeClass.lastCallTime := m.Time();
            nodeClass.stamps := nodeClass.stamps + 1;
          } else {
            nodeClass.lastCallTime := callTime;
            nodeClass.stamps := nodeClass.stamps + 1;
          }
        }
      }
    }

    /** `process`. */
    method Process(m: Machine) returns (r: Option<int>)
      requires Runnable(attrs)
      modifies nodeClass, m`clock, m`runs
      ensures var p := ProcessSpec(attrs, old(nodeClass.lastCallTime), old(m.clock), m.sensor, old(m.runs));
              r == p.result && nodeClass.lastCallTime == p.lastCallTime && m.clock == p.clock && m.runs == p.runs
      ensures nodeClass.stamps == old(nodeClass.stamps) + if Rechecks(attrs, old(nodeClass.lastCallTime), old(m.clock)) then 1 else 0
    {
      if IsTrue(attrs.enabled) {
        var temp := CheckAndWait(m);
        r := Some(temp);
      } else {
        r := None;
      }
    }

    /** `main`: take the keyword arguments as the attributes, run `process`, and return
        its result as a 1-tuple. */
    method Invoke(kwargs: Config, m: Machine) returns (out: NodeOutput)
      requires Runnable(kwargs)
      modifies this, nodeClass, m`clock, m`runs
      ensures attrs == kwargs
      ensures var p := ProcessSpec(kwargs, old(nodeClass.lastCallTime), old(m.clock), m.sensor, old(m.runs));
              out == NodeOutput(p.result) && nodeClass.lastCallTime == p.lastCallTime && m.clock == p.clock && m.runs == p.runs
      ensures nodeClass.stamps == old(nodeClass.stamps) + if Rechecks(kwargs, old(nodeClass.lastCallTime), old(m.clock)) then 1 else 0
    {
      attrs := kwargs;
      var r := Process(m);
      out := NodeOutput(r);
    }
  }
}
