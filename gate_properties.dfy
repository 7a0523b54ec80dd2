/** Properties of the temperature gate that relate several readings, several
    configurations or several invocations. */
module GateProperties {
  import opened Environment
  import opened GpuTemperatureProtection

  /** With no deadline (`maxSleepTime == 0`) an enabled wait ends only by cooling, and it
      ends at the first reading at or below `wakeTemp`: every reading it polled before
      the last was above it. */
  lemma {:induction false} NoDeadlineWaitsForFirstCoolReading(cfg: Config, callTime: int, s: Probe, trace: seq<SensorOutcome>)
    requires Runnable(cfg) && cfg.maxSleepTime == 0 && IsTrue(cfg.enabled)
    ensures var r := Wait(cfg, callTime, s, trace);
            r.temp <= cfg.wakeTemp
            && (r.runs > s.runs ==> s.temp > cfg.wakeTemp)
            && forall j :: s.runs <= j < r.runs - 1 ==> ReadingAt(trace, j) > cfg.wakeTemp
    decreases PollsLeft(cfg, trace, s)
  {
    if KeepWaiting(cfg, callTime, s) {
      NoDeadlineWaitsForFirstCoolReading(cfg, callTime, SleepThenRead(cfg, s, trace), trace);
    }
  }

  /** The wait never polls past a reading at or below `wakeTemp`: if the j-th sensor run
      is cool and the wait has not taken it yet, the wait ends having taken at most runs
      up to j. */
  lemma {:induction false} WaitStopsAtCoolReading(cfg: Config, callTime: int, s: Probe, trace: seq<SensorOutcome>, j: nat)
    requires Runnable(cfg) && s.runs <= j && ReadingAt(trace, j) <= cfg.wakeTemp
    ensures Wait(cfg, callTime, s, trace).runs <= j + 1
    decreases PollsLeft(cfg, trace, s)
  {
    if KeepWaiting(cfg, callTime, s) && s.runs < j {
      WaitStopsAtCoolReading(cfg, callTime, SleepThenRead(cfg, s, trace), trace, j);
    }
  }

  /** A failed sensor run reads 0, which is below both thresholds: once an invocation has
      re-checked, a failed run j neither starts a wait (j is the re-check) nor prolongs
      one (j is polled while waiting), so no run after j is ever taken. */
  lemma FailedReadEndsInvocation(cfg: Config, lastCallTime: int, now: int, trace: seq<SensorOutcome>, k: nat, j: nat)
    requires Runnable(cfg) && k < j && !SensorAt(trace, j).Reported?
    ensures CheckAndWaitSpec(cfg, lastCallTime, now, trace, k).runs <= j + 1
  {
    if Rechecks(cfg, lastCallTime, now) && ReadingAt(trace, k + 1) > cfg.sleepTemp && k + 3 <= j {
      WaitStopsAtCoolReading(cfg, now, Probe(ReadingAt(trace, k + 2), now + cfg.sleepTemp, k + 3), trace, j);
    }
  }

  /** With a positive deadline the wait overshoots it by less than one sleep (on the
      model's clock, where a sensor run takes no time). */
  lemma {:induction false} WaitOvershootsDeadlineByLessThanOneSleep(cfg: Config, callTime: int, s: Probe, trace: seq<SensorOutcome>)
    requires Runnable(cfg) && cfg.maxSleepTime > 0
    requires s.clock - callTime < cfg.maxSleepTime + cfg.sleepTemp
    ensures Wait(cfg, callTime, s, trace).clock - callTime < cfg.maxSleepTime + cfg.sleepTemp
    decreases PollsLeft(cfg, trace, s)
  {
    if KeepWaiting(cfg, callTime, s) {
      WaitOvershootsDeadlineByLessThanOneSleep(cfg, callTime, SleepThenRead(cfg, s, trace), trace);
    }
  }

  /** An invocation with a positive deadline returns less than `maxSleepTime + sleepTemp`
      seconds after its call on the model's clock, whatever the sensor reports. */
  lemma InvocationBoundedByDeadline(cfg: Config, lastCallTime: int, now: int, trace: seq<SensorOutcome>, k: nat)
    requires Runnable(cfg) && cfg.maxSleepTime > 0
    ensures CheckAndWaitSpec(cfg, lastCallTime, now, trace, k).clock - now < cfg.maxSleepTime + cfg.sleepTemp
  {
    if Rechecks(cfg, lastCallTime, now) && ReadingAt(trace, k + 1) > cfg.sleepTemp {
      WaitOvershootsDeadlineByLessThanOneSleep(cfg, now, Probe(ReadingAt(trace, k + 2), now + cfg.sleepTemp, k + 3), trace);
    }
  }

  /** The wait does not depend on `sleepTime` or `printEnabled`: the sleeps last
      `sleepTemp` seconds, and printing changes nothing. */
  lemma {:induction false} WaitIgnoresSleepTimeAndPrinting(cfg: Config, callTime: int, s: Probe, trace: seq<SensorOutcome>, sleepTime: int, printEnabled: string)
    requires Runnable(cfg)
    ensures Wait(cfg.(sleepTime := sleepTime, printEnabled := printEnabled), callTime, s, trace)
         == Wait(cfg, callTime, s, trace)
    decreases PollsLeft(cfg, trace, s)
  {
    var cfg' := cfg.(sleepTime := sleepTime, printEnabled := printEnabled);
    assert KeepWaiting(cfg', callTime, s) == KeepWaiting(cfg, callTime, s);
    if KeepWaiting(cfg, callTime, s) {
      assert SleepThenRead(cfg', s, trace) == SleepThenRead(cfg, s, trace);
      WaitIgnoresSleepTimeAndPrinting(cfg, callTime, SleepThenRead(cfg, s, trace), trace, sleepTime, printEnabled);
    }
  }

  /** A whole invocation does not depend on `sleepTime` or `printEnabled`. */
  lemma SleepTimeAndPrintingIgnored(cfg: Config, lastCallTime: int, now: int, trace: seq<SensorOutcome>, k: nat, sleepTime: int, printEnabled: string)
    requires Runnable(cfg)
    ensures CheckAndWaitSpec(cfg.(sleepTime := sleepTime, printEnabled := printEnabled), lastCallTime, now, trace, k)
         == CheckAndWaitSpec(cfg, lastCallTime, now, trace, k)
  {
    WaitIgnoresSleepTimeAndPrinting(cfg, now, Probe(ReadingAt(trace, k + 2), now + cfg.sleepTemp, k + 3), trace, sleepTime, printEnabled);
  }

  /** Debounce across invocations: after an invocation that re-checked, another one at
      most `minInterval` seconds after it finished takes one reading, does not sleep and
      leaves the shared timestamp as it is. */
  lemma RecheckDebouncesNextCall(cfg: Config, lastCallTime: int, now: int, trace: seq<SensorOutcome>, k: nat, later: int)
    requires Runnable(cfg) && Rechecks(cfg, lastCallTime, now)
    requires var r := CheckAndWaitSpec(cfg, lastCallTime, now, trace, k);
             r.clock <= later <= r.clock + cfg.minInterval
    ensures var r := CheckAndWaitSpec(cfg, lastCallTime, now, trace, k);
            CheckAndWaitSpec(cfg, r.lastCallTime, later, trace, r.runs)
            == After(ReadingAt(trace, r.runs), r.lastCallTime, later, r.runs + 1)
  {
  }

  /** A GPU cooling 95, 90, 88, 85, 80, 50 after the first reading, with the default
      thresholds 82 / 52, no deadline and `sleepTime` 1: the wait polls five times, each
      time sleeping 82 seconds, and ends at the first reading not above 52. */
  lemma CoolingExample()
    ensures var cfg := Config("True", "False", 5, 1, 0, 82, 52);
            var trace := [Reported(84), Reported(95), Reported(90), Reported(88), Reported(85), Reported(80), Reported(50)];
            CheckAndWaitSpec(cfg, 0, 100, trace, 0) == After(50, 100 + 5 * 82, 100 + 5 * 82, 7)
  {
    var cfg := Config("True", "False", 5, 1, 0, 82, 52);
    var trace := [Reported(84), Reported(95), Reported(90), Reported(88), Reported(85), Reported(80), Reported(50)];
    assert Wait(cfg, 100, Probe(50, 100 + 5 * 82, 7), trace) == Probe(50, 100 + 5 * 82, 7);
    assert Wait(cfg, 100, Probe(80, 100 + 4 * 82, 6), trace) == Probe(50, 100 + 5 * 82, 7);
    assert Wait(cfg, 100, Probe(85, 100 + 3 * 82, 5), trace) == Probe(50, 100 + 5 * 82, 7);
    assert Wait(cfg, 100, Probe(88, 100 + 2 * 82, 4), trace) == Probe(50, 100 + 5 * 82, 7);
    assert Wait(cfg, 100, Probe(90, 100 + 82, 3), trace) == Probe(50, 100 + 5 * 82, 7);
  }

  /** A GPU that stays hot, with a 3-second deadline: the first sleep already lasts
      `sleepTemp` (82) seconds, past the deadline, so the wait ends after it with the
      reading still hot. */
  lemma DeadlineExample()
    ensures var cfg := Config("True", "False", 5, 1, 3, 82, 52);
            var trace := [Reported(90), Reported(90), Reported(90), Reported(90)];
            CheckAndWaitSpec(cfg, 0, 100, trace, 0) == After(90, 182, 182, 3)
  {
    var cfg := Config("True", "False", 5, 1, 3, 82, 52);
    var trace := [Reported(90), Reported(90), Reported(90), Reported(90)];
    assert Wait(cfg, 100, Probe(90, 182, 3), trace) == Probe(90, 182, 3);
  }

  /** Two invocations of one node two seconds apart on a hot GPU: the first waits, the
      second is debounced and only reads. */
  method TwoInvocations()
  {
    var cls := new NodeClass(0);
    var m := new Machine(100, [Reported(90), Reported(90), Reported(40), Reported(99)]);
    var cfg := Config("True", "False", 5, 1, 0, 82, 52);
    var node := new GpuTemperatureProtection(cfg, cls);
    var out := node.Invoke(cfg, m);
    assert Wait(cfg, 100, Probe(40, 182, 3), m.sensor) == Probe(40, 182, 3);
    assert out == NodeOutput(Some(40)) && cls.lastCallTime == 182 && m.clock == 182;
    m.Sleep(2);
    out := node.Invoke(cfg, m);
    assert out == NodeOutput(Some(99)) && cls.lastCallTime == 182 && m.clock == 184 && cls.stamps == 1;
  }
}
