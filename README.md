# GPU temperature protection: a verified model of the temperature gate

This project models the temperature gate of the ComfyUI "GPU Temperature Protection"
node. When disabled, a run returns nothing and reads nothing. On each enabled run, the
node reads the GPU core temperature. When more than `min_interval` seconds have passed
since the last check, it reads the temperature again. If that reading is above
`sleep_temp`, it sleeps and then polls until one of three things happens: the reading
is at or below `wake_temp`, the optional `max_sleep_time` deadline passes, or the node
is disabled. The timestamp of the last check, `last_call_time`, is a class attribute, so
every instance of the node shares it.

The model has three modules:

- `Environment` (environment.dfy) holds the injected edges. A `SensorOutcome` is one run
  of the sensor tool: a parsed value, a non-zero exit, or any other exception. The sensor
  is a finite history of such outcomes. A `Machine` holds a clock that `Sleep` advances
  and a count of the sensor runs used so far.
- `GpuTemperatureProtection` (gpu_temperature_protection.dfy) holds the node itself.
  - `Config` is the keyword arguments, with the switches kept as the strings "True" and "False".
  - `NodeClass` is the class object that holds the shared `lastCallTime`.
  - `GpuTemperatureProtection` is a node instance. Its methods `GetGpuTemperature`,
    `CheckAndWait`, `Process` and `Invoke` model `get_gpu_temperature`,
    `gpu_temperature_protection`, `process` and `main`.
  - `CheckAndWait` is proved against the specification function `CheckAndWaitSpec`, whose
    polling loop is `Wait`. `Process` and `Invoke` are proved against `ProcessSpec`.
    `GetGpuTemperature` states its result directly.
- `GateProperties` (gate_properties.dfy) holds lemmas that relate several readings,
  configurations or invocations, two worked examples (`CoolingExample`,
  `DeadlineExample`), and a client method (`TwoInvocations`) that calls one node twice.

Two quirks of the source are kept on purpose:

- Both sleeps last `sleep_temp` seconds, not `sleep_time` (lines 48 and 61). The
  `sleep_time` setting has no effect; `SleepTimeAndPrintingIgnored` proves this.
- A `max_sleep_time` of 0 means there is no deadline (line 54).

Because of the first quirk, the source can overshoot a deadline by up to one `sleep_temp`
plus one sensor run. The last guard check that passes (line 54) is followed by a sleep
(line 61) and a sensor run (line 63) before the guard is tested again. On the model's
clock, where a sensor run takes no time, the overshoot is less than one `sleep_temp`
(`InvocationBoundedByDeadline`). The wait ends as soon as a reading is at or below
`wake_temp` (line 53); `NoDeadlineWaitsForFirstCoolReading` proves that it ends at the
first such reading.

## Model

| member | source | states |
|---|---|---|
| GpuTemperatureProtection.Wait | gpu_temperature_protection.py:52-63 | On exit the loop guard is false: the reading is at or below `wakeTemp`, a non-zero deadline has passed, or the node is disabled. Each poll took exactly one reading and slept `sleepTemp` seconds, and the reading in hand is the last one taken. |
| GpuTemperatureProtection.CheckAndWaitSpec | gpu_temperature_protection.py:30-70 | The returned temperature is always the last reading taken, and the clock never runs back. If disabled or debounced (at most `minInterval` since the last check), the gate takes one reading, does not sleep and leaves `lastCallTime` alone. A cool re-check does not sleep and sets `lastCallTime` to the call time. A hot re-check sleeps `sleepTemp` once per later reading and ends cool or past a non-zero deadline. Every re-check sets `lastCallTime` to the time it finished. |
| GpuTemperatureProtection.ProcessSpec | gpu_temperature_protection.py:14-17 | When disabled: no result, no sensor read, no sleep, `lastCallTime` unchanged. When enabled: the result is present and is the last reading taken. |
| GpuTemperatureProtection.NodeClass.constructor | gpu_temperature_protection.py:9 | The shared timestamp starts at the time the class was defined, and nothing has assigned it yet. |
| GpuTemperatureProtection.GpuTemperatureProtection.constructor | gpu_temperature_protection.py:7-8 | The instance takes the keyword arguments as its attributes. |
| GpuTemperatureProtection.GpuTemperatureProtection.GetGpuTemperature | gpu_temperature_protection.py:19-28 | One sensor run is used up. The result is the reported value, or 0 after a process error or any other exception. The one source path that raises (line 25) is not modelled; see "## Left out". |
| GpuTemperatureProtection.GpuTemperatureProtection.CheckAndWait | gpu_temperature_protection.py:30-70 | The result, the shared `lastCallTime`, the clock and the sensor runs used all agree with `CheckAndWaitSpec`. `lastCallTime` is assigned exactly once when the gate re-checks, however many polls it takes, and never otherwise. |
| GpuTemperatureProtection.GpuTemperatureProtection.Process | gpu_temperature_protection.py:14-17 | The result and the new state agree with `ProcessSpec`. When disabled, nothing is read and nothing is assigned. |
| GpuTemperatureProtection.GpuTemperatureProtection.Invoke | gpu_temperature_protection.py:129-132 | The attributes become the keyword arguments. The output is the 1-tuple of what `process` returns, with the new state given by `ProcessSpec`. |
| GateProperties.NoDeadlineWaitsForFirstCoolReading | gpu_temperature_protection.py:52-56 | With `maxSleepTime == 0` and the node enabled, the wait ends only by cooling. It stops at the first reading at or below `wakeTemp`, and every earlier polled reading was above it. |
| GateProperties.WaitStopsAtCoolReading | gpu_temperature_protection.py:52-63 | The wait never polls past a sensor run whose reading is at or below `wakeTemp`. |
| GateProperties.FailedReadEndsInvocation | gpu_temperature_protection.py:21-63 | A failed sensor run after the first reads 0. It neither starts nor prolongs a wait, so the invocation takes no run after it. |
| GateProperties.WaitOvershootsDeadlineByLessThanOneSleep | gpu_temperature_protection.py:52-63 | With a positive deadline, the wait ends, on the model's clock, less than `maxSleepTime + sleepTemp` seconds after the call. |
| GateProperties.InvocationBoundedByDeadline | gpu_temperature_protection.py:37-65 | With a positive deadline, an invocation returns, on the model's clock, less than `maxSleepTime + sleepTemp` seconds after its call, whatever the sensor reports. |
| GateProperties.WaitIgnoresSleepTimeAndPrinting | gpu_temperature_protection.py:57-63 | The polling loop does not depend on `sleepTime` or `printEnabled`. |
| GateProperties.SleepTimeAndPrintingIgnored | gpu_temperature_protection.py:43-63 | A whole invocation does not depend on `sleepTime` or `printEnabled`, because the sleeps use `sleepTemp`. |
| GateProperties.RecheckDebouncesNextCall | gpu_temperature_protection.py:37-68 | After an invocation that re-checked, another invocation at most `minInterval` seconds after it finished takes one reading, does not sleep and leaves the shared timestamp unchanged. |
| GateProperties.CoolingExample | gpu_temperature_protection.py:41-63 | A GPU cooling 95, 90, 88, 85, 80, 50 with thresholds 82 and 52 is polled five times. Each poll sleeps 82 seconds, and the wait ends at 50. |
| GateProperties.DeadlineExample | gpu_temperature_protection.py:48-56 | With a 3-second deadline, the first 82-second sleep already passes it. The wait ends with the GPU still hot. |

## Left out

- The sensor tool call and the parsing of its output (lines 22-23) are not modelled. Each sensor run is given as an outcome that is already parsed or already failed.
- Wall-clock time is not modelled. `time.time()` reads an integer clock, and only sleeps move it, so reading the sensor takes no time. Timestamps are integers, not floats.
- A zero `sleep_temp` with a deadline is not modelled faithfully. The host allows `sleep_temp == 0` with a positive `max_sleep_time`. In the model the clock then never moves during the wait, so the deadline (line 54) never ends it: the wait runs until a cool reading or the end of the sensor history. In the source each sensor run takes real time, so the deadline does end it.
- The cool path's stamp of `call_time` (line 68) cannot be told apart from a fresh `time.time()` in the model, because no time passes between the call and the stamp. So "every re-check sets `lastCallTime` to the time it finished" (`CheckAndWaitSpec`) and `RecheckDebouncesNextCall` hold on the model's clock only. On a real clock, the cool path stamps the earlier call time, not the finish time.
- WaitOvershootsDeadlineByLessThanOneSleep and InvocationBoundedByDeadline hold on the model's clock only. There a sensor run takes no time, so a positive deadline is overshot by less than one `sleep_temp`. In the source, the sleep after the last passing guard check (lines 54, 61) is followed by a sensor run (line 63), which takes real time. So the real overshoot is bounded by one `sleep_temp` plus one sensor run. When `sleep_temp == 0`, the real overshoot is up to one sensor run, not 0.
- An endless wait is not modelled. In the source, a sensor that stays hot with no deadline keeps the loop running forever. The model's sensor history is finite, and a run past its end counts as a failed read (0), which ends the wait.
- The gate requires `sleep_temp >= 0` and `wake_temp >= 0` (`Runnable`). The host's widgets guarantee both (lines 106-120). A negative sleep would raise in the runtime. A negative `wake_temp` would let failed reads keep the wait going.
- GetGpuTemperature: returns 0 for every non-zero exit of the sensor tool. At line 25 the handler decodes the tool's output as UTF-8. If that output is not valid UTF-8, the decode raises inside the handler. The sibling `except Exception` does not catch it, so the error escapes through `process` and `main`. The model does not capture this path, because its sensor outcomes carry no output bytes.
- The `print` diagnostics (lines 27, 33, 46, 59) are output only and are left out. So is the print at line 25, apart from the decode failure above. `printEnabled` is kept as an attribute that changes nothing.
- The widget descriptors in `INPUT_TYPES` (lines 72-122) are host metadata and are left out, apart from the two lower bounds above. So are `RETURN_TYPES`, `FUNCTION`, `OUTPUT_NODE`, `CATEGORY`, `title`, and the two node mapping dictionaries.
- The dynamic attribute injection through `__dict__.update` (lines 8 and 130) becomes an explicit `Config` value. An instance's attributes are replaced as a whole.
- Another thread flipping `enabled` during a wait is not modelled, because the model is sequential. `enabled` stays fixed for the whole call. The loop guard still tests it, as the source does.
