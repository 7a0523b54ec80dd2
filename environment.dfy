/** The edges of the temperature gate, injected instead of performed: what the GPU
    sensor tool reports on each run, and a clock that only sleeping moves forward. */
module Environment {

  /** The outcome of one run of the sensor tool
      (`nvidia-smi --query-gpu=temperature.gpu --format=csv,noheader`): a Celsius value
      that parsed, a non-zero exit status, or any other exception (the tool is missing,
      its output is not an integer). */
  datatype SensorOutcome = Reported(celsius: int) | CalledProcessError | OtherException

  /** The k-th run of the sensor in a finite history; a run past its end fails. */
  function SensorAt(trace: seq<SensorOutcome>, k: nat): SensorOutcome
  {
    if k < |trace| then trace[k] else OtherException
  }

  /** The machine the node runs on: the wall clock that `time.time()` reads and
      `time.sleep(d)` advances, and the sensor history with the number of runs used up. */
  class Machine {
    var clock: int
    const sensor: seq<SensorOutcome>
    var runs: nat

    constructor (start: int, sensor: seq<SensorOutcome>)
      ensures clock == start && this.sensor == sensor && runs == 0
    {
      clock := start;
      this.sensor := sensor;
      runs := 0;
    }

    /** `time.time()` */
    function Time(): int
      reads this
    {
      clock
    }

    /** `time.sleep(seconds)`; a negative duration is refused by the runtime. */
    method Sleep(seconds: int)
      requires 0 <= seconds
      modifies this`clock
      ensures clock == old(clock) + seconds
    {
      clock := clock + seconds;
    }

    /** One run of the sensor tool: the next outcome of the history. */
    method QuerySensor() returns (o: SensorOutcome)
      modifies this`runs
      ensures runs == old(runs) + 1
      ensures o == SensorAt(sensor, old(runs))
    {
      o := SensorAt(sensor, runs);
      runs := runs + 1;
    }
  }
}
