/** Profiling: whether the command queue records timestamps, the per-call
    statistics read from an event, and the profiling timer.

    Device timestamps are cl_ulong nanosecond counters; CallStats holds
    int64_t microseconds. */
module Profiling {
  import opened Wrappers

  const U64_LIMIT: nat := 0x1_0000_0000_0000_0000
  const I64_LIMIT: nat := 0x8000_0000_0000_0000

  /** The queue is created with CL_QUEUE_PROFILING_ENABLE when the tuner is
      tuning or MACE_OPENCL_PROFILING is set to a one-character string "1". */
  function ProfilingEnabled(isTuning: bool, profilingEnv: Option<string>): (enabled: bool)
    ensures enabled <==> isTuning || profilingEnv == Some("1")
  {
    if isTuning then true
    else match profilingEnv
      case None => false  // getenv returned nullptr
      case Some(v) =>
        assert |v| == 1 && v[0] == '1' ==> v == "1";
        |v| == 1 && v[0] == '1'
  }

  /** Unsigned division of a nanosecond timestamp by 1000. */
  function ToMicros(nanos: nat): (micros: nat)
    requires nanos < U64_LIMIT
    ensures micros * 1000 <= nanos < micros * 1000 + 1000
    ensures micros < I64_LIMIT
  {
    nanos / 1000
  }

  /** The profiling timestamps the driver reports for a finished event. */
  datatype EventProfile = EventProfile(startNanos: nat, endNanos: nat)

  predicate ValidProfile(e: EventProfile)
  {
    e.startNanos < U64_LIMIT && e.endNanos < U64_LIMIT
  }

  /** Start and end of one executed unit of work, in microseconds. */
  class CallStats {
    var startMicros: int
    var endMicros: int

    constructor ()
      ensures startMicros == 0 && endMicros == 0
    {
      startMicros, endMicros := 0, 0;
    }
  }

  /** Fills the caller's statistics from the event, and does nothing for a null pointer. */
  method GetCallStats(event: EventProfile, stats: CallStats?)
    requires ValidProfile(event)
    modifies stats
    ensures stats != null ==> stats.startMicros == ToMicros(event.startNanos)
    ensures stats != null ==> stats.endMicros == ToMicros(event.endNanos)
  {
    if stats != null {
      stats.startMicros := event.startNanos / 1000;
      stats.endMicros := event.endNanos / 1000;
    }
  }

  /** Measures the device time of submitted work. Timestamps and times are
      real numbers here; the program keeps them as double. */
  class ProfilingTimer {
    var startNanos: real
    var stopNanos: real
    var accumulatedMicros: real

    constructor ()
      ensures startNanos == 0.0 && stopNanos == 0.0 && accumulatedMicros == 0.0
    {
      startNanos, stopNanos, accumulatedMicros := 0.0, 0.0, 0.0;
    }

    /** Reads the event's start and end timestamps, after the queue has finished its work. */
    method StopTiming(event: EventProfile)
      modifies this
      ensures startNanos == event.startNanos as real && stopNanos == event.endNanos as real
      ensures accumulatedMicros == old(accumulatedMicros)
    {
      startNanos := event.startNanos as real;
      stopNanos := event.endNanos as real;
    }

    /** The measured interval, converted from nanoseconds to microseconds. */
    function ElapsedMicros(): (micros: real)
      reads this
      ensures micros * 1000.0 == stopNanos - startNanos
      ensures startNanos <= stopNanos ==> micros >= 0.0
    {
      (stopNanos - startNanos) / 1000.0
    }

    function AccumulatedMicros(): (micros: real)
      reads this
    {
      accumulatedMicros
    }

    /** Stops timing and adds the elapsed interval to the running total. */
    method AccumulateTiming(event: EventProfile)
      modifies this
      ensures startNanos == event.startNanos as real && stopNanos == event.endNanos as real
      ensures AccumulatedMicros() == old(AccumulatedMicros()) + ElapsedMicros()
    {
      StopTiming(event);
      accumulatedMicros := accumulatedMicros + (stopNanos - startNanos) / 1000.0;
    }

    method ClearTiming()
      modifies this
      ensures startNanos == 0.0 && stopNanos == 0.0 && AccumulatedMicros() == 0.0
    {
      startNanos := 0.0;
      stopNanos := 0.0;
      accumulatedMicros := 0.0;
    }
  }

  /** Clearing, then accumulating the intervals [100, 200] and [300, 450],
      gives a total of 0.25 microseconds. */
  method AccumulateTwoIntervals(timer: ProfilingTimer)
    modifies timer
    ensures timer.AccumulatedMicros() == 0.25
  {
    timer.ClearTiming();
    timer.AccumulateTiming(EventProfile(100, 200));
    timer.AccumulateTiming(EventProfile(300, 450));
  }
}
