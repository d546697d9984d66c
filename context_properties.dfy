/** Vendor-specific context properties for Qualcomm Adreno GPUs.

    A context property list is a sequence of key/value pairs terminated by a
    single 0, as section 4.4 of the OpenCL 1.2 specification prescribes for
    clCreateContext. The Adreno driver understands two extension keys, one for
    a performance hint and one for a priority hint. */
module ContextProperties {
  import opened Wrappers

  /** The performance hint of the public configuration API. */
  datatype GpuPerfHint = PerfDefault | PerfLow | PerfNormal | PerfHigh

  /** The priority hint of the public configuration API. */
  datatype GpuPriorityHint = PriorityDefault | PriorityLow | PriorityNormal | PriorityHigh

  // Keys and values of the cl_qcom_perf_hint extension.
  const CONTEXT_PERF_HINT_QCOM: int := 0x40C2
  const PERF_HINT_HIGH_QCOM: int := 0x40C3
  const PERF_HINT_NORMAL_QCOM: int := 0x40C4
  const PERF_HINT_LOW_QCOM: int := 0x40C5

  // Keys and values of the cl_qcom_priority_hint extension.
  const CONTEXT_PRIORITY_HINT_QCOM: int := 0x40C9
  const PRIORITY_HINT_HIGH_QCOM: int := 0x40CA
  const PRIORITY_HINT_NORMAL_QCOM: int := 0x40CB
  const PRIORITY_HINT_LOW_QCOM: int := 0x40CC

  /** The key/value pair a performance hint contributes (none for the default). */
  function PerfPair(h: GpuPerfHint): (pair: seq<int>)
  {
    match h
    case PerfLow => [CONTEXT_PERF_HINT_QCOM, PERF_HINT_LOW_QCOM]
    case PerfNormal => [CONTEXT_PERF_HINT_QCOM, PERF_HINT_NORMAL_QCOM]
    case PerfHigh => [CONTEXT_PERF_HINT_QCOM, PERF_HINT_HIGH_QCOM]
    case PerfDefault => []
  }

  /** The key/value pair a priority hint contributes (none for the default). */
  function PriorityPair(h: GpuPriorityHint): (pair: seq<int>)
  {
    match h
    case PriorityLow => [CONTEXT_PRIORITY_HINT_QCOM, PRIORITY_HINT_LOW_QCOM]
    case PriorityNormal => [CONTEXT_PRIORITY_HINT_QCOM, PRIORITY_HINT_NORMAL_QCOM]
    case PriorityHigh => [CONTEXT_PRIORITY_HINT_QCOM, PRIORITY_HINT_HIGH_QCOM]
    case PriorityDefault => []
  }

  /** Reads a performance-hint value back; None for a value the extension does not define. */
  function PerfHintOf(v: int): (hint: Option<GpuPerfHint>)
  {
    if v == PERF_HINT_LOW_QCOM then Some(PerfLow)
    else if v == PERF_HINT_NORMAL_QCOM then Some(PerfNormal)
    else if v == PERF_HINT_HIGH_QCOM then Some(PerfHigh)
    else None
  }

  /** Reads a priority-hint value back; None for a value the extension does not define. */
  function PriorityHintOf(v: int): (hint: Option<GpuPriorityHint>)
  {
    if v == PRIORITY_HINT_LOW_QCOM then Some(PriorityLow)
    else if v == PRIORITY_HINT_NORMAL_QCOM then Some(PriorityNormal)
    else if v == PRIORITY_HINT_HIGH_QCOM then Some(PriorityHigh)
    else None
  }

  /** The property list GetAdrenoContextProperties produces for a pair of hints:
      the performance pair if any, then the priority pair if any, then 0. */
  function AdrenoContextProperties(perf: GpuPerfHint, prio: GpuPriorityHint): (props: seq<int>)
    ensures |props| == 1 + (if perf != PerfDefault then 2 else 0) + (if prio != PriorityDefault then 2 else 0)
    ensures props[|props| - 1] == 0
    ensures forall i :: 0 <= i < |props| - 1 ==> props[i] != 0
    ensures perf == PerfDefault && prio == PriorityDefault ==> props == [0]
    ensures perf != PerfDefault <==> CONTEXT_PERF_HINT_QCOM in props
    ensures prio != PriorityDefault <==> CONTEXT_PRIORITY_HINT_QCOM in props
    ensures forall i :: 0 <= i < |props| && props[i] == CONTEXT_PERF_HINT_QCOM ==>
              i + 1 < |props| && PerfHintOf(props[i + 1]) == Some(perf)
    ensures forall i :: 0 <= i < |props| && props[i] == CONTEXT_PRIORITY_HINT_QCOM ==>
              i + 1 < |props| && PriorityHintOf(props[i + 1]) == Some(prio)
    ensures forall i, j ::
              && 0 <= i < |props| && 0 <= j < |props|
              && props[i] == CONTEXT_PERF_HINT_QCOM && props[j] == CONTEXT_PRIORITY_HINT_QCOM
              ==> i < j
  {
    PerfPair(perf) + PriorityPair(prio) + [0]
  }

  /** The imperative builder: appends the hint properties and the 0 terminator
      to the vector it is given, one push_back at a time. */
  method GetAdrenoContextProperties(properties: seq<int>, perf: GpuPerfHint, prio: GpuPriorityHint)
    returns (result: seq<int>)
    ensures result == properties + AdrenoContextProperties(perf, prio)
  {
    result := properties;
    match perf {
      case PerfLow =>
        result := result + [CONTEXT_PERF_HINT_QCOM];
        result := result + [PERF_HINT_LOW_QCOM];
      case PerfNormal =>
        result := result + [CONTEXT_PERF_HINT_QCOM];
        result := result + [PERF_HINT_NORMAL_QCOM];
      case PerfHigh =>
        result := result + [CONTEXT_PERF_HINT_QCOM];
        result := result + [PERF_HINT_HIGH_QCOM];
      case PerfDefault =>
    }
    match prio {
      case PriorityLow =>
        result := result + [CONTEXT_PRIORITY_HINT_QCOM];
        result := result + [PRIORITY_HINT_LOW_QCOM];
      case PriorityNormal =>
        result := result + [CONTEXT_PRIORITY_HINT_QCOM];
        result := result + [PRIORITY_HINT_NORMAL_QCOM];
      case PriorityHigh =>
        result := result + [CONTEXT_PRIORITY_HINT_QCOM];
        result := result + [PRIORITY_HINT_HIGH_QCOM];
      case PriorityDefault =>
    }
    // The properties list is terminated with 0.
    result := result + [0];
  }

  /** What a reader of a zero-terminated property list learns about the two
      hints: it walks the key/value pairs up to the 0 key, starting from the
      defaults. An unterminated list, an unknown key or an unknown value gives None. */
  function DecodeHints(props: seq<int>, perf: GpuPerfHint, prio: GpuPriorityHint)
    : (hints: Option<(GpuPerfHint, GpuPriorityHint)>)
    decreases |props|
  {
    if |props| == 0 then None
    else if props[0] == 0 then Some((perf, prio))
    else if |props| == 1 then None
    else if props[0] == CONTEXT_PERF_HINT_QCOM then
      match PerfHintOf(props[1])
      case None => None
      case Some(h) => DecodeHints(props[2..], h, prio)
    else if props[0] == CONTEXT_PRIORITY_HINT_QCOM then
      match PriorityHintOf(props[1])
      case None => None
      case Some(h) => DecodeHints(props[2..], perf, h)
    else None
  }

  /** Reading the priority part and the terminator leaves the performance hint alone. */
  lemma DecodePriorityTail(perf: GpuPerfHint, prio: GpuPriorityHint)
    ensures DecodeHints(PriorityPair(prio) + [0], perf, PriorityDefault) == Some((perf, prio))
  {
    var tail := PriorityPair(prio) + [0];
    match prio {
      case PriorityDefault =>
      case PriorityLow => assert tail[2..] == [0];
      case PriorityNormal => assert tail[2..] == [0];
      case PriorityHigh => assert tail[2..] == [0];
    }
  }

  /** Round trip: reading the built list back from the defaults yields exactly the hints it was built from. */
  lemma DecodeAdrenoContextProperties(perf: GpuPerfHint, prio: GpuPriorityHint)
    ensures DecodeHints(AdrenoContextProperties(perf, prio), PerfDefault, PriorityDefault) == Some((perf, prio))
  {
    var props := AdrenoContextProperties(perf, prio);
    var tail := PriorityPair(prio) + [0];
    assert props == PerfPair(perf) + tail;
    DecodePriorityTail(perf, prio);
    match perf {
      case PerfDefault =>
      case PerfLow => assert props[2..] == tail;
      case PerfNormal => assert props[2..] == tail;
      case PerfHigh => assert props[2..] == tail;
    }
  }

  /** Distinct hint pairs give distinct property lists. */
  lemma AdrenoContextPropertiesInjective(perf1: GpuPerfHint, prio1: GpuPriorityHint,
                                         perf2: GpuPerfHint, prio2: GpuPriorityHint)
    requires AdrenoContextProperties(perf1, prio1) == AdrenoContextProperties(perf2, prio2)
    ensures perf1 == perf2 && prio1 == prio2
  {
    DecodeAdrenoContextProperties(perf1, prio1);
    DecodeAdrenoContextProperties(perf2, prio2);
  }
}
