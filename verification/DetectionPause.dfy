/** Pausing the detection streams while a stream runs that tolerates no concurrency:
    one counter per detection type, a pause on its first increment and a resume when
    it falls back to zero. */
module DetectionPause {

  /** The detection stream types, in the order in which they are handled. */
  datatype Detection = VoiceUi | Acd | Asr | SensorPcm

  const DETECTION_TYPES: seq<Detection> := [VoiceUi, Acd, Asr, SensorPcm]

  /** Calls made into the detection streams and their clients. */
  datatype Effect =
    | Pause(kind: Detection)
    | Resume(kind: Detection)
    | ResourcesAvailable
    | SwitchStreams
    | StartStream(stream: nat)

  datatype Counters = Counters(voiceUi: int, acd: int, asr: int, sensorPcm: int)
  {
    function Get(kind: Detection): int {
      match kind
      case VoiceUi => voiceUi
      case Acd => acd
      case Asr => asr
      case SensorPcm => sensorPcm
    }

    function Set(kind: Detection, n: int): (r: Counters)
      ensures forall k: Detection :: r.Get(k) == if k == kind then n else Get(k)
    {
      match kind
      case VoiceUi => this.(voiceUi := n)
      case Acd => this.(acd := n)
      case Asr => this.(asr := n)
      case SensorPcm => this.(sensorPcm := n)
    }
  }

  const ZERO: Counters := Counters(0, 0, 0, 0)

  /** The counter of one type after an event, and the calls made. */
  function CountStep(n: int, kind: Detection, active: bool): (int, seq<Effect>) {
    if active then (n + 1, if n + 1 == 1 then [Pause(kind)] else [])
    else if n < 0 then (0, [])
    else if n > 0 then (n - 1, if n - 1 == 0 then [Resume(kind)] else [])
    else (0, [])
  }

  /** The counters and the log after handling the given types in order. */
  function Sweep(c: Counters, log: seq<Effect>, kinds: seq<Detection>, active: bool): (Counters, seq<Effect>) {
    if kinds == [] then (c, log)
    else
      var (c', log') := Sweep(c, log, kinds[..|kinds| - 1], active);
      var kind := kinds[|kinds| - 1];
      var (n, calls) := CountStep(c'.Get(kind), kind, active);
      (c'.Set(kind, n), log' + calls)
  }

  /** One event of a stream that tolerates no concurrency. */
  function Disallow(c: Counters, log: seq<Effect>, active: bool): (Counters, seq<Effect>) {
    var (c', log') := Sweep(c, log, DETECTION_TYPES, active);
    (c', if c.voiceUi == 1 && !active then log' + [ResourcesAvailable] else log')
  }

  function Run(events: seq<bool>): (Counters, seq<Effect>) {
    if events == [] then (ZERO, [])
    else
      var (c, log) := Run(events[..|events| - 1]);
      Disallow(c, log, events[|events| - 1])
  }

  // ---------------------------------------------------------------- properties

  datatype Phase = Running | Paused | Broken

  /** Whether a log pauses and resumes a type strictly in turn, and where it ends. */
  function PhaseOf(log: seq<Effect>, kind: Detection): Phase {
    if log == [] then Running
    else
      var before := PhaseOf(log[..|log| - 1], kind);
      match log[|log| - 1]
      case Pause(k) => if k != kind then before else if before == Running then Paused else Broken
      case Resume(k) => if k != kind then before else if before == Paused then Running else Broken
      case _ => before
  }

  function Occurrences(log: seq<Effect>, e: Effect): nat {
    multiset(log)[e]
  }

  lemma PhaseOfAppend(log: seq<Effect>, e: Effect, kind: Detection)
    ensures PhaseOf(log + [e], kind) ==
      match e
      case Pause(k) =>
        if k != kind then PhaseOf(log, kind) else if PhaseOf(log, kind) == Running then Paused else Broken
      case Resume(k) =>
        if k != kind then PhaseOf(log, kind) else if PhaseOf(log, kind) == Paused then Running else Broken
      case _ => PhaseOf(log, kind)
  {
    assert (log + [e])[..|log|] == log;
  }

  predicate Matches(c: Counters, log: seq<Effect>, kind: Detection) {
    c.Get(kind) >= 0 && PhaseOf(log, kind) == if c.Get(kind) > 0 then Paused else Running
  }

  /** Stepping the counter of one type keeps every type in turn and tells nobody. */
  lemma CallKeepsTurns(c: Counters, log: seq<Effect>, k: Detection, active: bool, kind: Detection)
    requires Matches(c, log, kind)
    ensures
      var (n, calls) := CountStep(c.Get(k), k, active);
      && Matches(c.Set(k, n), log + calls, kind)
      && Occurrences(calls, ResourcesAvailable) == 0
      && Occurrences(calls, Resume(kind)) == if k == kind && c.Get(k) == 1 && !active then 1 else 0
  {
    PhaseOfAppend(log, if active then Pause(k) else Resume(k), kind);
    assert log + [] == log;
  }

  /** Handling distinct types steps the counter of each of them once and keeps pauses and
      resumes in turn. */
  lemma {:induction false} SweepKeepsTurns(c: Counters, log: seq<Effect>, kinds: seq<Detection>, active: bool, kind: Detection)
    requires forall i, j :: 0 <= i < j < |kinds| ==> kinds[i] != kinds[j]
    requires Matches(c, log, kind)
    ensures
      var (c', log') := Sweep(c, log, kinds, active);
      && Matches(c', log', kind)
      && c'.Get(kind) == (if kind in kinds then CountStep(c.Get(kind), kind, active).0 else c.Get(kind))
      && Occurrences(log', ResourcesAvailable) == Occurrences(log, ResourcesAvailable)
      && Occurrences(log', Resume(kind)) == Occurrences(log, Resume(kind))
         + if kind in kinds && c.Get(kind) == 1 && !active then 1 else 0
  {
    if kinds != [] {
      var before, k := kinds[..|kinds| - 1], kinds[|kinds| - 1];
      SweepKeepsTurns(c, log, before, active, kind);
      assert kinds == before + [k];
      var (c1, log1) := Sweep(c, log, before, active);
      CallKeepsTurns(c1, log1, k, active, kind);
    }
  }

  predicate InTurn(c: Counters, log: seq<Effect>, kind: Detection) {
    c.Get(kind) == c.voiceUi && Matches(c, log, kind)
  }

  predicate ToldOften(log: seq<Effect>) {
    Occurrences(log, ResourcesAvailable) == Occurrences(log, Resume(VoiceUi))
  }

  lemma SweepAllKeepsTurns(c: Counters, log: seq<Effect>, active: bool, kind: Detection)
    requires InTurn(c, log, kind) && InTurn(c, log, VoiceUi)
    ensures
      var (c', log') := Sweep(c, log, DETECTION_TYPES, active);
      && InTurn(c', log', kind)
      && Occurrences(log', ResourcesAvailable) == Occurrences(log, ResourcesAvailable)
      && Occurrences(log', Resume(VoiceUi)) == Occurrences(log, Resume(VoiceUi)) + if c.voiceUi == 1 && !active then 1 else 0
  {
    DetectionTypesComplete(kind);
    DetectionTypesComplete(VoiceUi);
    SweepKeepsTurns(c, log, DETECTION_TYPES, active, kind);
    SweepKeepsTurns(c, log, DETECTION_TYPES, active, VoiceUi);
  }

  lemma DisallowKeepsTurns(c: Counters, log: seq<Effect>, active: bool, kind: Detection)
    requires InTurn(c, log, kind) && InTurn(c, log, VoiceUi) && ToldOften(log)
    ensures
      var (c', log') := Disallow(c, log, active);
      InTurn(c', log', kind) && ToldOften(log')
  {
    SweepAllKeepsTurns(c, log, active, kind);
    PhaseOfAppend(Sweep(c, log, DETECTION_TYPES, active).1, ResourcesAvailable, kind);
  }

  /** Over every sequence of events: the four counters stay equal and non-negative, each
      type is paused and resumed strictly in turn and is paused exactly while its counter
      is positive, and clients learn of free resources exactly as often as VoiceUI resumes. */
  lemma {:induction false} PausesAndResumesInTurn(events: seq<bool>, kind: Detection)
    ensures
      var (c, log) := Run(events);
      && c.Get(kind) == c.voiceUi >= 0
      && PhaseOf(log, kind) == (if c.voiceUi > 0 then Paused else Running)
      && Occurrences(log, ResourcesAvailable) == Occurrences(log, Resume(VoiceUi))
  {
    if events != [] {
      var (c, log) := Run(events[..|events| - 1]);
      var active := events[|events| - 1];
      PausesAndResumesInTurn(events[..|events| - 1], kind);
      PausesAndResumesInTurn(events[..|events| - 1], VoiceUi);
      DisallowKeepsTurns(c, log, active, kind);
    }
  }

  /** The first event pauses, and the one that ends it resumes, all four types in this order. */
  lemma OrderOfCalls()
    ensures Disallow(ZERO, [], true).1 == [Pause(VoiceUi), Pause(Acd), Pause(Asr), Pause(SensorPcm)]
    ensures Disallow(Counters(1, 1, 1, 1), [], false).1
         == [Resume(VoiceUi), Resume(Acd), Resume(Asr), Resume(SensorPcm), ResourcesAvailable]
  {
    FourInTurn(ZERO, [], true);
    FourInTurn(Counters(1, 1, 1, 1), [], false);
  }

  lemma SweepStep(c: Counters, log: seq<Effect>, kinds: seq<Detection>, kind: Detection, active: bool)
    ensures
      var (c1, log1) := Sweep(c, log, kinds, active);
      var (n, calls) := CountStep(c1.Get(kind), kind, active);
      Sweep(c, log, kinds + [kind], active) == (c1.Set(kind, n), log1 + calls)
  {
    assert (kinds + [kind])[..|kinds|] == kinds;
  }

  /** One event is four calls of the counter step, type after type. */
  lemma FourInTurn(c: Counters, log: seq<Effect>, active: bool)
    ensures
      var (v, vs) := CountStep(c.voiceUi, VoiceUi, active);
      var (a, acds) := CountStep(c.acd, Acd, active);
      var (r, asrs) := CountStep(c.asr, Asr, active);
      var (p, pcms) := CountStep(c.sensorPcm, SensorPcm, active);
      Sweep(c, log, DETECTION_TYPES, active) == (Counters(v, a, r, p), log + vs + acds + asrs + pcms)
  {
    SweepStep(c, log, [], VoiceUi, active);
    assert [] + [VoiceUi] == [VoiceUi];
    SweepStep(c, log, [VoiceUi], Acd, active);
    assert [VoiceUi] + [Acd] == [VoiceUi, Acd];
    SweepStep(c, log, [VoiceUi, Acd], Asr, active);
    assert [VoiceUi, Acd] + [Asr] == [VoiceUi, Acd, Asr];
    SweepStep(c, log, [VoiceUi, Acd, Asr], SensorPcm, active);
    assert [VoiceUi, Acd, Asr] + [SensorPcm] == DETECTION_TYPES;
  }

  lemma DetectionTypesComplete(kind: Detection)
    ensures kind in DETECTION_TYPES
  {
    match kind
    case VoiceUi => assert DETECTION_TYPES[0] == kind;
    case Acd => assert DETECTION_TYPES[1] == kind;
    case Asr => assert DETECTION_TYPES[2] == kind;
    case SensorPcm => assert DETECTION_TYPES[3] == kind;
  }

  /** Clients are told in exactly the steps in which the VoiceUI counter drops from one to
      zero, and then last. */
  lemma ToldWhenLastOneLeaves(events: seq<bool>, active: bool)
    ensures
      var (c, log) := Run(events);
      var (c', log') := Run(events + [active]);
      && (Occurrences(log', ResourcesAvailable) > Occurrences(log, ResourcesAvailable)
          <==> c.voiceUi == 1 && c'.voiceUi == 0)
      && (c.voiceUi == 1 && c'.voiceUi == 0 ==> log'[|log'| - 1..] == [ResourcesAvailable])
  {
    var (c, log) := Run(events);
    assert (events + [active])[..|events|] == events;
    PausesAndResumesInTurn(events, VoiceUi);
    DetectionTypesComplete(VoiceUi);
    SweepKeepsTurns(c, log, DETECTION_TYPES, active, VoiceUi);
  }
}
