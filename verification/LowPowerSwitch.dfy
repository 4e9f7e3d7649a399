/** The switch between low-power (LPI) and normal (NLPI) operation of the detection
    streams: which streams force NLPI, deferring a switch while a stream buffers or
    while low-latency barge-in keeps NLPI alive, and cancelling a deferred switch.
    A deferring machine is shown to refine one that never defers. */
module LowPowerSwitch {

  type StreamId = nat

  /** A switch that was asked for but not carried out yet. */
  datatype Defer = NoDefer | DeferLpiToNlpi | DeferNlpiToLpi

  /** Seconds by which low-latency barge-in delays a switch back to LPI. */
  const SWITCH_DELAY: int := 5

  /** Platform settings that do not change at run time. */
  datatype Config = Config(nlpiSwitch: bool, lowLatency: bool, transitOnCharging: bool)

  /** What the concurrency rules say about a stream. */
  datatype ConcInfo = ConcInfo(rx: bool, tx: bool, allowed: bool)

  datatype Core = Core(
    useLpi: bool,
    deferred: Defer,
    countdown: int,
    nlpi: set<StreamId>,
    charging: bool,
    voiceUiStreams: nat)
  {
    /** The mode the system is heading for: the pending one if a switch is deferred. */
    predicate Target() {
      match deferred
      case DeferLpiToNlpi => false
      case DeferNlpiToLpi => true
      case NoDefer => useLpi
    }

    /** Charging forces NLPI as long as a VoiceUI stream exists. */
    predicate Forced(c: Config) {
      voiceUiStreams > 0 && charging && c.transitOnCharging
    }
  }

  const INITIAL: Core := Core(true, NoDefer, -1, {}, false, 0)

  /** Everything that can happen to the machine. `buffering` is whether some stream is
      buffering at that moment, `online` whether the sound card is. */
  datatype Event =
    | Concurrent(stream: StreamId, active: bool, info: ConcInfo, buffering: bool)
    | Charging(on: bool, buffering: bool)
    | HandleDeferred(online: bool, buffering: bool)
    | VoiceUiRegistered
    | VoiceUiDeregistered
    | NlpiRegistered(stream: StreamId)  // an ASR stream enters or leaves the set by itself,
    | NlpiDeregistered(stream: StreamId)  // and forces the others to follow
    | ForcedSwitch(active: bool, cardUp: bool, buffering: bool)

  /** A new state, and whether the detection streams were restarted in the new mode. */
  datatype Outcome = Outcome(core: Core, switched: bool)

  // ---------------------------------------------------------------- single operations

  /** The deferral check: the new state, and whether the switch must wait or was cancelled. */
  function CheckDefer(c: Config, s: Core, active: bool, buffering: bool): (r: (Core, bool)) {
    if !active then
      if s.deferred == DeferLpiToNlpi then
        (s.(deferred := NoDefer, countdown := if c.lowLatency then -1 else s.countdown), true)
      else if c.lowLatency && s.voiceUiStreams > 0 then
        (s.(deferred := DeferNlpiToLpi, countdown := SWITCH_DELAY), true)
      else if buffering then
        (s.(deferred := DeferNlpiToLpi), true)
      else
        (s, false)
    else
      if s.deferred == DeferNlpiToLpi then
        (s.(deferred := NoDefer, countdown := if c.lowLatency then -1 else s.countdown), true)
      else if buffering then
        (s.(deferred := DeferLpiToNlpi), true)
      else
        (s, false)
  }

  /** Ask for a switch to `lpi`, deferring, cancelling or carrying it out. */
  function RequestSwitch(c: Config, s: Core, lpi: bool, buffering: bool): Outcome {
    var (s', waits) := CheckDefer(c, s, !lpi, buffering);
    if waits then Outcome(s', false) else Outcome(s'.(useLpi := lpi), true)
  }

  predicate Relevant(c: Config, info: ConcInfo) {
    info.allowed && (info.rx || info.tx) && c.nlpiSwitch
  }

  function OnConcurrent(c: Config, s: Core, stream: StreamId, active: bool,
                        info: ConcInfo, buffering: bool): Outcome
  {
    if !Relevant(c, info) then Outcome(s, false)
    else if active then
      var s1 := s.(nlpi := s.nlpi + {stream});
      if s1.nlpi != {} && s.Target() then RequestSwitch(c, s1, false, buffering) else Outcome(s1, false)
    else
      var s1 := s.(nlpi := s.nlpi - {stream});
      if s1.nlpi == {} && !s1.Forced(c) then RequestSwitch(c, s1, true, buffering) else Outcome(s1, false)
  }

  function OnCharging(c: Config, s: Core, on: bool, buffering: bool): Outcome {
    if !c.transitOnCharging || s.charging == on then Outcome(s, false)
    else
      var s1 := s.(charging := on);
      if s1.voiceUiStreams == 0 then Outcome(s1, false)
      else if on && s1.Target() then RequestSwitch(c, s1, false, buffering)
      else if !on && !s1.Target() && s1.nlpi == {} then RequestSwitch(c, s1, true, buffering)
      else Outcome(s1, false)
  }

  function OnHandleDeferred(s: Core, online: bool, buffering: bool): Outcome {
    if !online || buffering || s.deferred == NoDefer then Outcome(s, false)
    else Outcome(s.(useLpi := s.deferred == DeferNlpiToLpi, deferred := NoDefer), true)
  }

  /** A VoiceUI stream appears; only the first one can force a switch. */
  function OnVoiceUiRegistered(c: Config, s: Core): Outcome {
    var s1 := s.(voiceUiStreams := s.voiceUiStreams + 1);
    if s1.voiceUiStreams == 1 && s.charging && c.transitOnCharging && s.useLpi
    then Outcome(s1.(useLpi := false), true)
    else Outcome(s1, false)
  }

  function OnVoiceUiDeregistered(c: Config, s: Core): Outcome {
    if s.voiceUiStreams == 0 then Outcome(s, false)
    else
      var s1 := s.(voiceUiStreams := s.voiceUiStreams - 1);
      if s1.voiceUiStreams == 0 && s.charging && c.transitOnCharging && !s.useLpi && s.nlpi == {}
      then Outcome(s1.(useLpi := true), true)
      else Outcome(s1, false)
  }

  /** The streams are restarted although the mode in force stays what it is. */
  function OnForcedSwitch(c: Config, s: Core, active: bool, cardUp: bool, buffering: bool): Outcome {
    if !cardUp then Outcome(s, false)
    else
      var (s', waits) := CheckDefer(c, s, active, buffering);
      Outcome(s', !waits)
  }

  function Step(c: Config, s: Core, e: Event): Outcome {
    match e
    case Concurrent(stream, active, info, buffering) => OnConcurrent(c, s, stream, active, info, buffering)
    case Charging(on, buffering) => OnCharging(c, s, on, buffering)
    case HandleDeferred(online, buffering) => OnHandleDeferred(s, online, buffering)
    case VoiceUiRegistered => OnVoiceUiRegistered(c, s)
    case VoiceUiDeregistered => OnVoiceUiDeregistered(c, s)
    case NlpiRegistered(stream) => Outcome(s.(nlpi := s.nlpi + {stream}), false)
    case NlpiDeregistered(stream) => Outcome(s.(nlpi := s.nlpi - {stream}), false)
    case ForcedSwitch(active, cardUp, buffering) => OnForcedSwitch(c, s, active, cardUp, buffering)
  }

  function Run(c: Config, s: Core, es: seq<Event>): Core {
    if es == [] then s else Step(c, Run(c, s, es[..|es| - 1]), es[|es| - 1]).core
  }

  // ---------------------------------------------------------------- the immediate machine

  /** A machine with the same inputs that never defers: every request takes effect at once
      and buffering is ignored. */
  datatype Immediate = Immediate(lpi: bool, nlpi: set<StreamId>, charging: bool, voiceUiStreams: nat)

  const IMMEDIATE_INITIAL: Immediate := Immediate(true, {}, false, 0)

  function ImmediateStep(c: Config, m: Immediate, e: Event): Immediate {
    match e
    case Concurrent(stream, active, info, _) =>
      if !Relevant(c, info) then m
      else if active then m.(nlpi := m.nlpi + {stream}, lpi := false)
      else
        var left := m.nlpi - {stream};
        var forced := m.voiceUiStreams > 0 && m.charging && c.transitOnCharging;
        m.(nlpi := left, lpi := m.lpi || (left == {} && !forced))
    case Charging(on, _) =>
      if !c.transitOnCharging || m.charging == on then m
      else if m.voiceUiStreams == 0 then m.(charging := on)
      else m.(charging := on, lpi := !on && (m.lpi || m.nlpi == {}))
    case HandleDeferred(_, _) => m
    case VoiceUiRegistered =>
      m.(voiceUiStreams := m.voiceUiStreams + 1,
         lpi := m.lpi && !(m.voiceUiStreams == 0 && m.charging && c.transitOnCharging))
    case VoiceUiDeregistered =>
      if m.voiceUiStreams == 0 then m
      else m.(voiceUiStreams := m.voiceUiStreams - 1,
              lpi := m.lpi || (m.voiceUiStreams == 1 && m.charging && c.transitOnCharging && m.nlpi == {}))
    case NlpiRegistered(stream) => m.(nlpi := m.nlpi + {stream}, lpi := false)
    case NlpiDeregistered(stream) =>
      var left := m.nlpi - {stream};
      var forced := m.voiceUiStreams > 0 && m.charging && c.transitOnCharging;
      m.(nlpi := left, lpi := m.lpi || (left == {} && !forced))
    case ForcedSwitch(_, _, _) => m
  }

  function ImmediateRun(c: Config, m: Immediate, es: seq<Event>): Immediate {
    if es == [] then m else ImmediateStep(c, ImmediateRun(c, m, es[..|es| - 1]), es[|es| - 1])
  }

  /** The state of the immediate machine that a state of the deferring machine stands for. */
  function Abstract(s: Core): Immediate {
    Immediate(s.Target(), s.nlpi, s.charging, s.voiceUiStreams)
  }

  // ---------------------------------------------------------------- the invariant

  /** The target is LPI exactly when nothing asks for NLPI, and a pending switch always
      leads away from the mode in force. */
  predicate Consistent(c: Config, s: Core) {
    && (s.Target() <==> s.nlpi == {} && !s.Forced(c))
    && (s.deferred == DeferLpiToNlpi ==> s.useLpi)
    && (s.deferred == DeferNlpiToLpi ==> !s.useLpi)
  }

  /** A stream reported inactive was registered before, VoiceUI streams come and go only while
      no switch is pending, and ASR streams enter the set only when the target is NLPI already,
      leave it only when that leaves a reason for NLPI, and force a switch only when it does not
      turn a pending one around and nobody makes it wait. */
  predicate Bracketed(c: Config, s: Core, e: Event) {
    match e
    case Concurrent(stream, active, info, _) => !active && Relevant(c, info) ==> stream in s.nlpi
    case VoiceUiRegistered => s.deferred == NoDefer
    case VoiceUiDeregistered => s.deferred == NoDefer
    case NlpiRegistered(stream) => !s.Target()
    case NlpiDeregistered(stream) => s.nlpi != {stream} || s.Forced(c)
    case ForcedSwitch(active, cardUp, buffering) =>
      s.deferred == (if active then DeferLpiToNlpi else DeferNlpiToLpi)
      || (s.deferred == NoDefer && !buffering && (active || !c.lowLatency || s.voiceUiStreams == 0))
    case _ => true
  }

  /** Guards of the code's unprotected writes: a deactivation that empties nothing, a VoiceUI
      (de)registration during charging with a switch pending, an ASR stream that enters or
      empties the set without asking for the mode to follow, and a forced switch that defers or
      cancels without looking at the target. */
  predicate Unguarded(c: Config, s: Core, e: Event) {
    match e
    case Concurrent(stream, active, info, buffering) =>
      && !active && Relevant(c, info) && s.nlpi == {} && !s.Forced(c)
      && (s.deferred == NoDefer <==> (c.lowLatency && s.voiceUiStreams > 0) || buffering)
    case VoiceUiRegistered =>
      s.voiceUiStreams == 0 && s.charging && c.transitOnCharging && s.deferred != NoDefer
    case VoiceUiDeregistered =>
      && s.voiceUiStreams == 1 && s.charging && c.transitOnCharging
      && s.deferred == DeferLpiToNlpi && s.nlpi == {}
    case NlpiRegistered(_) => s.Target()
    case NlpiDeregistered(stream) => s.nlpi == {stream} && !s.Forced(c)
    case ForcedSwitch(active, cardUp, buffering) =>
      && cardUp
      && (|| s.deferred == (if active then DeferNlpiToLpi else DeferLpiToNlpi)
          || (s.deferred == NoDefer && (buffering || (!active && c.lowLatency && s.voiceUiStreams > 0))))
    case _ => false
  }

  /** In a consistent state, a step keeps consistency exactly when it is not one of the
      unguarded ones. */
  lemma StepConsistentIff(c: Config, s: Core, e: Event)
    requires Consistent(c, s)
    ensures Consistent(c, Step(c, s, e).core) <==> !Unguarded(c, s, e)
  {
    if e.Concurrent? || e.NlpiRegistered? {
      assert e.stream in s.nlpi + {e.stream};
    }
  }

  lemma BracketedIsGuarded(c: Config, s: Core, e: Event)
    requires Consistent(c, s) && Bracketed(c, s, e)
    ensures !Unguarded(c, s, e)
  {
  }

  /** One step of the deferring machine is one step of the immediate machine. */
  lemma StepRefines(c: Config, s: Core, e: Event)
    requires Consistent(c, s) && !Unguarded(c, s, e)
    ensures Abstract(Step(c, s, e).core) == ImmediateStep(c, Abstract(s), e)
  {
    if e.Concurrent? {
      ConcurrentRefines(c, s, e);
    }
  }

  lemma ConcurrentRefines(c: Config, s: Core, e: Event)
    requires e.Concurrent? && Consistent(c, s) && !Unguarded(c, s, e)
    ensures Abstract(Step(c, s, e).core) == ImmediateStep(c, Abstract(s), e)
  {
    assert e.stream in s.nlpi + {e.stream};
  }

  /** Every step of the run, taken in the state it meets, is guarded. */
  predicate Guarded(c: Config, s: Core, es: seq<Event>) {
    es != [] ==>
      && Guarded(c, s, es[..|es| - 1])
      && !Unguarded(c, Run(c, s, es[..|es| - 1]), es[|es| - 1])
  }

  /** Deferral refines the immediate machine over every guarded run, and the target has
      its closed form in every reachable state. */
  lemma {:induction false} DeferralRefinesImmediate(c: Config, es: seq<Event>)
    requires Guarded(c, INITIAL, es)
    ensures
      var s := Run(c, INITIAL, es);
      && Abstract(s) == ImmediateRun(c, IMMEDIATE_INITIAL, es)
      && Consistent(c, s)
      && (s.deferred == NoDefer ==> (s.useLpi <==> s.nlpi == {} && !s.Forced(c)))
  {
    if es != [] {
      var before := es[..|es| - 1];
      DeferralRefinesImmediate(c, before);
      StepConsistentIff(c, Run(c, INITIAL, before), es[|es| - 1]);
      StepRefines(c, Run(c, INITIAL, before), es[|es| - 1]);
    }
  }

  // ---------------------------------------------------------------- when a switch happens

  predicate Requests(e: Event) {
    e.Concurrent? || e.Charging?
  }

  /** The streams are restarted exactly in these steps: a request that turns the target
      around with nothing pending, nobody buffering and no barge-in delay; or the handling of a
      pending switch while nobody buffers. */
  lemma SwitchedExactly(c: Config, s: Core, e: Event)
    requires Consistent(c, s) && Bracketed(c, s, e)
    requires Requests(e) || e.HandleDeferred?
    ensures
      var o := Step(c, s, e);
      && (o.switched <==>
          && !e.buffering
          && if e.HandleDeferred? then e.online && s.deferred != NoDefer
             else && o.core.Target() != s.Target() && s.deferred == NoDefer
                  && !(o.core.Target() && c.lowLatency && s.voiceUiStreams > 0))
      && (o.switched <==> o.core.useLpi != s.useLpi)
  {
    if e.Concurrent? || e.NlpiRegistered? {
      assert e.stream in s.nlpi + {e.stream};
    }
  }

  /** No step taken while a stream is buffering switches, from any state whatever. */
  lemma NoSwitchWhileBuffering(c: Config, s: Core, e: Event)
    requires (Requests(e) || e.HandleDeferred? || e.ForcedSwitch?) && e.buffering
    ensures Step(c, s, e).core.useLpi == s.useLpi && !Step(c, s, e).switched
  {
  }

  /** A request that turns the target around while a switch is pending cancels that switch
      and changes nothing else about the mode. */
  lemma CancelKeepsMode(c: Config, s: Core, e: Event)
    requires Consistent(c, s) && Bracketed(c, s, e) && Requests(e) && s.deferred != NoDefer
    ensures
      var o := Step(c, s, e);
      if o.core.Target() != s.Target()
      then && o.core.deferred == NoDefer && o.core.useLpi == s.useLpi && !o.switched
           && (c.lowLatency ==> o.core.countdown == -1)
      else o.core.deferred == s.deferred && o.core.useLpi == s.useLpi && !o.switched
  {
    if e.Concurrent? || e.NlpiRegistered? {
      assert e.stream in s.nlpi + {e.stream};
    }
  }

  predicate BracketedRun(c: Config, s: Core, es: seq<Event>) {
    es != [] ==>
      && BracketedRun(c, s, es[..|es| - 1])
      && Bracketed(c, Run(c, s, es[..|es| - 1]), es[|es| - 1])
  }

  /** How often the streams were restarted, not counting forced restarts. */
  function Restarts(c: Config, s: Core, es: seq<Event>): nat {
    if es == [] then 0
    else Restarts(c, s, es[..|es| - 1])
         + if Step(c, Run(c, s, es[..|es| - 1]), es[|es| - 1]).switched && !es[|es| - 1].ForcedSwitch? then 1 else 0
  }

  /** A restart changes the mode, except for a forced one, which never does. */
  lemma SwitchedIsModeChange(c: Config, s: Core, e: Event)
    requires Consistent(c, s) && Bracketed(c, s, e)
    ensures Step(c, s, e).switched && !e.ForcedSwitch? <==> Step(c, s, e).core.useLpi != s.useLpi
  {
    if Requests(e) || e.HandleDeferred? {
      SwitchedExactly(c, s, e);
    }
  }

  lemma {:induction false} BracketedRunConsistent(c: Config, es: seq<Event>)
    requires BracketedRun(c, INITIAL, es)
    ensures Consistent(c, Run(c, INITIAL, es)) && Guarded(c, INITIAL, es)
  {
    if es != [] {
      var before := es[..|es| - 1];
      BracketedRunConsistent(c, before);
      BracketedIsGuarded(c, Run(c, INITIAL, before), es[|es| - 1]);
      StepConsistentIff(c, Run(c, INITIAL, before), es[|es| - 1]);
    }
  }

  /** Over every bracketed run no restart is lost or wasted: the mode in force is the
      initial LPI turned around once per restart. */
  lemma {:induction false} ModeCountsRestarts(c: Config, es: seq<Event>)
    requires BracketedRun(c, INITIAL, es)
    ensures Run(c, INITIAL, es).useLpi <==> Restarts(c, INITIAL, es) % 2 == 0
  {
    if es != [] {
      var before := es[..|es| - 1];
      ModeCountsRestarts(c, before);
      BracketedRunConsistent(c, before);
      SwitchedIsModeChange(c, Run(c, INITIAL, before), es[|es| - 1]);
    }
  }

  /** Handling the deferred switch with the card online and nobody buffering leaves the
      machine in the mode of the immediate one, whatever the run before. */
  lemma HandlingSettles(c: Config, es: seq<Event>)
    requires Guarded(c, INITIAL, es)
    ensures
      var s := Step(c, Run(c, INITIAL, es), HandleDeferred(true, false)).core;
      s.deferred == NoDefer && s.useLpi == ImmediateRun(c, IMMEDIATE_INITIAL, es).lpi
  {
    DeferralRefinesImmediate(c, es);
  }

  /** What becomes of the countdown: a request that turns the target to LPI with nothing pending arms
      it under low-latency barge-in, whether or not a stream is buffering; one that cancels a pending
      switch stops it there; nothing else touches it. */
  lemma CountdownExactly(c: Config, s: Core, e: Event)
    requires Consistent(c, s) && Bracketed(c, s, e) && !e.ForcedSwitch?
    ensures
      var t := Step(c, s, e).core;
      t.countdown ==
        if !Requests(e) || t.Target() == s.Target() then s.countdown
        else if s.deferred != NoDefer then (if c.lowLatency then -1 else s.countdown)
        else if t.Target() && c.lowLatency && s.voiceUiStreams > 0 then 5
        else s.countdown
  {
    if e.Concurrent? {
      assert e.stream in s.nlpi + {e.stream};
    }
  }

  /** And of the pending switch, when the target turns around with nothing pending before. */
  lemma DeferredExactly(c: Config, s: Core, e: Event)
    requires Consistent(c, s) && Bracketed(c, s, e) && Requests(e) && s.deferred == NoDefer
    ensures
      var t := Step(c, s, e).core;
      t.deferred ==
        if t.Target() == s.Target() then NoDefer
        else if t.Target() then (if (c.lowLatency && s.voiceUiStreams > 0) || e.buffering then DeferNlpiToLpi else NoDefer)
        else if e.buffering then DeferLpiToNlpi else NoDefer
  {
    if e.Concurrent? {
      assert e.stream in s.nlpi + {e.stream};
    }
  }

  /** A forced switch, from any state at all: what it defers or cancels, when it arms or stops the
      countdown, and that it restarts the streams exactly if it does neither. */
  lemma ForcedExactly(c: Config, s: Core, active: bool, cardUp: bool, buffering: bool)
    ensures
      var o := Step(c, s, ForcedSwitch(active, cardUp, buffering));
      var opposite := if active then DeferNlpiToLpi else DeferLpiToNlpi;
      var arms := !active && c.lowLatency && s.voiceUiStreams > 0;
      if !cardUp then o == Outcome(s, false)
      else if s.deferred == opposite
      then o == Outcome(s.(deferred := NoDefer, countdown := if c.lowLatency then -1 else s.countdown), false)
      else if arms || buffering
      then o == Outcome(s.(deferred := if active then DeferLpiToNlpi else DeferNlpiToLpi,
                           countdown := if arms then 5 else s.countdown), false)
      else o == Outcome(s, true)
  {
  }

  /** Which streams enter and leave the set: those that the rules allow, that play or record beside
      detection, on a platform that can switch. */
  lemma NlpiSetExactly(c: Config, s: Core, stream: StreamId, active: bool, info: ConcInfo, buffering: bool)
    ensures
      var t := Step(c, s, Concurrent(stream, active, info, buffering)).core;
      && t.nlpi == (if info.allowed && c.nlpiSwitch && (info.rx || info.tx)
                    then (if active then s.nlpi + {stream} else s.nlpi - {stream}) else s.nlpi)
      && t.charging == s.charging && t.voiceUiStreams == s.voiceUiStreams
      && (!(info.allowed && c.nlpiSwitch && (info.rx || info.tx)) ==> t == s)
  {
  }

  // ---------------------------------------------------------------- why the guards are needed

  /** A stream reported inactive that never was active, while a VoiceUI stream buffers,
      leaves a switch to LPI pending in LPI; the next NLPI stream only cancels it and is
      served in LPI. */
  lemma UnregisteredStreamBreaksTarget()
    ensures
      var c := Config(true, false, true);
      var info := ConcInfo(false, true, true);
      var s := Run(c, INITIAL, [Concurrent(7, false, info, true), Concurrent(8, true, info, false)]);
      s.deferred == NoDefer && s.useLpi && s.nlpi == {8}
  {
    var c := Config(true, false, true);
    var info := ConcInfo(false, true, true);
    var es := [Concurrent(7, false, info, true), Concurrent(8, true, info, false)];
    assert es[..1] == [es[0]] && es[..1][..0] == [];
    assert Run(c, INITIAL, es[..1]) == INITIAL.(deferred := DeferNlpiToLpi);
    assert {8} + {} == {8};
  }

  /** An ASR stream: whether its configuration supports LPI, and whether it can do with an LPI
      capture profile. */
  datatype AsrStream = AsrStream(id: StreamId, supportsLpi: bool, lpiProfile: bool)

  /** Only while LPI is in force does such a stream force the others to follow. */
  predicate Forces(s: Core, asr: AsrStream) {
    asr.supportsLpi && s.useLpi && !asr.lpiProfile
  }

  /** What its start does, with nothing in between: it forces a switch if it has to, and enters the
      set as soon as its profile is asked for. */
  function AsrStart(c: Config, s: Core, asr: AsrStream, cardUp: bool, buffering: bool): Outcome {
    if asr.lpiProfile then Outcome(s, false)
    else
      var entered := Step(c, s, NlpiRegistered(asr.id)).core;
      if Forces(s, asr) then Step(c, entered, ForcedSwitch(true, cardUp, buffering)) else Outcome(entered, false)
  }

  /** What its stop does: it leaves the set in any case. */
  function AsrStop(c: Config, s: Core, asr: AsrStream, cardUp: bool, buffering: bool): Outcome {
    var left := Step(c, s, NlpiDeregistered(asr.id)).core;
    if Forces(s, asr) then Step(c, left, ForcedSwitch(false, cardUp, buffering)) else Outcome(left, false)
  }

  /** The start leaves everything in step if and only if the stream can do with an LPI profile; or it
      forces a switch that is pending already or that a buffering stream defers; or it forces none
      and the target is NLPI already. */
  lemma AsrStartConsistentIff(c: Config, s: Core, asr: AsrStream, cardUp: bool, buffering: bool)
    requires Consistent(c, s)
    ensures Consistent(c, AsrStart(c, s, asr, cardUp, buffering).core)
       <==> || asr.lpiProfile
            || (if Forces(s, asr) && cardUp then s.deferred != NoDefer || buffering else !s.Target())
  {
    assert asr.id in s.nlpi + {asr.id};
  }

  /** The stop of a stream in the set leaves everything in step if and only if it cancels a pending
      switch to NLPI exactly when nothing else asks for NLPI. */
  lemma AsrStopConsistentIff(c: Config, s: Core, asr: AsrStream, cardUp: bool, buffering: bool)
    requires Consistent(c, s) && asr.id in s.nlpi
    ensures Consistent(c, AsrStop(c, s, asr, cardUp, buffering).core)
       <==> (Forces(s, asr) && cardUp <==> s.nlpi == {asr.id} && !s.Forced(c))
  {
    assert s.nlpi - {asr.id} == {} <==> s.nlpi == {asr.id};
  }

  /** For a stream that needs NLPI, on a platform where it supports LPI and with the card up, the
      two conditions come down to the mode in force and the pending switch. */
  lemma AsrOnLpiPlatform(c: Config, s: Core, id: StreamId, buffering: bool)
    requires Consistent(c, s)
    ensures
      var asr := AsrStream(id, true, false);
      && (Consistent(c, AsrStart(c, s, asr, true, buffering).core)
          <==> if s.useLpi then s.deferred != NoDefer || buffering else s.deferred == NoDefer)
      && (id in s.nlpi ==>
            (Consistent(c, AsrStop(c, s, asr, true, buffering).core)
             <==> (s.deferred == DeferLpiToNlpi <==> s.nlpi == {id} && !s.Forced(c))))
  {
    AsrStartConsistentIff(c, s, AsrStream(id, true, false), true, buffering);
    if id in s.nlpi {
      AsrStopConsistentIff(c, s, AsrStream(id, true, false), true, buffering);
    }
  }

  /** A stream whose configuration does not support LPI never forces a switch, and neither does one
      that can do with an LPI profile. */
  lemma AsrForcesNothing(c: Config, s: Core, asr: AsrStream, cardUp: bool, buffering: bool)
    requires !asr.supportsLpi || asr.lpiProfile || !s.useLpi
    ensures AsrStart(c, s, asr, cardUp, buffering)
         == Outcome(if asr.lpiProfile then s else s.(nlpi := s.nlpi + {asr.id}), false)
    ensures AsrStop(c, s, asr, cardUp, buffering) == Outcome(s.(nlpi := s.nlpi - {asr.id}), false)
  {
  }

  /** An ASR stream that starts while nobody is buffering forces a restart, but needs NLPI and
      is left in LPI with nothing pending. */
  lemma AsrStartStaysInLpi()
    ensures
      var c := Config(true, false, true);
      var s := Run(c, INITIAL, [NlpiRegistered(7)] + [ForcedSwitch(true, true, false)]);
      && s == AsrStart(c, INITIAL, AsrStream(7, true, false), true, false).core
      && s.deferred == NoDefer && s.useLpi && s.nlpi == {7}
  {
    var c := Config(true, false, true);
    var es: seq<Event> := [NlpiRegistered(7)];
    assert [] + es == es && {} + {7} == {7};
    RunStep(c, INITIAL, [], NlpiRegistered(7));
    assert Run(c, INITIAL, es) == INITIAL.(nlpi := {7});
    RunStep(c, INITIAL, es, ForcedSwitch(true, true, false));
  }

  /** The last NLPI stream, an ASR stream, stops in NLPI: it only leaves the set, and the system
      stays in NLPI for nobody. */
  lemma AsrStopStaysInNlpi(asr: AsrStream, cardUp: bool, buffering: bool)
    requires asr.id == 7
    ensures
      var c := Config(true, false, true);
      var before := Run(c, INITIAL, [Concurrent(7, true, ConcInfo(true, false, true), false)]);
      var s := AsrStop(c, before, asr, cardUp, buffering).core;
      && s == Run(c, INITIAL, [Concurrent(7, true, ConcInfo(true, false, true), false)] + [NlpiDeregistered(7)])
      && s.deferred == NoDefer && !s.useLpi && s.nlpi == {} && !s.Forced(c)
  {
    var c, info := Config(true, false, true), ConcInfo(true, false, true);
    var es: seq<Event> := [Concurrent(7, true, info, false)];
    assert [] + es == es && {} + {7} == {7};
    RunStep(c, INITIAL, [], Concurrent(7, true, info, false));
    assert Run(c, INITIAL, es) == INITIAL.(nlpi := {7}, useLpi := false);
    RunStep(c, INITIAL, es, NlpiDeregistered(7));
    assert {7} - {7} == {};
  }

  lemma RunStep(c: Config, s: Core, es: seq<Event>, e: Event)
    ensures Run(c, s, es + [e]) == Step(c, Run(c, s, es), e).core
  {
    assert (es + [e])[..|es|] == es;
  }

  /** Everything up to a switch to LPI pending without any VoiceUI stream, while charging. */
  const LATE_DEFERRAL: seq<Event> :=
    [VoiceUiRegistered] + [Concurrent(1, true, ConcInfo(true, false, true), false)]
    + [Concurrent(1, false, ConcInfo(true, false, true), false)] + [VoiceUiDeregistered] + [Charging(true, false)]

  /** A VoiceUI stream registered while charging with a switch to LPI pending ends up in
      LPI once that switch is handled, although charging forces NLPI. */
  lemma VoiceUiDuringDeferralBreaksTarget()
    ensures
      var c := Config(true, true, true);
      var s := Run(c, INITIAL, LATE_DEFERRAL + [VoiceUiRegistered] + [HandleDeferred(true, false)]);
      s.deferred == NoDefer && s.useLpi && s.Forced(c)
  {
    var c, info := Config(true, true, true), ConcInfo(true, false, true);
    var es1: seq<Event> := [VoiceUiRegistered];
    var es2 := es1 + [Concurrent(1, true, info, false)];
    var es3 := es2 + [Concurrent(1, false, info, false)];
    assert Run(c, INITIAL, es1) == INITIAL.(voiceUiStreams := 1) by {
      RunStep(c, INITIAL, [], VoiceUiRegistered);
      assert [] + es1 == es1;
    }
    RunStep(c, INITIAL, es1, Concurrent(1, true, info, false));
    assert 1 in {} + {1};
    assert Run(c, INITIAL, es2) == Core(false, NoDefer, -1, {1}, false, 1);
    RunStep(c, INITIAL, es2, Concurrent(1, false, info, false));
    assert {1} - {1} == {};
    assert Run(c, INITIAL, es3) == Core(false, DeferNlpiToLpi, SWITCH_DELAY, {}, false, 1);
    RunStep(c, INITIAL, es3, VoiceUiDeregistered);
    RunStep(c, INITIAL, es3 + [VoiceUiDeregistered], Charging(true, false));
    RunStep(c, INITIAL, LATE_DEFERRAL, VoiceUiRegistered);
    RunStep(c, INITIAL, LATE_DEFERRAL + [VoiceUiRegistered], HandleDeferred(true, false));
  }
}
