/** The sound trigger utilities: the file-level state of the LPI/NLPI switch and of the
    pause counters, updated in place by the event handlers. */
module SoundTriggerUtils {
  import opened LowPowerSwitch
  import opened DetectionPause

  /** What a list looks like once every occurrence of `x` is gone. */
  function Without(streams: seq<StreamId>, x: StreamId): seq<StreamId> {
    if streams == [] then []
    else
      var last := streams[|streams| - 1];
      Without(streams[..|streams| - 1], x) + if last == x then [] else [last]
  }

  function Starts(streams: seq<StreamId>): seq<Effect> {
    if streams == [] then []
    else Starts(streams[..|streams| - 1]) + [StartStream(streams[|streams| - 1])]
  }

  /** The call that a carried-out switch makes. */
  function Restart(switched: bool): seq<Effect> {
    if switched then [SwitchStreams] else []
  }

  function CountTx(n: int, active: bool, tx: bool): int {
    if !tx then n else if active then n + 1 else if n > 0 then n - 1 else n
  }

  function CountOf(streams: seq<StreamId>, x: StreamId): nat {
    multiset(streams)[x]
  }

  /** A stream that is taken out is gone altogether, and all others stay as often as they were and in
      their order. */
  lemma {:induction false} WithoutIs(streams: seq<StreamId>, x: StreamId, y: StreamId)
    ensures CountOf(Without(streams, x), y) == if y == x then 0 else CountOf(streams, y)
  {
    if streams != [] {
      var init, last := streams[..|streams| - 1], streams[|streams| - 1];
      assert streams == init + [last];
      WithoutIs(init, x, y);
    }
  }

  lemma {:induction false} WithoutKeepsOrder(one: seq<StreamId>, two: seq<StreamId>, x: StreamId)
    ensures Without(one + two, x) == Without(one, x) + Without(two, x)
    ensures x !in one ==> Without(one, x) == one
  {
    if two == [] {
      assert one + two == one;
      if one != [] {
        var n := |one| - 1;
        WithoutKeepsOrder(one[..n], [], x);
        assert one == one[..n] + [one[n]];
      }
    } else {
      var n := |two| - 1;
      assert (one + two)[..|one| + n] == one + two[..n];
      WithoutKeepsOrder(one, two[..n], x);
    }
  }

  /** The waiting streams are started one by one, each in its turn. */
  lemma {:induction false} StartsInOrder(streams: seq<StreamId>)
    ensures |Starts(streams)| == |streams|
    ensures forall i :: 0 <= i < |streams| ==> Starts(streams)[i] == StartStream(streams[i])
  {
    if streams != [] {
      StartsInOrder(streams[..|streams| - 1]);
    }
  }

  /** A step restarts the streams by one call, made exactly if it switches. */
  lemma RestartIs(switched: bool)
    ensures |Restart(switched)| == if switched then 1 else 0
    ensures SwitchStreams in Restart(switched) <==> switched
  {
  }

  /** The count of Tx concurrency over a run of reports. */
  function TxRun(reports: seq<(bool, bool)>): int {
    if reports == [] then 0
    else
      var (active, tx) := reports[|reports| - 1];
      CountTx(TxRun(reports[..|reports| - 1]), active, tx)
  }

  function TxReports(reports: seq<(bool, bool)>, active: bool): nat {
    if reports == [] then 0
    else TxReports(reports[..|reports| - 1], active) + if reports[|reports| - 1] == (active, true) then 1 else 0
  }

  /** No more Tx streams have ended than have begun. */
  predicate TxBracketed(reports: seq<(bool, bool)>) {
    reports != [] ==>
      TxBracketed(reports[..|reports| - 1]) && TxReports(reports, false) <= TxReports(reports, true)
  }

  /** Over such runs the count is the number of Tx streams that have begun and not ended, and over no
      run does it fall below zero. */
  lemma {:induction false} TxCounted(reports: seq<(bool, bool)>)
    ensures TxRun(reports) >= 0
    ensures TxBracketed(reports) ==> TxRun(reports) == TxReports(reports, true) - TxReports(reports, false)
  {
    if reports != [] {
      TxCounted(reports[..|reports| - 1]);
    }
  }

  class SwitchState {
    const config: Config
    var useLpi: bool
    var deferred: Defer
    var countdown: int
    var nlpi: set<StreamId>
    var charging: bool
    var voiceUiStreams: nat
    var disabledVoiceUi: int
    var disabledAcd: int
    var disabledAsr: int
    var disabledSensorPcm: int
    var txEnabled: int
    var startDeferred: seq<StreamId>
    var log: seq<Effect>  // the calls made into streams and clients, oldest first

    constructor (c: Config)
      ensures config == c && Switch() == INITIAL && Pauses() == ZERO
      ensures txEnabled == 0 && startDeferred == [] && log == []
    {
      config := c;
      useLpi, deferred, countdown, nlpi, charging, voiceUiStreams := true, NoDefer, -1, {}, false, 0;
      disabledVoiceUi, disabledAcd, disabledAsr, disabledSensorPcm, txEnabled := 0, 0, 0, 0, 0;
      startDeferred, log := [], [];
    }

    function Switch(): Core
      reads this
    {
      Core(useLpi, deferred, countdown, nlpi, charging, voiceUiStreams)
    }

    function Pauses(): Counters
      reads this
    {
      Counters(disabledVoiceUi, disabledAcd, disabledAsr, disabledSensorPcm)
    }

    method HandleStreamPauseResume(kind: Detection, active: bool)
      modifies this`disabledVoiceUi, this`disabledAcd, this`disabledAsr, this`disabledSensorPcm, this`log
      ensures
        var (n, calls) := CountStep(old(Pauses()).Get(kind), kind, active);
        Pauses() == old(Pauses()).Set(kind, n) && log == old(log) + calls
    {
      var n := Pauses().Get(kind);
      if active {
        n := n + 1;
        if n == 1 {
          log := log + [Pause(kind)];
        }
      } else if n < 0 {
        n := 0;
      } else if n > 0 {
        n := n - 1;
        if n == 0 {
          log := log + [Resume(kind)];
        }
      }
      match kind
      case VoiceUi => disabledVoiceUi := n;
      case Acd => disabledAcd := n;
      case Asr => disabledAsr := n;
      case SensorPcm => disabledSensorPcm := n;
    }

    method CheckAndUpdateDeferSwitchState(active: bool, buffering: bool) returns (waits: bool)
      modifies this`deferred, this`countdown
      ensures (Switch(), waits) == CheckDefer(config, old(Switch()), active, buffering)
    {
      if !active {
        if deferred == DeferLpiToNlpi {
          deferred := NoDefer;
          if config.lowLatency {
            countdown := -1;
          }
          return true;
        }
        if config.lowLatency && voiceUiStreams > 0 {
          deferred, countdown := DeferNlpiToLpi, SWITCH_DELAY;
          return true;
        }
        if buffering {
          deferred := DeferNlpiToLpi;
          return true;
        }
      } else {
        if deferred == DeferNlpiToLpi {
          deferred := NoDefer;
          if config.lowLatency {
            countdown := -1;
          }
          return true;
        }
        if buffering {
          deferred := DeferLpiToNlpi;
          return true;
        }
      }
      return false;
    }

    /** Defer, cancel or carry out a switch to `lpi`. */
    method SwitchOrDefer(lpi: bool, buffering: bool)
      modifies this`useLpi, this`deferred, this`countdown, this`log
      ensures
        var o := RequestSwitch(config, old(Switch()), lpi, buffering);
        Switch() == o.core && log == old(log) + Restart(o.switched)
    {
      var waits := CheckAndUpdateDeferSwitchState(!lpi, buffering);
      if !waits {
        useLpi := lpi;
        log := log + [SwitchStreams];
      }
    }

    method CountTxConcurrency(active: bool, tx: bool)
      modifies this`txEnabled
      ensures txEnabled == CountTx(old(txEnabled), active, tx)
    {
      if tx {
        if active {
          txEnabled := txEnabled + 1;
        } else if txEnabled > 0 {
          txEnabled := txEnabled - 1;
        }
      }
    }

    /** Keep the set of streams that need NLPI, and say whether a switch to `lpi` is due. */
    method TrackStream(stream: StreamId, active: bool, info: ConcInfo) returns (doSwitch: bool, lpi: bool)
      requires Relevant(config, info)
      modifies this`nlpi
      ensures nlpi == if active then old(nlpi) + {stream} else old(nlpi) - {stream}
      ensures doSwitch <==>
              if active then nlpi != {} && old(Switch()).Target() else nlpi == {} && !Switch().Forced(config)
      ensures doSwitch ==> lpi == !active
    {
      lpi := useLpi;
      if deferred == DeferLpiToNlpi {
        lpi := false;
      } else if deferred == DeferNlpiToLpi {
        lpi := true;
      }
      doSwitch := false;
      if active {
        nlpi := nlpi + {stream};
        if nlpi != {} && lpi {
          doSwitch, lpi := true, false;
        }
      } else {
        nlpi := nlpi - {stream};
        if nlpi == {} && !(voiceUiStreams > 0 && charging && config.transitOnCharging) {
          doSwitch, lpi := true, true;
        }
      }
    }

    /** The loop over the detection types; says whether VoiceUI is about to be resumed. */
    method PauseAllDetectionTypes(active: bool) returns (notify: bool)
      modifies this`disabledVoiceUi, this`disabledAcd, this`disabledAsr, this`disabledSensorPcm, this`log
      ensures (Pauses(), log) == Sweep(old(Pauses()), old(log), DETECTION_TYPES, active)
      ensures notify <==> old(disabledVoiceUi) == 1 && !active
    {
      notify := false;
      var i := 0;
      while i < |DETECTION_TYPES|
        invariant 0 <= i <= |DETECTION_TYPES|
        invariant (Pauses(), log) == Sweep(old(Pauses()), old(log), DETECTION_TYPES[..i], active)
        invariant notify <==> i > 0 && old(disabledVoiceUi) == 1 && !active
      {
        if DETECTION_TYPES[i] == VoiceUi && disabledVoiceUi == 1 && !active {
          notify := true;
        }
        assert DETECTION_TYPES[..i + 1][..i] == DETECTION_TYPES[..i];
        HandleStreamPauseResume(DETECTION_TYPES[i], active);
        i := i + 1;
      }
      assert DETECTION_TYPES[..i] == DETECTION_TYPES;
    }

    method HandleConcurrency(stream: StreamId, active: bool, info: ConcInfo, buffering: bool)
      modifies this
      ensures
        var o := Step(config, old(Switch()), Concurrent(stream, active, info, buffering));
        && Switch() == o.core
        && (if info.allowed
            then Pauses() == old(Pauses()) && log == old(log) + Restart(o.switched)
            else (Pauses(), log) == Disallow(old(Pauses()), old(log), active))
      ensures txEnabled == CountTx(old(txEnabled), active, info.tx)
      ensures startDeferred == old(startDeferred)
    {
      CountTxConcurrency(active, info.tx);
      if info.allowed {
        SwitchForConcurrency(stream, active, info, buffering);
      } else {
        var notify := PauseAllDetectionTypes(active);
        if notify {
          log := log + [ResourcesAvailable];
        }
      }
    }

    method SwitchForConcurrency(stream: StreamId, active: bool, info: ConcInfo, buffering: bool)
      requires info.allowed
      modifies this`useLpi, this`deferred, this`countdown, this`nlpi, this`log
      ensures
        var o := OnConcurrent(config, old(Switch()), stream, active, info, buffering);
        Switch() == o.core && log == old(log) + Restart(o.switched)
    {
      var doSwitch, lpi := false, useLpi;
      if (info.rx || info.tx) && config.nlpiSwitch {
        doSwitch, lpi := TrackStream(stream, active, info);
      }
      if doSwitch {
        SwitchOrDefer(lpi, buffering);
      }
    }

    /** A report of the charging state; repeated reports and platforms without the charging
        rule are ignored. */
    method SetChargingState(on: bool, buffering: bool)
      modifies this`useLpi, this`deferred, this`countdown, this`charging, this`log
      ensures
        var o := Step(config, old(Switch()), Charging(on, buffering));
        Switch() == o.core && log == old(log) + Restart(o.switched)
    {
      if config.transitOnCharging && charging != on {
        charging := on;
        OnChargingStateChange(buffering);
      }
    }

    method OnChargingStateChange(buffering: bool)
      requires config.transitOnCharging
      modifies this`useLpi, this`deferred, this`countdown, this`log
      ensures
        var o := Step(config, old(Switch().(charging := !charging)), Charging(old(charging), buffering));
        Switch() == o.core && log == old(log) + Restart(o.switched)
    {
      var lpi, needSwitch := useLpi, false;
      if deferred == DeferLpiToNlpi {
        lpi := false;
      } else if deferred == DeferNlpiToLpi {
        lpi := true;
      }
      if voiceUiStreams == 0 {
        return;
      }
      if charging && lpi {
        lpi, needSwitch := false, true;
      } else if !charging && !lpi {
        if nlpi == {} {
          lpi, needSwitch := true, true;
        }
      }
      if needSwitch {
        SwitchOrDefer(lpi, buffering);
      }
    }

    /** Carry out a pending switch unless some stream is buffering, then start the streams
        that were waiting for NLPI, each one once and in order. */
    method StHandleDeferredSwitch(online: bool, buffering: bool)
      modifies this`useLpi, this`deferred, this`startDeferred, this`log
      ensures
        var o := Step(config, old(Switch()), HandleDeferred(online, buffering));
        var toNlpi := o.switched && old(deferred) == DeferLpiToNlpi;
        && Switch() == o.core
        && startDeferred == (if toNlpi then [] else old(startDeferred))
        && log == old(log) + Restart(o.switched) + if toNlpi then Starts(old(startDeferred)) else []
    {
      if !online {
        return;
      }
      if !buffering && deferred != NoDefer {
        var toNlpi := deferred == DeferLpiToNlpi;
        useLpi := !toNlpi;
        log := log + [SwitchStreams];
        deferred := NoDefer;
        if toNlpi {
          ghost var calls := log;
          var i := 0;
          while i < |startDeferred|
            invariant 0 <= i <= |startDeferred|
            invariant log == calls + Starts(startDeferred[..i])
            modifies this`log
          {
            assert startDeferred[..i + 1][..i] == startDeferred[..i];
            log := log + [StartStream(startDeferred[i])];
            i := i + 1;
          }
          assert startDeferred[..i] == startDeferred;
          startDeferred := [];
        }
      }
    }

    method OnVoiceUiStreamRegistered()
      modifies this`voiceUiStreams, this`useLpi, this`log
      ensures
        var o := Step(config, old(Switch()), VoiceUiRegistered);
        Switch() == o.core && log == old(log) + Restart(o.switched)
    {
      voiceUiStreams := voiceUiStreams + 1;
      if voiceUiStreams == 1 && charging && config.transitOnCharging && useLpi {
        useLpi := false;
        log := log + [SwitchStreams];
      }
    }

    method OnVoiceUiStreamDeregistered()
      modifies this`voiceUiStreams, this`useLpi, this`log
      ensures
        var o := Step(config, old(Switch()), VoiceUiDeregistered);
        Switch() == o.core && log == old(log) + Restart(o.switched)
    {
      if voiceUiStreams > 0 {
        voiceUiStreams := voiceUiStreams - 1;
        if voiceUiStreams == 0 && charging && config.transitOnCharging && !useLpi && nlpi == {} {
          useLpi := true;
          log := log + [SwitchStreams];
        }
      }
    }

    method RegisterNlpiStream(stream: StreamId)
      modifies this`nlpi
      ensures Switch() == Step(config, old(Switch()), NlpiRegistered(stream)).core
    {
      nlpi := nlpi + {stream};
    }

    method DeregisterNlpiStream(stream: StreamId)
      modifies this`nlpi
      ensures Switch() == Step(config, old(Switch()), NlpiDeregistered(stream)).core
    {
      nlpi := nlpi - {stream};
    }

    /** Defers or cancels a switch like a request, but otherwise only restarts the streams. */
    method ForceSwitchSoundTriggerStreams(active: bool, cardUp: bool, buffering: bool)
      modifies this`deferred, this`countdown, this`log
      ensures
        var o := Step(config, old(Switch()), ForcedSwitch(active, cardUp, buffering));
        Switch() == o.core && log == old(log) + Restart(o.switched)
    {
      if cardUp {
        var waits := CheckAndUpdateDeferSwitchState(active, buffering);
        if !waits {
          log := log + [SwitchStreams];
        }
      }
    }

    method UpdateDeferredStreams(stream: StreamId, active: bool)
      modifies this`startDeferred
      ensures startDeferred ==
              if active then old(startDeferred) + [stream] else Without(old(startDeferred), stream)
    {
      if active {
        startDeferred := startDeferred + [stream];
      } else {
        var kept, i := [], 0;
        while i < |startDeferred|
          invariant 0 <= i <= |startDeferred|
          invariant kept == Without(startDeferred[..i], stream)
        {
          assert startDeferred[..i + 1][..i] == startDeferred[..i];
          if startDeferred[i] != stream {
            kept := kept + [startDeferred[i]];
          }
          i := i + 1;
        }
        assert startDeferred[..i] == startDeferred;
        startDeferred := kept;
      }
    }
  }
}
