/** The ASR stream, as far as it enters and leaves the set of NLPI streams and forces the other
    detection streams to follow. */
module StreamAsr {
  import opened LowPowerSwitch
  import opened SoundTriggerUtils

  class StreamASR {
    const id: StreamId
    const supportsLpi: bool
    var lpiProfile: bool  // buffered output, or partial results that LPI can give

    constructor (id: StreamId, supportsLpi: bool, lpiProfile: bool)
      ensures Value() == AsrStream(id, supportsLpi, lpiProfile)
    {
      this.id, this.supportsLpi, this.lpiProfile := id, supportsLpi, lpiProfile;
    }

    function Value(): AsrStream
      reads this
    {
      AsrStream(id, supportsLpi, lpiProfile)
    }

    /** Asking for the profile is enough to enter the set. */
    method GetCurrentCaptureProfile(st: SwitchState)
      modifies st`nlpi
      ensures st.Switch() == if lpiProfile then old(st.Switch()) else Step(st.config, old(st.Switch()), NlpiRegistered(id)).core
    {
      if !lpiProfile {
        st.RegisterNlpiStream(id);
      }
    }

    /** Setting up the engine, and then asking for the profile. */
    method StartRecognition(st: SwitchState, cardUp: bool, buffering: bool)
      modifies st`nlpi, st`deferred, st`countdown, st`log
      ensures
        var o := AsrStart(st.config, old(st.Switch()), Value(), cardUp, buffering);
        st.Switch() == o.core && st.log == old(st.log) + Restart(o.switched)
    {
      if supportsLpi && st.useLpi && !lpiProfile {
        st.RegisterNlpiStream(id);
        st.ForceSwitchSoundTriggerStreams(true, cardUp, buffering);
        assert st.nlpi + {id} == st.nlpi;
      }
      GetCurrentCaptureProfile(st);
    }

    method StopRecognition(st: SwitchState, cardUp: bool, buffering: bool)
      modifies st`nlpi, st`deferred, st`countdown, st`log
      ensures
        var o := AsrStop(st.config, old(st.Switch()), Value(), cardUp, buffering);
        st.Switch() == o.core && st.log == old(st.log) + Restart(o.switched)
    {
      st.DeregisterNlpiStream(id);
      if supportsLpi && st.useLpi && !lpiProfile {
        st.ForceSwitchSoundTriggerStreams(false, cardUp, buffering);
      }
    }
  }
}
