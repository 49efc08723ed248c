/** Fake FMOD objects: plain fields standing for the state the engine keeps
    behind each handle. */
module Fmod {

  /** Defaults FMOD gives a freshly created channel and pitch shifter. */
  const DefaultVolume: real := 1.0
  const DefaultPitch: real := 1.0
  const DefaultFftSize: int := 1024

  /** A decoded sound (createSound). */
  class Sound {
    const lengthMs: nat
    /** Created with LOOP_NORMAL in its mode. */
    const looping: bool

    constructor (lengthMs: nat, looping: bool)
      ensures this.lengthMs == lengthMs && this.looping == looping
    {
      this.lengthMs := lengthMs;
      this.looping := looping;
    }
  }

  /** A pitch-shift DSP unit (createDSPByType(DSP_TYPE_PITCHSHIFT)). */
  class PitchShiftDsp {
    /** Float parameter 0: the pitch scale. */
    var pitch: real
    /** Int parameter 1: the FFT window size. */
    var fftSize: int

    constructor ()
      ensures pitch == DefaultPitch && fftSize == DefaultFftSize
    {
      pitch := DefaultPitch;
      fftSize := DefaultFftSize;
    }
  }

  /** A channel playing one sound (playSound). */
  class Channel {
    const sound: Sound
    var frequency: real
    var positionMs: nat
    var paused: bool
    var volume: real
    var stopped: bool
    /** The channel's DSP chain, head first. */
    var dsps: seq<PitchShiftDsp>

    /** playSound(sound, null, paused, out): the channel starts at the sound's
        beginning, at the output rate the engine reports for it. */
    constructor Play(sound: Sound, nativeFrequency: real, paused: bool)
      ensures this.sound == sound && frequency == nativeFrequency && positionMs == 0
      ensures this.paused == paused && volume == DefaultVolume && !stopped && dsps == []
    {
      this.sound := sound;
      frequency := nativeFrequency;
      positionMs := 0;
      this.paused := paused;
      volume := DefaultVolume;
      stopped := false;
      dsps := [];
    }

    /** Every field except frequency is as it was. */
    twostate predicate OnlyFrequencyChanged()
      reads this
    {
      positionMs == old(positionMs) && paused == old(paused) && volume == old(volume)
      && stopped == old(stopped) && dsps == old(dsps)
    }

    /** Every field except positionMs is as it was. */
    twostate predicate OnlyPositionChanged()
      reads this
    {
      frequency == old(frequency) && paused == old(paused) && volume == old(volume)
      && stopped == old(stopped) && dsps == old(dsps)
    }

    /** stop(): the channel is stopped and every other field is as it was. */
    twostate predicate Stopped()
      reads this
    {
      stopped && frequency == old(frequency) && positionMs == old(positionMs)
      && paused == old(paused) && volume == old(volume) && dsps == old(dsps)
    }

    /** Every field except paused is as it was. */
    twostate predicate OnlyPausedChanged()
      reads this
    {
      frequency == old(frequency) && positionMs == old(positionMs) && volume == old(volume)
      && stopped == old(stopped) && dsps == old(dsps)
    }
  }
}
