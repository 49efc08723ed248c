/** The click handlers registered once FMOD is ready: fixed tempo steps,
    fixed seek steps, reset, the pitch-shift toggle, play/pause and the file
    input. Each handler is a method over the engine. */
module Controls {
  import opened Tempo
  import opened Page
  import opened Engine

  const SmallChange: real := 0.05
  const LargeChange: real := 0.25
  /** Milliseconds per unit of change: 1000 * 100, the *100 undoing the
      hundredths of SmallChange and LargeChange. */
  const TimeConst: int := 1000 * 100

  /** change * timeConst, in milliseconds. For a change of whole hundredths
      the product is a whole number of milliseconds, so nothing is cut off. */
  function SeekStep(change: real): (ms: int)
    ensures ms as real <= change * TimeConst as real < ms as real + 1.0
    ensures IsHundredth(change) ==> ms as real == change * TimeConst as real
  {
    var k := (change * 100.0).Floor;
    assert IsHundredth(change) ==> change * TimeConst as real == (k * 1000) as real;
    (change * TimeConst as real).Floor
  }

  /** The seek handlers move by 5 s and 25 s; the large step is 25 s (not 30 s). */
  lemma SeekStepValues()
    ensures SeekStep(SmallChange) == 5000 && SeekStep(-SmallChange) == -5000
    ensures SeekStep(LargeChange) == 25000 && SeekStep(-LargeChange) == -25000
    ensures SeekStep(SmallChange) as real == SmallChange * TimeConst as real
    ensures SeekStep(LargeChange) as real == LargeChange * TimeConst as real
  {
  }

  lemma StepsAreHundredths()
    ensures IsHundredth(SmallChange) && IsHundredth(-SmallChange)
    ensures IsHundredth(LargeChange) && IsHundredth(-LargeChange)
  {
    assert SmallChange * 100.0 == 5 as real;
    assert -SmallChange * 100.0 == -5 as real;
    assert LargeChange * 100.0 == 25 as real;
    assert -LargeChange * 100.0 == -25 as real;
  }

  /** A tempo step from a stored tempo lands exactly on the clamped sum. */
  lemma TempoStepExact(t: real, step: real)
    requires IsTempo(t)
    requires step in {SmallChange, -SmallChange, LargeChange, -LargeChange}
    ensures Quantize(t + step) == Clamp(t + step)
  {
    StepsAreHundredths();
    StepIsExact(t, step);
  }

  /** The start of the ready callback: enable the file input (looked up
      without a check), then disable every control until a track loads. */
  method OnEngineReady(engine: AudioEngine) returns (c: Completion)
    modifies engine.doc
    ensures c == (if FileInput in old(engine.doc.disabled) then Normal else Threw)
    ensures c.Threw? ==> engine.doc.disabled == old(engine.doc.disabled)
                         && engine.doc.text == old(engine.doc.text)
    ensures c.Normal? ==>
              engine.doc.disabled == ReadyDisabled(old(engine.doc.disabled)[FileInput := false], false)
              && engine.doc.text == Show(old(engine.doc.text), Status, StatusText(false))
  {
    if FileInput !in engine.doc.disabled {
      return Threw;
    }
    engine.doc.disabled := engine.doc.disabled[FileInput := false];
    engine.ReadyUI(false);
    c := Normal;
  }

  /** readyUI leaves the file input's flag as it was, so the input enabled
      just before stays enabled while the controls are disabled. */
  lemma FileInputStaysEnabled(before: map<ElementId, bool>, flag: bool)
    requires FileInput in before
    ensures FileInput in ReadyDisabled(before, flag)
    ensures ReadyDisabled(before, flag)[FileInput] == before[FileInput]
  {
  }

  method OnSlow(engine: AudioEngine) returns (c: Completion)
    requires engine.Valid()
    modifies engine, engine.currentChannel, engine.pitchShiftDSP, engine.doc
    ensures engine.TempoApplied(old(engine.currentTempo) - SmallChange, c)
    ensures engine.currentTempo == Clamp(old(engine.currentTempo) - SmallChange)
  {
    TempoStepExact(engine.currentTempo, -SmallChange);
    c := engine.SetTempo(engine.currentTempo - SmallChange);
  }

  method OnFast(engine: AudioEngine) returns (c: Completion)
    requires engine.Valid()
    modifies engine, engine.currentChannel, engine.pitchShiftDSP, engine.doc
    ensures engine.TempoApplied(old(engine.currentTempo) + SmallChange, c)
    ensures engine.currentTempo == Clamp(old(engine.currentTempo) + SmallChange)
  {
    TempoStepExact(engine.currentTempo, SmallChange);
    c := engine.SetTempo(engine.currentTempo + SmallChange);
  }

  method OnSlowMax(engine: AudioEngine) returns (c: Completion)
    requires engine.Valid()
    modifies engine, engine.currentChannel, engine.pitchShiftDSP, engine.doc
    ensures engine.TempoApplied(old(engine.currentTempo) - LargeChange, c)
    ensures engine.currentTempo == Clamp(old(engine.currentTempo) - LargeChange)
  {
    TempoStepExact(engine.currentTempo, -LargeChange);
    c := engine.SetTempo(engine.currentTempo - LargeChange);
  }

  method OnFastMax(engine: AudioEngine) returns (c: Completion)
    requires engine.Valid()
    modifies engine, engine.currentChannel, engine.pitchShiftDSP, engine.doc
    ensures engine.TempoApplied(old(engine.currentTempo) + LargeChange, c)
    ensures engine.currentTempo == Clamp(old(engine.currentTempo) + LargeChange)
  {
    TempoStepExact(engine.currentTempo, LargeChange);
    c := engine.SetTempo(engine.currentTempo + LargeChange);
  }

  method OnResetTempo(engine: AudioEngine) returns (c: Completion)
    requires engine.Valid()
    modifies engine, engine.currentChannel, engine.pitchShiftDSP, engine.doc
    ensures engine.TempoApplied(DefaultTempo, c)
    ensures engine.currentTempo == DefaultTempo
  {
    c := engine.SetTempo(DefaultTempo);
    assert DefaultTempo * 100.0 == 100 as real;
    QuantizeFixesTempo(DefaultTempo);
  }

  // The seek handlers.

  method OnRewind(engine: AudioEngine) returns (c: Completion)
    requires engine.Valid()
    modifies engine.currentChannel
    ensures c == (if engine.currentChannel == null then Threw else Normal)
    ensures engine.currentChannel != null ==>
              engine.currentSound == engine.currentChannel.sound
              && engine.currentChannel.positionMs
                 == SeekTarget(old(engine.currentChannel.positionMs), -5000, engine.currentSound.lengthMs)
              && engine.currentChannel.OnlyPositionChanged()
  {
    SeekStepValues();
    c := engine.SeekControl(SeekStep(-SmallChange));
  }

  method OnForward(engine: AudioEngine) returns (c: Completion)
    requires engine.Valid()
    modifies engine.currentChannel
    ensures c == (if engine.currentChannel == null then Threw else Normal)
    ensures engine.currentChannel != null ==>
              engine.currentSound == engine.currentChannel.sound
              && engine.currentChannel.positionMs
                 == SeekTarget(old(engine.currentChannel.positionMs), 5000, engine.currentSound.lengthMs)
              && engine.currentChannel.OnlyPositionChanged()
  {
    SeekStepValues();
    c := engine.SeekControl(SeekStep(SmallChange));
  }

  method OnRewindLarge(engine: AudioEngine) returns (c: Completion)
    requires engine.Valid()
    modifies engine.currentChannel
    ensures c == (if engine.currentChannel == null then Threw else Normal)
    ensures engine.currentChannel != null ==>
              engine.currentSound == engine.currentChannel.sound
              && engine.currentChannel.positionMs
                 == SeekTarget(old(engine.currentChannel.positionMs), -25000, engine.currentSound.lengthMs)
              && engine.currentChannel.OnlyPositionChanged()
  {
    SeekStepValues();
    c := engine.SeekControl(SeekStep(-LargeChange));
  }

  method OnForwardLarge(engine: AudioEngine) returns (c: Completion)
    requires engine.Valid()
    modifies engine.currentChannel
    ensures c == (if engine.currentChannel == null then Threw else Normal)
    ensures engine.currentChannel != null ==>
              engine.currentSound == engine.currentChannel.sound
              && engine.currentChannel.positionMs
                 == SeekTarget(old(engine.currentChannel.positionMs), 25000, engine.currentSound.lengthMs)
              && engine.currentChannel.OnlyPositionChanged()
  {
    SeekStepValues();
    c := engine.SeekControl(SeekStep(LargeChange));
  }

  /** The play button: flip the channel's paused flag (resumeContext is not
      modelled). */
  method OnPlay(engine: AudioEngine) returns (c: Completion)
    modifies engine.currentChannel
    ensures c == (if engine.currentChannel == null then Threw else Normal)
    ensures engine.currentChannel != null ==>
              engine.currentChannel.paused == !old(engine.currentChannel.paused)
              && engine.currentChannel.OnlyPausedChanged()
  {
    if engine.currentChannel == null {
      return Threw;
    }
    var p := engine.currentChannel.paused;
    engine.currentChannel.paused := !p;
    c := Normal;
  }

  /** The file input's change handler: show "Loading..." and start playTrack.
      The status element is dereferenced without a check. */
  method OnFileChosen(engine: AudioEngine, fileChosen: bool) returns (c: Completion)
    requires engine.Valid()
    modifies engine, engine.currentChannel, engine.doc
    ensures engine.Valid()
    ensures c == (if fileChosen && Status !in old(engine.doc.text) then Threw else Normal)
    ensures c.Normal? && fileChosen ==>
              engine.doc.text == old(engine.doc.text)[Status := "Loading..."]
              && engine.currentChannel == null
              && (old(engine.currentChannel) != null ==> old(engine.currentChannel).Stopped())
    ensures !(c.Normal? && fileChosen) ==>
              engine.doc.text == old(engine.doc.text) && engine.currentChannel == old(engine.currentChannel)
              && (engine.currentChannel != null ==> unchanged(engine.currentChannel))
    ensures engine.doc.disabled == old(engine.doc.disabled)
    ensures engine.currentSound == old(engine.currentSound)
    ensures engine.pitchShiftDSP == old(engine.pitchShiftDSP)
    ensures engine.currentTempo == old(engine.currentTempo)
    ensures engine.shiftStatus == old(engine.shiftStatus)
    ensures engine.baseFrequency == old(engine.baseFrequency)
  {
    if !fileChosen {
      return Normal;
    }
    if Status !in engine.doc.text {
      return Threw;
    }
    engine.doc.text := engine.doc.text[Status := "Loading..."];
    engine.PlayTrack();
    c := Normal;
  }
}
