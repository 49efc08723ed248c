/** Client traces over the engine and the handlers. Most start from a page
    with every element present and a 10 s track whose channel reports
    44100 Hz; FlipTwice runs on any engine with a channel and a shifter. */
module Scenarios {
  import opened Tempo
  import opened Page
  import opened Engine
  import opened Controls

  /** A page on which every control and every display exists. */
  method NewPage() returns (doc: Document)
    ensures fresh(doc)
    ensures forall id :: id in ControlIds ==> id in doc.disabled
    ensures Status in doc.text && TempoDisp in doc.text && DspDisp in doc.text
  {
    doc := new Document(map id | id in ControlIds :: true,
                        map[Status := "", TempoDisp := "", DspDisp := ""]);
  }

  /** A fresh engine after loading a 10 s track whose channel reports
      44100 Hz, with the pitch shifter created. */
  method LoadedEngine() returns (engine: AudioEngine)
    ensures fresh(engine) && fresh(engine.doc) && engine.Valid()
    ensures engine.currentChannel != null && fresh(engine.currentChannel)
    ensures engine.pitchShiftDSP != null && fresh(engine.pitchShiftDSP)
    ensures engine.currentSound != null && engine.currentSound.lengthMs == 10000
    ensures engine.currentChannel.dsps == [engine.pitchShiftDSP]
    ensures engine.currentChannel.positionMs == 0 && engine.currentChannel.paused
    ensures engine.currentTempo == 1.0 && !engine.shiftStatus && engine.baseFrequency == 44100.0
    ensures Status in engine.doc.text && TempoDisp in engine.doc.text && DspDisp in engine.doc.text
    ensures engine.doc.text[Status] == "Ready to Play."
    ensures forall id :: id in ControlIds ==> id in engine.doc.disabled && !engine.doc.disabled[id]
    ensures engine.pitchShiftDSP.pitch == 1.0
  {
    var doc := NewPage();
    engine := new AudioEngine(doc);
    engine.LoadAndPlayBuffer(DecodedSound(10000), 44100.0, true);
  }

  /** setTempo(1.25) on a loaded track: 55125 Hz, pitch 0.8, "1.25x", and the
      controls enabled by the load. */
  method SpeedUpLoadedTrack() returns (frequency: real, pitch: real, shown: string, playDisabled: bool)
    ensures frequency == 55125.0 && pitch == 0.8 && shown == "1.25x" && !playDisabled
  {
    var engine := LoadedEngine();
    var doc := engine.doc;
    var c := engine.SetTempo(1.25);
    assert 1.25 * 100.0 == 125 as real;
    QuantizeFixesTempo(1.25);
    TempoTextExamples();
    frequency := engine.currentChannel.frequency;
    pitch := engine.pitchShiftDSP.pitch;
    shown := doc.text[TempoDisp];
    playDisabled := doc.disabled[BtnPlay];
  }

  /** At tempo 0.8 the pitch parameter is 1.25; one flip makes it 1.0 and shows
      "Off", a second flip restores 1.25 and shows "On". */
  method FlipTwiceAtSlowTempo() returns (pitches: seq<real>, labels: seq<string>)
    ensures pitches == [1.25, 1.0, 1.25]
    ensures labels == ["Off", "On"]
  {
    var engine := LoadedEngine();
    var doc := engine.doc;
    var c := engine.SetTempo(0.8);
    assert 0.8 * 100.0 == 80 as real;
    QuantizeFixesTempo(0.8);
    var dsp := engine.pitchShiftDSP;
    var p0 := dsp.pitch;
    assert p0 == 1.25;
    c := engine.ShiftFlip();
    var p1, l1 := dsp.pitch, doc.text[DspDisp];
    assert p1 == 1.0 && l1 == "Off";
    c := engine.ShiftFlip();
    var p2, l2 := dsp.pitch, doc.text[DspDisp];
    assert p2 == 1.25 && l2 == "On";
    pitches := [p0, p1, p2];
    labels := [l1, l2];
  }

  /** Rewinding 5 s from 3 s stops at the start, not at -2 s. */
  method RewindPastStart() returns (position: nat)
    ensures position == 0
  {
    var engine := LoadedEngine();
    engine.currentChannel.positionMs := 3000;  // playback has advanced to 3 s
    var c := OnRewind(engine);
    position := engine.currentChannel.positionMs;
  }

  /** Jumping forward 25 s on a 10 s track stops at its end. */
  method ForwardPastEnd() returns (position: nat)
    ensures position == 10000
  {
    var engine := LoadedEngine();
    var c := OnForwardLarge(engine);
    position := engine.currentChannel.positionMs;
  }

  /** setTempo(3.0) stores the maximum and shows "2.00x". */
  method TempoAboveMaximum() returns (tempo: real, shown: string)
    ensures tempo == 2.0 && shown == "2.00x"
  {
    var engine := LoadedEngine();
    var doc := engine.doc;
    var c := engine.SetTempo(3.0);
    BoundsAreHundredths();
    QuantizeFixesTempo(MaxTempo);
    tempo := engine.currentTempo;
    assert tempo == 2.0;
    TempoTextExamples();
    shown := doc.text[TempoDisp];
  }

  /** Reloading when the new pitch shifter cannot be created keeps the old
      shifter: setTempo then writes to the unit attached to the stopped
      previous channel, and the new channel runs without one. */
  method ReloadWithoutShifter() returns (oldChannelStopped: bool, staleShifter: bool, stalePitch: real, newChain: nat)
    ensures oldChannelStopped && staleShifter && stalePitch * 1.5 == 1.0 && newChain == 0
  {
    var engine := LoadedEngine();
    var first := engine.currentChannel;
    var shifter := engine.pitchShiftDSP;
    assert first.dsps == [shifter];
    engine.PlayTrack();
    assert first.stopped;
    engine.LoadAndPlayBuffer(DecodedSound(20000), 48000.0, false);
    assert engine.pitchShiftDSP == shifter && engine.currentChannel.dsps == [];
    var c := engine.SetTempo(1.5);
    assert 1.5 * 100.0 == 150 as real;
    QuantizeFixesTempo(1.5);
    oldChannelStopped := first.stopped;
    staleShifter := engine.pitchShiftDSP == shifter && shifter in first.dsps;
    stalePitch := shifter.pitch;
    newChain := |engine.currentChannel.dsps|;
  }

  /** A file that does not decode still enables the controls; a tempo button
      then stores the new tempo and throws on the missing channel. */
  method FailedDecodeThenTempo() returns (disabled: map<ElementId, bool>, status: string, c: Completion, tempo: real)
    ensures forall id :: id in ControlIds ==> id in disabled && !disabled[id]
    ensures status == "Ready to Play." && c == Threw && tempo == 1.05
  {
    var engine := LoadedEngine();
    var doc := engine.doc;
    var _ := OnFileChosen(engine, true);
    engine.LoadAndPlayBuffer(DecodeFailed, 44100.0, true);
    disabled := doc.disabled;
    status := doc.text[Status];
    c := OnFast(engine);
    tempo := engine.currentTempo;
  }

  /** Two clicks on the pitch-shift button restore shiftStatus and the tempo,
      and leave the shifter holding the pitch for them. That equals the pitch
      it held before only when that pitch was the one for the current state. */
  method FlipTwice(engine: AudioEngine) returns (c1: Completion, c2: Completion)
    requires engine.Valid() && engine.currentChannel != null && engine.pitchShiftDSP != null
    modifies engine, engine.currentChannel, engine.pitchShiftDSP, engine.doc
    ensures engine.Valid() && c1 == Normal && c2 == Normal
    ensures engine.shiftStatus == old(engine.shiftStatus) && engine.currentTempo == old(engine.currentTempo)
    ensures engine.currentChannel == old(engine.currentChannel) && engine.pitchShiftDSP == old(engine.pitchShiftDSP)
    ensures engine.pitchShiftDSP.pitch == PitchFor(old(engine.shiftStatus), old(engine.currentTempo))
    ensures old(engine.pitchShiftDSP.pitch) == PitchFor(old(engine.shiftStatus), old(engine.currentTempo)) ==>
              engine.pitchShiftDSP.pitch == old(engine.pitchShiftDSP.pitch)
    ensures engine.currentChannel.frequency == ChannelFrequency(engine.baseFrequency, engine.currentTempo)
  {
    c1 := engine.ShiftFlip();
    c2 := engine.ShiftFlip();
  }

  /** Two flips need not restore the pitch: after a tempo click that threw
      (no channel after a failed decode) the stale shifter still holds the
      pitch for 1.0x while 1.05x is stored, and once a reload without a new
      shifter leaves it attached to the engine, two flips write 1/1.05. */
  method StaleShifterAfterFailedDecode() returns (before: real, after: real)
    ensures before == 1.0 && after * 1.05 == 1.0
  {
    var engine := LoadedEngine();
    var shifter := engine.pitchShiftDSP;
    var _ := OnFileChosen(engine, true);
    engine.LoadAndPlayBuffer(DecodeFailed, 44100.0, true);
    var c := OnFast(engine);
    assert engine.currentTempo == 1.05 && shifter.pitch == 1.0;
    var _ := OnFileChosen(engine, true);
    engine.LoadAndPlayBuffer(DecodedSound(10000), 44100.0, false);
    assert engine.pitchShiftDSP == shifter && engine.currentTempo == 1.05;
    before := shifter.pitch;
    var c1, c2 := FlipTwice(engine);
    after := shifter.pitch;
  }
}
