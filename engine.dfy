/** The AudioEngine object: tempo, pitch and seek control over the current
    FMOD channel, the load sequence of a new track, and the UI gate. */
module Engine {
  import opened Tempo
  import opened Fmod
  import opened Page

  /** How a call ends: normally, or by a TypeError from dereferencing a
      null channel. */
  datatype Completion = Normal | Threw

  /** What createSound returns for the bytes of the chosen file. */
  datatype Decoded = DecodeFailed | DecodedSound(lengthMs: nat)

  /** Ids of the controls readyUI enables and disables, in its order. */
  const ControlIds: seq<ElementId> := [
    BtnPlay, BtnDsp,
    BtnRw, BtnFw, BtnRw30, BtnFw30,
    BtnSlow, BtnFast, BtnSlowMax, BtnFastMax, BtnResetTempo
  ]

  const LoadedVolume: real := 0.5
  const LoadedFftSize: int := 4096

  /** Text of the status line: "Ready to Play." exactly when the controls are enabled. */
  function StatusText(flag: bool): (s: string)
    ensures s == "Ready to Play." <==> flag
    ensures s == "Processing..." <==> !flag
  {
    if flag then "Ready to Play." else "Processing..."
  }

  /** Text of the pitch-shift display: "Off" exactly when shiftStatus is set. */
  function ShiftText(shiftStatus: bool): (s: string)
    ensures s == "Off" <==> shiftStatus
    ensures s == "On" <==> !shiftStatus
  {
    if shiftStatus then "Off" else "On"
  }

  /** The disabled flags after the first |ids| steps of readyUI's loop. */
  function DisabledAfter(before: map<ElementId, bool>, ids: seq<ElementId>, flag: bool): map<ElementId, bool>
  {
    map id | id in before :: if id in ids then !flag else before[id]
  }

  /** The disabled flags readyUI(flag) leaves: each listed control that is on
      the page gets !flag, every other element keeps its flag. */
  function ReadyDisabled(before: map<ElementId, bool>, flag: bool): (after: map<ElementId, bool>)
    ensures after.Keys == before.Keys
    ensures forall id :: id in ControlIds && id in before ==> after[id] == !flag
    ensures forall id :: id !in ControlIds && id in before ==> after[id] == before[id]
  {
    DisabledAfter(before, ControlIds, flag)
  }

  /** The position seekControl moves to: pos + delta clamped to [0, len]. */
  function SeekTarget(pos: int, delta: int, len: nat): (r: nat)
    ensures r <= len
    ensures 0 <= pos + delta <= len ==> r == pos + delta
    ensures pos + delta <= 0 ==> r == 0
    ensures pos + delta >= len ==> r == len
  {
    var p := pos + delta;
    var low := if p < 0 then 0 else p;
    if low > len then len else low
  }

  lemma SeekTargetExamples()
    ensures SeekTarget(3000, -5000, 10000) == 0
    ensures SeekTarget(8000, 5000, 10000) == 10000
    ensures SeekTarget(3000, 5000, 10000) == 8000
  {
  }

  /** Seeking by a delta and back by its negation returns to the start when
      neither move reaches an end of the track. */
  lemma SeekRoundTrip(pos: nat, delta: int, len: nat)
    requires pos <= len && 0 <= pos + delta <= len
    ensures SeekTarget(SeekTarget(pos, delta, len), -delta, len) == pos
  {
  }

  class AudioEngine {
    const doc: Document
    var currentSound: Sound?
    var currentChannel: Channel?
    var pitchShiftDSP: PitchShiftDsp?
    var shiftStatus: bool
    var baseFrequency: real
    var currentTempo: real

    /** The stored tempo is always a rounded in-range value, and the current
        channel, when there is one, plays the current sound. */
    ghost predicate Valid()
      reads this
    {
      IsTempo(currentTempo) && (currentChannel != null ==> currentChannel.sound == currentSound)
    }

    /** The object's initial field values. */
    constructor (doc: Document)
      ensures Valid() && this.doc == doc
      ensures currentSound == null && currentChannel == null && pitchShiftDSP == null
      ensures !shiftStatus && baseFrequency == 44100.0 && currentTempo == DefaultTempo
    {
      this.doc := doc;
      currentSound, currentChannel, pitchShiftDSP := null, null, null;
      shiftStatus := false;
      baseFrequency := 44100.0;
      currentTempo := DefaultTempo;
      new;
      assert DefaultTempo * 100.0 == 100 as real;
    }

    /** Enables (flag) or disables (!flag) the playback controls and sets the status line. */
    method ReadyUI(flag: bool)
      modifies doc
      ensures doc.disabled == ReadyDisabled(old(doc.disabled), flag)
      ensures doc.text == Show(old(doc.text), Status, StatusText(flag))
    {
      for i := 0 to |ControlIds|
        invariant doc.disabled == DisabledAfter(old(doc.disabled), ControlIds[..i], flag)
        invariant doc.text == old(doc.text)
      {
        var id := ControlIds[i];
        ghost var before := doc.disabled;
        if id in doc.disabled {
          doc.disabled := doc.disabled[id := !flag];
        }
        assert ControlIds[..i + 1] == ControlIds[..i] + [id];
        assert doc.disabled == DisabledAfter(old(doc.disabled), ControlIds[..i + 1], flag);
      }
      assert ControlIds[..|ControlIds|] == ControlIds;
      if Status in doc.text {
        doc.text := doc.text[Status := StatusText(flag)];
      }
    }

    /** What setTempo(multiplier) leaves behind, ending as c says. */
    twostate predicate TempoApplied(multiplier: real, c: Completion)
      reads this, currentChannel, pitchShiftDSP, doc
    {
      && Valid()
      && currentTempo == Quantize(multiplier)
      && currentSound == old(currentSound) && currentChannel == old(currentChannel)
      && pitchShiftDSP == old(pitchShiftDSP)
      && shiftStatus == old(shiftStatus) && baseFrequency == old(baseFrequency)
      && c == (if currentChannel == null then Threw else Normal)
      && (currentChannel != null ==>
            currentChannel.frequency == ChannelFrequency(baseFrequency, currentTempo)
            && currentChannel.OnlyFrequencyChanged())
      && (pitchShiftDSP != null ==>
            pitchShiftDSP.fftSize == old(pitchShiftDSP.fftSize)
            && pitchShiftDSP.pitch == if c.Normal? then PitchFor(shiftStatus, currentTempo)
                                      else old(pitchShiftDSP.pitch))
      && doc.disabled == old(doc.disabled)
      && doc.text == if c.Normal? then Show(old(doc.text), TempoDisp, TempoText(currentTempo))
                     else old(doc.text)
    }

    /** Stores the clamped, rounded tempo, then drives the channel frequency,
        the pitch shifter and the tempo display from it. The tempo is stored
        before the channel is touched, so without a channel the call throws
        with the new tempo already in place. */
    method SetTempo(multiplier: real) returns (c: Completion)
      requires Valid()
      modifies this, currentChannel, pitchShiftDSP, doc
      ensures TempoApplied(multiplier, c)
    {
      var m := multiplier;
      if m < MinTempo { m := MinTempo; }
      if m > MaxTempo { m := MaxTempo; }
      assert m == Clamp(multiplier);
      m := RoundHalfUp(m);
      assert m == Quantize(multiplier);
      currentTempo := m;
      if currentChannel == null {
        return Threw;
      }
      currentChannel.frequency := ChannelFrequency(baseFrequency, m);
      if pitchShiftDSP != null {
        pitchShiftDSP.pitch := PitchFor(shiftStatus, m);
      }
      doc.text := Show(doc.text, TempoDisp, TempoText(m));
      c := Normal;
      assert Valid();
      assert currentChannel.OnlyFrequencyChanged();
      assert pitchShiftDSP != null ==> pitchShiftDSP.fftSize == old(pitchShiftDSP.fftSize);
      assert pitchShiftDSP != null ==> pitchShiftDSP.pitch == PitchFor(shiftStatus, currentTempo);
      assert doc.text == Show(old(doc.text), TempoDisp, TempoText(currentTempo));
    }

    /** Flips shiftStatus, shows it, and re-applies the current tempo. */
    method ShiftFlip() returns (c: Completion)
      requires Valid()
      modifies this, currentChannel, pitchShiftDSP, doc
      ensures Valid()
      ensures shiftStatus == !old(shiftStatus) && currentTempo == old(currentTempo)
      ensures currentSound == old(currentSound) && currentChannel == old(currentChannel)
      ensures pitchShiftDSP == old(pitchShiftDSP) && baseFrequency == old(baseFrequency)
      ensures c == (if currentChannel == null then Threw else Normal)
      ensures currentChannel != null ==>
                currentChannel.frequency == ChannelFrequency(baseFrequency, currentTempo)
                && currentChannel.OnlyFrequencyChanged()
      ensures pitchShiftDSP != null ==>
                pitchShiftDSP.fftSize == old(pitchShiftDSP.fftSize)
                && pitchShiftDSP.pitch == if c.Normal? then PitchFor(shiftStatus, currentTempo)
                                          else old(pitchShiftDSP.pitch)
      ensures doc.disabled == old(doc.disabled)
      ensures doc.text == var shown := Show(old(doc.text), DspDisp, ShiftText(shiftStatus));
                          if c.Normal? then Show(shown, TempoDisp, TempoText(currentTempo))
                          else shown
    {
      shiftStatus := !shiftStatus;
      doc.text := Show(doc.text, DspDisp, ShiftText(shiftStatus));
      label Shown:
      QuantizeFixesTempo(currentTempo);
      c := SetTempo(currentTempo);
      assert TempoApplied@Shown(old@Shown(currentTempo), c);
    }

    /** Moves the channel by deltaMs, clamped to the sound's length. */
    method SeekControl(deltaMs: int) returns (c: Completion)
      requires Valid()
      modifies currentChannel
      ensures c == (if currentChannel == null then Threw else Normal)
      ensures currentChannel != null ==>
                currentSound == currentChannel.sound
                && currentChannel.positionMs
                   == SeekTarget(old(currentChannel.positionMs), deltaMs, currentSound.lengthMs)
                && currentChannel.OnlyPositionChanged()
    {
      if currentChannel == null {
        return Threw;
      }
      var pos := currentChannel.positionMs;
      var len := currentSound.lengthMs;
      var newPos := pos + deltaMs;
      if newPos < 0 { newPos := 0; }
      if newPos > len { newPos := len; }
      currentChannel.positionMs := newPos;
      c := Normal;
    }

    /** The synchronous part of playTrack: stop the current channel and drop
        it. Sound and pitch shifter references are kept. */
    method PlayTrack()
      requires Valid()
      modifies this, currentChannel
      ensures Valid() && currentChannel == null
      ensures old(currentChannel) != null ==> old(currentChannel).Stopped()
      ensures currentSound == old(currentSound) && pitchShiftDSP == old(pitchShiftDSP)
      ensures shiftStatus == old(shiftStatus) && baseFrequency == old(baseFrequency)
      ensures currentTempo == old(currentTempo)
    {
      if currentChannel != null {
        currentChannel.stopped := true;
        currentChannel := null;
      }
    }

    /** The state _loadAndPlayBuffer leaves after createSound succeeded. */
    twostate predicate Loaded(lengthMs: nat, nativeFrequency: real, dspCreated: bool)
      reads this, currentChannel, pitchShiftDSP
    {
      && IsTempo(currentTempo)
      && currentSound != null && fresh(currentSound)
      && currentSound.lengthMs == lengthMs && currentSound.looping
      && currentChannel != null && fresh(currentChannel) && currentChannel.sound == currentSound
      && currentChannel.paused && currentChannel.volume == LoadedVolume
      && currentChannel.positionMs == 0 && !currentChannel.stopped
      && baseFrequency == nativeFrequency
      && if dspCreated then
           && pitchShiftDSP != null && fresh(pitchShiftDSP)
           && currentChannel.dsps == [pitchShiftDSP]
           && pitchShiftDSP.fftSize == LoadedFftSize
           && pitchShiftDSP.pitch == PitchFor(shiftStatus, currentTempo)
           && currentChannel.frequency == ChannelFrequency(baseFrequency, currentTempo)
         else
           && pitchShiftDSP == old(pitchShiftDSP)
           && currentChannel.dsps == []
           && currentChannel.frequency == nativeFrequency
    }

    /** _loadAndPlayBuffer: decode the bytes, start a paused channel at half
        volume, take its frequency as the base, attach a pitch shifter and
        apply the tempo when the shifter could be created; then, in every
        case, readyUI(true). The previous sound and shifter are neither
        released nor touched. */
    method LoadAndPlayBuffer(decoded: Decoded, nativeFrequency: real, dspCreated: bool)
      requires Valid()
      modifies this, doc
      ensures Valid()
      ensures shiftStatus == old(shiftStatus) && currentTempo == old(currentTempo)
      ensures decoded.DecodeFailed? ==>
                currentSound == old(currentSound) && currentChannel == old(currentChannel)
                && pitchShiftDSP == old(pitchShiftDSP) && baseFrequency == old(baseFrequency)
      ensures decoded.DecodedSound? ==> Loaded(decoded.lengthMs, nativeFrequency, dspCreated)
      ensures doc.disabled == ReadyDisabled(old(doc.disabled), true)
      ensures doc.text == Show(if decoded.DecodedSound? && dspCreated
                               then Show(old(doc.text), TempoDisp, TempoText(currentTempo))
                               else old(doc.text),
                               Status, StatusText(true))
    {
      if decoded.DecodedSound? {
        var sound := new Sound(decoded.lengthMs, true);
        currentSound := sound;
        var channel := new Channel.Play(sound, nativeFrequency, true);
        currentChannel := channel;
        channel.volume := LoadedVolume;
        baseFrequency := channel.frequency;
        if dspCreated {
          var dsp := new PitchShiftDsp();
          pitchShiftDSP := dsp;
          dsp.fftSize := LoadedFftSize;
          channel.dsps := [dsp] + channel.dsps;
          QuantizeFixesTempo(currentTempo);
          var _ := SetTempo(currentTempo);
        }
      }
      ReadyUI(true);
    }
  }
}
