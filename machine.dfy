/** The sketch's global state as one value, and one function per routine giving
    the state that routine leaves behind. The Device class in module Firmware
    performs the same routines step by step and is proved to end in these states;
    the lemmas here state what the routines promise, alone and in sequence. */
module Machine {
  import opened Bytes
  import opened Registers
  import opened Frames
  import opened Commands

  /** Capacity of analogBuffer. */
  const BufferSize := 400
  /** bufferIndex is a byte, so it takes the values 0..255 and then wraps. */
  const CursorRange := 256
  /** The global adcPrescaler: initialised to 2 and never assigned again. */
  const AdcPrescaler: byte := 2
  /** Highest input channel accepted (A0..A5). */
  const MaxChannel: byte := 5
  /** The value a cursor reset stores. */
  const CursorReset: byte := 0

  datatype Settings = Settings(
    prescalerIndex: byte,
    inputChannel: byte,
    useVref: bool,
    triggerMode: bool,
    triggerLevel: byte)

  const InitialSettings := Settings(3, 0, false, false, 128)

  /** Everything the sketch keeps: its globals, the two converter registers, the
      bytes written to the serial link so far and the read position in the bytes
      received from it. */
  datatype State = State(
    buffer: seq<byte>,
    bufferIndex: byte,
    samplingActive: bool,
    samplingPaused: bool,
    settings: Settings,
    adcsra: bv8,
    admux: bv8,
    output: seq<byte>,
    inputPos: nat)

  /** What every routine keeps: stored settings are valid table entries, the paused
      flag is the negation of the active flag, and the slots an 8-bit cursor cannot
      reach hold their start value. */
  ghost predicate Invariant(s: State) {
    && |s.buffer| == BufferSize
    && s.settings.prescalerIndex as int < PrescalerCount
    && s.settings.inputChannel <= MaxChannel
    && s.samplingPaused == !s.samplingActive
    && forall j :: CursorRange <= j < BufferSize ==> s.buffer[j] == 0
  }

  /** The globals as initialised, with both registers at their reset value 0. */
  function Initial(): (s: State)
    ensures Invariant(s)
  {
    State(seq(BufferSize, _ => 0), 0, true, false, InitialSettings, 0, 0, [], 0)
  }

  // ---------------------------------------------------------------------------
  // Acquisition handler

  /** ISR(ADC_vect): while sampling is active the sample goes to the cursor's slot
      and the cursor advances modulo 256; the capacity guard never fails and the
      paused flag is not consulted. */
  function Sampled(s: State, sample: byte): (r: State)
    requires |s.buffer| == BufferSize
    ensures |r.buffer| == BufferSize
    ensures r.(buffer := s.buffer, bufferIndex := s.bufferIndex) == s
    ensures s.samplingActive ==>
      && r.bufferIndex as int == (s.bufferIndex as int + 1) % CursorRange
      && r.buffer[s.bufferIndex as int] == sample
      && forall j :: 0 <= j < BufferSize && j != s.bufferIndex as int ==> r.buffer[j] == s.buffer[j]
    ensures !s.samplingActive ==> r == s
    ensures Invariant(s) ==> Invariant(r)
  {
    if s.samplingActive && (s.bufferIndex as int) < BufferSize then
      s.(buffer := s.buffer[s.bufferIndex as int := sample],
         bufferIndex := ((s.bufferIndex as int + 1) % CursorRange) as byte)
    else
      s
  }

  /** A run of conversions, in order. */
  function AfterSamples(s: State, samples: seq<byte>): (r: State)
    requires |s.buffer| == BufferSize
    ensures |r.buffer| == BufferSize
    ensures r.(buffer := s.buffer, bufferIndex := s.bufferIndex) == s
    ensures !s.samplingActive ==> r == s
    decreases |samples|
  {
    if samples == [] then s
    else Sampled(AfterSamples(s, samples[..|samples| - 1]), samples[|samples| - 1])
  }

  /** The cursor counts conversions modulo 256, so it never reaches 400. */
  lemma {:induction false} SamplesCursor(s: State, samples: seq<byte>)
    requires |s.buffer| == BufferSize && s.samplingActive
    ensures AfterSamples(s, samples).bufferIndex as int == (s.bufferIndex as int + |samples|) % CursorRange
    ensures AfterSamples(s, samples).bufferIndex as int < BufferSize
    decreases |samples|
  {
    if samples != [] {
      var front := samples[..|samples| - 1];
      SamplesCursor(s, front);
      ModuloStep(s.bufferIndex as int + |front|);
    }
  }

  lemma ModuloStep(n: nat)
    ensures (n % CursorRange + 1) % CursorRange == (n + 1) % CursorRange
  {
  }

  /** As long as the cursor does not wrap, samples land in consecutive slots from
      the cursor on and every other slot keeps its value. */
  lemma {:induction false} SamplesInOrder(s: State, samples: seq<byte>, j: nat)
    requires |s.buffer| == BufferSize && s.samplingActive
    requires s.bufferIndex as int + |samples| <= CursorRange
    requires j < BufferSize
    ensures AfterSamples(s, samples).buffer[j] ==
      if s.bufferIndex as int <= j < s.bufferIndex as int + |samples|
      then samples[j - s.bufferIndex as int]
      else s.buffer[j]
    decreases |samples|
  {
    if samples != [] {
      var front := samples[..|samples| - 1];
      SamplesInOrder(s, front, j);
      SamplesCursor(s, front);
    }
  }

  /** Two runs of conversions are one run of both. */
  lemma {:induction false} SamplesCompose(s: State, first: seq<byte>, second: seq<byte>)
    requires |s.buffer| == BufferSize
    ensures AfterSamples(s, first + second) == AfterSamples(AfterSamples(s, first), second)
    decreases |second|
  {
    if second == [] {
      assert first + second == first;
    } else {
      var front := second[..|second| - 1];
      assert (first + second)[..|first + second| - 1] == first + front;
      SamplesCompose(s, first, front);
    }
  }

  /** From a reset cursor, the 257th conversion is not refused: it lands in slot 0
      over the first one, and the cursor stands at 1. */
  lemma WrapOverwritesFirstSample(s: State, samples: seq<byte>)
    requires |s.buffer| == BufferSize && s.samplingActive && s.bufferIndex == 0
    requires |samples| == CursorRange + 1
    ensures AfterSamples(s, samples).bufferIndex == 1
    ensures AfterSamples(s, samples).buffer[0] == samples[CursorRange]
    ensures forall j :: 1 <= j < CursorRange ==> AfterSamples(s, samples).buffer[j] == samples[j]
  {
    var first, last := samples[..CursorRange], samples[CursorRange..];
    assert samples == first + last;
    SamplesCompose(s, first, last);
    var t := AfterSamples(s, first);
    SamplesCursor(s, first);
    assert t.bufferIndex == 0;
    forall j | 1 <= j < CursorRange
      ensures AfterSamples(s, samples).buffer[j] == samples[j]
    {
      SamplesInOrder(s, first, j);
      assert AfterSamples(t, last) == Sampled(AfterSamples(t, []), last[0]);
    }
    assert AfterSamples(t, last) == Sampled(AfterSamples(t, []), last[0]);
  }

  // ---------------------------------------------------------------------------
  // Sampling state machine

  const StartBits: bv8 := Bit(ADEN) | Bit(ADATE) | Bit(ADIE) | Bit(ADSC)

  /** startSampling: clears the paused flag, resets the cursor, switches the
      converter on in auto-trigger mode, starts a conversion, prints a line. */
  function Started(s: State): (r: State)
    ensures !r.samplingPaused && r.bufferIndex == 0
    ensures r.adcsra & StartBits == StartBits && r.adcsra & !StartBits == s.adcsra & !StartBits
    ensures r.output == s.output + StartedLine
    ensures r.(samplingPaused := s.samplingPaused, bufferIndex := s.bufferIndex,
               adcsra := s.adcsra, output := s.output) == s
  {
    s.(samplingPaused := false,
       bufferIndex := 0,
       adcsra := (s.adcsra | Bit(ADEN) | Bit(ADATE) | Bit(ADIE)) | Bit(ADSC),
       output := s.output + StartedLine)
  }

  /** stopSampling: sets the paused flag, clears only ADATE, prints a line. */
  function Stopped(s: State): (r: State)
    ensures r.samplingPaused
    ensures r.adcsra & Bit(ADATE) == 0 && r.adcsra & !Bit(ADATE) == s.adcsra & !Bit(ADATE)
    ensures r.output == s.output + StoppedLine
    ensures r.(samplingPaused := s.samplingPaused, adcsra := s.adcsra, output := s.output) == s
  {
    s.(samplingPaused := true,
       adcsra := s.adcsra & !Bit(ADATE),
       output := s.output + StoppedLine)
  }

  /** sendSamplingStatus */
  function StatusSent(s: State): (r: State)
    ensures |r.output| == |s.output| + 3 && r.output[..|s.output|] == s.output
    ensures r.output[|s.output|..] == StatusFrame(s.samplingActive, s.samplingPaused)
    ensures r.(output := s.output) == s
  {
    s.(output := s.output + StatusFrame(s.samplingActive, s.samplingPaused))
  }

  /** toggleSampling: negates the active flag, then starts or stops, then reports
      the new flags. */
  function Toggled(s: State): (r: State)
    ensures r.samplingActive == !s.samplingActive
    ensures r.samplingPaused == !r.samplingActive
    ensures r.bufferIndex == if r.samplingActive then 0 else s.bufferIndex
    ensures r.samplingActive ==>
      r.adcsra & StartBits == StartBits && r.adcsra & !StartBits == s.adcsra & !StartBits
    ensures !r.samplingActive ==>
      r.adcsra & Bit(ADATE) == 0 && r.adcsra & !Bit(ADATE) == s.adcsra & !Bit(ADATE)
    ensures r.output == s.output + (if r.samplingActive then StartedLine else StoppedLine)
                        + StatusFrame(r.samplingActive, r.samplingPaused)
    ensures r.buffer == s.buffer && r.settings == s.settings && r.admux == s.admux
    ensures r.inputPos == s.inputPos
    ensures Invariant(s) ==> Invariant(r)
  {
    var t := s.(samplingActive := !s.samplingActive);
    StatusSent(if t.samplingActive then Started(t) else Stopped(t))
  }

  /** Two toggles restore both flags; the cursor is back at 0 when sampling ends
      up active. */
  lemma ToggleTwice(s: State)
    requires Invariant(s)
    ensures Toggled(Toggled(s)).samplingActive == s.samplingActive
    ensures Toggled(Toggled(s)).samplingPaused == s.samplingPaused
    ensures s.samplingActive ==> Toggled(Toggled(s)).bufferIndex == 0
  {
  }

  // ---------------------------------------------------------------------------
  // Frame encoders

  /** sendDataFrame */
  function DataFrameSent(s: State): (r: State)
    ensures r.output == s.output + DataFrame(s.buffer)
    ensures r.(output := s.output) == s
  {
    s.(output := s.output + DataFrame(s.buffer))
  }

  /** sendSettings: reports the never-assigned adcPrescaler, not the stored index. */
  function SettingsSent(s: State): (r: State)
    ensures r.output == s.output + [SettingsTag, 2, 153, 80]
    ensures r.(output := s.output) == s
  {
    SettingsFrameForIndexTwo();
    s.(output := s.output + SettingsFrame(AdcPrescaler))
  }

  // ---------------------------------------------------------------------------
  // Configuration

  /** setInputChannel */
  function ChannelSet(s: State, channel: byte): (r: State)
    ensures channel > MaxChannel ==> r == s
    ensures channel <= MaxChannel ==>
      && r.admux & 0xF0 == s.admux & 0xF0
      && r.admux & 0x0F == channel as bv8
      && r.settings == s.settings.(inputChannel := channel)
    ensures r.(admux := s.admux, settings := s.settings) == s
    ensures Invariant(s) ==> Invariant(r)
  {
    if channel > MaxChannel then s
    else s.(admux := (s.admux & 0xF0) | (channel as bv8),
            settings := s.settings.(inputChannel := channel))
  }

  /** setADCPrescaler */
  function PrescalerSet(s: State, index: byte): (r: State)
    ensures index as int >= PrescalerCount ==> r == s
    ensures index as int < PrescalerCount ==>
      && r.adcsra == PrescalerControl(index as int)
      && r.settings == s.settings.(prescalerIndex := index)
    ensures r.(adcsra := s.adcsra, settings := s.settings) == s
    ensures Invariant(s) ==> Invariant(r)
  {
    if index as int >= PrescalerCount then s
    else s.(adcsra := PrescalerControl(index as int),
            settings := s.settings.(prescalerIndex := index))
  }

  /** setVoltageReference: ORs REFS bits into ADMUX, so it can set them but never
      clear them. */
  function ReferenceSet(s: State, useInternal: bool): (r: State)
    ensures r.admux & s.admux == s.admux
    ensures r.admux & 0x3F == s.admux & 0x3F
    ensures r.admux & Bit(REFS0) != 0
    ensures !useInternal ==> r.admux & Bit(REFS1) != 0
    ensures useInternal ==> r.admux & Bit(REFS1) == s.admux & Bit(REFS1)
    ensures r.settings == s.settings.(useVref := useInternal)
    ensures r.(admux := s.admux, settings := s.settings) == s
    ensures Invariant(s) ==> Invariant(r)
  {
    s.(admux := s.admux | ReferenceBits(useInternal),
       settings := s.settings.(useVref := useInternal))
  }

  /** setTriggerMode */
  function TriggerModeSet(s: State, enabled: bool, level: byte): (r: State)
    ensures r.settings.triggerMode == enabled && r.settings.triggerLevel == level
    ensures r.settings.(triggerMode := s.settings.triggerMode,
                        triggerLevel := s.settings.triggerLevel) == s.settings
    ensures r.(settings := s.settings) == s
    ensures Invariant(s) ==> Invariant(r)
  {
    s.(settings := s.settings.(triggerMode := enabled, triggerLevel := level))
  }

  /** initializeADC: clears ADCSRA, re-applies the stored channel, prescaler index
      and reference, then sets ADATE, ADIE and ADSC. */
  function AdcInitialized(s: State): (r: State)
    ensures Invariant(s) ==>
      && r.adcsra == PrescalerControl(s.settings.prescalerIndex as int) | Bit(ADSC)
      && r.admux & 0x0F == s.settings.inputChannel as bv8
      && r.admux & 0x30 == s.admux & 0x30
      && r.admux & 0xC0 == (s.admux & 0xC0) | ReferenceBits(s.settings.useVref)
      && r.(adcsra := s.adcsra, admux := s.admux) == s
      && Invariant(r)
  {
    var cleared := s.(adcsra := 0);
    var withChannel := ChannelSet(cleared, cleared.settings.inputChannel);
    var withPrescaler := PrescalerSet(withChannel, withChannel.settings.prescalerIndex);
    var withReference := ReferenceSet(withPrescaler, withPrescaler.settings.useVref);
    var armed := withReference.(adcsra := withReference.adcsra | Bit(ADATE) | Bit(ADIE));
    armed.(adcsra := armed.adcsra | Bit(ADSC))
  }

  // ---------------------------------------------------------------------------
  // Command decoder and foreground step

  /** handleSerialCommands: reads at most one command and carries it out. */
  function Served(input: seq<byte>, s: State): (r: State)
    requires s.inputPos <= |input| && ParameterAvailable(input, s.inputPos)
    ensures r.buffer == s.buffer
    ensures s.inputPos <= r.inputPos <= |input| && r.inputPos <= s.inputPos + 2
    ensures s.inputPos == |input| ==> r == s
    ensures s.inputPos < |input| ==> s.inputPos < r.inputPos
  {
    match NextCommand(input, s.inputPos)
    case None => s
    case Some((command, next)) =>
      var t := s.(inputPos := next);
      match command
      case SetPrescaler(index) => SettingsSent(PrescalerSet(t, index))
      case ToggleSampling => Toggled(t)
      case QuerySettings => SettingsSent(t)
      case Ignored(_) => t
  }

  /** loop(): serves one command, then would send a data frame and reset the cursor
      once the cursor reaches 400 (the trigger wait that follows changes no state).
      An 8-bit cursor never gets there, so a pass is exactly one served command. */
  function LoopStep(input: seq<byte>, s: State): (r: State)
    requires s.inputPos <= |input| && ParameterAvailable(input, s.inputPos)
    ensures r == Served(input, s)
  {
    var t := Served(input, s);
    if t.bufferIndex as int >= BufferSize && t.samplingActive then
      DataFrameSent(t).(bufferIndex := CursorReset)
    else
      t
  }

  /** Serving a command keeps the invariant. */
  lemma ServedKeepsInvariant(input: seq<byte>, s: State)
    requires s.inputPos <= |input| && ParameterAvailable(input, s.inputPos)
    requires Invariant(s)
    ensures Invariant(Served(input, s))
  {
  }

  /** With no byte available, a command pass changes nothing. */
  lemma ServedWithoutInput(input: seq<byte>, s: State)
    requires s.inputPos == |input|
    ensures LoopStep(input, s) == s
  {
  }

  /** A byte that is not 'P', 'S' or 'R' is consumed and nothing else happens. */
  lemma ServedIgnoredByte(input: seq<byte>, s: State)
    requires s.inputPos < |input|
    requires input[s.inputPos] != CommandPrescaler && input[s.inputPos] != CommandToggle
    requires input[s.inputPos] != CommandQuery
    ensures LoopStep(input, s) == s.(inputPos := s.inputPos + 1)
  {
  }

  /** 'P' consumes two bytes and stores an accepted index, but the reply is the same
      'S', 2, 153, 80 whatever the index; an out-of-range index changes no setting
      and still gets that reply. */
  lemma ServedPrescalerCommand(input: seq<byte>, s: State)
    requires s.inputPos + 1 < |input| && input[s.inputPos] == CommandPrescaler
    ensures var r := LoopStep(input, s); var index := input[s.inputPos + 1];
      && r.inputPos == s.inputPos + 2
      && r.output == s.output + [SettingsTag, 2, 153, 80]
      && r.settings.prescalerIndex == (if index as int < PrescalerCount then index else s.settings.prescalerIndex)
      && (index as int >= PrescalerCount ==> r == s.(inputPos := s.inputPos + 2, output := r.output))
  {
  }

  /** 'R' consumes one byte and replies 'S', 2, 153, 80. */
  lemma ServedQueryCommand(input: seq<byte>, s: State)
    requires s.inputPos < |input| && input[s.inputPos] == CommandQuery
    ensures LoopStep(input, s) == s.(inputPos := s.inputPos + 1, output := s.output + [SettingsTag, 2, 153, 80])
  {
  }

  /** 'S' consumes one byte and toggles sampling. */
  lemma ServedToggleCommand(input: seq<byte>, s: State)
    requires s.inputPos < |input| && input[s.inputPos] == CommandToggle
    ensures LoopStep(input, s) == Toggled(s.(inputPos := s.inputPos + 1))
  {
  }

  /** While sampling is active (as it is from reset), two 'S' commands in a row
      first stop sampling and report 'X', 0, 1, then start it again and report
      'X', 1, 0, leaving both flags as they were. */
  lemma ToggleTwiceReplies(input: seq<byte>, s: State)
    requires Invariant(s) && s.samplingActive
    requires s.inputPos + 1 < |input|
    requires input[s.inputPos] == CommandToggle && input[s.inputPos + 1] == CommandToggle
    ensures var once := LoopStep(input, s);
      && once.output == s.output + StoppedLine + [StatusTag, 0, 1]
      && ParameterAvailable(input, once.inputPos)
      && var twice := LoopStep(input, once);
      && twice.output == once.output + StartedLine + [StatusTag, 1, 0]
      && twice.samplingActive && !twice.samplingPaused
      && twice.inputPos == s.inputPos + 2
  {
  }

  // ---------------------------------------------------------------------------
  // Interleaved runs

  /** What can happen next: a conversion completes and the handler runs, or the
      foreground loop makes one pass. */
  datatype Event = Conversion(sample: byte) | Pass

  /** The state after a sequence of events. A pass whose 'P' still waits for its
      parameter stays in that wait and changes nothing. */
  function Run(input: seq<byte>, s: State, events: seq<Event>): (r: State)
    requires |s.buffer| == BufferSize && s.inputPos <= |input|
    ensures |r.buffer| == BufferSize && r.inputPos <= |input|
    decreases |events|
  {
    if events == [] then s
    else
      var t := Run(input, s, events[..|events| - 1]);
      match events[|events| - 1]
      case Conversion(sample) => Sampled(t, sample)
      case Pass => if ParameterAvailable(input, t.inputPos) then LoopStep(input, t) else t
  }

  /** Every interleaving of conversions and loop passes keeps the invariant; in
      particular the paused flag always mirrors the active flag and slots 256..399
      keep their start value. */
  lemma {:induction false} RunKeepsInvariant(input: seq<byte>, s: State, events: seq<Event>)
    requires Invariant(s) && s.inputPos <= |input|
    ensures Invariant(Run(input, s, events))
    decreases |events|
  {
    if events != [] {
      var t := Run(input, s, events[..|events| - 1]);
      RunKeepsInvariant(input, s, events[..|events| - 1]);
      if events[|events| - 1].Pass? && ParameterAvailable(input, t.inputPos) {
        ServedKeepsInvariant(input, t);
      }
    }
  }

  predicate NoFrameStart(bytes: seq<byte>) {
    forall i :: 0 <= i < |bytes| ==> bytes[i] != 0xFF
  }

  /** Every reply of a command pass is free of the byte 0xFF that opens a data
      frame. */
  lemma ServedSendsNoFrameStart(input: seq<byte>, s: State)
    requires s.inputPos <= |input| && ParameterAvailable(input, s.inputPos)
    requires NoFrameStart(s.output)
    ensures NoFrameStart(Served(input, s).output)
  {
    TextLinesAreAscii();
    var settingsReply: seq<byte> := [SettingsTag, 2, 153, 80];
    assert NoFrameStart(settingsReply);
    match NextCommand(input, s.inputPos)
    case None =>
    case Some((command, next)) =>
      var t := s.(inputPos := next);
      match command
      case SetPrescaler(index) =>
        NoFrameStartAppend(s.output, settingsReply);
      case ToggleSampling =>
        var r := Toggled(t);
        var line := if r.samplingActive then StartedLine else StoppedLine;
        var status := StatusFrame(r.samplingActive, r.samplingPaused);
        assert NoFrameStart(line) && NoFrameStart(status);
        NoFrameStartAppend(s.output, line);
        NoFrameStartAppend(s.output + line, status);
      case QuerySettings =>
        NoFrameStartAppend(s.output, settingsReply);
      case Ignored(_) =>
  }

  lemma NoFrameStartAppend(front: seq<byte>, back: seq<byte>)
    requires NoFrameStart(front) && NoFrameStart(back)
    ensures NoFrameStart(front + back)
  {
  }

  /** Whatever the host sends and however conversions interleave, the sketch never
      emits the byte 0xFF, so no data frame ever reaches the host. */
  lemma {:induction false} RunSendsNoDataFrame(input: seq<byte>, s: State, events: seq<Event>)
    requires |s.buffer| == BufferSize && s.inputPos <= |input|
    requires NoFrameStart(s.output)
    ensures NoFrameStart(Run(input, s, events).output)
    decreases |events|
  {
    if events != [] {
      var t := Run(input, s, events[..|events| - 1]);
      RunSendsNoDataFrame(input, s, events[..|events| - 1]);
      if events[|events| - 1].Pass? && ParameterAvailable(input, t.inputPos) {
        ServedSendsNoFrameStart(input, t);
      }
    }
  }
}
