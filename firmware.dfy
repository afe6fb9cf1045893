/** The sketch itself: its globals as the fields of one Device and its routines
    as methods that update them in place, each proved to leave the state that the
    matching function of module Machine describes. */
module Firmware {
  import opened Bytes
  import opened Registers
  import opened Frames
  import opened Commands
  import opened Machine

  class Device {
    const analogBuffer: array<byte>
    var bufferIndex: byte
    var samplingActive: bool
    var samplingPaused: bool
    var settings: Settings
    var ADCSRA: bv8
    var ADMUX: bv8
    /** Every byte written to the serial link so far. */
    var output: seq<byte>
    /** The bytes the host sends, and how many of them have been read. */
    const input: seq<byte>
    var inputPos: nat

    /** The device's state as a Machine value. */
    ghost function Snapshot(): State
      reads this, analogBuffer
    {
      State(analogBuffer[..], bufferIndex, samplingActive, samplingPaused, settings,
            ADCSRA, ADMUX, output, inputPos)
    }

    /** The shape every routine needs: a 400-slot buffer and a read position
        inside the input. */
    ghost predicate WellFormed()
      reads this
    {
      analogBuffer.Length == BufferSize && inputPos <= |input|
    }

    /** WellFormed, and the Machine invariant holds between routines. */
    ghost predicate Valid()
      reads this, analogBuffer
    {
      WellFormed() && Invariant(Snapshot())
    }

    /** The globals as initialised; the host will send `input`. */
    constructor (input: seq<byte>)
      ensures Valid() && fresh(analogBuffer)
      ensures this.input == input
      ensures Snapshot() == Initial()
    {
      analogBuffer := new byte[BufferSize](_ => 0);
      bufferIndex := 0;
      samplingActive := true;
      samplingPaused := false;
      settings := InitialSettings;
      ADCSRA, ADMUX := 0, 0;
      output := [];
      this.input := input;
      inputPos := 0;
      new;
      assert analogBuffer[..] == seq(BufferSize, _ => 0);
    }

    // -------------------------------------------------------------------------
    // Acquisition handler

    /** ISR(ADC_vect), with the converter's result passed in. */
    method AdcInterrupt(sample: byte)
      requires Valid()
      modifies this`bufferIndex, analogBuffer
      ensures Valid()
      ensures Snapshot() == Sampled(old(Snapshot()), sample)
    {
      if samplingActive && (bufferIndex as int) < BufferSize {
        analogBuffer[bufferIndex] := sample;
        bufferIndex := ((bufferIndex as int + 1) % CursorRange) as byte;
      }
    }

    // -------------------------------------------------------------------------
    // Sampling state machine

    method StartSampling()
      requires WellFormed()
      modifies this
      ensures WellFormed()
      ensures Snapshot() == Started(old(Snapshot()))
    {
      samplingPaused := false;
      bufferIndex := 0;
      ADCSRA := ADCSRA | Bit(ADEN) | Bit(ADATE) | Bit(ADIE);
      ADCSRA := ADCSRA | Bit(ADSC);
      output := output + StartedLine;
    }

    method StopSampling()
      requires WellFormed()
      modifies this
      ensures WellFormed()
      ensures Snapshot() == Stopped(old(Snapshot()))
    {
      samplingPaused := true;
      ADCSRA := ADCSRA & !Bit(ADATE);
      output := output + StoppedLine;
    }

    method SendSamplingStatus()
      requires WellFormed()
      modifies this`output
      ensures WellFormed()
      ensures Snapshot() == StatusSent(old(Snapshot()))
    {
      output := output + [StatusTag];
      output := output + [if samplingActive then 1 else 0];
      output := output + [if samplingPaused then 1 else 0];
    }

    method ToggleSampling()
      requires Valid()
      modifies this
      ensures Valid()
      ensures Snapshot() == Toggled(old(Snapshot()))
    {
      ghost var flipped := old(Snapshot()).(samplingActive := !samplingActive);
      samplingActive := !samplingActive;
      assert Snapshot() == flipped;
      if samplingActive {
        StartSampling();
      } else {
        StopSampling();
      }
      SendSamplingStatus();
    }

    // -------------------------------------------------------------------------
    // Frame encoders

    method SendDataFrame()
      requires WellFormed()
      modifies this`output
      ensures WellFormed()
      ensures Snapshot() == DataFrameSent(old(Snapshot()))
    {
      output := output + [0xFF];
      output := output + [0xAA];
      for i := 0 to BufferSize
        invariant output == old(output) + FrameStart + analogBuffer[..i]
      {
        output := output + [analogBuffer[i]];
      }
      assert analogBuffer[..BufferSize] == analogBuffer[..];
      output := output + [0x55];
      output := output + [0xEE];
      assert output == old(output) + DataFrame(analogBuffer[..]);
    }

    method SendSettings()
      requires WellFormed()
      modifies this`output
      ensures WellFormed()
      ensures Snapshot() == SettingsSent(old(Snapshot()))
    {
      output := output + [SettingsTag];
      output := output + [AdcPrescaler];
      output := output + [RateWhole(AdcPrescaler)];
      output := output + [RateHundredths(AdcPrescaler)];
    }

    // -------------------------------------------------------------------------
    // Configuration

    method SetInputChannel(channel: byte)
      requires Valid()
      modifies this
      ensures Valid()
      ensures Snapshot() == ChannelSet(old(Snapshot()), channel)
    {
      if channel > MaxChannel {
        return;
      }
      ADMUX := (ADMUX & 0xF0) | (channel as bv8);
      settings := settings.(inputChannel := channel);
    }

    method SetAdcPrescaler(prescalerIndex: byte)
      requires Valid()
      modifies this
      ensures Valid()
      ensures Snapshot() == PrescalerSet(old(Snapshot()), prescalerIndex)
    {
      if prescalerIndex as int >= PrescalerCount {
        return;
      }
      ADCSRA := ADCSRA & !Bit(ADEN);
      ADCSRA := 0;
      var ps := Prescalers[prescalerIndex];
      if ps & 1 != 0 {
        ADCSRA := ADCSRA | Bit(ADPS0);
      }
      if ps & 2 != 0 {
        ADCSRA := ADCSRA | Bit(ADPS1);
      }
      if ps & 4 != 0 {
        ADCSRA := ADCSRA | Bit(ADPS2);
      }
      ADCSRA := ADCSRA | Bit(ADEN) | Bit(ADATE) | Bit(ADIE);
      settings := settings.(prescalerIndex := prescalerIndex);
    }

    method SetVoltageReference(useInternal: bool)
      requires Valid()
      modifies this
      ensures Valid()
      ensures Snapshot() == ReferenceSet(old(Snapshot()), useInternal)
    {
      if useInternal {
        ADMUX := ADMUX | Bit(REFS0);
      } else {
        ADMUX := ADMUX | Bit(REFS0) | Bit(REFS1);
      }
      settings := settings.(useVref := useInternal);
    }

    method SetTriggerMode(enabled: bool, level: byte)
      requires Valid()
      modifies this
      ensures Valid()
      ensures Snapshot() == TriggerModeSet(old(Snapshot()), enabled, level)
    {
      settings := settings.(triggerMode := enabled, triggerLevel := level);
    }

    method InitializeAdc()
      requires Valid()
      modifies this
      ensures Valid()
      ensures Snapshot() == AdcInitialized(old(Snapshot()))
    {
      ADCSRA := 0;
      SetInputChannel(settings.inputChannel);
      SetAdcPrescaler(settings.prescalerIndex);
      SetVoltageReference(settings.useVref);
      ADCSRA := ADCSRA | Bit(ADATE) | Bit(ADIE);
      ADCSRA := ADCSRA | Bit(ADSC);
    }

    // -------------------------------------------------------------------------
    // Command decoder and foreground step

    method HandleSerialCommands()
      requires Valid() && ParameterAvailable(input, inputPos)
      modifies this
      ensures Valid()
      ensures Snapshot() == Served(input, old(Snapshot()))
    {
      if inputPos < |input| {
        var command := input[inputPos];
        inputPos := inputPos + 1;
        if command == CommandPrescaler {
          var prescaler := input[inputPos];
          inputPos := inputPos + 1;
          SetAdcPrescaler(prescaler);
          SendSettings();
        } else if command == CommandToggle {
          ToggleSampling();
        } else if command == CommandQuery {
          SendSettings();
        }
      }
      ServedKeepsInvariant(input, old(Snapshot()));
    }

    method Loop()
      requires Valid() && ParameterAvailable(input, inputPos)
      modifies this
      ensures Valid()
      ensures Snapshot() == LoopStep(input, old(Snapshot()))
    {
      HandleSerialCommands();
      if bufferIndex as int >= BufferSize && samplingActive {
        // Sending the data frame, resetting the cursor and the trigger wait
        // belong here; a byte-sized cursor never reaches 400.
        assert false;
      }
    }
  }

  /** Power-up (globals, then initializeADC) followed by the host sending 'S' twice:
      the first reply reports sampling off with the paused flag set, the second
      reports it on again. */
  method PowerUpThenToggleTwice() returns (reply: seq<byte>, active: bool, paused: bool)
    ensures reply == StoppedLine + [StatusTag, 0, 1] + StartedLine + [StatusTag, 1, 0]
    ensures active && !paused
  {
    var device := new Device([CommandToggle, CommandToggle]);
    device.InitializeAdc();
    ghost var booted := device.Snapshot();
    assert booted.samplingActive && booted.output == [] && booted.inputPos == 0;
    ToggleTwiceReplies(device.input, booted);
    device.Loop();
    ghost var once := device.Snapshot();
    assert once == LoopStep(device.input, booted);
    device.Loop();
    assert device.Snapshot() == LoopStep(device.input, once);
    reply, active, paused := device.output, device.samplingActive, device.samplingPaused;
  }

  /** Power-up followed by the host sending 'P' with index 0 and then 'R': the index
      is stored and ADCSRA rewritten (ADSC left clear), yet both replies report
      index 2 and 153.80 kSPS. */
  method PowerUpThenSetPrescaler() returns (reply: seq<byte>, stored: byte, control: bv8)
    ensures reply == [SettingsTag, 2, 153, 80, SettingsTag, 2, 153, 80]
    ensures stored == 0
    ensures control == PrescalerControl(0)
  {
    var device := new Device([CommandPrescaler, 0, CommandQuery]);
    device.InitializeAdc();
    device.Loop();
    device.Loop();
    reply, stored, control := device.output, device.settings.prescalerIndex, device.ADCSRA;
  }
}
