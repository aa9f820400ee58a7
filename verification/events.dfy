/** The notifications the decoder delivers to its consumer.

Each overridable `handleX` hook of the decoder becomes one constructor here; the
variadic raw-command hook becomes `RawCommand(opcode, values)`, whose values are
the arguments in the order the decoder passes them (after C++ argument promotion).
*/
module Events {
  import opened Bytes
  import Voices

  /** The three LFO families share one operand layout (opcodes 0xec, 0xeb, 0xea). */
  datatype LfoKind = Pitch | Volume | OpmChip

  datatype Event =
    // milestones of a whole-file decode
    | HeaderLoaded
    | VoiceLoaded(voice: Voices.Voice)
    | ChannelStart(chan: int)
    | ChannelEnd(chan: int)
    // the generic hook, fired after the specific one for every command except rests and notes
    | RawCommand(opcode: uint8, values: seq<int>)
    // the specific hooks, carrying their operands as the hook's parameter types receive them
    | Rest(duration: uint8)
    | Note(note: uint8, duration: uint8)
    | SetTempo(tempo: uint8)
    | SetOpmRegister(reg: uint8, val: uint8)
    | SetVoiceNum(num: uint8)
    | OutputPhase(phase: uint8)
    | SetVolume(volume: uint8)
    | VolumeDec
    | VolumeInc
    | SoundLength(length: uint8)
    | DisableKeyOff
    | RepeatStart(count: uint8)
    | RepeatEnd(offset: int16)
    | RepeatEscape(offset: int16)
    | Detune(detune: int16)
    | Portamento(time: int16)
    | DataEnd
    | DataEndAt(end: int16)
    | KeyOnDelay(delay: uint8)
    | SyncSend(target: uint8)
    | SyncWait
    | AdpcmNoiseFreq(freq: uint8)
    | LfoPitch(waveform: uint8, period: uint16, change: uint16)
    | LfoPitchOn
    | LfoPitchOff
    | LfoVolume(waveform: uint8, period: uint16, change: uint16)
    | LfoVolumeOn
    | LfoVolumeOff
    | OpmLfo(waveform: uint8, period: uint16, change: uint16)
    | OpmLfoOn
    | OpmLfoOff
    | LfoDelaySetting(delay: uint8)
    | FadeOut(speed: uint8)
    | Pcm8ExpansionShift
    | UndefinedCommand(opcode: uint8)
  {
    /** True of the events a channel's command stream can produce. */
    predicate IsCommandEvent() {
      !(HeaderLoaded? || VoiceLoaded? || ChannelStart? || ChannelEnd?)
    }
  }

  /** The opcode that introduces an LFO family. */
  function LfoOpcode(k: LfoKind): (op: uint8)
    ensures op in {0xea, 0xeb, 0xec}
  {
    match k
    case Pitch => 0xec
    case Volume => 0xeb
    case OpmChip => 0xea
  }

  /** The hook a full LFO command of family `k` calls. */
  function LfoSet(k: LfoKind, waveform: uint8, period: uint16, change: uint16): Event {
    match k
    case Pitch => LfoPitch(waveform, period, change)
    case Volume => LfoVolume(waveform, period, change)
    case OpmChip => OpmLfo(waveform, period, change)
  }

  /** The hook an LFO command with operand 0x81 calls. */
  function LfoOn(k: LfoKind): Event {
    match k
    case Pitch => LfoPitchOn
    case Volume => LfoVolumeOn
    case OpmChip => OpmLfoOn
  }

  /** The hook an LFO command with operand 0x80 calls. */
  function LfoOff(k: LfoKind): Event {
    match k
    case Pitch => LfoPitchOff
    case Volume => LfoVolumeOff
    case OpmChip => OpmLfoOff
  }
}
