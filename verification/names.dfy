/** The decoder's naming helpers for commands, operators, notes and channels.

Each helper is a small total table lookup. The command-name table is indexed from
0xe6 up; its entries for 0xf9 and 0xfa are swapped with respect to what the decoder
does with those opcodes, so the table as written sits next to one that follows the
decoder, and `NamesMatchHooks` ties the latter to the hooks each command fires.
*/
module Names {
  import opened Bytes
  import opened Events
  import opened Commands

  /** The command-name table as written, one entry per opcode from 0xe6 to 0xff. */
  const WrittenCommandNames: seq<string> := [
    "Informal command", "Extended MML", "PCM4/8 enable", "LFO delay setting",
    "OPM LFO control", "LFO volume control", "LFO pitch control", "ADPCM/noise freq",
    "Sync signal wait", "Sync signal send", "Key on delay", "Data end",
    "Portamento time", "Detune", "Repeat escape", "Repeat end",
    "Repeat start", "Disable key-off", "Sound length", "Volume decrement",
    "Volume increment", "Set volume", "Output phase", "Set voice #",
    "Set OPM register", "Set tempo"]

  /** The first opcode the table names. */
  const FirstNamed: uint8 := 0xe6

  /** The name of command `c` from the table as written; "Unknown" below 0xe6. */
  function CommandName(c: uint8): (name: string)
    ensures c < FirstNamed ==> name == "Unknown"
    ensures c >= FirstNamed ==> name in WrittenCommandNames
  {
    if c >= FirstNamed then WrittenCommandNames[c - FirstNamed] else "Unknown"
  }

  /** The name of each specific hook the decoder fires, by the command that fires it;
      rests, notes and the generic hooks are not commands and have none. */
  function HookLabel(e: Event): Option<string> {
    match e
    case FadeOut(_) => Some("Extended MML")
    case Pcm8ExpansionShift => Some("PCM4/8 enable")
    case LfoDelaySetting(_) => Some("LFO delay setting")
    case OpmLfo(_, _, _) => Some("OPM LFO control")
    case OpmLfoOn => Some("OPM LFO control")
    case OpmLfoOff => Some("OPM LFO control")
    case LfoVolume(_, _, _) => Some("LFO volume control")
    case LfoVolumeOn => Some("LFO volume control")
    case LfoVolumeOff => Some("LFO volume control")
    case LfoPitch(_, _, _) => Some("LFO pitch control")
    case LfoPitchOn => Some("LFO pitch control")
    case LfoPitchOff => Some("LFO pitch control")
    case AdpcmNoiseFreq(_) => Some("ADPCM/noise freq")
    case SyncWait => Some("Sync signal wait")
    case SyncSend(_) => Some("Sync signal send")
    case KeyOnDelay(_) => Some("Key on delay")
    case DataEnd => Some("Data end")
    case DataEndAt(_) => Some("Data end")
    case Portamento(_) => Some("Portamento time")
    case Detune(_) => Some("Detune")
    case RepeatEscape(_) => Some("Repeat escape")
    case RepeatEnd(_) => Some("Repeat end")
    case RepeatStart(_) => Some("Repeat start")
    case DisableKeyOff => Some("Disable key-off")
    case SoundLength(_) => Some("Sound length")
    case VolumeDec => Some("Volume decrement")
    case VolumeInc => Some("Volume increment")
    case SetVolume(_) => Some("Set volume")
    case OutputPhase(_) => Some("Output phase")
    case SetVoiceNum(_) => Some("Set voice #")
    case SetOpmRegister(_, _) => Some("Set OPM register")
    case SetTempo(_) => Some("Set tempo")
    case _ => None
  }

  /** The table as written names 0xf9 after the hook 0xfa fires and the other way
      round: a lone 0xf9 byte fires the volume increment yet is called a decrement. */
  lemma CommandNameSwapped()
    ensures Parse([0xf9], 0).events[0] == VolumeInc
    ensures HookLabel(VolumeInc) == Some("Volume increment") && CommandName(0xf9) == "Volume decrement"
    ensures Parse([0xfa], 0).events[0] == VolumeDec
    ensures HookLabel(VolumeDec) == Some("Volume decrement") && CommandName(0xfa) == "Volume increment"
  {
    assert Parse([0xf9], 0) == Pair(VolumeInc, 0xf9, [], 1);
    assert Parse([0xfa], 0) == Pair(VolumeDec, 0xfa, [], 1);
  }

  /** The table with the two volume entries in the order the decoder uses them. */
  const CommandNames: seq<string> := [
    "Informal command", "Extended MML", "PCM4/8 enable", "LFO delay setting",
    "OPM LFO control", "LFO volume control", "LFO pitch control", "ADPCM/noise freq",
    "Sync signal wait", "Sync signal send", "Key on delay", "Data end",
    "Portamento time", "Detune", "Repeat escape", "Repeat end",
    "Repeat start", "Disable key-off", "Sound length", "Volume increment",
    "Volume decrement", "Set volume", "Output phase", "Set voice #",
    "Set OPM register", "Set tempo"]

  /** The name of command `c`, agreeing with the decoder; "Unknown" below 0xe6. */
  function DecoderCommandName(c: uint8): (name: string)
    ensures c < FirstNamed ==> name == "Unknown"
  {
    if c >= FirstNamed then CommandNames[c - FirstNamed] else "Unknown"
  }

  /** The corrected table differs from the written one only by the swap of 0xf9 and 0xfa. */
  lemma OnlyVolumeNamesSwapped(c: uint8)
    ensures c != 0xf9 && c != 0xfa ==> DecoderCommandName(c) == CommandName(c)
    ensures DecoderCommandName(0xf9) == CommandName(0xfa) && DecoderCommandName(0xfa) == CommandName(0xf9)
  {
  }

  /** No-operand commands: the name is that of the hook the opcode fires. */
  lemma NoOperandNamed(bs: seq<uint8>, i: nat)
    requires i < |bs| && bs[i] in {0xfa, 0xf9, 0xf7, 0xee, 0xe8}
    ensures Parse(bs, i).events != [] && HookLabel(Parse(bs, i).events[0]) == Some(DecoderCommandName(bs[i]))
  {
    var op := bs[i];
    if op == 0xfa {
      assert Parse(bs, i) == Pair(VolumeDec, 0xfa, [], 1);
    } else if op == 0xf9 {
      assert Parse(bs, i) == Pair(VolumeInc, 0xf9, [], 1);
    } else if op == 0xf7 {
      assert Parse(bs, i) == Pair(DisableKeyOff, 0xf7, [], 1);
    } else if op == 0xee {
      assert Parse(bs, i) == Pair(SyncWait, 0xee, [], 1);
    } else {
      assert Parse(bs, i) == Pair(Pcm8ExpansionShift, 0xe8, [], 1);
    }
  }

  /** One-operand commands. */
  lemma OneOperandNamed(bs: seq<uint8>, i: nat)
    requires i + 2 <= |bs| && OneOperand(bs[i])
    ensures Parse(bs, i).events != [] && HookLabel(Parse(bs, i).events[0]) == Some(DecoderCommandName(bs[i]))
  {
    assert Parse(bs, i) == Pair(OneOperandHook(bs[i], bs[i + 1]), bs[i], [bs[i + 1]], 2);
  }

  /** Commands with a 16-bit operand. */
  lemma WordOperandNamed(bs: seq<uint8>, i: nat)
    requires i + 3 <= |bs| && WordOperand(bs[i])
    ensures Parse(bs, i).events != [] && HookLabel(Parse(bs, i).events[0]) == Some(DecoderCommandName(bs[i]))
  {
    var w := Word(bs[i + 1], bs[i + 2]);
    assert Parse(bs, i) == Pair(WordHook(bs[i], Int16(w)), bs[i], [w], 3);
  }

  /** The LFO commands, whether they switch the LFO or set it. */
  lemma LfoNamed(bs: seq<uint8>, i: nat, k: LfoKind)
    requires i < |bs| && bs[i] == LfoOpcode(k) && Lfo(bs, i, k).events != []
    ensures HookLabel(Lfo(bs, i, k).events[0]) == Some(DecoderCommandName(bs[i]))
  {
  }

  /** The commands left: 0xfe, 0xf6, 0xf1, 0xf0 and 0xe7. */
  lemma OtherNamed(bs: seq<uint8>, i: nat)
    requires i < |bs| && bs[i] in {0xfe, 0xf6, 0xf1, 0xf0, 0xe7} && Parse(bs, i).events != []
    ensures HookLabel(Parse(bs, i).events[0]) == Some(DecoderCommandName(bs[i]))
  {
    var op := bs[i];
    if op == 0xfe {
      assert Parse(bs, i) == Pair(SetOpmRegister(bs[i + 1], bs[i + 2]), 0xfe, [bs[i + 1], bs[i + 2]], 3);
    } else if op == 0xf6 {
      assert Parse(bs, i).events[0] == RepeatStart(bs[i + 1]);
    } else if op == 0xf1 {
      assert Parse(bs, i).events[0].DataEnd? || Parse(bs, i).events[0].DataEndAt?;
    } else if op == 0xf0 {
      assert Parse(bs, i).events[0] == KeyOnDelay(bs[i + 1]);
    } else {
      assert Parse(bs, i) == Pair(FadeOut(bs[i + 2]), 0xe7, [bs[i + 2]], 3);
    }
  }

  /** Every command from 0xe7 up that fires anything names its first hook with the
      corrected table; 0xe6 is named but not decoded (it fires the undefined-command hook). */
  lemma NamesMatchHooks(bs: seq<uint8>, i: nat)
    requires i < |bs| && bs[i] > FirstNamed && Parse(bs, i).events != []
    ensures HookLabel(Parse(bs, i).events[0]) == Some(DecoderCommandName(bs[i]))
  {
    var op := bs[i];
    if op in {0xfa, 0xf9, 0xf7, 0xee, 0xe8} {
      NoOperandNamed(bs, i);
    } else if OneOperand(op) {
      OneOperandNamed(bs, i);
    } else if WordOperand(op) {
      WordOperandNamed(bs, i);
    } else if op == 0xec {
      assert Parse(bs, i) == Lfo(bs, i, Pitch);
      LfoNamed(bs, i, Pitch);
    } else if op == 0xeb {
      assert Parse(bs, i) == Lfo(bs, i, Volume);
      LfoNamed(bs, i, Volume);
    } else if op == 0xea {
      assert Parse(bs, i) == Lfo(bs, i, OpmChip);
      LfoNamed(bs, i, OpmChip);
    } else {
      OtherNamed(bs, i);
    }
  }

  /** The operator names, in the order of a voice record's operators. */
  const OperatorNames: seq<string> := ["M1", "M2", "C1", "C2"]

  /** The name of operator `n`; only its low two bits count. */
  function VoiceName(n: uint8): (name: string)
    ensures name in OperatorNames
    ensures name == "M1" <==> n % 4 == 0
    ensures name == "M2" <==> n % 4 == 1
    ensures name == "C1" <==> n % 4 == 2
    ensures name == "C2" <==> n % 4 == 3
  {
    OperatorNames[n % 4]
  }

  /** Two operator numbers have the same name exactly when their low two bits agree. */
  lemma VoiceNameLowBits(a: uint8, b: uint8)
    ensures VoiceName(a) == VoiceName(b) <==> a % 4 == b % 4
  {
  }

  /** The twelve pitch names, starting at c. */
  const PitchNames: seq<string> := ["c", "c+", "d", "d+", "e", "f", "f+", "g", "g+", "a", "a+", "b"]

  /** The position of note `note` in the octave, with the C++ remainder; note 0 is d+. */
  function PitchIndex(note: int): int {
    CRem(note + 3, 12)
  }

  /** The pitch name of `note`; the decoder indexes its table with the C++ remainder, so
      a note whose remainder is negative has none. */
  function NoteName(note: int): (name: string)
    requires PitchIndex(note) >= 0
    ensures name in PitchNames
    // wherever the table is indexed at all, the C++ remainder is the mathematical one
    ensures name == PitchNames[(note + 3) % 12]
  {
    PitchNames[PitchIndex(note)]
  }

  /** The octave of `note`, with the C++ quotient. */
  function NoteOctave(note: int): (octave: int)
    ensures note + 3 >= 0 ==> octave >= 0
    // rounded down for notes from -3 up, and toward zero below
    ensures note + 3 >= 0 ==> 12 * octave <= note + 3 < 12 * octave + 12
    ensures note + 3 < 0 ==> 12 * octave - 12 < note + 3 <= 12 * octave
  {
    CDiv(note + 3, 12)
  }

  /** The first position of `x` in `s`, or `|s|` when it is absent. */
  function IndexOf(s: seq<string>, x: string): (k: nat)
    ensures k <= |s|
    ensures k < |s| ==> s[k] == x
    ensures forall j :: 0 <= j < k ==> s[j] != x
  {
    if s == [] then 0
    else if s[0] == x then 0
    else 1 + IndexOf(s[1..], x)
  }

  /** The note a pitch name and an octave denote, when the name is one of the twelve. */
  function NoteOf(name: string, octave: int): (note: Option<int>)
    ensures note.Some? <==> name in PitchNames
  {
    var k := IndexOf(PitchNames, name);
    if k < |PitchNames| then Some(octave * 12 + k - 3) else None
  }

  lemma PitchNamesDistinct()
    ensures forall a, b :: 0 <= a < b < |PitchNames| ==> PitchNames[a] != PitchNames[b]
  {
  }

  /** Twelve notes up from any note with a name, the name repeats and the octave is one more. */
  lemma NoteNameOctaveStep(note: int)
    requires note + 3 >= 0
    ensures NoteName(note + 12) == NoteName(note)
    ensures NoteOctave(note + 12) == NoteOctave(note) + 1
  {
  }

  /** A note's name and octave give the note back. */
  lemma NoteNameRoundTrip(note: int)
    requires PitchIndex(note) >= 0
    ensures NoteOf(NoteName(note), NoteOctave(note)) == Some(note)
  {
    var k := PitchIndex(note);
    PitchNamesDistinct();
    var found := IndexOf(PitchNames, PitchNames[k]);
    assert found == k;
  }

  /** The letter of channel `chan`: A to H for the FM channels, P to W for the PCM
      channels, and '!' for any other number. */
  function ChannelName(chan: uint8): (name: char)
    ensures chan < 8 ==> 'A' <= name <= 'H'
    ensures 8 <= chan < 16 ==> 'P' <= name <= 'W'
    ensures chan >= 16 ==> name == '!'
    ensures chan < 16 ==> ChannelOf(name) == Some(chan)
  {
    if chan < 8 then ('A' as int + chan) as char
    else if chan < 16 then ('P' as int + chan - 8) as char
    else '!'
  }

  /** The channel a letter names, if any. */
  function ChannelOf(name: char): (chan: Option<uint8>)
    ensures chan.Some? ==> chan.value < 16
  {
    if 'A' <= name <= 'H' then Some((name as int - 'A' as int) as uint8)
    else if 'P' <= name <= 'W' then Some((name as int - 'P' as int + 8) as uint8)
    else None
  }

  /** Channel letters name the sixteen channels one-to-one. */
  lemma ChannelNameRoundTrip(chan: uint8, name: char)
    ensures chan < 16 ==> ChannelOf(ChannelName(chan)) == Some(chan)
    ensures ChannelOf(name).Some? ==> ChannelName(ChannelOf(name).value) == name
  {
  }
}
