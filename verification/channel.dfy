/** The per-channel command-stream tokenizer.

The decoder reads a channel one byte at a time through a finite-state machine. The
state records which operand the next byte is, and (unlike the C++ code, which keeps
them in locals shared by all states) the operand bytes gathered so far. `Step` is one
turn of the decoder's loop body; `ChannelLoop` is the loop with its three exits:
end of the stream, the 0xf1 terminator, and the start of the next channel, which the
loop compares its position with after every byte.
*/
module Channel {
  import opened Bytes
  import opened Events

  /** The decoder's states. `Initial` is the C++ `None` state. The fifteen LFO states
      of the C++ code are the five `Lfo...` constructors, one set per `LfoKind`. */
  datatype State =
    | Initial
    | NoteDuration(noteByte: uint8)
    | TempoVal
    | OpmRegisterNum
    | OpmRegisterVal(reg: uint8)
    | VoiceNum
    | OutputPhaseVal
    | VolumeVal
    | SoundLen
    | RepeatStartCount
    | RepeatStartZero
    | RepeatEndMsb
    | RepeatEndLsb(hi: uint8)
    | RepeatEscapeMsb
    | RepeatEscapeLsb(hi: uint8)
    | DetuneMsb
    | DetuneLsb(hi: uint8)
    | PortamentoMsb
    | PortamentoLsb(hi: uint8)
    | DataEndMsb
    | DataEndLsb(hi: uint8)
    | KeyOnDelayVal
    | SyncSendChannel
    | AdpcmNoiseFreqVal
    | LfoDelayVal
    | LfoB(kind: LfoKind)
    | LfoPeriodMsb(kind: LfoKind, waveform: uint8)
    | LfoPeriodLsb(kind: LfoKind, waveform: uint8, hi: uint8)
    | LfoChangeMsb(kind: LfoKind, waveform: uint8, period: uint16)
    | LfoChangeLsb(kind: LfoKind, waveform: uint8, period: uint16, hi: uint8)
    | FadeOutB1
    | FadeOutValue

  /** What one byte does: the next state, the hooks fired, and whether the channel is done. */
  datatype Output = Silent | One(e: Event) | Two(e1: Event, e2: Event)
  datatype StepResult = StepResult(next: State, out: Output, done: bool) {
    const events: seq<Event> := match out case Silent => [] case One(e) => [e] case Two(e1, e2) => [e1, e2]
  }

  /** Moves to `s` without firing anything. */
  function Goto(s: State): StepResult {
    StepResult(s, Silent, false)
  }

  /** Fires a specific hook and the raw-command hook, then returns to the initial state. */
  function Fire(e: Event, raw: Event): StepResult {
    StepResult(Initial, Two(e, raw), false)
  }

  /** The first byte of a command, read in the initial state. */
  function Dispatch(b: uint8): StepResult {
    if b <= 0x7f then StepResult(Initial, One(Rest(b + 1)), false)
    else if b < 0xdf then Goto(NoteDuration(b))
    else
      match b
      case 0xff => Goto(TempoVal)
      case 0xfe => Goto(OpmRegisterNum)
      case 0xfd => Goto(VoiceNum)
      case 0xfc => Goto(OutputPhaseVal)
      case 0xfb => Goto(VolumeVal)
      case 0xfa => Fire(VolumeDec, RawCommand(b, []))
      case 0xf9 => Fire(VolumeInc, RawCommand(b, []))
      case 0xf8 => Goto(SoundLen)
      case 0xf7 => Fire(DisableKeyOff, RawCommand(b, []))
      case 0xf6 => Goto(RepeatStartCount)
      case 0xf5 => Goto(RepeatEndMsb)
      case 0xf4 => Goto(RepeatEscapeMsb)
      case 0xf3 => Goto(DetuneMsb)
      case 0xf2 => Goto(PortamentoMsb)
      case 0xf1 => Goto(DataEndMsb)
      case 0xf0 => Goto(KeyOnDelayVal)
      case 0xef => Goto(SyncSendChannel)
      case 0xee => Fire(SyncWait, RawCommand(b, []))
      case 0xed => Goto(AdpcmNoiseFreqVal)
      case 0xec => Goto(LfoB(Pitch))
      case 0xeb => Goto(LfoB(Volume))
      case 0xea => Goto(LfoB(OpmChip))
      case 0xe9 => Goto(LfoDelayVal)
      case 0xe8 => Fire(Pcm8ExpansionShift, RawCommand(b, []))
      case 0xe7 => Goto(FadeOutB1)
      case _ => Fire(UndefinedCommand(b), RawCommand(b, []))
  }

  /** One turn of the decoder's loop: byte `b` read in state `s`. */
  function Step(s: State, b: uint8): (r: StepResult)
    // the dual dispatch: at most one specific hook, and the raw hook right after it
    // unless the command is a rest or a note
    ensures |r.events| <= 2
    ensures |r.events| == 1 ==> r.events[0].Rest? || r.events[0].Note?
    ensures |r.events| == 2 ==> r.events[1].RawCommand? && !r.events[0].RawCommand?
    ensures forall e | e in r.events :: e.IsCommandEvent()
    // only the terminator ends the channel, and it always reports itself
    ensures r.done ==> r.next == Initial && |r.events| == 2 && r.events[1].opcode == 0xf1
    ensures r.done ==> s.DataEndMsb? || s.DataEndLsb?
    // once in the key-on-delay state, the decoder never leaves it
    ensures s == KeyOnDelayVal ==> r.next == KeyOnDelayVal && !r.done
  {
    match s
    case Initial => Dispatch(b)
    case NoteDuration(nn) => StepResult(Initial, One(Note(Uint8(nn - 0x80), Uint8(b as int + 1))), false)
    case TempoVal => Fire(SetTempo(b), RawCommand(0xff, [b]))
    case OpmRegisterNum => Goto(OpmRegisterVal(b))
    case OpmRegisterVal(reg) => Fire(SetOpmRegister(reg, b), RawCommand(0xfe, [reg, b]))
    case VoiceNum => Fire(SetVoiceNum(b), RawCommand(0xfd, [b]))
    case OutputPhaseVal => Fire(OutputPhase(b), RawCommand(0xfc, [b]))
    case VolumeVal => Fire(SetVolume(b), RawCommand(0xfb, [b]))
    case SoundLen => Fire(SoundLength(b), RawCommand(0xf8, [b]))
    case RepeatStartCount =>
      // the count is reported at once; the byte after it is skipped silently
      StepResult(RepeatStartZero, Two(RepeatStart(b), RawCommand(0xf6, [b])), false)
    case RepeatStartZero => Goto(Initial)
    case RepeatEndMsb => Goto(RepeatEndLsb(b))
    case RepeatEndLsb(hi) => Fire(RepeatEnd(Int16(Word(hi, b))), RawCommand(0xf5, [Word(hi, b)]))
    case RepeatEscapeMsb => Goto(RepeatEscapeLsb(b))
    case RepeatEscapeLsb(hi) => Fire(RepeatEscape(Int16(Word(hi, b))), RawCommand(0xf4, [Word(hi, b)]))
    case DetuneMsb => Goto(DetuneLsb(b))
    case DetuneLsb(hi) => Fire(Detune(Int16(Word(hi, b))), RawCommand(0xf3, [Word(hi, b)]))
    case PortamentoMsb => Goto(PortamentoLsb(b))
    case PortamentoLsb(hi) => Fire(Portamento(Int16(Word(hi, b))), RawCommand(0xf2, [Word(hi, b)]))
    case DataEndMsb =>
      if b == 0 then StepResult(Initial, Two(DataEnd, RawCommand(0xf1, [0])), true)
      else Goto(DataEndLsb(b))
    case DataEndLsb(hi) =>
      StepResult(Initial, Two(DataEndAt(Int16(Word(hi, b))), RawCommand(0xf1, [Word(hi, b)])), true)
    case KeyOnDelayVal =>
      // the decoder does not reset its state here, unlike every other one-operand command
      StepResult(KeyOnDelayVal, Two(KeyOnDelay(b), RawCommand(0xf0, [b])), false)
    case SyncSendChannel => Fire(SyncSend(b), RawCommand(0xef, [b]))
    case AdpcmNoiseFreqVal => Fire(AdpcmNoiseFreq(b), RawCommand(0xed, [b]))
    case LfoB(k) =>
      if b == 0x80 then Fire(LfoOff(k), RawCommand(LfoOpcode(k), [b]))
      else if b == 0x81 then Fire(LfoOn(k), RawCommand(LfoOpcode(k), [b]))
      else Goto(LfoPeriodMsb(k, b))
    case LfoPeriodMsb(k, wf) => Goto(LfoPeriodLsb(k, wf, b))
    case LfoPeriodLsb(k, wf, hi) => Goto(LfoChangeMsb(k, wf, Word(hi, b)))
    case LfoChangeMsb(k, wf, p) => Goto(LfoChangeLsb(k, wf, p, b))
    case LfoChangeLsb(k, wf, p, hi) =>
      // the hook takes `uint16_t` operands; the variadic hook gets the `int16_t` locals
      Fire(LfoSet(k, wf, p, Word(hi, b)), RawCommand(LfoOpcode(k), [wf, Int16(p), Int16(Word(hi, b))]))
    case LfoDelayVal => Fire(LfoDelaySetting(b), RawCommand(0xe9, [b]))
    case FadeOutB1 => Goto(FadeOutValue)
    case FadeOutValue => Fire(FadeOut(b), RawCommand(0xe7, [b]))
  }

  /** A byte-at-a-time machine over the decoder's states; the decoder is `Step`. The
      folds below take the machine as a parameter so that facts about the loop
      structure are proved once, independently of the 32-way case split in `Step`. */
  type Machine = (State, uint8) -> StepResult

  /** The result of feeding bytes to the machine: the hooks fired, the state reached,
      and whether the terminator was decoded. */
  datatype Trace = Trace(events: seq<Event>, last: State, done: bool)

  /** Feeds `bs[i..]` to `step` from state `s`, stopping early once a step is done. */
  function Run(step: Machine, s: State, bs: seq<uint8>, i: nat): Trace
    decreases |bs| - i
  {
    if i >= |bs| then Trace([], s, false)
    else
      var r := step(s, bs[i]);
      if r.done then Trace(r.events, r.next, true)
      else
        var t := Run(step, r.next, bs, i + 1);
        Trace(r.events + t.events, t.last, t.done)
  }

  /** A byte that fires nothing and does not end the channel only changes the state. */
  lemma Quiet(step: Machine, s: State, bs: seq<uint8>, i: nat)
    requires i < |bs| && step(s, bs[i]).events == [] && !step(s, bs[i]).done
    ensures Run(step, s, bs, i) == Run(step, step(s, bs[i]).next, bs, i + 1)
  {
  }

  /** The last byte of the input. */
  lemma Last(step: Machine, s: State, bs: seq<uint8>, i: nat)
    requires i + 1 == |bs|
    ensures Run(step, s, bs, i) == Trace(step(s, bs[i]).events, step(s, bs[i]).next, step(s, bs[i]).done)
  {
    var r := step(s, bs[i]);
    if !r.done {
      assert Run(step, r.next, bs, i + 1) == Trace([], r.next, false);
    }
  }

  /** Continues trace `t` with the bytes from `j` on, unless it already ended. */
  function Then(step: Machine, t: Trace, bs: seq<uint8>, j: nat): Trace {
    if t.done then t
    else
      var u := Run(step, t.last, bs, j);
      Trace(t.events + u.events, u.last, u.done)
  }

  /** Feeding a stream is feeding a prefix of it and then the rest. */
  lemma {:induction false} RunSplit(step: Machine, s: State, bs: seq<uint8>, i: nat, j: nat)
    requires i <= j <= |bs|
    ensures Run(step, s, bs, i) == Then(step, Run(step, s, bs[..j], i), bs, j)
    decreases j - i
  {
    if i < j {
      var c := bs[..j];
      var r := step(s, bs[i]);
      assert c[i] == bs[i];
      if !r.done {
        RunSplit(step, r.next, bs, i + 1, j);
        var t1 := Run(step, r.next, c, i + 1);
        if !t1.done {
          var u := Run(step, t1.last, bs, j);
          assert r.events + (t1.events + u.events) == (r.events + t1.events) + u.events;
        }
      }
    } else {
      assert Run(step, s, bs[..j], i) == Trace([], s, false);
    }
  }

  /** The channel's read loop from position `pos`. `chanEnd` is the start of the next
      channel, or 0 for the last channel, which has no boundary. */
  function ChannelLoop(step: Machine, data: seq<uint8>, pos: nat, chanEnd: int, s: State): seq<Event>
    decreases |data| - pos
  {
    if pos >= |data| then []
    else
      var r := step(s, data[pos]);
      if r.done || (chanEnd != 0 && pos + 1 >= chanEnd) then r.events
      else r.events + ChannelLoop(step, data, pos + 1, chanEnd, r.next)
  }

  /** Where the loop started at `pos` stops reading when no terminator comes first. */
  function Stop(n: nat, pos: nat, chanEnd: int): (k: nat)
    ensures k <= n
    ensures pos < n ==> pos < k
    ensures chanEnd == 0 ==> k == n
    ensures chanEnd != 0 && pos < chanEnd ==> k == if chanEnd < n then chanEnd else n
    // a boundary at or before the start still lets one byte through
    ensures chanEnd != 0 && chanEnd <= pos < n ==> k == pos + 1
  {
    if chanEnd == 0 then n
    else
      var limit := if chanEnd > pos + 1 then chanEnd else pos + 1;
      if limit < n then limit else n
  }

  /** The boundary is compared after every byte: the loop decodes exactly the bytes up to
      the boundary (at least one byte), even if that cuts a command in two. */
  lemma {:induction false} BoundaryAfterEveryByte(step: Machine, data: seq<uint8>, pos: nat, chanEnd: int, s: State)
    ensures ChannelLoop(step, data, pos, chanEnd, s) == Run(step, s, data[..Stop(|data|, pos, chanEnd)], pos).events
    decreases |data| - pos
  {
    var k := Stop(|data|, pos, chanEnd);
    var c := data[..k];
    if pos < |data| {
      var r := step(s, data[pos]);
      assert c[pos] == data[pos];
      if r.done {
      } else if chanEnd != 0 && pos + 1 >= chanEnd {
        assert k == pos + 1;
        assert Run(step, r.next, c, pos + 1) == Trace([], r.next, false);
      } else {
        BoundaryAfterEveryByte(step, data, pos + 1, chanEnd, r.next);
        assert Stop(|data|, pos + 1, chanEnd) == k;
      }
    }
  }

  /** The C++ read loop over the stream from `start`, with the machine as a parameter. */
  method ReadLoop(step: Machine, data: seq<uint8>, start: nat, chanEnd: int) returns (events: seq<Event>)
    ensures events == ChannelLoop(step, data, start, chanEnd, Initial)
    ensures events == Run(step, Initial, data[..Stop(|data|, start, chanEnd)], start).events
  {
    events := [];
    var pos := start;
    var state := Initial;
    var done := false;
    while pos < |data| && !done
      invariant done ==> events == ChannelLoop(step, data, start, chanEnd, Initial)
      invariant !done ==> events + ChannelLoop(step, data, pos, chanEnd, state) == ChannelLoop(step, data, start, chanEnd, Initial)
      decreases |data| - pos
    {
      var r := step(state, data[pos]);
      pos := pos + 1;
      events := events + r.events;
      state := r.next;
      done := r.done;
      if chanEnd != 0 && pos >= chanEnd {
        break;
      }
    }
    BoundaryAfterEveryByte(step, data, start, chanEnd, Initial);
  }

  /** The events of one channel: the read loop driven by the decoder's state machine. */
  function DecodeChannel(data: seq<uint8>, start: nat, chanEnd: int): (evs: seq<Event>)
    ensures forall e | e in evs :: e.IsCommandEvent()
  {
    CommandEventsOnly(data, start, chanEnd, Initial);
    ChannelLoop(Step, data, start, chanEnd, Initial)
  }

  /** A channel's stream never produces header, voice or channel start/end events. */
  lemma {:induction false} CommandEventsOnly(data: seq<uint8>, pos: nat, chanEnd: int, s: State)
    ensures forall e | e in ChannelLoop(Step, data, pos, chanEnd, s) :: e.IsCommandEvent()
    decreases |data| - pos
  {
    if pos < |data| {
      var r := Step(s, data[pos]);
      if !(r.done || (chanEnd != 0 && pos + 1 >= chanEnd)) {
        CommandEventsOnly(data, pos + 1, chanEnd, r.next);
      }
    }
  }
}
