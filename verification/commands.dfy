/** A command-level reading of a channel's stream, and its agreement with the
byte-level state machine.

`Parse` reads one whole command the way the command table describes it: the opcode,
then its operand count, then the two hooks it fires. It knows nothing of the
machine's states. The lemmas below show that feeding the same bytes to `Step` one at
a time fires exactly the same hooks, command by command, including what happens to a
command cut short by the end of the bytes and the key-on-delay opcode 0xf0, after
which the machine never returns to its initial state.
*/
module Commands {
  import opened Bytes
  import opened Events
  import opened Channel

  /** One command: the hooks it fires, how many bytes it spans, whether it ends the
      channel, and whether all its bytes were there (and the machine is back in its
      initial state afterwards). */
  datatype Parsed = Parsed(events: seq<Event>, length: nat, ends: bool, complete: bool)

  /** A command the end of the bytes cut short before it fired anything. */
  function Cut(bs: seq<uint8>, i: nat): Parsed
    requires i < |bs|
  {
    Parsed([], |bs| - i, false, false)
  }

  /** A complete command of `len` bytes firing a specific hook and then the raw one. */
  function Pair(e: Event, op: uint8, values: seq<int>, len: nat): Parsed {
    Parsed([e, RawCommand(op, values)], len, false, true)
  }

  /** Operand counts of the commands whose length does not depend on their operands. */
  function Arity(op: uint8): (n: nat)
    ensures n <= 2
  {
    if op in {0xfa, 0xf9, 0xf7, 0xee, 0xe8} then 0
    else if op in {0xff, 0xfd, 0xfc, 0xfb, 0xf8, 0xef, 0xed, 0xe9} then 1
    else 2
  }

  predicate FixedArity(op: uint8) {
    op in {0xfa, 0xf9, 0xf7, 0xee, 0xe8,
           0xff, 0xfd, 0xfc, 0xfb, 0xf8, 0xef, 0xed, 0xe9,
           0xfe, 0xf6, 0xf5, 0xf4, 0xf3, 0xf2, 0xe7}
  }

  /** The hooks 0xf0 fires for every byte from `i` on: one key-on delay each. */
  function KeyOnDelays(bs: seq<uint8>, i: nat): (evs: seq<Event>)
    ensures |evs| == if i <= |bs| then 2 * (|bs| - i) else 0
    decreases |bs| - i
  {
    if i >= |bs| then []
    else [KeyOnDelay(bs[i]), RawCommand(0xf0, [bs[i]])] + KeyOnDelays(bs, i + 1)
  }

  /** The commands with one operand byte, 0xf0 aside. */
  predicate OneOperand(op: uint8) {
    op in {0xff, 0xfd, 0xfc, 0xfb, 0xf8, 0xef, 0xed, 0xe9}
  }

  /** The commands with one big-endian 16-bit operand passed to an `int16_t` hook. */
  predicate WordOperand(op: uint8) {
    op in {0xf5, 0xf4, 0xf3, 0xf2}
  }

  /** The specific hook of a one-operand command. */
  function OneOperandHook(op: uint8, x: uint8): Event
    requires OneOperand(op)
  {
    if op == 0xff then SetTempo(x)
    else if op == 0xfd then SetVoiceNum(x)
    else if op == 0xfc then OutputPhase(x)
    else if op == 0xfb then SetVolume(x)
    else if op == 0xf8 then SoundLength(x)
    else if op == 0xef then SyncSend(x)
    else if op == 0xed then AdpcmNoiseFreq(x)
    else LfoDelaySetting(x)
  }

  /** The specific hook of a 16-bit-operand command. */
  function WordHook(op: uint8, x: int16): Event
    requires WordOperand(op)
  {
    if op == 0xf5 then RepeatEnd(x)
    else if op == 0xf4 then RepeatEscape(x)
    else if op == 0xf3 then Detune(x)
    else Portamento(x)
  }

  /** An LFO command of family `k`: 0x80 and 0x81 switch it off and on, any other
      operand is a waveform followed by a 16-bit period and a 16-bit change. */
  function Lfo(bs: seq<uint8>, i: nat, k: LfoKind): Parsed
    requires i < |bs|
  {
    if i + 2 > |bs| then Cut(bs, i)
    else if bs[i + 1] == 0x80 then Pair(LfoOff(k), bs[i], [0x80], 2)
    else if bs[i + 1] == 0x81 then Pair(LfoOn(k), bs[i], [0x81], 2)
    else if i + 6 > |bs| then Cut(bs, i)
    else
      var period := Word(bs[i + 2], bs[i + 3]);
      var change := Word(bs[i + 4], bs[i + 5]);
      Pair(LfoSet(k, bs[i + 1], period, change), bs[i], [bs[i + 1], Int16(period), Int16(change)], 6)
  }

  /** The command starting at `bs[i]`, read with the command table. */
  function Parse(bs: seq<uint8>, i: nat): (p: Parsed)
    requires i < |bs|
    ensures 1 <= p.length <= |bs| - i
    ensures !p.complete ==> i + p.length == |bs|
    // only the terminator ends a channel
    ensures p.ends ==> p.complete && bs[i] == 0xf1
    // rests and notes fire one hook and never the raw one; every other command fires the raw one last
    ensures bs[i] < 0xdf && p.complete ==> |p.events| == 1 && (p.events[0].Rest? || p.events[0].Note?)
    ensures bs[i] >= 0xdf && bs[i] != 0xf0 && p.complete ==> |p.events| == 2 && p.events[1].RawCommand? && p.events[1].opcode == bs[i]
    // a command cut short fires nothing, except the repeat start that already reported its count
    ensures !p.complete && bs[i] != 0xf6 && bs[i] != 0xf0 ==> p.events == []
    // fixed-arity commands span their opcode and their operands
    ensures FixedArity(bs[i]) && p.complete ==> p.length == 1 + Arity(bs[i])
    ensures FixedArity(bs[i]) && i + 1 + Arity(bs[i]) <= |bs| ==> p.complete
    // 0xf0 never completes: it takes every byte that follows
    ensures bs[i] == 0xf0 ==> !p.complete && p.events == KeyOnDelays(bs, i + 1)
  {
    var op := bs[i];
    if op <= 0x7f then Parsed([Rest(op + 1)], 1, false, true)
    else if op < 0xdf then
      if i + 2 <= |bs| then Parsed([Note(op - 0x80, Uint8(bs[i + 1] as int + 1))], 2, false, true) else Cut(bs, i)
    else if OneOperand(op) then
      if i + 2 <= |bs| then Pair(OneOperandHook(op, bs[i + 1]), op, [bs[i + 1]], 2) else Cut(bs, i)
    else if WordOperand(op) then
      if i + 3 <= |bs| then
        var w := Word(bs[i + 1], bs[i + 2]);
        Pair(WordHook(op, Int16(w)), op, [w], 3)
      else Cut(bs, i)
    else
      match op
      case 0xfe =>
        if i + 3 <= |bs| then Pair(SetOpmRegister(bs[i + 1], bs[i + 2]), op, [bs[i + 1], bs[i + 2]], 3)
        else Cut(bs, i)
      case 0xfa => Pair(VolumeDec, op, [], 1)
      case 0xf9 => Pair(VolumeInc, op, [], 1)
      case 0xf7 => Pair(DisableKeyOff, op, [], 1)
      case 0xf6 =>
        // the count is reported before the reserved byte that follows it is read
        if i + 3 <= |bs| then Pair(RepeatStart(bs[i + 1]), op, [bs[i + 1]], 3)
        else if i + 2 <= |bs| then Parsed([RepeatStart(bs[i + 1]), RawCommand(op, [bs[i + 1]])], 2, false, false)
        else Cut(bs, i)
      case 0xf1 =>
        if i + 2 > |bs| then Cut(bs, i)
        else if bs[i + 1] == 0 then Parsed([DataEnd, RawCommand(op, [0])], 2, true, true)
        else if i + 3 <= |bs| then
          var w := Word(bs[i + 1], bs[i + 2]);
          Parsed([DataEndAt(Int16(w)), RawCommand(op, [w])], 3, true, true)
        else Cut(bs, i)
      case 0xf0 => Parsed(KeyOnDelays(bs, i + 1), |bs| - i, false, false)
      case 0xee => Pair(SyncWait, op, [], 1)
      case 0xec => Lfo(bs, i, Pitch)
      case 0xeb => Lfo(bs, i, Volume)
      case 0xea => Lfo(bs, i, OpmChip)
      case 0xe8 => Pair(Pcm8ExpansionShift, op, [], 1)
      case 0xe7 =>
        // the first operand byte is reserved and ignored
        if i + 3 <= |bs| then Pair(FadeOut(bs[i + 2]), op, [bs[i + 2]], 3) else Cut(bs, i)
      case _ => Pair(UndefinedCommand(op), op, [], 1)
  }

  /** The stream from `i` read command by command, up to the terminator or the end. */
  function Commands(bs: seq<uint8>, i: nat): seq<Event>
    decreases |bs| - i
  {
    if i >= |bs| then []
    else
      var p := Parse(bs, i);
      p.events + (if p.ends || !p.complete then [] else Commands(bs, i + p.length))
  }

  /** What feeding the bytes of command `p` to `step` from `i` on must give: the same
      hooks, the same end-of-channel flag, and the initial state again once the command
      is complete. */
  predicate Follows(step: Machine, bs: seq<uint8>, i: nat, p: Parsed)
    requires i + p.length <= |bs|
  {
    var t := Run(step, Initial, bs[..i + p.length], i);
    t.events == p.events && t.done == p.ends && (p.complete ==> t.last == Initial)
  }

  /** The command table and the decoder agree on the command at `i`. */
  predicate Agrees(bs: seq<uint8>, i: nat)
    requires i < |bs|
  {
    Follows(Step, bs, i, Parse(bs, i))
  }

  /** One byte that completes what command `p` fires. */
  predicate Fires(r: StepResult, p: Parsed) {
    r.events == p.events && r.done == p.ends && (p.complete ==> r.next == Initial)
  }

  // The lemmas below hold for any machine; they are used with `Step` and a known
  // opcode, so that only the states a command actually visits are ever evaluated.

  lemma Follows1(step: Machine, bs: seq<uint8>, i: nat, p: Parsed)
    requires p.length == 1 && i + 1 <= |bs|
    requires Fires(step(Initial, bs[i]), p)
    ensures Follows(step, bs, i, p)
  {
    Last(step, Initial, bs[..i + 1], i);
  }

  lemma Follows2(step: Machine, bs: seq<uint8>, i: nat, p: Parsed, s1: State)
    requires p.length == 2 && i + 2 <= |bs|
    requires step(Initial, bs[i]) == Goto(s1)
    requires Fires(step(s1, bs[i + 1]), p)
    ensures Follows(step, bs, i, p)
  {
    var c := bs[..i + 2];
    Quiet(step, Initial, c, i);
    Last(step, s1, c, i + 1);
  }

  /** A three-byte command; its second byte may already fire hooks (0xf6 does). */
  lemma Follows3(step: Machine, bs: seq<uint8>, i: nat, p: Parsed, s1: State)
    requires p.length == 3 && i + 3 <= |bs|
    requires step(Initial, bs[i]) == Goto(s1) && !step(s1, bs[i + 1]).done
    requires var r1 := step(s1, bs[i + 1]); var r2 := step(r1.next, bs[i + 2]);
      r1.events + r2.events == p.events && r2.done == p.ends && (p.complete ==> r2.next == Initial)
    ensures Follows(step, bs, i, p)
  {
    var c := bs[..i + 3];
    Quiet(step, Initial, c, i);
    Last(step, step(s1, c[i + 1]).next, c, i + 2);
  }

  /** Bytes that only move the machine along `path`. */
  lemma {:induction false} QuietPath(step: Machine, bs: seq<uint8>, i: nat, path: seq<State>)
    requires |path| >= 1 && i + |path| <= |bs|
    requires forall j :: 0 <= j < |path| - 1 ==> step(path[j], bs[i + j]) == Goto(path[j + 1])
    ensures Run(step, path[0], bs, i) == Run(step, path[|path| - 1], bs, i + |path| - 1)
    decreases |path|
  {
    if |path| > 1 {
      assert step(path[0], bs[i]) == Goto(path[1]);
      Quiet(step, path[0], bs, i);
      var rest := path[1..];
      forall j | 0 <= j < |rest| - 1
        ensures step(rest[j], bs[i + 1 + j]) == Goto(rest[j + 1])
      {
        assert rest[j] == path[j + 1] && rest[j + 1] == path[j + 2];
      }
      QuietPath(step, bs, i + 1, rest);
    }
  }

  /** A command whose bytes only move the machine along `path`, except the last. */
  lemma FollowsPath(step: Machine, bs: seq<uint8>, i: nat, p: Parsed, path: seq<State>)
    requires |path| == p.length >= 1 && i + p.length <= |bs| && path[0] == Initial
    requires forall j :: 0 <= j < |path| - 1 ==> step(path[j], bs[i + j]) == Goto(path[j + 1])
    requires Fires(step(path[|path| - 1], bs[i + |path| - 1]), p)
    ensures Follows(step, bs, i, p)
  {
    var c := bs[..i + p.length];
    forall j | 0 <= j < |path| - 1
      ensures step(path[j], c[i + j]) == Goto(path[j + 1])
    {
      assert c[i + j] == bs[i + j];
    }
    QuietPath(step, c, i, path);
    Last(step, path[|path| - 1], c, i + |path| - 1);
  }

  lemma AgreeRest(bs: seq<uint8>, i: nat)
    requires i < |bs| && bs[i] <= 0x7f
    ensures Agrees(bs, i)
  {
    assert Parse(bs, i) == Parsed([Rest(bs[i] + 1)], 1, false, true);
    Follows1(Step, bs, i, Parse(bs, i));
  }

  lemma AgreeNote(bs: seq<uint8>, i: nat)
    requires i < |bs| && 0x80 <= bs[i] < 0xdf
    ensures Agrees(bs, i)
  {
    var p := Parse(bs, i);
    if i + 2 <= |bs| {
      assert p == Parsed([Note(bs[i] - 0x80, Uint8(bs[i + 1] as int + 1))], 2, false, true);
      Follows2(Step, bs, i, p, NoteDuration(bs[i]));
    } else {
      assert p == Cut(bs, i);
      Follows1(Step, bs, i, p);
    }
  }

  /** Commands with no operand, including the opcodes the decoder does not know. */
  lemma AgreeNoOperand(bs: seq<uint8>, i: nat)
    requires i < |bs| && bs[i] >= 0xdf
    requires bs[i] in {0xfa, 0xf9, 0xf7, 0xee, 0xe8} || 0xdf <= bs[i] <= 0xe6
    ensures Agrees(bs, i)
  {
    var op := bs[i];
    var p := Parse(bs, i);
    if op == 0xfa {
      assert p == Pair(VolumeDec, 0xfa, [], 1);
    } else if op == 0xf9 {
      assert p == Pair(VolumeInc, 0xf9, [], 1);
    } else if op == 0xf7 {
      assert p == Pair(DisableKeyOff, 0xf7, [], 1);
    } else if op == 0xee {
      assert p == Pair(SyncWait, 0xee, [], 1);
    } else if op == 0xe8 {
      assert p == Pair(Pcm8ExpansionShift, 0xe8, [], 1);
    } else {
      assert p == Pair(UndefinedCommand(op), op, [], 1);
    }
    Follows1(Step, bs, i, p);
  }

  /** A one-operand command whose opcode leads to state `s1`, which fires its hook on the next byte. */
  lemma AgreeOneOperandVia(bs: seq<uint8>, i: nat, s1: State)
    requires i < |bs| && OneOperand(bs[i])
    requires Step(Initial, bs[i]) == Goto(s1)
    requires i + 2 <= |bs| ==> Step(s1, bs[i + 1]) == Fire(OneOperandHook(bs[i], bs[i + 1]), RawCommand(bs[i], [bs[i + 1]]))
    ensures Agrees(bs, i)
  {
    var p := Parse(bs, i);
    if i + 2 <= |bs| {
      assert p == Pair(OneOperandHook(bs[i], bs[i + 1]), bs[i], [bs[i + 1]], 2);
      Follows2(Step, bs, i, p, s1);
    } else {
      assert p == Cut(bs, i);
      Follows1(Step, bs, i, p);
    }
  }

  /** Commands with one operand byte (0xf0 excepted). */
  lemma AgreeOneOperand(bs: seq<uint8>, i: nat)
    requires i < |bs| && OneOperand(bs[i])
    ensures Agrees(bs, i)
  {
    if bs[i] == 0xff {
      AgreeOneOperandVia(bs, i, TempoVal);
    } else if bs[i] == 0xfd {
      AgreeOneOperandVia(bs, i, VoiceNum);
    } else if bs[i] == 0xfc {
      AgreeOneOperandVia(bs, i, OutputPhaseVal);
    } else if bs[i] == 0xfb {
      AgreeOneOperandVia(bs, i, VolumeVal);
    } else if bs[i] == 0xf8 {
      AgreeOneOperandVia(bs, i, SoundLen);
    } else if bs[i] == 0xef {
      AgreeOneOperandVia(bs, i, SyncSendChannel);
    } else if bs[i] == 0xed {
      AgreeOneOperandVia(bs, i, AdpcmNoiseFreqVal);
    } else {
      AgreeOneOperandVia(bs, i, LfoDelayVal);
    }
  }

  /** A command of up to three bytes cut short by the end of the stream: its opcode
      leads to `s1`, and a second byte, if there is one, to some other state. */
  lemma AgreeCut(bs: seq<uint8>, i: nat, s1: State)
    requires i < |bs| <= i + 2 && Parse(bs, i) == Cut(bs, i)
    requires Step(Initial, bs[i]) == Goto(s1)
    requires |bs| == i + 2 ==> Step(s1, bs[i + 1]).out.Silent? && !Step(s1, bs[i + 1]).done
    ensures Agrees(bs, i)
  {
    var p := Cut(bs, i);
    if |bs| == i + 2 {
      Follows2(Step, bs, i, p, s1);
    } else {
      Follows1(Step, bs, i, p);
    }
  }

  /** A word-operand command whose opcode leads to `s1` and whose high byte leads to `s2`. */
  lemma AgreeWordOperandVia(bs: seq<uint8>, i: nat, s1: State, s2: State)
    requires i < |bs| && WordOperand(bs[i])
    requires Step(Initial, bs[i]) == Goto(s1)
    requires i + 2 <= |bs| ==> Step(s1, bs[i + 1]) == Goto(s2)
    requires i + 3 <= |bs| ==>
      var w := Word(bs[i + 1], bs[i + 2]);
      Step(s2, bs[i + 2]) == Fire(WordHook(bs[i], Int16(w)), RawCommand(bs[i], [w]))
    ensures Agrees(bs, i)
  {
    var p := Parse(bs, i);
    if i + 3 <= |bs| {
      var w := Word(bs[i + 1], bs[i + 2]);
      assert p == Pair(WordHook(bs[i], Int16(w)), bs[i], [w], 3);
      Follows3(Step, bs, i, p, s1);
    } else {
      assert p == Cut(bs, i);
      AgreeCut(bs, i, s1);
    }
  }

  /** Commands with one big-endian 16-bit operand. */
  lemma AgreeWordOperand(bs: seq<uint8>, i: nat)
    requires i < |bs| && WordOperand(bs[i])
    ensures Agrees(bs, i)
  {
    var hi := if i + 1 < |bs| then bs[i + 1] else 0;
    if bs[i] == 0xf5 {
      AgreeWordOperandVia(bs, i, RepeatEndMsb, RepeatEndLsb(hi));
    } else if bs[i] == 0xf4 {
      AgreeWordOperandVia(bs, i, RepeatEscapeMsb, RepeatEscapeLsb(hi));
    } else if bs[i] == 0xf3 {
      AgreeWordOperandVia(bs, i, DetuneMsb, DetuneLsb(hi));
    } else {
      AgreeWordOperandVia(bs, i, PortamentoMsb, PortamentoLsb(hi));
    }
  }

  /** 0xfe: an OPM register and the value written to it. */
  lemma AgreeOpmRegister(bs: seq<uint8>, i: nat)
    requires i < |bs| && bs[i] == 0xfe
    ensures Agrees(bs, i)
  {
    var p := Parse(bs, i);
    if i + 3 <= |bs| {
      assert p == Pair(SetOpmRegister(bs[i + 1], bs[i + 2]), 0xfe, [bs[i + 1], bs[i + 2]], 3);
      Follows3(Step, bs, i, p, OpmRegisterNum);
    } else {
      assert p == Cut(bs, i);
      AgreeCut(bs, i, OpmRegisterNum);
    }
  }

  /** 0xe7: a reserved byte, then the fade-out speed. */
  lemma AgreeFadeOut(bs: seq<uint8>, i: nat)
    requires i < |bs| && bs[i] == 0xe7
    ensures Agrees(bs, i)
  {
    var p := Parse(bs, i);
    if i + 3 <= |bs| {
      assert p == Pair(FadeOut(bs[i + 2]), 0xe7, [bs[i + 2]], 3);
      Follows3(Step, bs, i, p, FadeOutB1);
    } else {
      assert p == Cut(bs, i);
      AgreeCut(bs, i, FadeOutB1);
    }
  }

  /** 0xf6 reports its count before it skips the reserved byte. */
  lemma AgreeRepeatStart(bs: seq<uint8>, i: nat)
    requires i < |bs| && bs[i] == 0xf6
    ensures Agrees(bs, i)
  {
    var p := Parse(bs, i);
    if i + 3 <= |bs| {
      assert p == Pair(RepeatStart(bs[i + 1]), 0xf6, [bs[i + 1]], 3);
      Follows3(Step, bs, i, p, RepeatStartCount);
    } else if i + 2 <= |bs| {
      assert p == Parsed([RepeatStart(bs[i + 1]), RawCommand(0xf6, [bs[i + 1]])], 2, false, false);
      Follows2(Step, bs, i, p, RepeatStartCount);
    } else {
      assert p == Cut(bs, i);
      Follows1(Step, bs, i, p);
    }
  }

  /** 0xf1: the end of the channel, with a loop offset when its first operand is nonzero. */
  lemma AgreeDataEnd(bs: seq<uint8>, i: nat)
    requires i < |bs| && bs[i] == 0xf1
    ensures Agrees(bs, i)
  {
    var p := Parse(bs, i);
    if i + 2 <= |bs| && bs[i + 1] == 0 {
      assert p == Parsed([DataEnd, RawCommand(0xf1, [0])], 2, true, true);
      Follows2(Step, bs, i, p, DataEndMsb);
    } else if i + 3 <= |bs| {
      var w := Word(bs[i + 1], bs[i + 2]);
      assert p == Parsed([DataEndAt(Int16(w)), RawCommand(0xf1, [w])], 3, true, true);
      Follows3(Step, bs, i, p, DataEndMsb);
    } else {
      assert p == Cut(bs, i);
      AgreeCut(bs, i, DataEndMsb);
    }
  }

  /** The state an LFO setting of family `k` has reached after its first `j` bytes. */
  function LfoState(bs: seq<uint8>, i: nat, k: LfoKind, j: nat): State
    requires j <= 5 && i + j <= |bs|
  {
    if j == 0 then Initial
    else if j == 1 then LfoB(k)
    else if j == 2 then LfoPeriodMsb(k, bs[i + 1])
    else if j == 3 then LfoPeriodLsb(k, bs[i + 1], bs[i + 2])
    else if j == 4 then LfoChangeMsb(k, bs[i + 1], Word(bs[i + 2], bs[i + 3]))
    else LfoChangeLsb(k, bs[i + 1], Word(bs[i + 2], bs[i + 3]), bs[i + 4])
  }

  /** Each byte of an LFO setting but the last only moves the machine on. */
  lemma LfoAdvances(bs: seq<uint8>, i: nat, k: LfoKind, j: nat)
    requires j < 5 && i + j < |bs| && i + 1 < |bs|
    requires Step(Initial, bs[i]) == Goto(LfoB(k)) && bs[i + 1] != 0x80 && bs[i + 1] != 0x81
    ensures Step(LfoState(bs, i, k, j), bs[i + j]) == Goto(LfoState(bs, i, k, j + 1))
  {
  }

  /** The first `n` bytes of an LFO setting only move the machine along its states. */
  lemma LfoPath(bs: seq<uint8>, i: nat, k: LfoKind, n: nat) returns (path: seq<State>)
    requires 2 <= n <= 6 && i + n <= |bs| && Step(Initial, bs[i]) == Goto(LfoB(k))
    requires bs[i + 1] != 0x80 && bs[i + 1] != 0x81
    ensures |path| == n && path[0] == Initial && path[n - 1] == LfoState(bs, i, k, n - 1)
    ensures forall j :: 0 <= j < n - 1 ==> Step(path[j], bs[i + j]) == Goto(path[j + 1])
  {
    path := seq(n, j requires 0 <= j < n => LfoState(bs, i, k, j));
    forall j | 0 <= j < n - 1
      ensures Step(path[j], bs[i + j]) == Goto(path[j + 1])
    {
      LfoAdvances(bs, i, k, j);
    }
  }

  /** An LFO setting: a waveform, then the period and the change as big-endian words. */
  lemma AgreeLfoSetting(bs: seq<uint8>, i: nat, k: LfoKind)
    requires i + 6 <= |bs| && Step(Initial, bs[i]) == Goto(LfoB(k)) && bs[i] == LfoOpcode(k)
    requires bs[i + 1] != 0x80 && bs[i + 1] != 0x81
    ensures Follows(Step, bs, i, Lfo(bs, i, k))
  {
    var period := Word(bs[i + 2], bs[i + 3]);
    var change := Word(bs[i + 4], bs[i + 5]);
    var p := Pair(LfoSet(k, bs[i + 1], period, change), bs[i], [bs[i + 1], Int16(period), Int16(change)], 6);
    assert Lfo(bs, i, k) == p;
    var path := LfoPath(bs, i, k, 6);
    FollowsPath(Step, bs, i, p, path);
  }

  /** An LFO setting cut short by the end of the stream. */
  lemma AgreeLfoCut(bs: seq<uint8>, i: nat, k: LfoKind)
    requires i + 2 <= |bs| < i + 6 && Step(Initial, bs[i]) == Goto(LfoB(k))
    requires bs[i + 1] != 0x80 && bs[i + 1] != 0x81
    ensures Follows(Step, bs, i, Lfo(bs, i, k))
  {
    var p := Cut(bs, i);
    assert Lfo(bs, i, k) == p;
    var n := |bs| - i;
    var path := LfoPath(bs, i, k, n);
    LfoAdvances(bs, i, k, n - 1);
    FollowsPath(Step, bs, i, p, path);
  }

  /** An LFO command of family `k`: switch off (0x80), switch on (0x81) or a full setting. */
  lemma AgreeLfoKind(bs: seq<uint8>, i: nat, k: LfoKind)
    requires i < |bs| && Step(Initial, bs[i]) == Goto(LfoB(k)) && bs[i] == LfoOpcode(k)
    ensures Follows(Step, bs, i, Lfo(bs, i, k))
  {
    var p := Lfo(bs, i, k);
    if i + 2 > |bs| {
      Follows1(Step, bs, i, p);
    } else if bs[i + 1] == 0x80 || bs[i + 1] == 0x81 {
      Follows2(Step, bs, i, p, LfoB(k));
    } else if i + 6 <= |bs| {
      AgreeLfoSetting(bs, i, k);
    } else {
      AgreeLfoCut(bs, i, k);
    }
  }

  lemma AgreeLfo(bs: seq<uint8>, i: nat)
    requires i < |bs| && bs[i] in {0xec, 0xeb, 0xea}
    ensures Agrees(bs, i)
  {
    if bs[i] == 0xec {
      assert Parse(bs, i) == Lfo(bs, i, Pitch);
      AgreeLfoKind(bs, i, Pitch);
    } else if bs[i] == 0xeb {
      assert Parse(bs, i) == Lfo(bs, i, Volume);
      AgreeLfoKind(bs, i, Volume);
    } else {
      assert Parse(bs, i) == Lfo(bs, i, OpmChip);
      AgreeLfoKind(bs, i, OpmChip);
    }
  }

  /** In the key-on-delay state every byte fires a key-on delay and the state stays. */
  lemma {:induction false} KeyOnDelayAbsorbs(bs: seq<uint8>, i: nat)
    ensures Run(Step, KeyOnDelayVal, bs, i) == Trace(KeyOnDelays(bs, i), KeyOnDelayVal, false)
    decreases |bs| - i
  {
    if i < |bs| {
      KeyOnDelayAbsorbs(bs, i + 1);
    }
  }

  lemma AgreeKeyOnDelay(bs: seq<uint8>, i: nat)
    requires i < |bs| && bs[i] == 0xf0
    ensures Agrees(bs, i)
  {
    assert Parse(bs, i) == Parsed(KeyOnDelays(bs, i + 1), |bs| - i, false, false);
    assert bs[..i + Parse(bs, i).length] == bs;
    Quiet(Step, Initial, bs, i);
    KeyOnDelayAbsorbs(bs, i + 1);
  }

  /** Every command fires on the machine exactly the hooks the command table says. */
  lemma ParseAgrees(bs: seq<uint8>, i: nat)
    requires i < |bs|
    ensures Agrees(bs, i)
  {
    var op := bs[i];
    if op <= 0x7f {
      AgreeRest(bs, i);
    } else if op < 0xdf {
      AgreeNote(bs, i);
    } else if op in {0xfa, 0xf9, 0xf7, 0xee, 0xe8} || op <= 0xe6 {
      AgreeNoOperand(bs, i);
    } else if OneOperand(op) {
      AgreeOneOperand(bs, i);
    } else if WordOperand(op) {
      AgreeWordOperand(bs, i);
    } else if op == 0xfe {
      AgreeOpmRegister(bs, i);
    } else if op == 0xe7 {
      AgreeFadeOut(bs, i);
    } else if op == 0xf6 {
      AgreeRepeatStart(bs, i);
    } else if op == 0xf1 {
      AgreeDataEnd(bs, i);
    } else if op == 0xf0 {
      AgreeKeyOnDelay(bs, i);
    } else {
      AgreeLfo(bs, i);
    }
  }

  /** A machine that follows the command table on every command of a stream fires,
      over the whole stream, the hooks of the command-by-command reading. */
  lemma {:induction false} FollowsThroughout(step: Machine, bs: seq<uint8>, i: nat)
    requires forall j :: i <= j < |bs| ==> Follows(step, bs, j, Parse(bs, j))
    ensures Run(step, Initial, bs, i).events == Commands(bs, i)
    decreases |bs| - i
  {
    if i < |bs| {
      var p := Parse(bs, i);
      var k := i + p.length;
      assert Follows(step, bs, i, p);
      var t := Run(step, Initial, bs[..k], i);
      RunSplit(step, Initial, bs, i, k);
      assert Commands(bs, i) == p.events + (if p.ends || !p.complete then [] else Commands(bs, k));
      if p.ends {
        assert Run(step, Initial, bs, i) == t;
      } else if p.complete {
        assert t.last == Initial;
        FollowsThroughout(step, bs, k);
        assert Run(step, Initial, bs, i).events == t.events + Run(step, Initial, bs, k).events;
      } else {
        assert k == |bs|;
        assert Run(step, t.last, bs, k).events == [];
      }
    }
  }

  /** The byte-at-a-time machine and the command-by-command reading fire the same hooks
      on every stream. */
  lemma MachineMatchesCommands(bs: seq<uint8>, i: nat)
    ensures Run(Step, Initial, bs, i).events == Commands(bs, i)
  {
    forall j | i <= j < |bs|
      ensures Follows(Step, bs, j, Parse(bs, j))
    {
      ParseAgrees(bs, j);
    }
    FollowsThroughout(Step, bs, i);
  }

  /** A channel decodes to the command-by-command reading of its bytes up to the
      boundary: a command the boundary cuts short fires nothing (0xf6 and 0xf0 aside,
      which fire as soon as their first operand arrives). */
  lemma ChannelAsCommands(data: seq<uint8>, start: nat, chanEnd: int)
    ensures DecodeChannel(data, start, chanEnd) == Commands(data[..Stop(|data|, start, chanEnd)], start)
  {
    BoundaryAfterEveryByte(Step, data, start, chanEnd, Initial);
    MachineMatchesCommands(data[..Stop(|data|, start, chanEnd)], start);
  }
}
