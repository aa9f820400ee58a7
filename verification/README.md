# MDX decoder model

A Dafny model of the MDX decoder in `MDX.h`: the reader for the X68000 MDX music
format. The decoder reads a file in three stages. It reads the header (title line,
PCM file name, offset table), then the voice table (27-byte FM instrument records),
then each channel's command stream in turn. It reports everything it decodes to a
consumer through overridable hook methods. The model keeps the decoder's structure:

- `bytes.dfy` (`Bytes`): byte and word types, and the C++ conversions the decoder
  relies on. These are truncation to `uint8_t`, reinterpretation as `int16_t`,
  big-endian words, and C++ truncating division and remainder.
- `voices.dfy` (`Voices`): the 27-byte voice record, its field extraction, and the
  voice-table loop.
- `events.dfy` (`Events`): one constructor per hook. The variadic `handleCommand` hook
  becomes `RawCommand(opcode, values)`.
- `channel.dfy` (`Channel`): the channel decoder as a state machine. `Step` is one turn
  of the read loop: the state, a byte, the hooks fired, the next state, and whether the
  channel is done. Folds over any machine model the read loop and its boundary check.
- `commands.dfy` (`Commands`): an independent command-level reading of a channel. It
  takes an opcode, its operand count and its hooks. A proof shows the byte-level
  machine fires exactly the same hooks on every stream.
- `header.dfy` (`Headers`): the header lines, the offset table, and the channel count
  inferred from the first channel offset.
- `mdx.dfy` (`Mdx`): the whole-file decode, and the order of its milestone hooks.
- `names.dfy` (`Names`): the naming helpers for commands, operators, notes and channels.

The stream is a `seq<uint8>`, with running out of bytes as the only stop condition.
Hook calls are values in a sequence of `Event`s, in the order the decoder makes them.

## Model

| member | source | states |
|---|---|---|
| Bytes.Word | MDX.h:317-323 | `(hi << 8) \| lo` has `hi` as its high byte and `lo` as its low byte |
| Bytes.Int16 | MDX.h:165 | the `int16_t` conversion of a word is congruent to it modulo 2^16 and is negative exactly when bit 15 is set |
| Bytes.Int16RoundTrip | MDX.h:165 | converting a word to `int16_t` and back gives the word again |
| Bytes.CRem | MDX.h:537-543 | the C++ remainder: dividend = quotient * divisor + remainder, with the remainder's size below the divisor's and non-negative for a non-negative dividend |
| Bytes.ReadUint16Big | MDX.h:99-100 | a word is read only when two bytes remain; its high byte is the first |
| Voices.Load | MDX.h:28-60 | a record is read only when 27 bytes remain; all fields are in range; number, slot mask and total levels are the record's bytes |
| Voices.LoadThenPack | MDX.h:28-60 | re-encoding a loaded voice gives the record with the bits the decoder ignores cleared, so `load` drops exactly those bits |
| Voices.PackThenLoad | MDX.h:28-60 | loading the encoding of any in-range voice gives that voice back, so no two voices share a record |
| Voices.PackOscThenDecode | MDX.h:36-58 | each operator's fields are decoded from the encoding of that operator alone |
| Voices.OscLocality | MDX.h:36-58 | operator `i` depends only on the six bytes at `3 + i`, `7 + i`, ..., `23 + i` of the record |
| Voices.ReadVoices | MDX.h:108-115 | the table holds one voice per whole 27-byte record from its start to the end of the stream, and none when it starts past the end |
| Voices.ReadVoicesChunks | MDX.h:108-115 | voice `j` of the table is the record loaded at `start + 27 * j`, which lies wholly inside the stream |
| Voices.ReadVoiceTable | MDX.h:108-115 | the read-until-short-read loop yields exactly `ReadVoices` |
| Channel.Step | MDX.h:167-496 | each byte fires at most one specific hook, then the raw hook unless it is a rest or a note; only command hooks fire; only the terminator ends the channel and it always reports itself; the key-on-delay state is never left |
| Channel.RunSplit | MDX.h:167-169 | feeding a stream is feeding a prefix of it and then continuing from the state reached, unless the prefix ended the channel |
| Channel.Stop | MDX.h:118 | where the loop stops reading: the end of the stream for the last channel, else the next channel's start; a boundary at or before the start still lets exactly one byte be decoded |
| Channel.BoundaryAfterEveryByte | MDX.h:497 | the loop decodes exactly the bytes before the boundary, even when that cuts a command in two |
| Channel.ReadLoop | MDX.h:116-500 | the read loop fires the hooks the machine fires on the bytes up to the boundary or the terminator |
| Channel.DecodeChannel | MDX.h:167-498 | a channel fires only command hooks; no header, voice or channel milestone comes from inside a channel |
| Commands.Parse | MDX.h:171-496 | a command spans one byte or more; only 0xf1 ends a channel; a complete command fires the raw hook last with its opcode; fixed-arity commands span their operands; a command cut short fires nothing, except 0xf6 and 0xf0 |
| Commands.ParseAgrees | MDX.h:171-496 | feeding one command's bytes to the machine fires the hooks the command table gives, sets the same end-of-channel flag, and returns the machine to its initial state once the command is complete |
| Commands.KeyOnDelayAbsorbs | MDX.h:370-373 | after 0xf0, every further byte fires a key-on delay and the state never changes |
| Commands.MachineMatchesCommands | MDX.h:167-496 | on every stream, the byte-at-a-time machine fires exactly the hooks of the command-by-command reading |
| Commands.ChannelAsCommands | MDX.h:116-500 | a channel's hooks are the command-by-command reading of its bytes up to the boundary |
| Headers.ReadLine | MDX.h:94-97 | a line is the bytes before the first terminator; the terminator, when the stream holds one, is the byte after the line and is consumed but not kept |
| Headers.ReadLineSplits | MDX.h:94-97 | a line, its terminator (when present) and the rest of the stream make up the stream |
| Headers.CutTitle | MDX.h:95-96 | the title ends where the last carriage return of the line was, and no carriage return follows it |
| Headers.NumChannels | MDX.h:101-102 | the channel count is half the first offset less one, truncated to a byte first and clamped to 16 second: the truncated value when it is at most 16, else 16 |
| Headers.NumChannelsWraps | MDX.h:101-102 | a first offset implying `256 * j + k` channels (`k` up to 16) yields `k` channels |
| Headers.NumChannelsRecovers | MDX.h:101-102 | a table of `k` channel offsets (`k` up to 16) yields `k` channels; a first offset below 2 wraps to 255 and yields 16 |
| Headers.ReadWords | MDX.h:103-105 | the words are read only when the stream holds them all; word `j` is the big-endian word at `pos + 2 * j` |
| Headers.ReadOffsetLoop | MDX.h:103-105 | the offset loop reads exactly `ReadWords` |
| Headers.ReadTable | MDX.h:99-105 | the table is missing exactly when the stream ends inside it. Otherwise it holds the voice offset and `max(1, n)` channel offsets, and `n` is the count implied by the first offset |
| Headers.ReadHeader | MDX.h:93-107 | the header is missing exactly when the offset table is; the PCM file name is the zero-terminated line after the title line; the offsets count from the position after it; the title is cut at its last carriage return |
| Headers.ReadHeaderInOrder | MDX.h:93-107 | reading the header's fields in the decoder's order gives `ReadHeader` |
| Mdx.ChannelReadsItsOwnBytes | MDX.h:117-118 | a channel decodes the commands of its own bytes and no others: the last channel runs to the end of the stream, every other one is cut where the next channel starts |
| Mdx.BlockShape | MDX.h:116-500 | a channel's hooks open with its start hook and close with its end hook, with only command hooks in between |
| Mdx.Decode | MDX.h:85-92 | a file decodes exactly when its header does; the decoded header is well formed |
| Mdx.FileFraming | MDX.h:85-119 | under any well-formed header, the milestone hooks of the decoded file are the header hook, one hook per voice, then each channel's start and end in ascending order |
| Mdx.ChannelFraming | MDX.h:89-91 | with the command hooks left out, the channel loop fires each channel's start and end hook once, channel after channel in ascending order |
| Mdx.ChannelPlaced | MDX.h:89-91 | channel `i`'s hooks come after those of exactly the channels before it (whose milestones are their start and end hooks in order) and before those of the channels after it, so every command hook lies between its own channel's start and end hooks |
| Mdx.ReadChannels | MDX.h:89-91 | the channel loop fires each channel's block in turn |
| Mdx.Load | MDX.h:85-92 | the decoder's top level gives `Decode` |
| Names.CommandName | MDX.h:501-532 | the name table covers 0xe6 up to 0xff; any lower opcode is "Unknown" |
| Names.CommandNameSwapped | MDX.h:522-523 | the table names 0xf9 "Volume decrement", though 0xf9 fires the volume increment, and the other way round for 0xfa |
| Names.OnlyVolumeNamesSwapped | MDX.h:501-532 | the corrected table differs from the written one only at 0xf9 and 0xfa, which trade names |
| Names.NamesMatchHooks | MDX.h:501-532 | with the corrected table, every command from 0xe7 up that fires a hook has the name of that hook |
| Names.VoiceName | MDX.h:533-536 | operators 0, 1, 2, 3 modulo 4 are named M1, M2, C1, C2 respectively |
| Names.VoiceNameLowBits | MDX.h:533-536 | two operator numbers have the same name exactly when their low two bits agree |
| Names.NoteName | MDX.h:537-540 | a note's pitch name is one of the twelve, chosen by the note plus 3 modulo 12; where the C++ remainder indexes the table at all it equals the mathematical one |
| Names.NoteOctave | MDX.h:541-543 | the octave is the note plus 3 divided by 12, rounded down from note -3 up and toward zero below |
| Names.NoteNameOctaveStep | MDX.h:537-543 | twelve notes up, the pitch name repeats and the octave grows by one |
| Names.NoteNameRoundTrip | MDX.h:537-543 | a note's pitch name and octave give the note back |
| Names.ChannelName | MDX.h:544-548 | channels 0-7 are lettered A-H, channels 8-15 P-W, and every other number '!'; the letter of a channel below 16 names that channel |
| Names.ChannelNameRoundTrip | MDX.h:544-548 | channels 0-15 have distinct letters (A-H, then P-W), and each letter names one channel |

## Quirks kept from the code

The model keeps these behaviours of `MDX.h` as they are written:

- Unmapped opcodes (MDX.h:264-266): the switch's default case catches 0xdf and every
  opcode from 0xe0 to 0xe6. Each fires the undefined-command hook and then the raw hook.
- 0xf0, key-on delay (MDX.h:230-232, MDX.h:370-373): the decoder never leaves its
  operand state. Every later byte of the channel is a key-on delay, until the boundary
  or the end of the stream.
- Voice table (MDX.h:108-115): the loop stops only at a short read. It reads records up
  to the end of the file, so channel data after the table is also read as voices.
- Channel boundary (MDX.h:497): the position is compared after every byte, not between
  commands. A command that straddles the next channel's start is cut, and the bytes
  read so far fire only what they already fired.
- Channel offsets (MDX.h:100-105): the decoder always reads the first channel offset,
  and then `numChannels - 1` more. With zero channels it still holds one offset.
- Title (MDX.h:94-96): the title is the line up to 0x1a, read as a C string (up to its
  first zero byte) and cut at its last carriage return. Anything after that return
  goes, not only trailing line terminators.
- Operand types (MDX.h:165, MDX.h:322-323) follow the hook signatures. The repeat, detune, portamento and
  data-end hooks take `int16_t`, and the raw hook receives the unsigned word. The LFO
  hooks take `uint16_t` period and change, and the raw hook receives the `int16_t`
  locals.

## Left out

- FileStream is not part of this model. The stream is a byte sequence, `seek` clears
  the end-of-stream flag, and a read past the end fails. `readLine(t)` is taken to
  return the bytes before the first `t` and to consume that `t` (`Headers.ReadLine`),
  so `file_base` (MDX.h:98) is the position just after the PCM file name's zero byte.
  The end-of-stream flag is set only by a read that finds no byte, so the check after
  each read at MDX.h:167-169 lets a channel's last byte be decoded.
- Headers.ReadHeader: a short read in the header is modelled as a failed header.
  What FileStream returns on a short read is not part of this model.
- Headers.HasTitle: a title line with no carriage return makes the decoder write
  through the null result of `strrchr`, so it is a precondition.
- `readLine`'s maximum line length and its buffer are left out. Lines are unbounded.
- The character-set conversion of the title (iconv) is left out. The title is kept as bytes.
- The `dump` printers and the "Unknown state" message are output only. The unknown-state branch cannot be reached.
- Mdx.ChannelStartPos: `file_base` is a `uint16_t` in the source. The model keeps it
  unbounded, so files whose header lines exceed 64 KiB are not modelled.
- Virtual dispatch is modelled by the event sequence. A consumer's overrides cannot
  change the decoder's behaviour.
- `handlePCM8Enable` is declared but never called by the decoder, so no event models it.
- Names.NoteName: a note whose C++ remainder is negative indexes before the table; it is a precondition.

## Findings

| source | as written | input that shows it | evidently intended | confidence | as-written member | corrected member |
|---|---|---|---|---|---|---|
| MDX.h:522-523 | `commandName` names 0xf9 "Volume decrement" and 0xfa "Volume increment" | the single byte 0xf9: `handleVolumeInc` fires (MDX.h:199-203), yet its name is "Volume decrement" | 0xf9 "Volume increment", 0xfa "Volume decrement", as the decoder and the opcode table of the format have it | high; not executed | Names.CommandNameSwapped | Names.NamesMatchHooks |
