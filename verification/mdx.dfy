/** The whole-file decode: the header, the voice table, then every channel in turn.

The consumer sees one stream of hook calls: the header hook, one voice hook per record
of the voice table, then for each channel its start hook, the hooks of its commands
and its end hook. Channel `i` starts at the base plus its offset and, except for the
last channel, stops at the start of channel `i + 1`.
*/
module Mdx {
  import opened Bytes
  import opened Voices
  import opened Events
  import opened Channel
  import opened Headers
  import Commands

  /** What the decoder keeps of a header it read: counts and offsets that agree. */
  predicate WellFormed(h: Header) {
    h.numChannels <= MaxChannels && |h.channelOffsets| == OffsetCount(h.numChannels)
  }

  /** Where channel `i` starts. */
  function ChannelStartPos(h: Header, i: nat): nat
    requires WellFormed(h) && i < h.numChannels
  {
    h.fileBase + h.channelOffsets[i]
  }

  /** Where channel `i` stops: the start of the next channel, or 0 (no boundary) for the last. */
  function ChanEnd(h: Header, i: nat): (e: int)
    requires WellFormed(h) && i < h.numChannels
    ensures i + 1 < h.numChannels ==> e == ChannelStartPos(h, i + 1)
    ensures i + 1 == h.numChannels ==> e == 0
  {
    if i < h.numChannels as int - 1 then h.fileBase + h.channelOffsets[i + 1] else 0
  }

  /** A channel decodes the commands of its own bytes and no others: the last channel
      runs to the end of the stream, every other one stops where the next one starts. */
  lemma ChannelReadsItsOwnBytes(data: seq<uint8>, h: Header, i: nat)
    requires WellFormed(h) && i < h.numChannels
    ensures i + 1 == h.numChannels ==>
      DecodeChannel(data, ChannelStartPos(h, i), ChanEnd(h, i)) == Commands.Commands(data, ChannelStartPos(h, i))
    ensures i + 1 < h.numChannels && ChannelStartPos(h, i) < ChannelStartPos(h, i + 1) ==>
      var stop := if ChannelStartPos(h, i + 1) < |data| then ChannelStartPos(h, i + 1) else |data|;
      DecodeChannel(data, ChannelStartPos(h, i), ChanEnd(h, i)) == Commands.Commands(data[..stop], ChannelStartPos(h, i))
  {
    Commands.ChannelAsCommands(data, ChannelStartPos(h, i), ChanEnd(h, i));
    assert data[..|data|] == data;
  }

  /** The hooks fired for channel `i`. */
  function ChannelBlock(data: seq<uint8>, h: Header, i: nat): seq<Event>
    requires WellFormed(h) && i < h.numChannels
  {
    [ChannelStart(i)] + DecodeChannel(data, ChannelStartPos(h, i), ChanEnd(h, i)) + [ChannelEnd(i)]
  }

  /** A channel's hooks open with its start hook, close with its end hook, and hold only
      command hooks in between. */
  lemma BlockShape(data: seq<uint8>, h: Header, i: nat)
    requires WellFormed(h) && i < h.numChannels
    ensures var evs := ChannelBlock(data, h, i);
      |evs| >= 2 && evs[0] == ChannelStart(i) && evs[|evs| - 1] == ChannelEnd(i) &&
      forall k :: 0 < k < |evs| - 1 ==> evs[k].IsCommandEvent()
  {
    var body := DecodeChannel(data, ChannelStartPos(h, i), ChanEnd(h, i));
    var evs := ChannelBlock(data, h, i);
    forall k | 0 < k < |evs| - 1
      ensures evs[k].IsCommandEvent()
    {
      assert evs[k] == body[k - 1] && body[k - 1] in body;
    }
  }

  /** The hooks fired for channels `i` up to the last, in ascending order. */
  function Channels(data: seq<uint8>, h: Header, i: nat): seq<Event>
    requires WellFormed(h)
    decreases h.numChannels - i
  {
    if i >= h.numChannels then [] else ChannelBlock(data, h, i) + Channels(data, h, i + 1)
  }

  /** One voice hook per voice of the table, in order. */
  function VoiceEvents(vs: seq<Voice>): (evs: seq<Event>)
    ensures |evs| == |vs|
    ensures forall j :: 0 <= j < |vs| ==> evs[j] == VoiceLoaded(vs[j])
  {
    seq(|vs|, j requires 0 <= j < |vs| => VoiceLoaded(vs[j]))
  }

  datatype Decoded = Decoded(header: Header, voices: seq<Voice>, events: seq<Event>)

  /** Everything after the header: the voice table and the channels. */
  function DecodeBody(data: seq<uint8>, h: Header): (d: Decoded)
    requires WellFormed(h)
    ensures d.header == h && d.voices == ReadVoices(data, h.fileBase + h.voiceOffset)
  {
    var vs := ReadVoices(data, h.fileBase + h.voiceOffset);
    Decoded(h, vs, [HeaderLoaded] + VoiceEvents(vs) + Channels(data, h, 0))
  }

  /** The whole file, or nothing when the stream ends inside the header's offset table. */
  function Decode(data: seq<uint8>): (r: Option<Decoded>)
    requires HasTitle(data)
    ensures r.None? <==> ReadTable(data, FileBase(data)).None?
    ensures r.Some? ==> r.value.header == ReadHeader(data).value && WellFormed(r.value.header)
  {
    match ReadHeader(data)
    case None => None
    case Some(h) => Some(DecodeBody(data, h))
  }

  /** The milestone hooks of a stream: everything but the command hooks. */
  function Milestones(evs: seq<Event>): (ms: seq<Event>)
    ensures |ms| <= |evs|
    ensures forall e | e in ms :: e in evs && !e.IsCommandEvent()
  {
    if evs == [] then []
    else (if evs[0].IsCommandEvent() then [] else [evs[0]]) + Milestones(evs[1..])
  }

  lemma {:induction false} MilestonesAppend(a: seq<Event>, b: seq<Event>)
    ensures Milestones(a + b) == Milestones(a) + Milestones(b)
    decreases |a|
  {
    if a != [] {
      assert (a + b)[1..] == a[1..] + b;
      MilestonesAppend(a[1..], b);
    } else {
      assert a + b == b;
    }
  }

  lemma {:induction false} NoMilestones(evs: seq<Event>)
    requires forall e | e in evs :: e.IsCommandEvent()
    ensures Milestones(evs) == []
    decreases |evs|
  {
    if evs != [] {
      assert forall e | e in evs[1..] :: e in evs;
      NoMilestones(evs[1..]);
    }
  }

  lemma {:induction false} VoiceMilestones(vs: seq<Voice>)
    ensures Milestones(VoiceEvents(vs)) == VoiceEvents(vs)
    decreases |vs|
  {
    if vs != [] {
      assert VoiceEvents(vs) == [VoiceLoaded(vs[0])] + VoiceEvents(vs[1..]);
      MilestonesAppend([VoiceLoaded(vs[0])], VoiceEvents(vs[1..]));
      VoiceMilestones(vs[1..]);
    }
  }

  /** The start and end hooks of channels `i` up to `n - 1`, in ascending order. */
  function Framing(i: nat, n: nat): (fs: seq<Event>)
    ensures |fs| == 2 * (n - i) || (i > n && fs == [])
    decreases n - i
  {
    if i >= n then [] else [ChannelStart(i), ChannelEnd(i)] + Framing(i + 1, n)
  }

  /** The milestones of one channel's hooks are its start and end hooks. */
  lemma BlockMilestones(data: seq<uint8>, h: Header, i: nat)
    requires WellFormed(h) && i < h.numChannels
    ensures Milestones(ChannelBlock(data, h, i)) == [ChannelStart(i), ChannelEnd(i)]
  {
    var body := DecodeChannel(data, ChannelStartPos(h, i), ChanEnd(h, i));
    NoMilestones(body);
    Singleton(ChannelStart(i));
    Singleton(ChannelEnd(i));
    MilestonesAppend([ChannelStart(i)], body);
    MilestonesAppend([ChannelStart(i)] + body, [ChannelEnd(i)]);
  }

  /** With the command hooks left out, the channel loop fires each channel's start and
      end hook once, channel after channel in ascending order. */
  lemma {:induction false} ChannelFraming(data: seq<uint8>, h: Header, i: nat)
    requires WellFormed(h)
    ensures Milestones(Channels(data, h, i)) == Framing(i, h.numChannels)
    decreases h.numChannels - i
  {
    if i < h.numChannels {
      BlockMilestones(data, h, i);
      MilestonesAppend(ChannelBlock(data, h, i), Channels(data, h, i + 1));
      ChannelFraming(data, h, i + 1);
    }
  }

  /** The hooks of the channels before channel `i`, in ascending order. */
  function ChannelsBefore(data: seq<uint8>, h: Header, i: nat): seq<Event>
    requires WellFormed(h) && i <= h.numChannels
  {
    if i == 0 then [] else ChannelsBefore(data, h, i - 1) + ChannelBlock(data, h, i - 1)
  }

  /** One more channel's start and end hooks at the back of the framing. */
  lemma {:induction false} FramingSnoc(j: nat, i: nat)
    requires j <= i
    ensures Framing(j, i + 1) == Framing(j, i) + [ChannelStart(i), ChannelEnd(i)]
    decreases i - j
  {
    if j < i {
      FramingSnoc(j + 1, i);
    }
  }

  /** Where channel `i`'s hooks sit in the channel loop's: after the hooks of exactly the
      channels before it, whose milestones are their start and end hooks in ascending
      order, and before the hooks of the channels after it. Every command hook of the
      channel thus lies between its own start and end hooks. */
  lemma {:induction false} ChannelPlaced(data: seq<uint8>, h: Header, i: nat)
    requires WellFormed(h) && i < h.numChannels
    ensures Channels(data, h, 0) == ChannelsBefore(data, h, i) + ChannelBlock(data, h, i) + Channels(data, h, i + 1)
    ensures Milestones(ChannelsBefore(data, h, i)) == Framing(0, i)
    decreases i
  {
    ChannelsAfter(data, h, i);
    assert Channels(data, h, i) == ChannelBlock(data, h, i) + Channels(data, h, i + 1);
    BeforeMilestones(data, h, i);
  }

  /** The channel loop's hooks are those of the channels before `i` and then the rest. */
  lemma {:induction false} ChannelsAfter(data: seq<uint8>, h: Header, i: nat)
    requires WellFormed(h) && i <= h.numChannels
    ensures Channels(data, h, 0) == ChannelsBefore(data, h, i) + Channels(data, h, i)
    decreases i
  {
    if i > 0 {
      ChannelsAfter(data, h, i - 1);
      var before := ChannelsBefore(data, h, i - 1);
      var block := ChannelBlock(data, h, i - 1);
      assert Channels(data, h, i - 1) == block + Channels(data, h, i);
      assert before + (block + Channels(data, h, i)) == (before + block) + Channels(data, h, i);
    }
  }

  lemma {:induction false} BeforeMilestones(data: seq<uint8>, h: Header, i: nat)
    requires WellFormed(h) && i <= h.numChannels
    ensures Milestones(ChannelsBefore(data, h, i)) == Framing(0, i)
    decreases i
  {
    if i > 0 {
      var before := ChannelsBefore(data, h, i - 1);
      var block := ChannelBlock(data, h, i - 1);
      assert ChannelsBefore(data, h, i) == before + block;
      BeforeMilestones(data, h, i - 1);
      BlockMilestones(data, h, i - 1);
      MilestonesAppend(before, block);
      FramingSnoc(0, i - 1);
      assert Milestones(before + block) == Framing(0, i - 1) + [ChannelStart(i - 1), ChannelEnd(i - 1)];
    }
  }

  lemma Singleton(e: Event)
    requires !e.IsCommandEvent()
    ensures Milestones([e]) == [e]
  {
    assert [e][1..] == [];
  }

  /** The milestones of a decoded file: the header, each voice, then each channel's
      start and end. `DecodeIs` gives the decoded file as the body under its header. */
  lemma FileFraming(data: seq<uint8>, h: Header)
    requires WellFormed(h)
    ensures var d := DecodeBody(data, h);
      Milestones(d.events) == [HeaderLoaded] + VoiceEvents(d.voices) + Framing(0, h.numChannels)
  {
    var d := DecodeBody(data, h);
    MilestonesAppend([HeaderLoaded], VoiceEvents(d.voices));
    MilestonesAppend([HeaderLoaded] + VoiceEvents(d.voices), Channels(data, h, 0));
    VoiceMilestones(d.voices);
    ChannelFraming(data, h, 0);
  }

  lemma DecodeIs(data: seq<uint8>, h: Header)
    requires HasTitle(data) && ReadHeader(data) == Some(h)
    ensures WellFormed(h) && Decode(data) == Some(DecodeBody(data, h))
  {
  }

  /** One more channel of the loop: its block comes next in the file's hooks. */
  lemma ChannelsStep(data: seq<uint8>, h: Header, i: nat, body: seq<Event>)
    requires WellFormed(h) && i < h.numChannels
    requires body == DecodeChannel(data, ChannelStartPos(h, i), ChanEnd(h, i))
    ensures Channels(data, h, i) == [ChannelStart(i)] + body + [ChannelEnd(i)] + Channels(data, h, i + 1)
  {
  }

  /** The decoder's channel loop: each channel read up to the start of the next. */
  method ReadChannels(data: seq<uint8>, h: Header) returns (events: seq<Event>)
    requires WellFormed(h)
    ensures events == Channels(data, h, 0)
  {
    events := [];
    var i := 0;
    while i < h.numChannels
      invariant 0 <= i <= h.numChannels
      invariant events + Channels(data, h, i) == Channels(data, h, 0)
    {
      var body := ReadLoop(Step, data, ChannelStartPos(h, i), ChanEnd(h, i));
      ChannelsStep(data, h, i, body);
      var block := [ChannelStart(i)] + body + [ChannelEnd(i)];
      assert events + Channels(data, h, i) == (events + block) + Channels(data, h, i + 1);
      events := events + block;
      i := i + 1;
    }
    assert events == events + Channels(data, h, i);
  }

  /** The decoder's top level: header, voice table, then the channel loop. */
  method Load(data: seq<uint8>) returns (r: Option<Decoded>)
    requires HasTitle(data)
    ensures r == Decode(data)
  {
    var hr := ReadHeaderInOrder(data);
    if hr.None? {
      return None;
    }
    var h := hr.value;
    DecodeIs(data, h);
    var vs := ReadVoiceTable(data, h.fileBase + h.voiceOffset);
    var channels := ReadChannels(data, h);
    assert DecodeBody(data, h) == Decoded(h, vs, [HeaderLoaded] + VoiceEvents(vs) + channels);
    r := Some(Decoded(h, vs, [HeaderLoaded] + VoiceEvents(vs) + channels));
  }
}
