/** The MDX header: the title line, the PCM file name, and the offset table.

The title runs up to the byte 0x1a and is cut at its last carriage return; the PCM
file name runs up to a zero byte. The position after these two lines is the base
every offset of the table counts from. The table holds the voice-table offset and
one offset per channel; the channel count is not stored but inferred from the first
channel offset, since the first channel's data starts right after the table.
*/
module Headers {
  import opened Bytes

  const TitleEnd: uint8 := 0x1a
  const CarriageReturn: uint8 := 0x0d
  const MaxChannels: nat := 16

  /** The first position at or after `pos` that holds `t`, or the end of the stream. */
  function Find(data: seq<uint8>, pos: nat, t: uint8): (k: nat)
    requires pos <= |data|
    ensures pos <= k <= |data|
    ensures forall j :: pos <= j < k ==> data[j] != t
    ensures k < |data| ==> data[k] == t
    decreases |data| - pos
  {
    if pos == |data| || data[pos] == t then pos else Find(data, pos + 1, t)
  }

  /** A line of the stream and the position after it. */
  datatype Line = Line(text: seq<uint8>, next: nat)

  /** The bytes up to the terminator `t`, which is consumed but not kept; a line that
      runs to the end of the stream has no terminator. */
  function ReadLine(data: seq<uint8>, pos: nat, t: uint8): (l: Line)
    requires pos <= |data|
    ensures t !in l.text
    ensures l.next <= |data|
    ensures pos + |l.text| <= l.next <= pos + |l.text| + 1
    ensures l.text == data[pos..pos + |l.text|]
    ensures l.next == pos + |l.text| + 1 <==> pos + |l.text| < |data|
    ensures l.next == pos + |l.text| + 1 ==> data[pos + |l.text|] == t
  {
    var k := Find(data, pos, t);
    Line(data[pos..k], if k < |data| then k + 1 else k)
  }

  /** Nothing of the stream is lost: a line, its terminator (when present) and the rest. */
  lemma ReadLineSplits(data: seq<uint8>, pos: nat, t: uint8)
    requires pos <= |data|
    ensures var l := ReadLine(data, pos, t);
      data[pos..] == l.text + (if l.next == pos + |l.text| then [] else [t]) + data[l.next..]
  {
    var l := ReadLine(data, pos, t);
    var k := pos + |l.text|;
    assert data[pos..] == data[pos..k] + data[k..];
    if k < |data| {
      assert data[k..] == [data[k]] + data[k + 1..];
    }
  }

  /** The line as the C string it is read into: everything before its first zero byte. */
  function CString(s: seq<uint8>): (r: seq<uint8>)
    ensures r <= s && 0 !in r
    ensures |r| < |s| ==> s[|r|] == 0
  {
    if |s| == 0 || s[0] == 0 then [] else [s[0]] + CString(s[1..])
  }

  /** The string with its last carriage return and everything after it removed. */
  function CutTitle(s: seq<uint8>): (r: seq<uint8>)
    requires CarriageReturn in s
    ensures r < s && s[|r|] == CarriageReturn
    ensures forall j :: |r| < j < |s| ==> s[j] != CarriageReturn
  {
    if s[|s| - 1] == CarriageReturn then s[..|s| - 1]
    else
      assert CarriageReturn in s[..|s| - 1] by {
        var j :| 0 <= j < |s| && s[j] == CarriageReturn;
        assert s[..|s| - 1][j] == CarriageReturn;
      }
      CutTitle(s[..|s| - 1])
  }

  /** The channel count inferred from the first channel offset: half of it, less one
      for the voice-table offset, truncated to a byte, and at most 16. */
  function NumChannels(first: uint16): (n: uint8)
    ensures n <= MaxChannels
    ensures 0 <= first / 2 - 1 <= MaxChannels ==> n == first / 2 - 1
    ensures n < MaxChannels ==> (first / 2 - 1 - n) % 0x100 == 0
    ensures first / 2 - 1 > MaxChannels && (first / 2 - 1) % 0x100 >= MaxChannels ==> n == MaxChannels
    // truncated first, clamped second: a count that wraps below 16 is not clamped
    ensures (first / 2 - 1) % 0x100 <= MaxChannels ==> n == (first / 2 - 1) % 0x100
    ensures (first / 2 - 1) % 0x100 > MaxChannels ==> n == MaxChannels
  {
    var c := Uint8(first / 2 - 1);
    if c > MaxChannels then MaxChannels else c
  }

  /** A table of `k` channel offsets followed by the first channel gives back `k`, and a
      first offset below two (a negative count, wrapped to 255) gives the maximum. */
  lemma NumChannelsRecovers(k: nat)
    requires k <= MaxChannels
    ensures NumChannels(2 * (k + 1)) == k && NumChannels(2 * (k + 1) + 1) == k
    ensures NumChannels(0) == MaxChannels && NumChannels(1) == MaxChannels
  {
  }

  /** A first offset whose count exceeds 255 wraps: `256 * j + k` channels read as `k`. */
  lemma NumChannelsWraps(j: nat, k: nat)
    requires k <= MaxChannels && 2 * (0x100 * j + k + 1) < 0x1_0000
    ensures NumChannels(2 * (0x100 * j + k + 1)) == k
  {
  }

  /** `count` big-endian words from `pos` on, when the stream holds them all. */
  function ReadWords(data: seq<uint8>, pos: nat, count: nat): (r: Option<seq<uint16>>)
    ensures r.Some? <==> count == 0 || pos + 2 * count <= |data|
    ensures r.Some? ==> |r.value| == count
    ensures r.Some? ==> forall j :: 0 <= j < count ==> Some(r.value[j]) == ReadUint16Big(data, pos + 2 * j)
    decreases count
  {
    if count == 0 then Some([])
    else
      match ReadUint16Big(data, pos)
      case None => None
      case Some(w) =>
        match ReadWords(data, pos + 2, count - 1)
        case None => None
        case Some(ws) =>
          assert forall j :: 1 <= j < count ==> pos + 2 * j == pos + 2 + 2 * (j - 1);
          Some([w] + ws)
  }

  /** The loop that reads the further channel offsets, one word per iteration. */
  method ReadOffsetLoop(data: seq<uint8>, pos: nat, count: nat) returns (r: Option<seq<uint16>>)
    ensures r == ReadWords(data, pos, count)
  {
    var ws: seq<uint16> := [];
    var j := 0;
    while j < count
      invariant 0 <= j <= count
      invariant j > 0 ==> pos + 2 * j <= |data|
      invariant |ws| == j
      invariant forall m :: 0 <= m < j ==> Some(ws[m]) == ReadUint16Big(data, pos + 2 * m)
    {
      var w := ReadUint16Big(data, pos + 2 * j);
      if w.None? {
        return None;
      }
      ws := ws + [w.value];
      j := j + 1;
    }
    SameWords(data, pos, count, ws);
    return Some(ws);
  }

  /** A table whose words are the stream's words is the table `ReadWords` reads. */
  lemma {:induction false} SameWords(data: seq<uint8>, pos: nat, count: nat, ws: seq<uint16>)
    requires count > 0 ==> pos + 2 * count <= |data|
    requires |ws| == count
    requires forall m :: 0 <= m < count ==> Some(ws[m]) == ReadUint16Big(data, pos + 2 * m)
    ensures ReadWords(data, pos, count) == Some(ws)
    decreases count
  {
    if count > 0 {
      forall m | 0 <= m < count - 1
        ensures Some(ws[1..][m]) == ReadUint16Big(data, pos + 2 + 2 * m)
      {
        assert pos + 2 + 2 * m == pos + 2 * (m + 1);
      }
      SameWords(data, pos + 2, count - 1, ws[1..]);
      assert ws == [ws[0]] + ws[1..];
    }
  }

  datatype Header = Header(
    title: seq<uint8>,
    pcmFile: seq<uint8>,
    fileBase: nat,
    voiceOffset: uint16,
    numChannels: uint8,
    channelOffsets: seq<uint16>)

  /** The title line as the decoder reads it: up to 0x1a, as a C string. */
  function TitleLine(data: seq<uint8>): seq<uint8> {
    CString(ReadLine(data, 0, TitleEnd).text)
  }

  /** The decoder cuts the title at a carriage return it assumes is there. */
  predicate HasTitle(data: seq<uint8>) {
    CarriageReturn in TitleLine(data)
  }

  /** How many channel offsets the decoder reads: the first, then `numChannels - 1` more. */
  function OffsetCount(n: uint8): (c: nat)
    ensures c >= 1 && (n >= 1 ==> c == n)
  {
    if n == 0 then 1 else n
  }

  /** Where the offset table starts: after the title line and the PCM file name. */
  function FileBase(data: seq<uint8>): (base: nat)
    ensures base <= |data|
  {
    ReadLine(data, ReadLine(data, 0, TitleEnd).next, 0).next
  }

  /** The number of channel offsets the table at `base` holds, as its first channel
      offset implies (0 when the stream does not hold that offset). */
  function ChannelCount(data: seq<uint8>, base: nat): nat {
    match ReadUint16Big(data, base + 2)
    case None => 0
    case Some(first) => OffsetCount(NumChannels(first))
  }

  /** The offset table as the decoder keeps it. */
  datatype Table = Table(voiceOffset: uint16, numChannels: uint8, channelOffsets: seq<uint16>)

  /** The offset table at `base`, or nothing when the stream ends inside it. The table is
      the voice-table offset, the first channel offset, and the channel offsets after it;
      the first channel offset is read as the head of the channel offsets. */
  function ReadTable(data: seq<uint8>, base: nat): (r: Option<Table>)
    ensures r.None? <==> base + 4 > |data| || base + 2 + 2 * ChannelCount(data, base) > |data|
    ensures r.Some? ==> r.value.numChannels <= MaxChannels
    ensures r.Some? ==> |r.value.channelOffsets| == OffsetCount(r.value.numChannels)
    ensures r.Some? ==> r.value.numChannels == NumChannels(r.value.channelOffsets[0])
    ensures r.Some? ==> Some(r.value.voiceOffset) == ReadUint16Big(data, base)
    ensures r.Some? ==> forall j :: 0 <= j < |r.value.channelOffsets| ==>
      Some(r.value.channelOffsets[j]) == ReadUint16Big(data, base + 2 + 2 * j)
  {
    match ReadUint16Big(data, base)
    case None => None
    case Some(voiceOffset) =>
      match ReadUint16Big(data, base + 2)
      case None => None
      case Some(first) =>
        var n := NumChannels(first);
        match ReadWords(data, base + 2, OffsetCount(n))
        case None => None
        case Some(offsets) =>
          assert Some(offsets[0]) == ReadUint16Big(data, base + 2);
          Some(Table(voiceOffset, n, offsets))
  }

  /** The header, or nothing when the stream ends inside the offset table. */
  function ReadHeader(data: seq<uint8>): (r: Option<Header>)
    requires HasTitle(data)
    ensures r.None? <==> ReadTable(data, FileBase(data)).None?
    ensures r.Some? ==> var t := ReadTable(data, FileBase(data)).value;
      r.value.fileBase == FileBase(data) && r.value.voiceOffset == t.voiceOffset &&
      r.value.numChannels == t.numChannels && r.value.channelOffsets == t.channelOffsets
    ensures r.Some? ==> r.value.title == CutTitle(TitleLine(data))
    ensures r.Some? ==> r.value.pcmFile == ReadLine(data, ReadLine(data, 0, TitleEnd).next, 0).text
    ensures r.Some? ==> 0 !in r.value.pcmFile
  {
    var pcm := ReadLine(data, ReadLine(data, 0, TitleEnd).next, 0);
    match ReadTable(data, FileBase(data))
    case None => None
    case Some(t) => Some(Header(CutTitle(TitleLine(data)), pcm.text, FileBase(data), t.voiceOffset, t.numChannels, t.channelOffsets))
  }

  /** The offset table in terms of the words the decoder reads one after the other. */
  lemma ReadTableInSteps(data: seq<uint8>, base: nat, voiceOffset: uint16, first: uint16, rest: Option<seq<uint16>>)
    requires ReadUint16Big(data, base) == Some(voiceOffset)
    requires ReadUint16Big(data, base + 2) == Some(first)
    requires rest == ReadWords(data, base + 4, OffsetCount(NumChannels(first)) - 1)
    ensures rest.None? ==> ReadTable(data, base) == None
    ensures rest.Some? ==> ReadTable(data, base) == Some(Table(voiceOffset, NumChannels(first), [first] + rest.value))
  {
  }

  /** The header read in the decoder's order: two lines, the voice-table offset, the
      first channel offset, the count it implies, then the remaining channel offsets. */
  method ReadHeaderInOrder(data: seq<uint8>) returns (r: Option<Header>)
    requires HasTitle(data)
    ensures r == ReadHeader(data)
  {
    var title := ReadLine(data, 0, TitleEnd);
    var pcm := ReadLine(data, title.next, 0);
    var base := pcm.next;
    var voiceOffset := ReadUint16Big(data, base);
    var first := ReadUint16Big(data, base + 2);
    if voiceOffset.None? || first.None? {
      return None;
    }
    var n := NumChannels(first.value);
    var rest := ReadOffsetLoop(data, base + 4, OffsetCount(n) - 1);
    ReadTableInSteps(data, base, voiceOffset.value, first.value, rest);
    if rest.None? {
      return None;
    }
    r := Some(Header(CutTitle(CString(title.text)), pcm.text, base, voiceOffset.value, n, [first.value] + rest.value));
  }
}
