/** Instrument ("voice") records of the MDX file and the voice table.

A voice record is 27 bytes: the instrument number, a feedback/connection byte, the
slot mask, then six rows of four bytes, one byte per operator in each row. Every
field is a shift-and-mask of one byte. The pan is not in the record: the decoder
gives every voice the same default.
*/
module Voices {
  import opened Bytes

  /** One FM operator. */
  datatype Osc = Osc(
    dt1: uint8, dt2: uint8,
    mul: uint8, tl: uint8,
    ks: uint8, ar: uint8,
    ame: uint8, rr: uint8,
    d1r: uint8, d2r: uint8,
    d1l: uint8)

  /** One instrument: always four operators, whatever the slot mask says. */
  datatype Voice = Voice(number: uint8, fl: uint8, con: uint8, pan: uint8, slotMask: uint8, osc: seq<Osc>)

  const RecordSize: nat := 27
  const DefaultPan: uint8 := 0xc0

  /** Every operator field fits the mask it was extracted with. */
  predicate OscInRange(o: Osc) {
    && o.dt1 < 8 && o.mul < 16
    && o.ks < 4 && o.ar < 32
    && o.ame < 2 && o.d1r < 32
    && o.dt2 < 4 && o.d2r < 32
    && o.d1l < 16 && o.rr < 16
  }

  /** The shape of every voice the decoder produces. */
  predicate VoiceInRange(v: Voice) {
    && v.fl < 8 && v.con < 8
    && v.pan == DefaultPan
    && |v.osc| == 4
    && forall i :: 0 <= i < 4 ==> OscInRange(v.osc[i])
  }

  /** Operator `i` of the record: one byte from each of the six per-operator rows. */
  function DecodeOsc(rec: seq<uint8>, i: nat): Osc
    requires |rec| >= RecordSize && i < 4
  {
    Osc(
      dt1 := rec[3 + i] / 16 % 8,  mul := rec[3 + i] % 16,
      dt2 := rec[19 + i] / 64 % 4, d2r := rec[19 + i] % 32,
      tl := rec[7 + i],
      ks := rec[11 + i] / 64 % 4,  ar := rec[11 + i] % 32,
      ame := rec[15 + i] / 128,
      rr := rec[23 + i] % 16,
      d1r := rec[15 + i] % 32,
      d1l := rec[23 + i] / 16 % 16)
  }

  /** Reads one record from the bytes remaining in the stream; a short read fails. */
  function Load(rest: seq<uint8>): (r: Option<Voice>)
    ensures r.None? <==> |rest| < RecordSize
    ensures r.Some? ==> VoiceInRange(r.value)
    ensures r.Some? ==> r.value.number == rest[0] && r.value.slotMask == rest[2]
    ensures r.Some? ==> forall i :: 0 <= i < 4 ==> r.value.osc[i].tl == rest[7 + i]
  {
    if |rest| < RecordSize then None
    else
      Some(Voice(
        number := rest[0],
        fl := rest[1] / 8 % 8, con := rest[1] % 8,
        pan := DefaultPan,
        slotMask := rest[2],
        osc := [DecodeOsc(rest, 0), DecodeOsc(rest, 1), DecodeOsc(rest, 2), DecodeOsc(rest, 3)]))
  }

  /** Byte `k` of the record with the bits the decoder ignores cleared. */
  function MaskByte(b: uint8, k: nat): uint8
    requires k < RecordSize
  {
    if k == 1 then b % 64                               // bits 6-7 unused
    else if 3 <= k < 7 then b % 128                     // bit 7 unused
    else if 11 <= k < 15 then b / 64 * 64 + b % 32      // bit 5 unused
    else if 15 <= k < 19 then b / 128 * 128 + b % 32    // bits 5-6 unused
    else if 19 <= k < 23 then b / 64 * 64 + b % 32      // bit 5 unused
    else b
  }

  /** The first record of `rest` with every ignored bit cleared. */
  function Masked(rest: seq<uint8>): (m: seq<uint8>)
    requires |rest| >= RecordSize
    ensures |m| == RecordSize
  {
    seq(RecordSize, k requires 0 <= k < RecordSize => MaskByte(rest[k], k))
  }

  /** Byte `k` of the record that holds voice `v`. */
  function PackByte(v: Voice, k: nat): uint8
    requires VoiceInRange(v) && k < RecordSize
  {
    if k == 0 then v.number
    else if k == 1 then v.fl * 8 + v.con
    else if k == 2 then v.slotMask
    else if k < 7 then v.osc[k - 3].dt1 * 16 + v.osc[k - 3].mul
    else if k < 11 then v.osc[k - 7].tl
    else if k < 15 then v.osc[k - 11].ks * 64 + v.osc[k - 11].ar
    else if k < 19 then v.osc[k - 15].ame * 128 + v.osc[k - 15].d1r
    else if k < 23 then v.osc[k - 19].dt2 * 64 + v.osc[k - 19].d2r
    else v.osc[k - 23].d1l * 16 + v.osc[k - 23].rr
  }

  /** The record layout read backwards: the 27 bytes that hold voice `v`. */
  function Pack(v: Voice): (rec: seq<uint8>)
    requires VoiceInRange(v)
    ensures |rec| == RecordSize
  {
    seq(RecordSize, k requires 0 <= k < RecordSize => PackByte(v, k))
  }

  /** A byte split at bit 4, as in rows 3-6 and 23-26. */
  lemma SplitNibbles(b: uint8)
    ensures b / 16 % 8 * 16 + b % 16 == b % 128
    ensures b / 16 % 16 * 16 + b % 16 == b
  {
  }

  /** A byte split into a 2-bit top field and a 5-bit bottom field, as in rows 11-14 and 19-22. */
  lemma SplitTopAndLow5(b: uint8)
    ensures b / 64 % 4 * 64 + b % 32 == b / 64 * 64 + b % 32
  {
  }

  /** The feedback/connection byte (byte 1). */
  lemma SplitFeedback(b: uint8)
    ensures b / 8 % 8 * 8 + b % 8 == b % 64
  {
  }

  /** Packing fields that fit their masks and extracting them again gives the fields back. */
  lemma JoinFields(hi: int, lo: int, scale: int)
    requires scale in {8, 16, 64, 128} && 0 <= lo < scale && 0 <= hi && hi * scale < 256
    ensures (hi * scale + lo) / scale == hi && (hi * scale + lo) % scale == lo
  {
  }

  /** Decoding then re-packing gives back the record with only the ignored bits cleared. */
  lemma LoadThenPack(rest: seq<uint8>)
    requires |rest| >= RecordSize
    ensures Load(rest).Some? && Pack(Load(rest).value) == Masked(rest)
  {
    var v := Load(rest).value;
    forall k | 0 <= k < RecordSize
      ensures PackByte(v, k) == MaskByte(rest[k], k)
    {
      var b := rest[k];
      if k == 1 {
        SplitFeedback(b);
      } else if 3 <= k < 7 {
        assert v.osc[k - 3] == DecodeOsc(rest, k - 3);
        SplitNibbles(b);
      } else if 7 <= k < 11 {
        assert v.osc[k - 7] == DecodeOsc(rest, k - 7);
      } else if 11 <= k < 15 {
        assert v.osc[k - 11] == DecodeOsc(rest, k - 11);
        SplitTopAndLow5(b);
      } else if 15 <= k < 19 {
        assert v.osc[k - 15] == DecodeOsc(rest, k - 15);
      } else if 19 <= k < 23 {
        assert v.osc[k - 19] == DecodeOsc(rest, k - 19);
        SplitTopAndLow5(b);
      } else if 23 <= k {
        assert v.osc[k - 23] == DecodeOsc(rest, k - 23);
        SplitNibbles(b);
      }
    }
  }

  /** Decoding the packed bytes of one operator gives the operator back. */
  lemma PackOscThenDecode(v: Voice, i: nat)
    requires VoiceInRange(v) && i < 4
    ensures DecodeOsc(Pack(v), i) == v.osc[i]
  {
    var rec := Pack(v);
    var o := v.osc[i];
    assert OscInRange(o);
    assert rec[3 + i] == o.dt1 * 16 + o.mul;
    JoinFields(o.dt1, o.mul, 16);
    assert rec[11 + i] == o.ks * 64 + o.ar;
    JoinFields(o.ks, o.ar, 64);
    assert rec[15 + i] == o.ame * 128 + o.d1r;
    JoinFields(o.ame, o.d1r, 128);
    assert rec[19 + i] == o.dt2 * 64 + o.d2r;
    JoinFields(o.dt2, o.d2r, 64);
    assert rec[23 + i] == o.d1l * 16 + o.rr;
    JoinFields(o.d1l, o.rr, 16);
    assert rec[7 + i] == o.tl;
  }

  /** Packing a voice the decoder could have produced and decoding it gives the voice back. */
  lemma PackThenLoad(v: Voice)
    requires VoiceInRange(v)
    ensures Load(Pack(v)) == Some(v)
  {
    var rec := Pack(v);
    PackOscThenDecode(v, 0);
    PackOscThenDecode(v, 1);
    PackOscThenDecode(v, 2);
    PackOscThenDecode(v, 3);
    assert rec[1] == v.fl * 8 + v.con;
    JoinFields(v.fl, v.con, 8);
    assert Load(rec).value.osc == v.osc;
  }

  /** Operator `i` depends only on bytes 3+i, 7+i, 11+i, 15+i, 19+i and 23+i of the record. */
  lemma OscLocality(a: seq<uint8>, b: seq<uint8>, i: nat)
    requires |a| >= RecordSize && |b| >= RecordSize && i < 4
    requires a[3 + i] == b[3 + i] && a[7 + i] == b[7 + i] && a[11 + i] == b[11 + i]
    requires a[15 + i] == b[15 + i] && a[19 + i] == b[19 + i] && a[23 + i] == b[23 + i]
    ensures Load(a).value.osc[i] == Load(b).value.osc[i]
  {
  }

  /** The voice table: one voice per complete record from `pos` to the end of the stream. */
  function ReadVoices(data: seq<uint8>, pos: nat): (vs: seq<Voice>)
    ensures pos <= |data| ==> |vs| == (|data| - pos) / RecordSize
    ensures pos > |data| ==> vs == []
    decreases |data| - pos
  {
    match Load(if pos <= |data| then data[pos..] else [])
    case None => []
    case Some(v) => [v] + ReadVoices(data, pos + RecordSize)
  }

  /** Voice `j` of the table is the record that starts `j` records after the table. */
  lemma {:induction false} ReadVoicesChunks(data: seq<uint8>, pos: nat, j: nat)
    requires j < |ReadVoices(data, pos)|
    ensures pos + (j + 1) * RecordSize <= |data|
    ensures Load(data[pos + j * RecordSize..]) == Some(ReadVoices(data, pos)[j])
    decreases j
  {
    if j > 0 {
      ReadVoicesChunks(data, pos + RecordSize, j - 1);
      assert pos + RecordSize + (j - 1) * RecordSize == pos + j * RecordSize;
    }
  }

  /** The loop of the voice-table reader: load records until one comes up short. */
  method ReadVoiceTable(data: seq<uint8>, start: nat) returns (vs: seq<Voice>)
    ensures vs == ReadVoices(data, start)
  {
    vs := [];
    var pos := start;
    while true
      invariant vs + ReadVoices(data, pos) == ReadVoices(data, start)
      decreases |data| + RecordSize - pos
    {
      var r := Load(if pos <= |data| then data[pos..] else []);
      if r.None? {
        break;
      }
      vs := vs + [r.value];
      pos := pos + RecordSize;
    }
  }
}
