/** `AudioTransformer`: a Transform stream that turns inbound media messages
    into 16-bit PCM chunks for the recogniser. */
module Transformer {
  import opened Wrappers
  import opened G711
  import opened Protocol

  /** `isSilent`: every byte equals the first; an empty buffer is silent. */
  function IsSilent(buf: seq<Byte>): (r: bool)
    ensures r <==> forall i :: 0 <= i < |buf| ==> buf[i] == buf[0]
  {
    |buf| <= 1 || (buf[1] == buf[0] && IsSilent(buf[1..]))
  }

  /** A 16-bit sample as the two bytes of an `Int16Array` buffer
      (little-endian, two's complement). */
  function Int16LE(v: int): (r: seq<Byte>)
    requires -32768 <= v < 32768
    ensures |r| == 2
  {
    var w := v % 65536;
    [w % 256, w / 256]
  }

  /** Reads a little-endian signed 16-bit sample. */
  function ReadInt16LE(lo: Byte, hi: Byte): int
  {
    var w := lo + 256 * hi;
    if w >= 32768 then w - 65536 else w
  }

  lemma Int16RoundTrip(v: int)
    requires -32768 <= v < 32768
    ensures ReadInt16LE(Int16LE(v)[0], Int16LE(v)[1]) == v
  {
  }

  /** `processAudioChunk`: µ-law bytes to the bytes of the decoded 16-bit
      samples, two per input byte, each pair reading back as the decoded
      sample of the corresponding input byte. */
  function ProcessAudioChunk(buf: seq<Byte>): (pcm: seq<Byte>)
    ensures |pcm| == 2 * |buf|
    ensures forall i :: 0 <= i < |buf| ==> ReadInt16LE(pcm[2 * i], pcm[2 * i + 1]) == DecodeSample(buf[i])
  {
    if buf == [] then []
    else
      var n := |buf| - 1;
      DecodeSampleRange(buf[n]);
      Int16RoundTrip(DecodeSample(buf[n]));
      ProcessAudioChunk(buf[..n]) + Int16LE(DecodeSample(buf[n]))
  }

  /** The chunks `_transform` pushes for one written message. */
  function FrameOutput(chunk: Parsed): (out: seq<seq<Byte>>)
    ensures |out| <= 1
    ensures out != [] <==>
      chunk.Json? && chunk.msg.event == "media" && HasPayload(chunk.msg)
      && !IsSilent(chunk.msg.media.value.payload.value)
    ensures out != [] ==> |out[0]| == 2 * |chunk.msg.media.value.payload.value|
  {
    match chunk
    case Malformed => []
    case Json(msg) =>
      if msg.event == "media" && HasPayload(msg) then
        var buffer := msg.media.value.payload.value;
        if IsSilent(buffer) then [] else [ProcessAudioChunk(buffer)]
      else []
  }

  class AudioTransformer {
    /** The readable side: chunks pushed and not yet consumed, in push order. */
    var readable: seq<seq<Byte>>
    /** `end()` was called. */
    var ended: bool
    /** `_transform` reported an error, which destroys the stream. */
    var destroyed: bool

    constructor()
      ensures readable == [] && !ended && !destroyed
    {
      readable := [];
      ended := false;
      destroyed := false;
    }

    /** `createReadableStream` hands out the transformer itself, so the
        consumer reads exactly the pushed chunks in push order. */
    method CreateReadableStream() returns (s: AudioTransformer)
      ensures s == this
    {
      s := this;
    }

    /** `_transform`: a parse failure is reported through the callback and
        destroys the stream; media with a non-silent payload pushes one PCM
        chunk; everything else completes without pushing. */
    method Transform(chunk: Parsed) returns (ok: bool)
      modifies this`readable, this`destroyed
      ensures ok <==> chunk.Json?
      ensures readable == old(readable) + FrameOutput(chunk)
      ensures destroyed == (old(destroyed) || !ok)
    {
      match chunk {
        case Malformed =>
          ok := false;
          destroyed := true;
        case Json(msg) =>
          ok := true;
          if msg.event == "media" && HasPayload(msg) {
            var buffer := msg.media.value.payload.value;
            if IsSilent(buffer) {
              return;
            }
            var processedAudio := ProcessAudioChunk(buffer);
            readable := readable + [processedAudio];
          }
      }
    }

    /** `write`: refused once the stream has ended or been destroyed,
        otherwise passed to `_transform`. */
    method Write(chunk: Parsed) returns (accepted: bool)
      modifies this`readable, this`destroyed
      ensures accepted <==> !old(ended) && !old(destroyed)
      ensures accepted ==>
        readable == old(readable) + FrameOutput(chunk) && destroyed == (old(destroyed) || chunk.Malformed?)
      ensures !accepted ==> readable == old(readable) && destroyed == old(destroyed)
    {
      accepted := !ended && !destroyed;
      if accepted {
        var _ := Transform(chunk);
      }
    }

    /** `end`: idempotent; signals end of input to the consumer. */
    method End()
      modifies this`ended
      ensures ended
    {
      ended := true;
    }
  }

  /** A non-silent media frame pushes one chunk whose samples are the G.711
      expansions of the payload bytes, scaled to 16 bits. */
  lemma VoicedFrameDecodes(msg: Message, i: int)
    requires msg.event == "media" && HasPayload(msg)
    requires !IsSilent(msg.media.value.payload.value)
    requires 0 <= i < |msg.media.value.payload.value|
    ensures var out := FrameOutput(Json(msg));
      |out| == 1 &&
      ReadInt16LE(out[0][2 * i], out[0][2 * i + 1]) == 4 * Expand(msg.media.value.payload.value[i])
  {
    DecodeMatchesG711(msg.media.value.payload.value[i]);
  }
}
