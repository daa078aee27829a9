/**
  The capture side of the first recorder screen: each audio block from the
  worklet becomes one message holding an audio chunk and an image chunk.
  Also the wire format of every client-to-server message.
*/
module Capture {
  import opened Wrappers
  import opened Sockets
  import opened Base64
  import opened Pcm

  datatype MediaChunk = MediaChunk(mimeType: string, data: string)

  /** `{ text_input: ... }` or `{ realtime_input: { media_chunks: [...] } }` */
  datatype ClientMessage =
    | TextInput(text: string)
    | RealtimeInput(mediaChunks: seq<MediaChunk>)

  function AudioChunk(data: string): MediaChunk {
    MediaChunk("audio/pcm", data)
  }

  function ImageChunk(data: string): MediaChunk {
    MediaChunk("image/jpeg", data)
  }

  /** What the audio chunk carries for a block of samples: base 64 of the Int16 buffer's bytes. */
  function EncodeAudio(samples: seq<real>): (r: string)
    ensures |r| == 4 * ((2 * |samples| + 2) / 3)
  {
    Encode(Int16Bytes(ConvertAll(samples)))
  }

  /** The audio chunk decodes to the Int16 buffer's bytes. */
  lemma AudioChunkBytes(samples: seq<real>)
    ensures Decode(EncodeAudio(samples)) == Some(Int16Bytes(ConvertAll(samples)))
  {
    DecodeEncode(Int16Bytes(ConvertAll(samples)));
  }

  /** The bytes inside the audio chunk are exactly the converted samples. */
  lemma {:induction false} EncodeAudioDecodes(samples: seq<real>)
    ensures var bytes := Decode(EncodeAudio(samples));
            bytes.Some? && |bytes.value| % 2 == 0 && FromInt16Bytes(bytes.value) == ConvertAll(samples)
  {
    AudioChunkBytes(samples);
    ConvertedBytesRoundTrip(samples);
  }

  /** What the page can draw from: the video element, the canvas, its 2-D context, and the JPEG it would encode. */
  datatype FrameSource = FrameSource(hasVideo: bool, hasCanvas: bool, hasContext: bool, jpeg: string)

  /** `captureVideoFrame`: the empty string when the video element, the canvas or its context is missing. */
  function CaptureVideoFrame(f: FrameSource): (r: string)
    ensures r == "" || r == f.jpeg
    ensures !f.hasVideo || !f.hasCanvas || !f.hasContext ==> r == ""
    ensures f.hasVideo && f.hasCanvas && f.hasContext ==> r == f.jpeg
  {
    if !f.hasVideo || !f.hasCanvas then ""
    else if !f.hasContext then ""
    else f.jpeg
  }

  /** The unified payload: always two chunks, audio first, then the image (possibly empty). */
  function UnifiedPayload(audio: string, image: string): (m: ClientMessage)
    ensures m.RealtimeInput? && |m.mediaChunks| == 2
    ensures m.mediaChunks[0].mimeType == "audio/pcm" && m.mediaChunks[0].data == audio
    ensures m.mediaChunks[1].mimeType == "image/jpeg" && m.mediaChunks[1].data == image
  {
    RealtimeInput([AudioChunk(audio), ImageChunk(image)])
  }

  /**
    The worklet handler installed by `initializeAudioProcessing`, for one
    block of samples; the result is the message sent, if any. No handler is
    installed when there is no socket (`socket == None`); the handler drops
    the block unless its recording guard holds, and sends only while the
    socket is open.
  */
  method OnWorkletMessage(socket: Option<ReadyState>, recording: bool, samples: array<real>, frame: FrameSource)
    returns (sent: Option<ClientMessage>)
    ensures sent.Some? <==> socket == Some(Open) && recording
    ensures sent.Some? ==> sent.value == UnifiedPayload(EncodeAudio(samples[..]), CaptureVideoFrame(frame))
  {
    if socket.None? || !recording {
      return None;
    }
    var pcm := ConvertFloat32ToInt16(samples);
    var audio := ArrayBufferToBase64(Int16Bytes(pcm[..]));
    var image := CaptureVideoFrame(frame);
    var payload := UnifiedPayload(audio, image);
    if socket.value == Open {
      sent := Some(payload);
    } else {
      sent := None;
    }
  }
}
