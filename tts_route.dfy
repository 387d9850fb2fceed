/** The text-to-speech endpoint of frontend/src/app/api/tts/route.ts:
    validate the `msg` query parameter, stream synthesised audio for it over
    a websocket session, join the chunks into one buffer and return it as a
    WAV file. */
module TtsRoute {
  import opened Wrappers
  import opened JsText

  newtype byte = b: int | 0 <= b < 256

  /** The chunks the session yields for a message, and whether the stream
      ends normally (`false`: it throws after yielding `chunks`). */
  datatype Stream = Stream(chunks: seq<seq<byte>>, completes: bool)

  /** The speech service as the route sees it: whether opening the session
      succeeds, what a message streams back, the WAV encoder (`None` when it
      throws), and whether closing the session succeeds. */
  datatype Tts = Tts(opens: bool, send: string -> Stream, toWav: seq<byte> -> Option<seq<byte>>, closes: bool)

  datatype Body = JsonError(error: string) | Audio(bytes: seq<byte>)

  datatype Response = Response(status: int, contentType: string, body: Body)

  const MissingMsg := "Missing or empty `msg` parameter."
  const TtsFailed := "Failed to generate TTS audio"

  /** The sum of the chunks' byte lengths. */
  function TotalLength(chunks: seq<seq<byte>>): nat {
    if chunks == [] then 0 else TotalLength(chunks[..|chunks| - 1]) + |chunks[|chunks| - 1]|
  }

  /** The chunks laid end to end. */
  function Concat(chunks: seq<seq<byte>>): seq<byte> {
    if chunks == [] then [] else Concat(chunks[..|chunks| - 1]) + chunks[|chunks| - 1]
  }

  lemma {:induction false} ConcatLength(chunks: seq<seq<byte>>)
    ensures |Concat(chunks)| == TotalLength(chunks)
    decreases |chunks|
  {
    if chunks != [] {
      ConcatLength(chunks[..|chunks| - 1]);
    }
  }

  lemma ConcatSnoc(chunks: seq<seq<byte>>, i: nat)
    requires i < |chunks|
    ensures Concat(chunks[..i + 1]) == Concat(chunks[..i]) + chunks[i]
    ensures TotalLength(chunks[..i + 1]) == TotalLength(chunks[..i]) + |chunks[i]|
  {
    assert chunks[..i + 1][..i] == chunks[..i];
  }

  /** Joining a shorter run of the same chunks gives a prefix. */
  lemma {:induction false} ConcatPrefix(chunks: seq<seq<byte>>, i: nat, j: nat)
    requires i <= j <= |chunks|
    ensures Concat(chunks[..i]) <= Concat(chunks[..j])
    decreases j - i
  {
    if i < j {
      ConcatPrefix(chunks, i, j - 1);
      ConcatSnoc(chunks, j - 1);
    }
  }

  /** Chunk `i` lies in the joined buffer at the offset that is the total
      length of the chunks before it. */
  lemma ChunkAtOffset(chunks: seq<seq<byte>>, i: nat)
    requires i < |chunks|
    ensures TotalLength(chunks[..i]) + |chunks[i]| <= TotalLength(chunks) == |Concat(chunks)|
    ensures Concat(chunks)[TotalLength(chunks[..i])..TotalLength(chunks[..i]) + |chunks[i]|] == chunks[i]
  {
    ConcatSnoc(chunks, i);
    ConcatPrefix(chunks, i + 1, |chunks|);
    assert chunks[..|chunks|] == chunks;
    ConcatLength(chunks[..i]);
    ConcatLength(chunks);
    var whole := Concat(chunks);
    var upTo := Concat(chunks[..i + 1]);
    assert upTo == whole[..|upTo|];
  }

  /** Joining splits over concatenation of the chunk lists. */
  lemma {:induction false} ConcatAppend(a: seq<seq<byte>>, b: seq<seq<byte>>)
    ensures Concat(a + b) == Concat(a) + Concat(b)
    decreases |b|
  {
    if b != [] {
      var b' := b[..|b| - 1];
      assert (a + b)[..|a + b| - 1] == a + b';
      assert (a + b)[|a + b| - 1] == b[|b| - 1];
      ConcatAppend(a, b');
      calc {
        Concat(a + b);
        Concat(a + b') + b[|b| - 1];
        Concat(a) + Concat(b') + b[|b| - 1];
        Concat(a) + Concat(b);
      }
    } else {
      assert a + b == a;
    }
  }

  /** `allAudio.set(chunk, offset)`: copy `chunk` into `a` from `offset` on. */
  method CopyInto(a: array<byte>, chunk: seq<byte>, offset: nat)
    requires offset + |chunk| <= a.Length
    modifies a
    ensures a[..] == old(a[..offset]) + chunk + old(a[offset + |chunk|..])
  {
    ghost var before := a[..];
    for j := 0 to |chunk|
      invariant a[..] == before[..offset] + chunk[..j] + before[offset + j..]
    {
      a[offset + j] := chunk[j];
      assert chunk[..j + 1] == chunk[..j] + [chunk[j]];
    }
    assert chunk[..|chunk|] == chunk;
  }

  /** The two loops of the handler: collect the chunks while summing their
      lengths, then allocate one buffer of that length and copy each chunk
      in at the running offset. The buffer is the chunks joined. */
  method AssembleAudio(stream: seq<seq<byte>>) returns (audio: seq<byte>)
    ensures audio == Concat(stream)
    ensures |audio| == TotalLength(stream)
  {
    var chunks: seq<seq<byte>> := [];
    var byteLen := 0;
    for i := 0 to |stream|
      invariant chunks == stream[..i]
      invariant byteLen == TotalLength(chunks)
    {
      ConcatSnoc(stream, i);
      chunks := chunks + [stream[i]];
      byteLen := byteLen + |stream[i]|;
    }
    assert stream[..|stream|] == stream;
    ConcatLength(chunks);
    var allAudio := new byte[byteLen](_ => 0);
    var offset := 0;
    for i := 0 to |chunks|
      invariant offset == |Concat(chunks[..i])|
      invariant offset <= allAudio.Length
      invariant allAudio[..offset] == Concat(chunks[..i])
    {
      ConcatSnoc(chunks, i);
      ConcatPrefix(chunks, i + 1, |chunks|);
      assert chunks[..|chunks|] == chunks;
      CopyInto(allAudio, chunks[i], offset);
      assert allAudio[..offset + |chunks[i]|] == Concat(chunks[..i]) + chunks[i];
      offset := offset + |chunks[i]|;
    }
    assert allAudio[..] == allAudio[..offset];
    audio := allAudio[..];
  }

  /** The WAV file the session yields for `msg`, if the stream completes and
      the encoder does not throw. */
  function Wav(tts: Tts, msg: string): Option<seq<byte>> {
    var stream := tts.send(msg);
    if stream.completes then tts.toWav(Concat(stream.chunks)) else None
  }

  /** `GET /api/tts?msg=…`, with `query` the raw `msg` parameter; `sent`
      is the text handed to the speech session, if one was opened, and
      `closed` tells whether the route asked the session to close. */
  method Get(query: Option<string>, tts: Tts) returns (resp: Response, sent: Option<string>, closed: bool)
    ensures resp.status == 400 <==> query.None? || IsBlank(query.value)
    ensures resp.status == 400 ==> resp == Response(400, "application/json", JsonError(MissingMsg)) && sent == None
    ensures resp.status != 400 ==> (sent.Some? <==> tts.opens)
    ensures sent.Some? ==> query.Some? && sent.value == Trim(query.value) && sent.value != []
    // the session is closed only once the WAV file exists: any earlier throw skips `close`
    ensures closed <==> sent.Some? && Wav(tts, sent.value).Some?
    ensures resp.status == 200 <==>
              (&& query.Some? && !IsBlank(query.value) && tts.opens
               && Wav(tts, Trim(query.value)).Some? && tts.closes)
    ensures resp.status == 200 ==>
              resp == Response(200, "audio/wav", Audio(Wav(tts, Trim(query.value)).value))
    ensures resp.status != 200 && resp.status != 400 ==>
              resp == Response(500, "application/json", JsonError(TtsFailed))
  {
    sent, closed := None, false;
    var failed := Response(500, "application/json", JsonError(TtsFailed));
    if query.None? || Trim(query.value) == [] {
      return Response(400, "application/json", JsonError(MissingMsg)), None, false;
    }
    var msg := Trim(query.value);
    if !tts.opens {
      return failed, None, false;
    }
    sent := Some(msg);
    var stream := tts.send(msg);
    if !stream.completes {
      return failed, sent, false;
    }
    var allAudio := AssembleAudio(stream.chunks);
    var wavData := tts.toWav(allAudio);
    if wavData.None? {
      return failed, sent, false;
    }
    closed := true;
    if !tts.closes {
      return failed, sent, closed;
    }
    resp := Response(200, "audio/wav", Audio(wavData.value));
  }
}
