/** Reading media from a stream of chunks, however it was split. */
module MediaStreams {
  import opened Wrappers
  import opened Bytes
  import opened MediaPolicy

  const PREFIX_BYTES: nat := 1024 * 1024

  datatype Body = Body(bytes: seq<Byte>, prefix: seq<Byte>, sha256: string)

  /** `Uint8Array.set`: copy the chunk into the buffer at the offset. */
  method CopyInto(buffer: array<Byte>, chunk: seq<Byte>, offset: nat)
    requires offset + |chunk| <= buffer.Length
    modifies buffer
    ensures buffer[..] == old(buffer[..offset]) + chunk + old(buffer[offset + |chunk|..])
  {
    for i := 0 to |chunk|
      invariant buffer[..offset] == old(buffer[..offset])
      invariant forall k :: 0 <= k < i ==> buffer[offset + k] == chunk[k]
      invariant forall k :: offset + i <= k < buffer.Length ==> buffer[k] == old(buffer[k])
    {
      buffer[offset + i] := chunk[i];
    }
    assert buffer[offset..offset + |chunk|] == chunk;
    assert buffer[offset + |chunk|..] == old(buffer[offset + |chunk|..]);
    assert buffer[..] == buffer[..offset] + buffer[offset..offset + |chunk|] + buffer[offset + |chunk|..];
  }

  /** Copy the chunks one behind the other into a new buffer of their total length. */
  method Assemble(chunks: seq<seq<Byte>>, total: nat) returns (buffer: array<Byte>)
    requires total == |Concat(chunks)|
    ensures fresh(buffer) && buffer[..] == Concat(chunks)
  {
    buffer := new Byte[total](_ => 0);
    var offset := 0;
    for i := 0 to |chunks|
      invariant offset == |Concat(chunks[..i])| <= total == buffer.Length
      invariant buffer[..offset] == Concat(chunks[..i])
    {
      ConcatStep(chunks, i);
      ConcatPrefix(chunks, i + 1);
      CopyInto(buffer, chunks[i], offset);
      offset := offset + |chunks[i]|;
      assert buffer[..offset] == Concat(chunks[..i]) + chunks[i];
    }
    assert chunks[..|chunks|] == chunks;
    assert buffer[..] == buffer[..offset];
  }

  /** The part of a chunk that still belongs to the prefix. */
  function Piece(chunk: seq<Byte>, length: nat): seq<Byte>
    requires length <= PREFIX_BYTES
  {
    Take(PREFIX_BYTES - length, chunk)
  }

  lemma TakeGrows(n: nat, a: seq<Byte>, b: seq<Byte>)
    ensures Take(n, a + b) == if |a| < n then Take(n, a) + Take(n - |a|, b) else Take(n, a)
  {
  }

  /**
    Reads the whole body, its prefix and its hash, and fails exactly when the body is too long;
    all of it whatever the chunks are.
   */
  method ReadBoundedBody(digest: seq<Byte> -> string, chunks: seq<seq<Byte>>, maxBytes: nat) returns (r: Option<Body>)
    ensures r == var whole := Concat(chunks);
      if |whole| > maxBytes then None else Some(Body(whole, Take(1_048_576, whole), digest(whole)))
  {
    var kept: seq<seq<Byte>>, prefixChunks: seq<seq<Byte>>, hashed: seq<Byte> := [], [], [];
    var total, prefixLength := 0, 0;
    for i := 0 to |chunks|
      invariant total == |Concat(chunks[..i])| <= maxBytes
      invariant Concat(kept) == Concat(chunks[..i]) == hashed
      invariant prefixLength == |Concat(prefixChunks)| && Concat(prefixChunks) == Take(PREFIX_BYTES, Concat(chunks[..i]))
    {
      var chunk := chunks[i];
      ConcatStep(chunks, i);
      if |chunk| == 0 {
        assert Concat(chunks[..i + 1]) == Concat(chunks[..i]);
        continue;
      }
      total := total + |chunk|;
      if total > maxBytes {
        ConcatPrefix(chunks, i + 1);
        return None;
      }
      ConcatPush(kept, chunk);
      kept, hashed := kept + [chunk], hashed + chunk;
      TakeGrows(PREFIX_BYTES, Concat(chunks[..i]), chunk);
      if prefixLength < PREFIX_BYTES {
        var piece := Piece(chunk, prefixLength);
        ConcatPush(prefixChunks, piece);
        prefixChunks, prefixLength := prefixChunks + [piece], prefixLength + |piece|;
      }
    }
    assert chunks[..|chunks|] == chunks;
    var bytes := Assemble(kept, total);
    var prefix := Assemble(prefixChunks, prefixLength);
    r := Some(Body(bytes[..], prefix[..], digest(hashed)));
  }

  /** Reads as much as the validation needs, with a loop that stops early. */
  method ReadValidationPrefix(chunks: seq<seq<Byte>>) returns (r: seq<Byte>)
    ensures r == Take(1_048_576, Concat(chunks))
  {
    var pieces: seq<seq<Byte>>, length, i := [], 0, 0;
    while length < PREFIX_BYTES && i < |chunks|
      invariant i <= |chunks|
      invariant length == |Concat(pieces)| && Concat(pieces) == Take(PREFIX_BYTES, Concat(chunks[..i]))
    {
      var chunk := chunks[i];
      ConcatStep(chunks, i);
      i := i + 1;
      if |chunk| == 0 {
        assert Concat(chunks[..i]) == Concat(chunks[..i - 1]);
        continue;
      }
      TakeGrows(PREFIX_BYTES, Concat(chunks[..i - 1]), chunk);
      var piece := Piece(chunk, length);
      ConcatPush(pieces, piece);
      pieces, length := pieces + [piece], length + |piece|;
    }
    ConcatPrefix(chunks, i);
    assert i == |chunks| ==> chunks[..i] == chunks;
    var prefix := Assemble(pieces, length);
    r := prefix[..];
  }

  // ---- inbound media -------------------------------------------------------------------------

  /** `STORED` carries what was pulled from the stream: its length and its hash are recorded. */
  datatype Inbound = STORED(pulled: seq<Byte>, sha256: string) | REJECTED(code: Verdict) | UNAVAILABLE

  /**
    The result of storing inbound media. `whole` is the stream, `pulled` the part of it that had
    been pulled when the store answered, `reaches` whether it took the upload.
   */
  ghost function InboundResult(digest: seq<Byte> -> string, kind: Kind, mimeType: string, byteSize: int,
                               whole: seq<Byte>, pulled: seq<Byte>, reaches: bool): Inbound
  {
    var verdict := ContentVerdict(kind, mimeType, byteSize, Take(1_048_576, whole));
    if !verdict.VALID? then REJECTED(verdict)
    else if |pulled| > Limit(kind) || !reaches then UNAVAILABLE
    else if |pulled| != byteSize then REJECTED(CONTENT_MISMATCH)
    else STORED(pulled, digest(pulled))
  }

  /** The upload of one half of the stream, counted on the way, up to `taken` chunks; it breaks off past the limit. */
  method MonitoredUpload(chunks: seq<seq<Byte>>, taken: nat, limit: nat) returns (sent: Option<seq<Byte>>)
    requires taken <= |chunks|
    ensures sent == if |Concat(chunks[..taken])| > limit then None else Some(Concat(chunks[..taken]))
  {
    var body: seq<Byte>, streamed := [], 0;
    for i := 0 to taken
      invariant body == Concat(chunks[..i]) && streamed == |body| <= limit
    {
      ConcatStep(chunks, i);
      streamed := streamed + |chunks[i]|;
      if streamed > limit {
        ConcatPrefix(chunks[..taken], i + 1);
        assert chunks[..taken][..i + 1] == chunks[..i + 1];
        return None;
      }
      body := body + chunks[i];
    }
    sent := Some(body);
  }

  /**
    Inbound media are stored exactly if the content is valid and what was pulled is as long as
    declared. What was pulled is then the start of the stream, and all of it if the stream is as
    long as declared; a store that answers before the end can leave a longer stream cut off.
   */
  method StoreInboundMedia(digest: seq<Byte> -> string, kind: Kind, mimeType: string, byteSize: int,
                           chunks: seq<seq<Byte>>, taken: nat, reaches: bool) returns (r: Inbound)
    requires taken <= |chunks|
    ensures r == InboundResult(digest, kind, mimeType, byteSize, Concat(chunks), Concat(chunks[..taken]), reaches)
    ensures
      var whole, pulled := Concat(chunks), Concat(chunks[..taken]);
      var valid := ContentVerdict(kind, mimeType, byteSize, Take(1_048_576, whole)).VALID?;
      && (r == STORED(pulled, digest(pulled)) <==> valid && reaches && |pulled| == byteSize)
      && (r == UNAVAILABLE <==> valid && (!reaches || (kind.IMAGE? && |pulled| > 5_242_880)
                                          || (kind.AUDIO? && |pulled| > 16_777_216) || |pulled| > 104_857_600))
    ensures r.STORED? ==>
      && |r.pulled| == byteSize <= Limit(kind) && r.pulled == Take(byteSize, Concat(chunks))
      && (r.pulled == Concat(chunks) <==> |Concat(chunks)| == byteSize)
  {
    if !Allowed(kind, mimeType) { return REJECTED(MIME_NOT_ALLOWED); }
    if byteSize < 0 || byteSize > Limit(kind) { return REJECTED(TOO_LARGE); }
    var prefix := ReadValidationPrefix(chunks);
    var verdict := ValidateWhatsAppMediaContent(kind, mimeType, byteSize, prefix);
    if !verdict.VALID? { return REJECTED(verdict); }
    var sent := MonitoredUpload(chunks, taken, Limit(kind));
    if sent.None? || !reaches { return UNAVAILABLE; }
    if |sent.value| != byteSize { return REJECTED(CONTENT_MISMATCH); }
    ConcatPrefix(chunks, taken);
    r := STORED(sent.value, digest(sent.value));
  }
}
