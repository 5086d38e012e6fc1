/** Bytes, and streams of them that arrive in chunks. */
module Bytes {
  type Byte = b: int | 0 <= b < 256

  /** The stream that the chunks carry. */
  function Concat(chunks: seq<seq<Byte>>): seq<Byte> {
    if chunks == [] then [] else Concat(chunks[..|chunks| - 1]) + chunks[|chunks| - 1]
  }

  lemma ConcatStep(chunks: seq<seq<Byte>>, i: nat)
    requires i < |chunks|
    ensures Concat(chunks[..i + 1]) == Concat(chunks[..i]) + chunks[i]
  {
    assert chunks[..i + 1][..i] == chunks[..i];
  }

  lemma ConcatPush(chunks: seq<seq<Byte>>, chunk: seq<Byte>)
    ensures Concat(chunks + [chunk]) == Concat(chunks) + chunk
  {
    assert (chunks + [chunk])[..|chunks|] == chunks;
  }

  /** What is read first is a prefix of the whole. */
  lemma {:induction false} ConcatPrefix(chunks: seq<seq<Byte>>, i: nat)
    requires i <= |chunks|
    ensures |Concat(chunks[..i])| <= |Concat(chunks)| && Concat(chunks)[..|Concat(chunks[..i])|] == Concat(chunks[..i])
    decreases |chunks|
  {
    if i < |chunks| {
      var init := chunks[..|chunks| - 1];
      ConcatPrefix(init, i);
      assert init[..i] == chunks[..i];
    } else {
      assert chunks[..i] == chunks;
    }
  }

  /** The first `n` bytes, or all of them if there are fewer. */
  function Take(n: nat, s: seq<Byte>): (r: seq<Byte>)
    ensures |r| == if |s| <= n then |s| else n
    ensures r == s[..|r|]
  {
    if |s| <= n then s else s[..n]
  }
}
