/** What the checks on media accept, byte by byte, and which types the same content can pass as. */
module MediaSignatures {
  import opened Bytes
  import opened MediaPolicy

  /** The bytes stand at this place of the content. */
  predicate Holds(p: seq<Byte>, at: nat, bytes: seq<int>) {
    at + |bytes| <= |p| && forall k :: 0 <= k < |bytes| ==> p[at + k] == bytes[k]
  }

  /** The text stands at this place of the content, one byte for each character. */
  predicate Reads(p: seq<Byte>, at: nat, text: string) {
    at + |text| <= |p| && forall k :: 0 <= k < |text| ==> p[at + k] == text[k] as int
  }

  predicate Mentions(p: seq<Byte>, text: string) {
    exists at :: 0 <= at <= |p| && Reads(p, at, text)
  }

  ghost predicate Accepted(kind: Kind, mimeType: string, byteSize: int, p: seq<Byte>) {
    ContentVerdict(kind, mimeType, byteSize, p) == VALID
  }

  lemma TopBits(b: Byte)
    ensures b as bv8 & 0xE0 == 0xE0 <==> b >= 224
    ensures b as bv8 & 0xF6 == 0xF0 <==> b == 240 || b == 241 || b == 248 || b == 249
  {
    var x := b as bv8;
    assert x & 0xE0 == 0xE0 <==> x >= 0xE0;
    assert x & 0xF6 == 0xF0 <==> x == 0xF0 || x == 0xF1 || x == 0xF8 || x == 0xF9;
  }

  lemma IncludesIs(p: seq<Byte>, text: string)
    ensures IncludesAscii(p, text) <==> Mentions(p, text)
  {
    if IncludesAscii(p, text) {
      var i :| 0 <= i <= |p| - |text| && AsciiAt(p, text, i);
      assert Reads(p, i, text);
    }
    if Mentions(p, text) {
      var at :| 0 <= at <= |p| && Reads(p, at, text);
      assert AsciiAt(p, text, at);
    }
  }

  /** A text as long as the part it is looked for in is that part. */
  lemma StartIs(p: seq<Byte>, text: string)
    ensures IncludesAscii(Take(|text|, p), text) <==> Reads(p, 0, text)
  {
    var part := Take(|text|, p);
    if IncludesAscii(part, text) {
      var i :| 0 <= i <= |part| - |text| && AsciiAt(part, text, i);
      assert forall k :: 0 <= k < |text| ==> part[0 + k] == text[k] as int;
    }
    if Reads(p, 0, text) {
      assert forall k :: 0 <= k < |text| ==> p[0 + k] == text[k] as int;
      assert AsciiAt(part, text, 0);
    }
  }

  lemma BoxIs(p: seq<Byte>)
    requires |p| >= 8
    ensures IncludesAscii(Take(8, p[4..]), "ftyp") <==> exists at :: 4 <= at <= 8 && Reads(p, at, "ftyp")
  {
    var part := Take(8, p[4..]);
    if IncludesAscii(part, "ftyp") {
      var i :| 0 <= i <= |part| - 4 && AsciiAt(part, "ftyp", i);
      forall k | 0 <= k < 4 ensures p[4 + i + k] == "ftyp"[k] as int { assert part[i + k] == p[4 + i + k]; }
      assert Reads(p, 4 + i, "ftyp");
    }
    if at :| 4 <= at <= 8 && Reads(p, at, "ftyp") {
      forall k | 0 <= k < 4 ensures part[at - 4 + k] == "ftyp"[k] as int { assert part[at - 4 + k] == p[at + k]; }
      assert AsciiAt(part, "ftyp", at - 4);
    }
  }

  lemma ImagesAccepted(byteSize: int, p: seq<Byte>)
    ensures Accepted(IMAGE, "image/jpeg", byteSize, p) <==> 0 <= byteSize <= 5_242_880 && Holds(p, 0, [0xFF, 0xD8, 0xFF])
    ensures Accepted(IMAGE, "image/png", byteSize, p) <==>
              0 <= byteSize <= 5_242_880 && Holds(p, 0, [0x89, 0x50, 0x4E, 0x47, 0x0D, 0x0A, 0x1A, 0x0A])
  {
    PrefixIs(p, [0xFF, 0xD8, 0xFF]);
    PrefixIs(p, [0x89, 0x50, 0x4E, 0x47, 0x0D, 0x0A, 0x1A, 0x0A]);
  }

  lemma PrefixIs(p: seq<Byte>, bytes: seq<Byte>)
    ensures StartsWith(p, bytes) <==> Holds(p, 0, bytes)
  {
    if Holds(p, 0, bytes) { assert forall k :: 0 <= k < |bytes| ==> p[0 + k] == bytes[k]; }
  }

  lemma FourRead(p: seq<Byte>, text: string, a: Byte, b: Byte, c: Byte, d: Byte)
    requires |text| == 4 && text[0] as int == a && text[1] as int == b && text[2] as int == c && text[3] as int == d
    ensures Holds(p, 0, [a, b, c, d]) <==> Reads(p, 0, text)
  {
    if |p| >= 4 {
      var bytes: seq<int> := [a, b, c, d];
      assert Holds(p, 0, bytes) ==> p[0 + 0] == bytes[0] && p[0 + 1] == bytes[1] && p[0 + 2] == bytes[2] && p[0 + 3] == bytes[3];
      assert p[0] == a && p[1] == b && p[2] == c && p[3] == d ==> Holds(p, 0, bytes);
      assert Reads(p, 0, text) <==> p[0] == a && p[0 + 1] == b && p[0 + 2] == c && p[0 + 3] == d;
    }
  }

  predicate IsOgg(p: seq<Byte>) {
    Reads(p, 0, "OggS") && Mentions(p, "OpusHead")
  }

  lemma OggIs(p: seq<Byte>)
    ensures ValidAudio("audio/ogg", p) <==> IsOgg(p)
  {
    PrefixIs(p, [0x4F, 0x67, 0x67, 0x53]);
    FourRead(p, "OggS", 0x4F, 0x67, 0x67, 0x53);
    IncludesIs(p, "OpusHead");
  }

  predicate IsMpeg(p: seq<Byte>) {
    Reads(p, 0, "ID3") || (|p| >= 2 && p[0] == 255 && p[1] >= 224)
  }

  lemma MpegIs(p: seq<Byte>)
    ensures ValidAudio("audio/mpeg", p) <==> IsMpeg(p)
  {
    StartIs(p, "ID3");
    if |p| >= 2 { TopBits(p[1]); }
  }

  predicate IsAac(p: seq<Byte>) {
    |p| >= 2 && p[0] == 255 && p[1] in {240, 241, 248, 249}
  }

  lemma AacIs(p: seq<Byte>)
    ensures ValidAudio("audio/aac", p) <==> IsAac(p)
  {
    if |p| >= 2 { TopBits(p[1]); }
  }

  predicate IsMp4(p: seq<Byte>) {
    |p| >= 8 && exists at :: 4 <= at <= 8 && Reads(p, at, "ftyp")
  }

  lemma Mp4Is(p: seq<Byte>)
    ensures ValidAudio("audio/mp4", p) <==> IsMp4(p)
  {
    if |p| >= 8 { BoxIs(p); }
  }

  lemma SoundAccepted(mimeType: string, byteSize: int, p: seq<Byte>)
    requires mimeType in {"audio/aac", "audio/amr", "audio/mpeg", "audio/mp4", "audio/ogg"}
    ensures Accepted(AUDIO, mimeType, byteSize, p) <==> 0 <= byteSize <= 16_777_216 && ValidAudio(mimeType, p)
  {
  }

  lemma SoundsAccepted(byteSize: int, p: seq<Byte>)
    ensures Accepted(AUDIO, "audio/ogg", byteSize, p) <==> 0 <= byteSize <= 16_777_216 && IsOgg(p)
    ensures Accepted(AUDIO, "audio/amr", byteSize, p) <==> 0 <= byteSize <= 16_777_216 && Reads(p, 0, "#!AMR\n")
    ensures Accepted(AUDIO, "audio/mpeg", byteSize, p) <==> 0 <= byteSize <= 16_777_216 && IsMpeg(p)
    ensures Accepted(AUDIO, "audio/mp4", byteSize, p) <==> 0 <= byteSize <= 16_777_216 && IsMp4(p)
    ensures Accepted(AUDIO, "audio/aac", byteSize, p) <==> 0 <= byteSize <= 16_777_216 && IsAac(p)
  {
    SoundAccepted("audio/ogg", byteSize, p);
    SoundAccepted("audio/amr", byteSize, p);
    SoundAccepted("audio/mpeg", byteSize, p);
    SoundAccepted("audio/mp4", byteSize, p);
    SoundAccepted("audio/aac", byteSize, p);
    OggIs(p);
    StartIs(p, "#!AMR\n");
    MpegIs(p);
    Mp4Is(p);
    AacIs(p);
  }

  lemma DocumentsAccepted(byteSize: int, p: seq<Byte>, mimeType: string)
    ensures Accepted(DOCUMENT, "application/pdf", byteSize, p) <==> 0 <= byteSize <= 104_857_600 && Reads(p, 0, "%PDF-")
    ensures mimeType == "application/msword" || mimeType == "application/vnd.ms-excel" || mimeType == "application/vnd.ms-powerpoint" ==>
              (Accepted(DOCUMENT, mimeType, byteSize, p) <==>
                 0 <= byteSize <= 104_857_600 && Holds(p, 0, [0xD0, 0xCF, 0x11, 0xE0, 0xA1, 0xB1, 0x1A, 0xE1]))
    ensures Accepted(DOCUMENT, WORD, byteSize, p) <==> 0 <= byteSize <= 104_857_600 && IsPackage(p, "word/")
    ensures Accepted(DOCUMENT, SPREADSHEET, byteSize, p) <==> 0 <= byteSize <= 104_857_600 && IsPackage(p, "xl/")
    ensures Accepted(DOCUMENT, PRESENTATION, byteSize, p) <==> 0 <= byteSize <= 104_857_600 && IsPackage(p, "ppt/")
    ensures Accepted(DOCUMENT, "text/plain", byteSize, p) <==> 0 <= byteSize <= 104_857_600 && PlainText(p)
  {
    StartIs(p, "%PDF-");
    PrefixIs(p, [0xD0, 0xCF, 0x11, 0xE0, 0xA1, 0xB1, 0x1A, 0xE1]);
    PackageIs(p, "word/");
    PackageIs(p, "xl/");
    PackageIs(p, "ppt/");
  }

  /** A ZIP archive that names its content types and the part. */
  predicate IsPackage(p: seq<Byte>, part: string) {
    Reads(p, 0, "PK\U{0003}\U{0004}") && Mentions(p, "[Content_Types].xml") && Mentions(p, part)
  }

  lemma PackageIs(p: seq<Byte>, part: string)
    ensures IsOoxml(p, part) <==> IsPackage(p, part)
  {
    PrefixIs(p, [0x50, 0x4B, 0x03, 0x04]);
    FourRead(p, "PK\U{0003}\U{0004}", 0x50, 0x4B, 0x03, 0x04);
    IncludesIs(p, "[Content_Types].xml");
    IncludesIs(p, part);
  }

  /** The types that have a verdict on their content at all, and the sizes they are refused for. */
  predicate Known(kind: Kind, mimeType: string) {
    (kind, mimeType) in {
      (IMAGE, "image/jpeg"), (IMAGE, "image/png"),
      (AUDIO, "audio/aac"), (AUDIO, "audio/amr"), (AUDIO, "audio/mpeg"), (AUDIO, "audio/mp4"), (AUDIO, "audio/ogg"),
      (DOCUMENT, "text/plain"), (DOCUMENT, "application/pdf"), (DOCUMENT, "application/msword"),
      (DOCUMENT, "application/vnd.ms-excel"), (DOCUMENT, "application/vnd.ms-powerpoint"),
      (DOCUMENT, "application/vnd.openxmlformats-officedocument.wordprocessingml.document"),
      (DOCUMENT, "application/vnd.openxmlformats-officedocument.spreadsheetml.sheet"),
      (DOCUMENT, "application/vnd.openxmlformats-officedocument.presentationml.presentation")}
  }

  lemma RefusedExactly(kind: Kind, mimeType: string, byteSize: int, p: seq<Byte>)
    ensures ContentVerdict(kind, mimeType, byteSize, p) == MIME_NOT_ALLOWED <==> !Known(kind, mimeType)
    ensures ContentVerdict(kind, mimeType, byteSize, p) == TOO_LARGE <==>
              Known(kind, mimeType) && (byteSize < 0 || byteSize > if kind == IMAGE then 5_242_880 else if kind == AUDIO then 16_777_216 else 104_857_600)
  {
  }

  /** The first byte of all that is accepted under a type, where the type fixes it; ID3 is the other start of MPEG. */
  predicate StartsAs(mimeType: string, p: seq<Byte>) {
    if mimeType == "image/jpeg" then |p| >= 2 && p[0] == 0xFF && p[1] == 0xD8
    else if mimeType == "image/png" then |p| >= 1 && p[0] == 0x89
    else if mimeType == "audio/ogg" then |p| >= 1 && p[0] == 'O' as int
    else if mimeType == "audio/amr" then |p| >= 1 && p[0] == '#' as int
    else if mimeType == "audio/mpeg" || mimeType == "audio/aac" then
      |p| >= 1 && (p[0] == 'I' as int || (|p| >= 2 && p[0] == 0xFF && p[1] >= 0xE0))
    else if mimeType == "application/pdf" then |p| >= 1 && p[0] == '%' as int
    else if mimeType in {"application/msword", "application/vnd.ms-excel", "application/vnd.ms-powerpoint"} then |p| >= 1 && p[0] == 0xD0
    else mimeType in {WORD, SPREADSHEET, PRESENTATION} ==> |p| >= 1 && p[0] == 'P' as int
  }

  lemma SoundStarts(mimeType: string, byteSize: int, p: seq<Byte>)
    requires Known(AUDIO, mimeType) && Accepted(AUDIO, mimeType, byteSize, p)
    ensures StartsAs(mimeType, p)
  {
    SoundAccepted(mimeType, byteSize, p);
    SoundsAccepted(byteSize, p);
    FirstRead(p, "OggS");
    FirstRead(p, "#!AMR\n");
    FirstRead(p, "ID3");
  }

  lemma DocumentStarts(mimeType: string, byteSize: int, p: seq<Byte>)
    requires Known(DOCUMENT, mimeType) && Accepted(DOCUMENT, mimeType, byteSize, p)
    ensures StartsAs(mimeType, p)
  {
    DocumentsAccepted(byteSize, p, mimeType);
    FirstRead(p, "%PDF-");
    FirstRead(p, "PK\U{0003}\U{0004}");
  }

  lemma AcceptedStarts(kind: Kind, mimeType: string, byteSize: int, p: seq<Byte>)
    requires Accepted(kind, mimeType, byteSize, p)
    ensures Known(kind, mimeType) && StartsAs(mimeType, p)
  {
    RefusedExactly(kind, mimeType, byteSize, p);
    match kind
    case IMAGE => ImagesAccepted(byteSize, p);
    case AUDIO => SoundStarts(mimeType, byteSize, p);
    case DOCUMENT => DocumentStarts(mimeType, byteSize, p);
  }

  lemma FirstRead(p: seq<Byte>, text: string)
    requires text != ""
    ensures Reads(p, 0, text) ==> |p| >= 1 && p[0] == text[0] as int
  {
    if Reads(p, 0, text) { assert p[0 + 0] == text[0] as int; }
  }

  /** Types between which the content alone does not decide. */
  predicate Alike(a: string, b: string) {
    || a == b
    || {a, b} == {"audio/mpeg", "audio/aac"}
    || (a in {"application/msword", "application/vnd.ms-excel", "application/vnd.ms-powerpoint"}
        && b in {"application/msword", "application/vnd.ms-excel", "application/vnd.ms-powerpoint"})
    || (a in {WORD, SPREADSHEET, PRESENTATION} && b in {WORD, SPREADSHEET, PRESENTATION})
  }

  /**
    Plain text and MP4 aside, no content is accepted under two types unless they are MPEG and AAC,
    both old Office types, or both new ones.
   */
  lemma TypesExclude(k: Kind, a: string, n: int, l: Kind, b: string, m: int, p: seq<Byte>)
    requires Accepted(k, a, n, p) && Accepted(l, b, m, p)
    requires a !in {"text/plain", "audio/mp4"} && b !in {"text/plain", "audio/mp4"}
    ensures Alike(a, b)
  {
    AcceptedStarts(k, a, n, p);
    AcceptedStarts(l, b, m, p);
  }

  /** All that is accepted as AAC is accepted as MPEG. */
  lemma AacIsMpeg(n: int, p: seq<Byte>)
    requires Accepted(AUDIO, "audio/aac", n, p)
    ensures Accepted(AUDIO, "audio/mpeg", n, p)
  {
    SoundsAccepted(n, p);
  }
}
