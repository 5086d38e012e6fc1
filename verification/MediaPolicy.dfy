/** Which media the gateway accepts, judged by type, size and the start of the content. */
module MediaPolicy {
  import opened Bytes

  datatype Kind = IMAGE | DOCUMENT | AUDIO
  datatype Verdict = VALID | MIME_NOT_ALLOWED | TOO_LARGE | CONTENT_MISMATCH

  function Limit(kind: Kind): nat {
    match kind
    case IMAGE => 5 * 1024 * 1024
    case AUDIO => 16 * 1024 * 1024
    case DOCUMENT => 100 * 1024 * 1024
  }

  const WORD := "application/vnd.openxmlformats-officedocument.wordprocessingml.document"
  const SPREADSHEET := "application/vnd.openxmlformats-officedocument.spreadsheetml.sheet"
  const PRESENTATION := "application/vnd.openxmlformats-officedocument.presentationml.presentation"

  predicate Allowed(kind: Kind, mimeType: string) {
    match kind
    case IMAGE => mimeType == "image/jpeg" || mimeType == "image/png"
    case AUDIO => mimeType in ["audio/aac", "audio/amr", "audio/mpeg", "audio/mp4", "audio/ogg"]
    case DOCUMENT =>
      mimeType in ["text/plain", "application/pdf", "application/msword", "application/vnd.ms-excel",
                   "application/vnd.ms-powerpoint", WORD, SPREADSHEET, PRESENTATION]
  }

  predicate StartsWith(bytes: seq<Byte>, signature: seq<Byte>) {
    signature <= bytes
  }

  predicate IncludesAscii(bytes: seq<Byte>, needle: string) {
    exists i :: 0 <= i <= |bytes| - |needle| && AsciiAt(bytes, needle, i)
  }

  predicate AsciiAt(bytes: seq<Byte>, needle: string, i: nat) {
    i + |needle| <= |bytes| && forall k :: 0 <= k < |needle| ==> bytes[i + k] == needle[k] as int
  }

  predicate ValidAudio(mimeType: string, prefix: seq<Byte>) {
    if mimeType == "audio/ogg" then StartsWith(prefix, [0x4F, 0x67, 0x67, 0x53]) && IncludesAscii(prefix, "OpusHead")
    else if mimeType == "audio/amr" then IncludesAscii(Take(6, prefix), "#!AMR\n")
    else if mimeType == "audio/mpeg" then
      IncludesAscii(Take(3, prefix), "ID3") || (|prefix| >= 2 && prefix[0] == 0xFF && prefix[1] as bv8 & 0xE0 == 0xE0)
    else if mimeType == "audio/mp4" then |prefix| >= 8 && IncludesAscii(Take(8, prefix[4..]), "ftyp")
    else if mimeType == "audio/aac" then |prefix| >= 2 && prefix[0] == 0xFF && prefix[1] as bv8 & 0xF6 == 0xF0
    else false
  }

  predicate IsControl(b: Byte) {
    b < 0x09 || 0x0D < b < 0x20
  }

  /** The positions of control characters. */
  ghost function Controls(prefix: seq<Byte>): set<int> {
    set i | 0 <= i < |prefix| && IsControl(prefix[i])
  }

  /** Plain text has no NUL, and less than a tenth of it are control characters. */
  ghost predicate PlainText(prefix: seq<Byte>) {
    prefix == [] || (0 !in prefix && 10 * |Controls(prefix)| < |prefix|)
  }

  ghost predicate ValidDocument(mimeType: string, prefix: seq<Byte>) {
    if mimeType == "text/plain" then PlainText(prefix) else ValidBinaryDocument(mimeType, prefix)
  }

  /** The three Office types are the only allowed ones whose names hold the words the program looks for. */
  predicate ValidBinaryDocument(mimeType: string, prefix: seq<Byte>) {
    if mimeType == "application/pdf" then IncludesAscii(Take(5, prefix), "%PDF-")
    else if mimeType in ["application/msword", "application/vnd.ms-excel", "application/vnd.ms-powerpoint"] then
      StartsWith(prefix, [0xD0, 0xCF, 0x11, 0xE0, 0xA1, 0xB1, 0x1A, 0xE1])
    else if mimeType == WORD then IsOoxml(prefix, "word/")
    else if mimeType == SPREADSHEET then IsOoxml(prefix, "xl/")
    else if mimeType == PRESENTATION then IsOoxml(prefix, "ppt/")
    else false
  }

  predicate IsOoxml(prefix: seq<Byte>, marker: string) {
    && StartsWith(prefix, [0x50, 0x4B, 0x03, 0x04])
    && IncludesAscii(prefix, "[Content_Types].xml") && IncludesAscii(prefix, marker)
  }

  predicate ValidImage(mimeType: string, prefix: seq<Byte>) {
    if mimeType == "image/jpeg" then StartsWith(prefix, [0xFF, 0xD8, 0xFF])
    else StartsWith(prefix, [0x89, 0x50, 0x4E, 0x47, 0x0D, 0x0A, 0x1A, 0x0A])
  }

  ghost function ContentVerdict(kind: Kind, mimeType: string, byteSize: int, prefix: seq<Byte>): Verdict {
    if !Allowed(kind, mimeType) then MIME_NOT_ALLOWED
    else if byteSize < 0 || byteSize > Limit(kind) then TOO_LARGE
    else if (match kind case IMAGE => ValidImage(mimeType, prefix)
                        case AUDIO => ValidAudio(mimeType, prefix)
                        case DOCUMENT => ValidDocument(mimeType, prefix)) then VALID
    else CONTENT_MISMATCH
  }

  lemma ControlsStep(prefix: seq<Byte>, i: nat)
    requires i < |prefix|
    ensures |Controls(prefix[..i + 1])| == |Controls(prefix[..i])| + if IsControl(prefix[i]) then 1 else 0
  {
    var before := Controls(prefix[..i]);
    assert i !in before;
    assert Controls(prefix[..i + 1]) == if IsControl(prefix[i]) then before + {i} else before;
  }

  method CheckPlainText(prefix: seq<Byte>) returns (ok: bool)
    ensures ok <==> PlainText(prefix)
  {
    if |prefix| == 0 { return true; }
    var nul, controls := 0, 0;
    for i := 0 to |prefix|
      invariant nul >= 0 && (nul == 0 <==> 0 !in prefix[..i])
      invariant controls == |Controls(prefix[..i])|
    {
      ControlsStep(prefix, i);
      if prefix[i] == 0 { nul := nul + 1; }
      if prefix[i] < 0x09 || (prefix[i] > 0x0D && prefix[i] < 0x20) { controls := controls + 1; }
    }
    assert prefix[..|prefix|] == prefix;
    ok := nul == 0 && 10 * controls < |prefix|;
  }

  method ValidateWhatsAppMediaContent(kind: Kind, mimeType: string, byteSize: int, prefix: seq<Byte>) returns (verdict: Verdict)
    ensures verdict == ContentVerdict(kind, mimeType, byteSize, prefix)
  {
    if !Allowed(kind, mimeType) { return MIME_NOT_ALLOWED; }
    if byteSize < 0 || byteSize > Limit(kind) { return TOO_LARGE; }
    var valid;
    match kind {
      case IMAGE => valid := ValidImage(mimeType, prefix);
      case AUDIO => valid := ValidAudio(mimeType, prefix);
      case DOCUMENT =>
        if mimeType == "text/plain" {
          valid := CheckPlainText(prefix);
        } else {
          valid := ValidBinaryDocument(mimeType, prefix);
        }
    }
    verdict := if valid then VALID else CONTENT_MISMATCH;
  }
}
