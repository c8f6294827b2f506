/** The stateless checks of a download: response ranges, file signatures and the final acceptance. */
module Transfer {
  import opened Basics

  datatype ErrorCode =
    | InvalidRequest | ProviderNotAvailable | SnapshotChanged | TargetExists | TooLarge | TypeRejected
    | IntegrityFailed | RangeInvalid | CancelRaised | PauseRaised | LeaseLost | LeaseConflict | StorageUnsafe
    | PublishFailed | LinkFailed | WriteFailed | UnknownOutcome | ProviderError

  datatype Response = Response(
    statusCode: nat,
    mimeType: string,
    contentLength: Option<nat>,
    rangeStart: Option<nat>,
    rangeEnd: Option<nat>,
    rangeTotal: Option<nat>)

  /** Bytes that a file of some type has at a given position. */
  datatype Part = Part(at: nat, bytes: Bytes)

  datatype Signature = Signature(parts: seq<Part>, mimeType: string)

  predicate Fits(content: Bytes, part: Part) {
    part.at + |part.bytes| <= |content| && content[part.at..part.at + |part.bytes|] == part.bytes
  }

  const SIGNATURES: seq<Signature> := [
    Signature([Part(0, [0x89, 0x50, 0x4E, 0x47, 0x0D, 0x0A, 0x1A, 0x0A])], "image/png"),
    Signature([Part(0, [0x47, 0x49, 0x46, 0x38, 0x37, 0x61])], "image/gif"),
    Signature([Part(0, [0x47, 0x49, 0x46, 0x38, 0x39, 0x61])], "image/gif"),
    Signature([Part(0, [0xFF, 0xD8, 0xFF])], "image/jpeg"),
    Signature([Part(0, [0x52, 0x49, 0x46, 0x46]), Part(8, [0x57, 0x45, 0x42, 0x50])], "image/webp"),
    Signature([Part(4, [0x66, 0x74, 0x79, 0x70]), Part(8, [0x61, 0x76, 0x69, 0x66])], "image/avif"),
    Signature([Part(4, [0x66, 0x74, 0x79, 0x70]), Part(8, [0x61, 0x76, 0x69, 0x73])], "image/avif")
  ]

  function FirstFit(signatures: seq<Signature>, content: Bytes): Option<string> {
    if signatures == [] then None
    else if forall part :: part in signatures[0].parts ==> Fits(content, part) then Some(signatures[0].mimeType)
    else FirstFit(signatures[1..], content)
  }

  /** The type that a file's first bytes announce. */
  function DetectedMime(header: Bytes): Option<string> {
    FirstFit(SIGNATURES, header)
  }

  const HEADER_BYTES: nat := 32

  predicate WithinHeader(signature: Signature) {
    forall part :: part in signature.parts ==> part.at + |part.bytes| <= HEADER_BYTES
  }

  lemma {:induction false} PrefixFitsAlike(signatures: seq<Signature>, content: Bytes)
    requires forall s :: s in signatures ==> WithinHeader(s)
    ensures FirstFit(signatures, Prefix(content, HEADER_BYTES)) == FirstFit(signatures, content)
  {
    if signatures != [] {
      var shorter := Prefix(content, HEADER_BYTES);
      assert WithinHeader(signatures[0]);
      forall part | part in signatures[0].parts
        ensures Fits(shorter, part) <==> Fits(content, part)
      {
        if part.at + |part.bytes| <= |content| {
          assert shorter[part.at..part.at + |part.bytes|] == content[part.at..part.at + |part.bytes|];
        }
      }
      PrefixFitsAlike(signatures[1..], content);
    }
  }

  /** Only the first 32 bytes of a file decide its type. */
  lemma HeaderDecidesMime(content: Bytes)
    ensures DetectedMime(Prefix(content, HEADER_BYTES)) == DetectedMime(content)
  {
    PrefixFitsAlike(SIGNATURES, content);
  }

  /** The type that the beginning of a file announces. */
  ghost predicate Announces(content: Bytes, mimeType: Option<string>) {
    forall header :: header == Prefix(content, HEADER_BYTES) ==> DetectedMime(header) == mimeType
  }

  /** The refusal of a provider's response for a download that already has `offset` bytes. */
  function ValidateResponse(r: Response, offset: nat, maxBytes: nat): Option<ErrorCode> {
    if offset != 0 && (r.statusCode != 206 || r.rangeStart != Some(offset) || r.rangeEnd.None?
                       || r.rangeTotal.None?) then
      Some(RangeInvalid)
    else if offset != 0 && (r.rangeEnd.value < offset || r.rangeEnd.value >= r.rangeTotal.value) then Some(RangeInvalid)
    else if offset == 0 && r.statusCode == 206
            && (r.rangeStart != Some(0) || r.rangeEnd.None? || r.rangeTotal.None?
                || r.rangeEnd.value >= r.rangeTotal.value) then
      Some(RangeInvalid)
    else if r.contentLength.Some? && r.contentLength.value + offset > maxBytes then Some(TooLarge)
    else if r.rangeTotal.Some? && r.rangeTotal.value > maxBytes then Some(TooLarge)
    else if r.statusCode == 206 && r.contentLength.Some? && r.rangeStart.Some? && r.rangeEnd.Some?
            && r.rangeEnd.value - r.rangeStart.value + 1 != r.contentLength.value then Some(RangeInvalid)
    else None
  }

  /** What the plan and the row demand of the finished content. */
  datatype Demand = Demand(mimeType: string, expectedBytes: Option<nat>, expectedSha256: Option<Digest>, maxBytes: nat)

  /** The refusal after the stream has ended, from the running total, header and digest. */
  function FinalRefusal(d: Demand, r: Response, offset: nat, total: nat, detected: Option<string>,
                        digest: Digest): Option<ErrorCode> {
    if total == 0 || total == offset then Some(IntegrityFailed)
    else if r.contentLength.Some? && total - offset != r.contentLength.value then Some(IntegrityFailed)
    else if d.expectedBytes.Some? && total != d.expectedBytes.value then Some(IntegrityFailed)
    else if d.expectedSha256.Some? && digest != d.expectedSha256.value then Some(IntegrityFailed)
    else if detected != Some(d.mimeType) then Some(TypeRejected)
    else None
  }

  /** The one-shot reading of the same demands on a whole file. */
  predicate Acceptable(d: Demand, content: Bytes, detected: Option<string>) {
    && 0 < |content| <= d.maxBytes
    && (d.expectedBytes.Some? ==> |content| == d.expectedBytes.value)
    && (d.expectedSha256.Some? ==> Sha256(content) == d.expectedSha256.value)
    && detected == Some(d.mimeType)
  }

  /** The incremental checks accept exactly what a one-shot check of the whole file accepts. */
  lemma FinalChecksRefineOneShot(d: Demand, r: Response, offset: nat, content: Bytes)
    requires |content| <= d.maxBytes
    ensures FinalRefusal(d, r, offset, |content|, DetectedMime(Prefix(content, HEADER_BYTES)), Sha256(content)).None?
            <==> Acceptable(d, content, DetectedMime(content)) && |content| != offset
                 && (r.contentLength.Some? ==> |content| - offset == r.contentLength.value)
  {
    HeaderDecidesMime(content);
  }

  /** An accepted 206 with a content length that is honoured ends exactly at its range end. */
  lemma PartialResponseEndsAtRangeEnd(d: Demand, r: Response, offset: nat, total: nat, detected: Option<string>,
                                      digest: Digest)
    requires ValidateResponse(r, offset, d.maxBytes).None? && r.statusCode == 206 && r.contentLength.Some?
    requires FinalRefusal(d, r, offset, total, detected, digest).None?
    ensures total == r.rangeEnd.value + 1 <= r.rangeTotal.value <= d.maxBytes
  {
  }

  /** Reaching the announced total is not demanded: the full length follows exactly from a known length. */
  lemma FullLengthOnlyFromKnownLength(total: nat, announced: nat, offset: nat, sha: Digest, mime: string)
    requires offset < total < announced
    ensures var d := Demand(mime, None, None, announced);
            var r := Response(206, d.mimeType, Some(total - offset), Some(offset), Some(total - 1), Some(announced));
            && ValidateResponse(r, offset, announced).None?
            && FinalRefusal(d, r, offset, total, Some(mime), sha).None?
            && forall n ::
                 FinalRefusal(d.(expectedBytes := Some(n)), r, offset, total, Some(mime), sha).None? <==> n == total
  {
  }

  /** A file that is already complete cannot be completed again: the run must add bytes and must not. */
  lemma CompleteTempIsRefused(d: Demand, r: Response, offset: nat, total: nat, detected: Option<string>, digest: Digest)
    requires d.expectedBytes == Some(offset)
    ensures FinalRefusal(d, r, offset, total, detected, digest) == Some(IntegrityFailed)
  {
  }
}
