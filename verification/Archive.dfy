/** The archive records of internal/domain/models.go and the playlist records of
    internal/hls, reduced to the fields that acquisition decides on. */
module Archive {
  const MAX_UINT64: nat := 0xFFFF_FFFF_FFFF_FFFF

  /** Go's uint64. A value outside the range is a proof obligation, so no
      operation of the model wraps silently. */
  type Uint64 = n: nat | n <= MAX_UINT64

  const MAIN_TRACK := "main"

  datatype Option<+T> = None | Some(value: T) {
    function GetOr(default: T): T { if Some? then value else default }
  }

  /** A URI together with the part that names the resource (scheme, host, path);
      signed query parameters only occur in `full`. */
  datatype Uri = NoUri | Uri(full: string, resource: string)

  /** One entry of a parsed media playlist. */
  datatype MediaSegment = MediaSegment(
    sequence: Uint64, discontinuitySequence: Uint64, uri: Uri, programTime: Option<int>, gap: bool)

  /** One archived source object. */
  datatype Segment = Segment(
    epoch: Uint64, sequence: Uint64, discontinuitySequence: Uint64, ordinal: Uint64,
    uri: Uri, programTime: Option<int>, discontinuity: bool)

  datatype Gap = Gap(trackId: string, epoch: Uint64, from: Uint64, to: Uint64, reason: string)

  /** Identity of one source object: its sequence number within a source epoch. */
  datatype Key = Key(epoch: Uint64, sequence: Uint64)

  function Max(a: int, b: int): int { if a < b then b else a }

  function Min(a: int, b: int): int { if b < a then b else a }
}
