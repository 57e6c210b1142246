/**
 * The playback clock: how far the bridge's estimate of the end of playing can be from the true end.
 * Instants are in eighths of a millisecond, so one mu-law byte plays for one unit.
 */
module Playback {
  import B = VoiceBridge

  /** Length of the base64 text of `bytes` bytes, padded to a multiple of four (RFC 4648, section 4). */
  function EncodedLength(bytes: nat): nat {
    (bytes + 2) / 3 * 4
  }

  datatype Op = Delta(now: int, bytes: nat) | Cleared

  /** The bridge's estimate and the true end of sequential playing, after a run of operations. */
  function Estimate(ops: seq<Op>): int {
    if ops == [] then 0
    else match ops[|ops| - 1]
      case Delta(now, bytes) => B.PlaybackAfter(Estimate(ops[..|ops| - 1]), now, EncodedLength(bytes))
      case Cleared => 0
  }

  function TrueEnd(ops: seq<Op>): int {
    if ops == [] then 0
    else match ops[|ops| - 1]
      case Delta(now, bytes) =>
        var end := TrueEnd(ops[..|ops| - 1]);
        (if now > end then now else end) + bytes
      case Cleared => 0
  }

  function SinceClear(ops: seq<Op>): nat {
    if ops == [] || ops[|ops| - 1].Cleared? then 0 else 1 + SinceClear(ops[..|ops| - 1])
  }

  lemma PaddingBound(bytes: nat)
    ensures bytes <= EncodedLength(bytes) * 3 / 4 <= bytes + 2
  {
    var groups := (bytes + 2) / 3;
    assert EncodedLength(bytes) * 3 / 4 == groups * 3;
  }

  /** Never early, and late by at most a quarter of a millisecond (two units) per delta since the last clear. */
  lemma {:induction false} EstimateBound(ops: seq<Op>)
    ensures TrueEnd(ops) <= Estimate(ops) <= TrueEnd(ops) + 2 * SinceClear(ops)
  {
    if ops != [] {
      EstimateBound(ops[..|ops| - 1]);
      match ops[|ops| - 1]
      case Delta(_, bytes) => PaddingBound(bytes);
      case Cleared =>
    }
  }
}
