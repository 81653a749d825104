/**
 * The FFmpeg error codes the programs compare against or return.
 *
 * AVERROR(e) is -e for a POSIX errno `e` (Linux values); the codes libavutil
 * builds itself are FFERRTAG(a, b, c, d), modelled in module ErrTag.
 */
module Averror {
  import ErrTag

  const EAGAIN: int := -11
  const ENOMEM: int := -12
  const EINVAL: int := -22

  /** AVERROR_EOF = FFERRTAG('E', 'O', 'F', ' '). */
  const EOF: int := -541478725

  /** AVERROR_UNKNOWN = FFERRTAG('U', 'N', 'K', 'N'). */
  const UNKNOWN: int := -1313558101

  /** The two tag codes are those of their four characters, and all five codes are distinct and negative. */
  lemma CodesAreTags()
    ensures EOF == ErrTag.FfErrTag(ErrTag.EofTag)
    ensures UNKNOWN == ErrTag.FfErrTag(ErrTag.Tag(0x55, 0x4E, 0x4B, 0x4E))
    ensures EOF < 0 && UNKNOWN < 0 && EOF != UNKNOWN && EOF != EAGAIN && UNKNOWN != EAGAIN
  {
    ErrTag.EofCode();
    assert ErrTag.MkTag(ErrTag.Tag(0x55, 0x4E, 0x4B, 0x4E)) == 0x4E4B_4E55;
  }

  /** The status left by a run of library calls written as `if ((ret = call()) < 0) goto end;`:
      each call runs only while every earlier one returned a non-negative status, and the
      status is that of the last call made (0 when there is none). */
  function RunSteps(results: seq<int>): (ret: int)
    ensures ret < 0 <==> exists i :: 0 <= i < |results| && results[i] < 0
    ensures ret < 0 ==> ret == results[FirstFailure(results)]
    ensures ret >= 0 ==> ret == (if results == [] then 0 else results[|results| - 1])
  {
    if results == [] then 0
    else if results[0] < 0 || |results| == 1 then results[0]
    else RunSteps(results[1..])
  }

  /** The index of the first negative status, or the number of calls when there is none. */
  function FirstFailure(results: seq<int>): (k: nat)
    ensures k <= |results|
    ensures forall i :: 0 <= i < k ==> results[i] >= 0
    ensures k < |results| ==> results[k] < 0
  {
    if results == [] then 0
    else if results[0] < 0 then 0
    else 1 + FirstFailure(results[1..])
  }

  /** The first failing call, once located, is the one FirstFailure finds, and its status is the run's. */
  lemma FirstFailureAt(results: seq<int>, p: nat)
    requires p < |results| && results[p] < 0
    requires forall i :: 0 <= i < p ==> results[i] >= 0
    ensures FirstFailure(results) == p && RunSteps(results) == results[p]
  {
  }

  /** When no call fails, every call is made and the status is the last one's. */
  lemma NoFailure(results: seq<int>)
    requires forall i :: 0 <= i < |results| ==> results[i] >= 0
    ensures FirstFailure(results) == |results| && RunSteps(results) >= 0
  {
  }

  /** Two runs made one after the other: the second starts only when the first did not fail, and
      then the status is the second run's (unless it makes no call). */
  lemma {:induction false} RunStepsConcat(a: seq<int>, b: seq<int>)
    ensures FirstFailure(a + b) == if FirstFailure(a) < |a| then FirstFailure(a) else |a| + FirstFailure(b)
    ensures RunSteps(a + b) == if FirstFailure(a) < |a| || b == [] then RunSteps(a) else RunSteps(b)
  {
    if a == [] {
      assert a + b == b;
    } else {
      assert (a + b)[1..] == a[1..] + b;
      if a[0] >= 0 && |a| > 1 {
        RunStepsConcat(a[1..], b);
      }
    }
  }
}
