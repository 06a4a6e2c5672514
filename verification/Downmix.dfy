/** The in-place stereo-to-mono loop of out_write. */
module Downmix {

  predicate IsSample(x: int)
  {
    -0x8000 <= x < 0x8000
  }

  /** The arithmetic shift by one: the average rounded down, which lies between its inputs. */
  function Mix(a: int, b: int): (m: int)
    ensures 2 * m <= a + b <= 2 * m + 1
    ensures a <= m <= b || b <= m <= a
  {
    (a + b) / 2
  }

  /** The samples of `was` mixed up to frame n, and the rest of it unchanged. */
  ghost predicate Mixed(now: seq<int>, was: seq<int>, n: nat)
  {
    && |now| == |was| && 2 * n <= |was|
    && (forall k | 0 <= k < n :: now[k] == Mix(was[2 * k], was[2 * k + 1]))
    && (forall k | n <= k < |was| :: now[k] == was[k])
  }

  lemma {:induction false} MixedNext(now: seq<int>, was: seq<int>, n: nat)
    requires Mixed(now, was, n) && 2 * n + 1 < |was|
    ensures Mixed(now[n := Mix(now[2 * n], now[2 * n + 1])], was, n + 1)
  {
  }

  lemma {:induction false} MixedSamples(now: seq<int>, was: seq<int>, n: nat)
    requires Mixed(now, was, n) && forall i | 0 <= i < |was| :: IsSample(was[i])
    ensures forall i | 0 <= i < |now| :: IsSample(now[i])
  {
    forall i | 0 <= i < |now| ensures IsSample(now[i]) {
      if i < n { assert IsSample(was[2 * i]) && IsSample(was[2 * i + 1]); }
    }
  }

  /** Source and destination are the same buffer: frame i is read from 2i and 2i + 1 and
      written to i, which is never read again. */
  method StereoToMono(buffer: array<int>, frames: nat)
    requires 2 * frames <= buffer.Length
    requires forall i | 0 <= i < buffer.Length :: IsSample(buffer[i])
    modifies buffer
    ensures Mixed(buffer[..], old(buffer[..]), frames)
    ensures forall i | 0 <= i < buffer.Length :: IsSample(buffer[i])
  {
    ghost var was := buffer[..];
    var i, src, dst := 0, 0, 0;
    while i < frames
      invariant 0 <= i <= frames && src == 2 * i && dst == i
      invariant Mixed(buffer[..], was, i)
    {
      ghost var before := buffer[..];
      MixedNext(before, was, i);
      buffer[dst] := Mix(buffer[src], buffer[src + 1]);
      assert buffer[..] == before[i := Mix(before[2 * i], before[2 * i + 1])];
      i, dst, src := i + 1, dst + 1, src + 2;
    }
    MixedSamples(buffer[..], was, frames);
    assert forall k | 0 <= k < buffer.Length :: buffer[k] == buffer[..][k];
  }
}
