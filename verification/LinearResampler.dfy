/** Resampling by linear interpolation, without a filter and without memory: what the converter does when
    the rate is not reduced, and what every chunk went through before. It works on 16-bit samples; positions
    are exact, as in `Downsampler`.
 */
module LinearResampler {
  import opened Wrappers
  import opened Downsampler

  function OutCount(fromRate: int, toRate: int, n: nat): nat
    requires fromRate > 0 && toRate > 0
  {
    if n * toRate / fromRate < 1 then 1 else n * toRate / fromRate
  }

  /** The nearest integer to a/b, halves rounded up. */
  function Round(a: int, b: int): int
    requires b > 0
  {
    (2 * a + b) / (2 * b)
  }

  /** No integer is nearer; between two equally near ones it is the greater. */
  lemma RoundIsNearest(a: int, b: int)
    requires b > 0
    ensures 2 * a - b < 2 * b * Round(a, b) <= 2 * a + b
  {
    var r := Round(a, b);
    assert 2 * a + b == r * (2 * b) + (2 * a + b) % (2 * b);
    assert r * (2 * b) == 2 * b * r;
  }

  /** As many samples as fit into the time of the input, but at least one. */
  lemma OutCountFits(fromRate: int, toRate: int, n: nat, k: nat)
    requires fromRate > 0 && toRate > 0
    ensures k < OutCount(fromRate, toRate, n) <==> k == 0 || (k + 1) * fromRate <= n * toRate
  {
    DivBound(n * toRate, fromRate, k + 1);
    DivBound(n * toRate, fromRate, 1);
  }

  function Min(a: int, b: int): int {
    if a < b then a else b
  }

  /** Output sample `i`: between the input samples around its position, the last one standing in for the one
      after it. */
  function LinearAt(fromRate: int, toRate: int, x: seq<int>, i: nat): int
    requires fromRate > 0 && toRate > 0 && i * fromRate / toRate < |x|
  {
    var (i0, part) := (i * fromRate / toRate, i * fromRate % toRate);
    Round(x[i0] * (toRate - part) + x[Min(i0 + 1, |x| - 1)] * part, toRate)
  }

  /** An output sample is the rounded value on the line between the input samples around its position. */
  lemma LinearIsOnTheLine(fromRate: int, toRate: int, x: seq<int>, i: nat, j: nat, part: nat)
    requires fromRate > 0 && 0 <= part < toRate && i * fromRate == j * toRate + part && j < |x|
    ensures i * fromRate / toRate == j
    ensures var next := if j + 1 < |x| then x[j + 1] else x[j];
            var line := x[j] * (toRate - part) + next * part;
            2 * line - toRate < 2 * toRate * LinearAt(fromRate, toRate, x, i) <= 2 * line + toRate
  {
    DivUnique(i * fromRate, toRate, j, part);
    RoundIsNearest(x[j] * (toRate - part) + (if j + 1 < |x| then x[j + 1] else x[j]) * part, toRate);
  }

  lemma PositionInside(fromRate: int, toRate: int, n: nat, i: nat)
    requires fromRate > 0 && toRate > 0 && n > 0 && i < OutCount(fromRate, toRate, n)
    ensures 0 <= i * fromRate / toRate < n
  {
    DivBound(i * fromRate, toRate, n);
    DivBound(i * fromRate, toRate, 0);
    if i > 0 {
      DivBound(n * toRate, fromRate, i + 1);
      assert (i + 1) * fromRate == i * fromRate + fromRate;
    } else {
      MulMonotone(1, n, toRate);
    }
  }

  /** `None` when there is nothing to read for the one sample that is always written. */
  function Resampled(fromRate: int, toRate: int, x: seq<int>): (out: Option<seq<int>>)
    requires fromRate > 0 && toRate > 0
    ensures out.Some? <==> fromRate == toRate || x != []
    ensures out.Some? && fromRate != toRate ==> |out.value| == OutCount(fromRate, toRate, |x|)
  {
    if fromRate == toRate then Some(x)
    else if x == [] then None
    else
      Some(seq(OutCount(fromRate, toRate, |x|), i requires 0 <= i < OutCount(fromRate, toRate, |x|) =>
        PositionInside(fromRate, toRate, |x|, i); LinearAt(fromRate, toRate, x, i)))
  }

  /** A call of the converter for a rate that is not reduced. */
  function Converted(fromRate: int, toRate: int, chunk: seq<real>): Option<seq<int>>
    requires fromRate > 0 && toRate > 0
  {
    Resampled(fromRate, toRate, AllPcm16(chunk))
  }

  ghost predicate Joins(fromRate: int, toRate: int, x: seq<real>, y: seq<real>)
    requires fromRate > 0 && toRate > 0 && x != [] && y != []
  {
    var (first, second) := (Converted(fromRate, toRate, x).value, Converted(fromRate, toRate, y).value);
    Converted(fromRate, toRate, x + y).value == first + second
  }

  /** Cutting the input into chunks that are not empty leaves no seams and no drift. */
  ghost predicate ChunkInvariant(fromRate: int, toRate: int)
    requires fromRate > 0 && toRate > 0
  {
    forall x: seq<real>, y: seq<real> :: x != [] && y != [] ==> Joins(fromRate, toRate, x, y)
  }

  function Silence(n: nat): seq<real> {
    seq(n, _ => 0.0)
  }

  /** Without seams, `n` samples one by one give `n` times as many as one of them. */
  lemma {:induction false} LengthsAddUp(fromRate: int, toRate: int, n: nat)
    requires fromRate > 0 && toRate > 0 && fromRate != toRate && n > 0 && ChunkInvariant(fromRate, toRate)
    ensures OutCount(fromRate, toRate, n) == n * OutCount(fromRate, toRate, 1)
  {
    if n > 1 {
      LengthsAddUp(fromRate, toRate, n - 1);
      assert Joins(fromRate, toRate, Silence(n - 1), Silence(1));
      assert |AllPcm16(Silence(n - 1) + Silence(1))| == n;
    }
  }

  lemma SlopeIsHeard(fromRate: int, m: int)
    requires fromRate > 0 && m >= 2
    ensures 2 * (32767 * ((m - 1) * fromRate)) + fromRate * m >= 2 * (fromRate * m)
  {
    MulMonotone(m, 65534 * (m - 1), fromRate);
    assert 65534 * (m - 1) * fromRate == 65534 * ((m - 1) * fromRate);
  }

  /** A seam that keeps the number of samples: silence up to the seam, instead of a slope towards the next
      sample. */
  lemma SeamAtMultiples(fromRate: int, m: int)
    requires fromRate > 0 && m >= 2
    ensures fromRate * m > 0 && !Joins(fromRate, fromRate * m, [0.0], [1.0])
  {
    var toRate := fromRate * m;
    MulMonotone(2, m, fromRate);
    var k := m - 1;
    var (low, both) := (AllPcm16([0.0]), AllPcm16([0.0] + [1.0]));
    assert low == [0] && both == [0, 32767];
    DivUnique(toRate, fromRate, m, 0);
    DivUnique(2 * toRate, fromRate, 2 * m, 0);
    assert k * fromRate == toRate - fromRate;
    DivUnique(k * fromRate, toRate, 0, k * fromRate);
    DivUnique(toRate, 2 * toRate, 0, toRate);
    assert LinearAt(fromRate, toRate, low, k) == Round(0, toRate) == 0;
    var a := 32767 * (k * fromRate);
    assert LinearAt(fromRate, toRate, both, k) == Round(a, toRate);
    SlopeIsHeard(fromRate, m);
    DivBound(2 * a + toRate, 2 * toRate, 1);
    assert Converted(fromRate, toRate, [0.0]).value[k] == 0;
    assert Converted(fromRate, toRate, [0.0] + [1.0]).value[k] == Round(a, toRate) >= 1;
  }

  /** Chunks can be converted one by one without a difference exactly when the rate stays the same. */
  lemma NoSeamsExactlyAtTheSameRate(fromRate: int, toRate: int)
    requires fromRate > 0 && toRate > 0
    ensures ChunkInvariant(fromRate, toRate) <==> fromRate == toRate
  {
    if fromRate == toRate {
      forall x: seq<real>, y: seq<real> | x != [] && y != [] ensures Joins(fromRate, toRate, x, y) {
        assert AllPcm16(x + y) == AllPcm16(x) + AllPcm16(y);
      }
    } else if ChunkInvariant(fromRate, toRate) {
      LengthsAddUp(fromRate, toRate, fromRate);
      DivUnique(fromRate * toRate, fromRate, toRate, 0);
      assert toRate == fromRate * OutCount(fromRate, toRate, 1);
      var m := OutCount(fromRate, toRate, 1);
      SeamAtMultiples(fromRate, m);
    }
  }

  /** Where the rate goes down by a whole factor, every `factor`-th sample is kept and the ones between do
      not count: nothing is filtered out before. */
  lemma KeepsEveryNthSample(toRate: int, factor: int, x: seq<int>, i: nat)
    requires toRate > 0 && factor > 1 && x != [] && i < OutCount(factor * toRate, toRate, |x|)
    ensures factor * toRate > 0 && i * factor < |x|
    ensures Resampled(factor * toRate, toRate, x).value[i] == x[i * factor]
  {
    var fromRate := factor * toRate;
    MulMonotone(2, factor, toRate);
    PositionInside(fromRate, toRate, |x|, i);
    assert i * fromRate == (i * factor) * toRate;
    DivUnique(i * fromRate, toRate, i * factor, 0);
    var s := x[i * factor];
    DivUnique(2 * (s * toRate) + toRate, 2 * toRate, s, toRate);
    assert x[Min(i * factor + 1, |x| - 1)] * 0 == 0;
  }

  /** The loop over the output samples. */
  method ResamplePcm16Linear(pcm: array<int>, fromRate: int, toRate: int) returns (out: Option<array<int>>)
    requires fromRate > 0 && toRate > 0
    ensures out.Some? <==> Resampled(fromRate, toRate, pcm[..]).Some?
    ensures out.Some? ==> out.value[..] == Resampled(fromRate, toRate, pcm[..]).value
  {
    if fromRate == toRate {
      return Some(pcm);
    }
    var n := pcm.Length;
    if n == 0 {
      return None;
    }
    var count := OutCount(fromRate, toRate, n);
    var samples := new int[count];
    for i := 0 to count
      invariant forall k :: 0 <= k < i ==> samples[k] == Resampled(fromRate, toRate, pcm[..]).value[k]
    {
      PositionInside(fromRate, toRate, n, i);
      var i0 := i * fromRate / toRate;
      var i1 := Min(i0 + 1, n - 1);
      var part := i * fromRate % toRate;
      samples[i] := Round(pcm[i0] * (toRate - part) + pcm[i1] * part, toRate);
    }
    out := Some(samples);
  }
}
