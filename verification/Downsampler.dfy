/** Streaming conversion of microphone samples to 16-bit PCM at a lower rate.

    Positions are exact: an integer counts the `toRate`-th parts of an input sample, so the step from one
    output sample to the next is `fromRate`. Samples and filter coefficients are real numbers.
    The reference looks at the whole input at once; the converter sees it chunk by chunk.
 */
module Downsampler {
  import opened Common

  // ---- The reference: one pass over the whole input ---------------------------------------------------

  /** The input with silence before its start and after its end. */
  function At(x: seq<real>, j: int): real {
    if 0 <= j < |x| then x[j] else 0.0
  }

  /** The first `k` terms of the filter at input index `i`. */
  function Dot(h: seq<real>, x: seq<real>, i: int, k: nat): real
    requires k <= |h|
  {
    if k == 0 then 0.0 else Dot(h, x, i, k - 1) + h[k - 1] * At(x, i - (k - 1))
  }

  function Filtered(h: seq<real>, x: seq<real>, i: int): real {
    Dot(h, x, i, |h|)
  }

  /** A single sample in silence. */
  function Impulse(n: nat, j: nat): seq<real>
    requires j < n
  {
    seq(n, k => if k == j then 1.0 else 0.0)
  }

  lemma {:induction false} DotOfImpulse(h: seq<real>, n: nat, j: nat, i: int, k: nat)
    requires k <= |h| && j < n && i < n
    ensures Dot(h, Impulse(n, j), i, k) == if 0 <= i - j < k then h[i - j] else 0.0
  {
    if k > 0 {
      DotOfImpulse(h, n, j, i, k - 1);
    }
  }

  /** The filter answers a single sample with its taps, the first one at once. */
  lemma FilterAnswersWithItsTaps(h: seq<real>, n: nat, j: nat, i: int)
    requires j < n && i < n
    ensures Filtered(h, Impulse(n, j), i) == if 0 <= i - j < |h| then h[i - j] else 0.0
  {
    DotOfImpulse(h, n, j, i, |h|);
  }

  /** The input times a number, and the sum of two equally long inputs. */
  function Scaled(c: real, x: seq<real>): seq<real> {
    seq(|x|, k requires 0 <= k < |x| => c * x[k])
  }

  function Sum(x: seq<real>, y: seq<real>): seq<real>
    requires |x| == |y|
  {
    seq(|x|, k requires 0 <= k < |x| => x[k] + y[k])
  }

  lemma SumAt(c: real, x: seq<real>, y: seq<real>, j: int)
    requires |x| == |y|
    ensures At(Sum(Scaled(c, x), y), j) == c * At(x, j) + At(y, j)
  {
  }

  lemma OneMoreTerm(tap: real, c: real, u: real, v: real, w: real, ofX: real, ofY: real)
    requires w == c * u + v
    ensures c * ofX + ofY + tap * w == c * (ofX + tap * u) + (ofY + tap * v)
  {
  }

  /** The filter is linear, so what it does to single samples is what it does. */
  lemma {:induction false} DotIsLinear(h: seq<real>, c: real, x: seq<real>, y: seq<real>, i: int, k: nat)
    requires |x| == |y| && k <= |h|
    ensures Dot(h, Sum(Scaled(c, x), y), i, k) == c * Dot(h, x, i, k) + Dot(h, y, i, k)
  {
    if k > 0 {
      DotIsLinear(h, c, x, y, i, k - 1);
      var j := i - (k - 1);
      SumAt(c, x, y, j);
      OneMoreTerm(h[k - 1], c, At(x, j), At(y, j), At(Sum(Scaled(c, x), y), j),
                  Dot(h, x, i, k - 1), Dot(h, y, i, k - 1));
    } else {
      assert c * 0.0 + 0.0 == 0.0;
    }
  }

  /** The filtered input at position p/toRate, between two input samples by linear interpolation. */
  function Interpolated(h: seq<real>, x: seq<real>, toRate: int, p: int): real
    requires toRate > 0
  {
    var i := p / toRate;
    var frac := p % toRate;
    if frac > 0 then
      Filtered(h, x, i) + (Filtered(h, x, i + 1) - Filtered(h, x, i)) * (frac as real / toRate as real)
    else Filtered(h, x, i)
  }

  function Truncate(r: real): int {
    if r >= 0.0 then r.Floor else -(-r).Floor
  }

  /** A sample limited to [-1, 1] and scaled to 16 bits. */
  function Pcm16(y: real): (v: int)
    ensures -0x8000 <= v <= 0x7fff
  {
    var s := if y < -1.0 then -1.0 else if y > 1.0 then 1.0 else y;
    if s < 0.0 then Truncate(s * 32768.0) else Truncate(s * 32767.0)
  }

  /** Two's complement, low byte first. */
  function Low(v: int): Byte {
    v % 0x1_0000 % 256
  }

  function High(v: int): Byte {
    v % 0x1_0000 / 256
  }

  /** Two octets read as a signed 16-bit number, low octet first. */
  function Int16(lo: Byte, hi: Byte): int {
    var u := lo + 256 * hi;
    if u >= 0x8000 then u - 0x1_0000 else u
  }

  lemma OctetsOfSample(v: int)
    requires -0x8000 <= v < 0x8000
    ensures Int16(Low(v), High(v)) == v
  {
  }

  /** In proportion, on a scale that reaches from -32768 to 32767; what is beyond is cut off. */
  predicate InProportion(v: int, y: real) {
    && (y >= 1.0 ==> v == 32767)
    && (y <= -1.0 ==> v == -32768)
    && (0.0 <= y <= 1.0 ==> v as real <= y * 32767.0 < v as real + 1.0)
    && (-1.0 <= y <= 0.0 ==> v as real - 1.0 < y * 32768.0 <= v as real)
  }

  lemma Pcm16IsInProportion(y: real)
    ensures InProportion(Pcm16(y), y)
  {
  }

  function Bytes(vs: seq<int>): (bs: seq<Byte>)
    ensures |bs| == 2 * |vs|
    ensures forall k :: 0 <= k < |vs| ==> bs[2 * k] == Low(vs[k]) && bs[2 * k + 1] == High(vs[k])
  {
    if vs == [] then [] else Bytes(vs[..|vs| - 1]) + [Low(vs[|vs| - 1]), High(vs[|vs| - 1])]
  }

  /** How many output samples `n` input samples give. */
  function Count(fromRate: int, toRate: int, n: nat): (c: nat)
    requires fromRate > toRate > 0
  {
    if n == 0 then 0 else (n - 1) * toRate / fromRate + 1
  }

  function Reference(h: seq<real>, fromRate: int, toRate: int, x: seq<real>): (out: seq<int>)
    requires fromRate > toRate > 0
    ensures |out| == Count(fromRate, toRate, |x|)
  {
    seq(Count(fromRate, toRate, |x|), n requires 0 <= n => Pcm16(Interpolated(h, x, toRate, n * fromRate)))
  }

  // ---- Positions --------------------------------------------------------------------------------------

  lemma MulMonotone(a: int, b: int, c: int)
    requires a <= b && c >= 0
    ensures a * c <= b * c
  {
  }

  lemma DivBound(a: int, d: int, n: int)
    requires d > 0
    ensures n <= a / d <==> n * d <= a
  {
    assert a == a / d * d + a % d;
    if n <= a / d {
      MulMonotone(n, a / d, d);
    } else {
      MulMonotone(a / d + 1, n, d);
    }
  }

  lemma DivUnique(a: int, d: int, q: int, r: int)
    requires d > 0 && a == q * d + r && 0 <= r < d
    ensures a / d == q && a % d == r
  {
    DivBound(a, d, q);
    DivBound(a, d, q + 1);
    assert (q + 1) * d == q * d + d;
  }

  /** From `a` towards `b`, `part` of the `whole` way. */
  predicate OnTheLine(y: real, a: real, b: real, part: real, whole: real) {
    (y - a) * whole == (b - a) * part
  }

  lemma Proportion(d: real, part: real, whole: real)
    requires whole > 0.0
    ensures d * (part / whole) * whole == d * part
  {
    assert part / whole * whole == part;
  }

  /** At an input sample the output is the filtered sample; between two it is on the line from one to the other,
      in proportion to the distance. */
  lemma InterpolationIsOnTheLine(h: seq<real>, x: seq<real>, toRate: int, i: int, part: int)
    requires 0 <= part < toRate
    ensures part == 0 ==> Interpolated(h, x, toRate, i * toRate) == Filtered(h, x, i)
    ensures OnTheLine(Interpolated(h, x, toRate, i * toRate + part), Filtered(h, x, i), Filtered(h, x, i + 1),
                      part as real, toRate as real)
  {
    DivUnique(i * toRate + part, toRate, i, part);
    Proportion(Filtered(h, x, i + 1) - Filtered(h, x, i), part as real, toRate as real);
  }

  lemma DivShift(a: int, n: int, d: int)
    requires d > 0
    ensures (a - n * d) / d == a / d - n && (a - n * d) % d == a % d
  {
    var q := a / d - n;
    var r := a % d;
    assert a - n * d == q * d + r;
    DivUnique(a - n * d, d, q, r);
  }

  /** Output sample `k` is due exactly when the input samples on both sides of its position are there. */
  lemma CountIsTight(fromRate: int, toRate: int, n: nat, k: nat)
    requires fromRate > toRate > 0
    ensures k < Count(fromRate, toRate, n) <==> k * fromRate <= (n - 1) * toRate
  {
    if n == 0 {
      MulMonotone(0, k, fromRate);
    } else {
      DivBound((n - 1) * toRate, fromRate, k);
    }
  }

  /** The next output sample's position, relative to the end of the input so far, in parts of a sample. */
  function Carry(fromRate: int, toRate: int, n: nat): int
    requires fromRate > toRate > 0
  {
    Count(fromRate, toRate, n) * fromRate - n * toRate
  }

  /** The position never falls a whole sample behind the chunk, and never drifts more than a step ahead. */
  lemma CarryIsBounded(fromRate: int, toRate: int, n: nat)
    requires fromRate > toRate > 0
    ensures -toRate < Carry(fromRate, toRate, n) <= fromRate - toRate
  {
    var c := Count(fromRate, toRate, n);
    CountIsTight(fromRate, toRate, n, c);
    if n > 0 {
      CountIsTight(fromRate, toRate, n, c - 1);
      assert (c - 1) * fromRate == c * fromRate - fromRate;
    }
    assert (n - 1) * toRate == n * toRate - toRate;
  }

  lemma CountGrows(fromRate: int, toRate: int, n: nat, m: nat)
    requires fromRate > toRate > 0 && n <= m
    ensures Count(fromRate, toRate, n) <= Count(fromRate, toRate, m)
  {
    if n > 0 {
      var c := Count(fromRate, toRate, n);
      CountIsTight(fromRate, toRate, n, c - 1);
      MulMonotone(n - 1, m - 1, toRate);
      CountIsTight(fromRate, toRate, m, c - 1);
    }
  }

  // ---- Later input does not change earlier output -----------------------------------------------------

  lemma {:induction false} DotIgnoresTheFuture(h: seq<real>, x: seq<real>, y: seq<real>, i: int, k: nat)
    requires k <= |h| && i < |x|
    ensures Dot(h, x + y, i, k) == Dot(h, x, i, k)
  {
    if k > 0 {
      DotIgnoresTheFuture(h, x, y, i, k - 1);
    }
  }

  lemma NeighboursInside(toRate: int, p: int, n: int)
    requires toRate > 0
    ensures p <= (n - 1) * toRate <==> p / toRate < n && (p % toRate > 0 ==> p / toRate + 1 < n)
  {
    DivBound(p, toRate, n - 1);
    DivBound(p, toRate, n);
    assert n * toRate == (n - 1) * toRate + toRate;
    assert p == p / toRate * toRate + p % toRate;
  }

  lemma InterpolationIgnoresTheFuture(h: seq<real>, toRate: int, x: seq<real>, y: seq<real>, p: int)
    requires toRate > 0 && p <= (|x| - 1) * toRate
    ensures Interpolated(h, x + y, toRate, p) == Interpolated(h, x, toRate, p)
  {
    NeighboursInside(toRate, p, |x|);
    DotIgnoresTheFuture(h, x, y, p / toRate, |h|);
    if p % toRate > 0 {
      DotIgnoresTheFuture(h, x, y, p / toRate + 1, |h|);
    }
  }

  lemma ReferenceIgnoresTheFuture(h: seq<real>, fromRate: int, toRate: int, x: seq<real>, y: seq<real>)
    requires fromRate > toRate > 0
    ensures |Reference(h, fromRate, toRate, x)| <= |Reference(h, fromRate, toRate, x + y)|
    ensures Reference(h, fromRate, toRate, x + y)[..|Reference(h, fromRate, toRate, x)|]
         == Reference(h, fromRate, toRate, x)
  {
    CountGrows(fromRate, toRate, |x|, |x + y|);
    var all := Reference(h, fromRate, toRate, x + y);
    var early := Reference(h, fromRate, toRate, x);
    forall k | 0 <= k < |early| ensures all[k] == early[k] {
      CountIsTight(fromRate, toRate, |x|, k);
      InterpolationIgnoresTheFuture(h, toRate, x, y, k * fromRate);
    }
  }

  // ---- Streaming --------------------------------------------------------------------------------------

  /** What is due for `chunk`, after the input `x`. */
  function ChunkOutput(h: seq<real>, fromRate: int, toRate: int, x: seq<real>, chunk: seq<real>): (out: seq<int>)
    requires fromRate > toRate > 0
    ensures Reference(h, fromRate, toRate, x) + out == Reference(h, fromRate, toRate, x + chunk)
  {
    ReferenceIgnoresTheFuture(h, fromRate, toRate, x, chunk);
    Reference(h, fromRate, toRate, x + chunk)[|Reference(h, fromRate, toRate, x)|..]
  }

  function StreamOutput(h: seq<real>, fromRate: int, toRate: int, x: seq<real>, chunks: seq<seq<real>>): seq<int>
    requires fromRate > toRate > 0
    decreases |chunks|
  {
    if chunks == [] then [] else
    ChunkOutput(h, fromRate, toRate, x, chunks[0]) + StreamOutput(h, fromRate, toRate, x + chunks[0], chunks[1..])
  }

  lemma {:induction false} StreamContinuesTheReference(h: seq<real>, fromRate: int, toRate: int, x: seq<real>,
                                                       chunks: seq<seq<real>>)
    requires fromRate > toRate > 0
    ensures Reference(h, fromRate, toRate, x) + StreamOutput(h, fromRate, toRate, x, chunks)
         == Reference(h, fromRate, toRate, x + Flatten(chunks))
    decreases |chunks|
  {
    if chunks == [] {
      assert x + Flatten(chunks) == x;
    } else {
      var first := ChunkOutput(h, fromRate, toRate, x, chunks[0]);
      var rest := StreamOutput(h, fromRate, toRate, x + chunks[0], chunks[1..]);
      StreamContinuesTheReference(h, fromRate, toRate, x + chunks[0], chunks[1..]);
      assert x + chunks[0] + Flatten(chunks[1..]) == x + Flatten(chunks);
      assert Reference(h, fromRate, toRate, x) + (first + rest) == (Reference(h, fromRate, toRate, x) + first) + rest;
    }
  }

  /** The bookkeeping of the reference: however the input is cut into chunks, empty ones included, what is due
      for them put together is what is due for all of it. That the converter, with its history and position,
      gives what is due is `Process`, and the result is `ConvertStream`. */
  lemma StreamingRefinesOneShot(h: seq<real>, fromRate: int, toRate: int, chunks: seq<seq<real>>)
    requires fromRate > toRate > 0
    ensures StreamOutput(h, fromRate, toRate, [], chunks) == ChunkOutput(h, fromRate, toRate, [], Flatten(chunks))
    ensures |StreamOutput(h, fromRate, toRate, [], chunks)| == Count(fromRate, toRate, |Flatten(chunks)|)
  {
    StreamContinuesTheReference(h, fromRate, toRate, [], chunks);
    assert [] + Flatten(chunks) == Flatten(chunks);
  }

  /** `n` output samples from number `first` on, before they are limited to 16 bits. */
  ghost function Outputs(h: seq<real>, fromRate: int, toRate: int, x: seq<real>, first: nat, n: nat): (out: seq<real>)
    requires fromRate > toRate > 0
    ensures |out| == n
  {
    if n == 0 then [] else
    Outputs(h, fromRate, toRate, x, first, n - 1) + [Interpolated(h, x, toRate, (first + n - 1) * fromRate)]
  }

  lemma {:induction false} OutputsAt(h: seq<real>, fromRate: int, toRate: int, x: seq<real>, first: nat, n: nat, k: nat)
    requires fromRate > toRate > 0 && k < n
    ensures Outputs(h, fromRate, toRate, x, first, n)[k] == Interpolated(h, x, toRate, (first + k) * fromRate)
  {
    if k < n - 1 {
      OutputsAt(h, fromRate, toRate, x, first, n - 1, k);
    }
  }

  lemma DueAt(h: seq<real>, fromRate: int, toRate: int, x: seq<real>, chunk: seq<real>, k: nat)
    requires fromRate > toRate > 0 && k < |ChunkOutput(h, fromRate, toRate, x, chunk)|
    ensures ChunkOutput(h, fromRate, toRate, x, chunk)[k]
         == Pcm16(Interpolated(h, x + chunk, toRate, (Count(fromRate, toRate, |x|) + k) * fromRate))
  {
    var n := |Reference(h, fromRate, toRate, x)|;
    assert ChunkOutput(h, fromRate, toRate, x, chunk)[k] == Reference(h, fromRate, toRate, x + chunk)[n + k];
  }

  function AllPcm16(out: seq<real>): (vs: seq<int>)
    ensures |vs| == |out|
  {
    seq(|out|, k requires 0 <= k < |out| => Pcm16(out[k]))
  }

  lemma OutputsAreDue(h: seq<real>, fromRate: int, toRate: int, x: seq<real>, chunk: seq<real>, out: seq<real>)
    requires fromRate > toRate > 0
    requires Count(fromRate, toRate, |x|) + |out| == Count(fromRate, toRate, |x + chunk|)
    requires out == Outputs(h, fromRate, toRate, x + chunk, Count(fromRate, toRate, |x|), |out|)
    ensures AllPcm16(out) == ChunkOutput(h, fromRate, toRate, x, chunk)
  {
    var due := ChunkOutput(h, fromRate, toRate, x, chunk);
    var first := Count(fromRate, toRate, |x|);
    assert |due| == |out|;
    forall k | 0 <= k < |out| ensures AllPcm16(out)[k] == due[k] {
      OutputsAt(h, fromRate, toRate, x + chunk, first, |out|, k);
      DueAt(h, fromRate, toRate, x, chunk, k);
    }
  }

  // ---- The converter ----------------------------------------------------------------------------------

  /** The filter over the extended chunk, newest sample at `end`. */
  method FilterAt(h: seq<real>, ext: seq<real>, end: int) returns (acc: real)
    requires |h| - 1 <= end < |ext|
    ensures acc == Filtered(h, ext, end)
  {
    acc := 0.0;
    for k := 0 to |h|
      invariant acc == Dot(h, ext, end, k)
    {
      acc := acc + h[k] * ext[end - k];
    }
  }

  /** `w` is the end of the input, with silence before its start. */
  ghost predicate Window(w: seq<real>, x: seq<real>) {
    forall k :: 0 <= k < |w| ==> w[k] == At(x, |x| - |w| + k)
  }

  lemma WindowMoves(w: seq<real>, x: seq<real>, chunk: seq<real>)
    requires Window(w, x)
    ensures Window(w + chunk, x + chunk)
    ensures forall k :: 0 <= k <= |w + chunk| ==> Window((w + chunk)[k..], x + chunk)
  {
    var ext := w + chunk;
    forall j | 0 <= j < |ext| ensures ext[j] == At(x + chunk, |x + chunk| - |ext| + j) {
      if j < |w| {
        assert w[j] == At(x, |x| - |w| + j);
      }
    }
  }

  lemma {:induction false} DotOfWindow(h: seq<real>, x: seq<real>, w: seq<real>, i: int, k: nat)
    requires Window(w, x) && k <= |h| <= i - |x| + |w| + 1 && i < |x|
    ensures Dot(h, w, i - |x| + |w|, k) == Dot(h, x, i, k)
  {
    if k > 0 {
      DotOfWindow(h, x, w, i, k - 1);
      assert w[i - |x| + |w| - (k - 1)] == At(x, i - (k - 1));
    }
  }

  class Pcm16Downsampler {
    const fromRate: int
    const toRate: int
    const h: seq<real>
    var history: seq<real>  // the last |h| input samples
    var position: int       // of the next output sample, relative to the next chunk
    ghost var consumed: seq<real>

    ghost predicate Valid()
      reads this
    {
      && fromRate > toRate > 0 && |h| > 0 && |history| == |h|
      && Window(history, consumed)
      && position == Carry(fromRate, toRate, |consumed|)
    }

    constructor (h: seq<real>, fromRate: int, toRate: int)
      requires fromRate > toRate > 0 && |h| > 0
      ensures Valid() && consumed == []
      ensures this.h == h && this.fromRate == fromRate && this.toRate == toRate
    {
      this.h, this.fromRate, this.toRate := h, fromRate, toRate;
      history := seq(|h|, _ => 0.0);
      position := 0;
      consumed := [];
    }

    lemma ChunkEnds(before: nat, len: nat)
      ensures (before + len) * toRate == before * toRate + len * toRate
    {
    }

    lemma PositionAdvances(before: nat, k: nat)
      requires fromRate > 0
      ensures (k + 1) * fromRate - before * toRate == k * fromRate - before * toRate + fromRate
    {
    }

    /** The two input samples around position `t`, and whether one of them is beyond the chunk's end: that is
        exactly when output sample `k`, which is due at `t`, has to wait for the next chunk. */
    method Locate(t: int, len: nat, ghost before: nat, ghost k: nat) returns (i0: int, frac: int, beyond: bool)
      requires fromRate > toRate > 0
      requires t == k * fromRate - before * toRate && t > -toRate
      ensures beyond <==> k >= Count(fromRate, toRate, before + len)
      ensures k * fromRate / toRate == i0 + before && k * fromRate % toRate == frac
      ensures !beyond ==> -1 <= i0 < len && 0 <= frac && (frac > 0 ==> i0 + 1 < len)
    {
      i0 := t / toRate;
      frac := t % toRate;
      beyond := i0 > len - 1 || (frac > 0 && i0 + 1 > len - 1);
      DivShift(k * fromRate, before, toRate);
      DivBound(t, toRate, -1);
      NeighboursInside(toRate, k * fromRate, before + len);
      CountIsTight(fromRate, toRate, before + len, k);
    }

    method SampleAt(ext: seq<real>, ghost x: seq<real>, i0: int, frac: int, ghost p: int) returns (y: real)
      requires Valid() && |ext| - |h| == |x| - |consumed| >= 0 && Window(ext, x)
      requires -1 <= i0 < |ext| - |h| && 0 <= frac && (frac > 0 ==> i0 + 1 < |ext| - |h|)
      requires p / toRate == i0 + |consumed| && p % toRate == frac
      ensures y == Interpolated(h, x, toRate, p)
    {
      var y0 := FilterAt(h, ext, i0 + |h|);
      DotOfWindow(h, x, ext, p / toRate, |h|);
      if frac > 0 {
        var y1 := FilterAt(h, ext, i0 + 1 + |h|);
        DotOfWindow(h, x, ext, p / toRate + 1, |h|);
        y := y0 + (y1 - y0) * (frac as real / toRate as real);
      } else {
        y := y0;
      }
    }

    /** The loop over the output samples that are due, from `position` on; `t` is where it stops. */
    method Resample(ext: seq<real>, len: nat, ghost x: seq<real>) returns (out: seq<real>, t: int)
      requires Valid() && |x| == |consumed| + len && |ext| == |h| + len && Window(ext, x)
      ensures Count(fromRate, toRate, |consumed|) + |out| == Count(fromRate, toRate, |x|)
      ensures t - len * toRate == Carry(fromRate, toRate, |x|)
      ensures out == Outputs(h, fromRate, toRate, x, Count(fromRate, toRate, |consumed|), |out|)
    {
      ghost var before := |consumed|;
      ghost var first := Count(fromRate, toRate, before);
      ghost var k := first;
      out, t := [], position;
      CarryIsBounded(fromRate, toRate, before);
      CountGrows(fromRate, toRate, before, |x|);
      while true
        invariant k == first + |out| <= Count(fromRate, toRate, |x|)
        invariant t == k * fromRate - before * toRate && t > -toRate
        invariant out == Outputs(h, fromRate, toRate, x, first, |out|)
        decreases Count(fromRate, toRate, |x|) - k
      {
        var i0, frac, beyond := Locate(t, len, before, k);
        if beyond {
          break;
        }
        var y := SampleAt(ext, x, i0, frac, k * fromRate);
        out := out + [y];
        t := t + fromRate;
        PositionAdvances(before, k);
        k := k + 1;
      }
      ChunkEnds(before, len);
    }

    method Process(chunk: seq<real>) returns (pcm: array<Byte>)
      requires Valid()
      modifies this
      ensures Valid() && consumed == old(consumed) + chunk && fresh(pcm)
      ensures pcm[..] == Bytes(ChunkOutput(h, fromRate, toRate, old(consumed), chunk))
    {
      ghost var x := consumed + chunk;
      var len := |chunk|;
      var ext := history + chunk;
      WindowMoves(history, consumed, chunk);
      var out, t := Resample(ext, len, x);
      OutputsAreDue(h, fromRate, toRate, consumed, chunk, out);
      position := t - len * toRate;
      history := ext[|ext| - |h|..];
      consumed := x;
      pcm := ToPcm(out);
    }
  }

  method ToPcm(out: seq<real>) returns (pcm: array<Byte>)
    ensures fresh(pcm) && pcm[..] == Bytes(AllPcm16(out))
  {
    ghost var vs := AllPcm16(out);
    pcm := new Byte[|out| * 2];
    for i := 0 to |out|
      invariant forall k :: 0 <= k < i ==> pcm[2 * k] == Low(vs[k]) && pcm[2 * k + 1] == High(vs[k])
    {
      var v := Pcm16(out[i]);
      pcm[2 * i] := Low(v);
      pcm[2 * i + 1] := High(v);
    }
    assert |Bytes(vs)| == 2 * |vs| == pcm.Length;
    forall j | 0 <= j < pcm.Length ensures pcm[..][j] == Bytes(vs)[j] {
      var k := j / 2;
      assert pcm[2 * k] == Low(vs[k]) == Bytes(vs)[2 * k] && pcm[2 * k + 1] == High(vs[k]) == Bytes(vs)[2 * k + 1];
    }
  }

  lemma {:induction false} BytesOfSum(a: seq<int>, b: seq<int>)
    ensures Bytes(a + b) == Bytes(a) + Bytes(b)
  {
    if b == [] {
      assert a + b == a;
    } else {
      assert (a + b)[..|a + b| - 1] == a + b[..|b| - 1];
      BytesOfSum(a, b[..|b| - 1]);
    }
  }

  /** Read back, two octets at a time, the bytes of a 16-bit stream are its samples. */
  lemma BytesAreSamples(vs: seq<int>, pcm: seq<Byte>, k: nat)
    requires pcm == Bytes(vs) && k < |vs| && -0x8000 <= vs[k] < 0x8000
    ensures Int16(pcm[2 * k], pcm[2 * k + 1]) == vs[k]
  {
    OctetsOfSample(vs[k]);
  }

  lemma StreamIsRead(vs: seq<int>, pcm: seq<Byte>)
    requires pcm == Bytes(vs) && forall k :: 0 <= k < |vs| ==> -0x8000 <= vs[k] < 0x8000
    ensures forall k :: 0 <= k < |vs| ==> Int16(pcm[2 * k], pcm[2 * k + 1]) == vs[k]
  {
    forall k | 0 <= k < |vs| ensures Int16(pcm[2 * k], pcm[2 * k + 1]) == vs[k] {
      BytesAreSamples(vs, pcm, k);
    }
  }

  /** Output sample `k` is the input's, filtered, at the time k * fromRate / toRate, `part` parts after input
      sample `i`; what is sent for it is that value in proportion. */
  lemma ReferenceIsInProportion(h: seq<real>, fromRate: int, toRate: int, x: seq<real>, k: nat, i: int, part: int)
    returns (y: real)
    requires fromRate > toRate > 0 && k < Count(fromRate, toRate, |x|)
    requires k * fromRate == i * toRate + part && 0 <= part < toRate
    ensures OnTheLine(y, Filtered(h, x, i), Filtered(h, x, i + 1), part as real, toRate as real)
    ensures InProportion(Reference(h, fromRate, toRate, x)[k], y)
  {
    y := Interpolated(h, x, toRate, k * fromRate);
    InterpolationIsOnTheLine(h, x, toRate, i, part);
    Pcm16IsInProportion(y);
  }

  /** No seams and no drift: a session's input loop, with one converter and every chunk through it, sends the
      bytes that one call of a new converter gives for the whole recording, which are those of the reference. */
  method ConvertStream(h: seq<real>, fromRate: int, toRate: int, chunks: seq<seq<real>>) returns (pcm: seq<Byte>)
    requires fromRate > toRate > 0 && |h| > 0
    ensures pcm == Bytes(Reference(h, fromRate, toRate, Flatten(chunks)))
    ensures pcm == Bytes(ChunkOutput(h, fromRate, toRate, [], Flatten(chunks)))
    ensures |pcm| == 2 * Count(fromRate, toRate, |Flatten(chunks)|)
    ensures forall k :: 0 <= k < Count(fromRate, toRate, |Flatten(chunks)|) ==>
              Int16(pcm[2 * k], pcm[2 * k + 1]) == Reference(h, fromRate, toRate, Flatten(chunks))[k]
  {
    var downsampler := new Pcm16Downsampler(h, fromRate, toRate);
    pcm := [];
    for i := 0 to |chunks|
      invariant downsampler.Valid() && fresh(downsampler)
      invariant downsampler.h == h && downsampler.fromRate == fromRate && downsampler.toRate == toRate
      invariant downsampler.consumed == Flatten(chunks[..i])
      invariant pcm == Bytes(Reference(h, fromRate, toRate, Flatten(chunks[..i])))
    {
      ghost var before := downsampler.consumed;
      var bytes := downsampler.Process(chunks[i]);
      BytesOfSum(Reference(h, fromRate, toRate, before), ChunkOutput(h, fromRate, toRate, before, chunks[i]));
      FlattenAppend(chunks[..i], chunks[i]);
      assert chunks[..i + 1] == chunks[..i] + [chunks[i]];
      pcm := pcm + bytes[..];
    }
    assert chunks[..|chunks|] == chunks;
    assert [] + Flatten(chunks) == Flatten(chunks);
    StreamIsRead(Reference(h, fromRate, toRate, Flatten(chunks)), pcm);
  }
}
