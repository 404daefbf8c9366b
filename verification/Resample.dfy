/** The nearest-neighbour resampling loop of ThumbnailJPEG (internal/imageproc/imageproc.go). */
module Resample {

  /** The source offset output coordinate `x` is taken from, `extent` source pixels being spread over
      `size` output pixels. */
  function Sample(x: nat, extent: nat, size: nat): nat
    requires size > 0
  {
    x * extent / size
  }

  /** Fills a square of side `size` from an image with the given bounds. */
  method Fill<Pixel(0)>(at: (int, int) -> Pixel, minX: int, minY: int, dx: nat, dy: nat, size: nat)
    returns (dst: array2<Pixel>)
    ensures dst.Length0 == dst.Length1 == size
    ensures forall x, y :: 0 <= x < size && 0 <= y < size ==>
              dst[x, y] == at(minX + Sample(x, dx, size), minY + Sample(y, dy, size))
  {
    dst := new Pixel[size, size];
    var y := 0;
    while y < size
      invariant 0 <= y <= size
      invariant forall i, j :: 0 <= i < size && 0 <= j < y ==>
                  dst[i, j] == at(minX + Sample(i, dx, size), minY + Sample(j, dy, size))
    {
      var x := 0;
      while x < size
        invariant 0 <= x <= size
        invariant forall i, j :: 0 <= i < size && 0 <= j < y ==>
                    dst[i, j] == at(minX + Sample(i, dx, size), minY + Sample(j, dy, size))
        invariant forall i :: 0 <= i < x ==>
                    dst[i, y] == at(minX + Sample(i, dx, size), minY + Sample(y, dy, size))
      {
        var sx := minX + x * dx / size;
        var sy := minY + y * dy / size;
        dst[x, y] := at(sx, sy);
        x := x + 1;
      }
      y := y + 1;
    }
  }

  // Division, by what it is multiplied back to

  lemma MulMono(a: int, b: int, n: nat)
    requires a <= b
    ensures a * n <= b * n
  {
  }

  lemma Quotient(a: int, n: int, q: int)
    requires n > 0
    ensures a / n == q <==> q * n <= a < (q + 1) * n
  {
    var p := a / n;
    assert p * n <= a < p * n + n;
    assert (p + 1) * n == p * n + n && (q + 1) * n == q * n + n;
    if q < p {
      MulMono(q + 1, p, n);
    } else if p < q {
      MulMono(p + 1, q, n);
    }
  }

  /** The first output coordinate sampled from `c` or beyond. */
  function First(c: nat, extent: nat, size: nat): nat
    requires extent > 0
  {
    (c * size + extent - 1) / extent
  }

  lemma FirstIs(c: nat, extent: nat, size: nat, x: int)
    requires extent > 0
    ensures First(c, extent, size) <= x <==> c * size <= x * extent
  {
    var a := c * size;
    var f := (a + extent - 1) / extent;
    Quotient(a + extent - 1, extent, f);
    assert (f - 1) * extent < a <= f * extent by {
      assert (f + 1) * extent == f * extent + extent && (f - 1) * extent == f * extent - extent;
    }
    if f <= x {
      MulMono(f, x, extent);
    } else {
      MulMono(x, f - 1, extent);
    }
  }

  /** The output coordinates sampled from `c` are an interval. */
  lemma SampledFrom(x: nat, c: nat, extent: nat, size: nat)
    requires extent > 0 && size > 0
    ensures Sample(x, extent, size) == c <==> First(c, extent, size) <= x < First(c + 1, extent, size)
  {
    Quotient(x * extent, size, c);
    FirstIs(c, extent, size, x);
    FirstIs(c + 1, extent, size, x);
  }

  /** floor(size / extent) and ceil(size / extent). */
  function Floor(size: nat, extent: nat): nat
    requires extent > 0
  {
    size / extent
  }

  function Ceil(size: nat, extent: nat): nat
    requires extent > 0
  {
    if size % extent == 0 then size / extent else size / extent + 1
  }

  lemma DivAdd(a: nat, b: nat, n: nat)
    requires n > 0
    ensures (a + b) / n == a / n + b / n || ((a + b) / n == a / n + b / n + 1 && b % n != 0)
  {
    var p, q := a / n, b / n;
    assert a == p * n + a % n && b == q * n + b % n;
    assert (p + q) * n == p * n + q * n;
    assert (p + q + 1) * n == (p + q) * n + n && (p + q + 2) * n == (p + q) * n + n + n;
    if a % n + b % n < n {
      Quotient(a + b, n, p + q);
    } else {
      Quotient(a + b, n, p + q + 1);
    }
  }

  lemma IntervalLength(c: nat, extent: nat, size: nat)
    requires extent > 0
    ensures First(c + 1, extent, size) - First(c, extent, size) in {Floor(size, extent), Ceil(size, extent)}
  {
    assert (c + 1) * size + extent - 1 == (c * size + extent - 1) + size;
    DivAdd(c * size + extent - 1, size, extent);
  }

  lemma {:induction false} IntervalSize(s: set<nat>, lo: nat, hi: nat)
    requires lo <= hi && forall x: nat :: x in s <==> lo <= x < hi
    ensures |s| == hi - lo
    decreases hi
  {
    if lo == hi {
      assert s == {};
    } else {
      IntervalSize(s - {hi - 1}, lo, hi - 1);
    }
  }

  /** The output coordinates that show source coordinate `c`. */
  function Hits(c: nat, extent: nat, size: nat): set<nat>
    requires size > 0
  {
    set x: nat | 0 <= x < size && Sample(x, extent, size) == c
  }

  /** Every sampled coordinate lies inside the source, and sampling is monotone. */
  lemma SampleInBounds(x: nat, y: nat, extent: nat, size: nat)
    requires extent > 0 && x <= y < size
    ensures Sample(x, extent, size) <= Sample(y, extent, size) < extent
  {
    var p, q := Sample(x, extent, size), Sample(y, extent, size);
    Quotient(x * extent, size, p);
    Quotient(y * extent, size, q);
    MulMono(x, y, extent);
    assert y * extent + extent <= size * extent by {
      MulMono(y + 1, size, extent);
      assert (y + 1) * extent == y * extent + extent;
    }
    if q >= extent {
      MulMono(extent, q, size);
    }
    if p > q {
      MulMono(q + 1, p, size);
    }
  }

  /** Resampling is balanced: each source column (or row) is shown by floor(size/extent) or
      ceil(size/extent) output columns. */
  lemma BalancedResampling(c: nat, extent: nat, size: nat)
    requires extent > 0 && size > 0 && c < extent
    ensures |Hits(c, extent, size)| in {Floor(size, extent), Ceil(size, extent)}
  {
    var lo, hi := First(c, extent, size), First(c + 1, extent, size);
    IntervalLength(c, extent, size);
    assert hi <= size by {
      FirstIs(c + 1, extent, size, size);
      MulMono(c + 1, extent, size);
    }
    forall x: nat
      ensures x in Hits(c, extent, size) <==> lo <= x < hi
    {
      SampledFrom(x, c, extent, size);
    }
    IntervalSize(Hits(c, extent, size), lo, hi);
  }

  /** Enlarging shows every source column; shrinking shows none twice. */
  lemma SurjectiveOrInjective(extent: nat, size: nat)
    requires extent > 0 && size > 0
    ensures extent <= size ==> forall c: nat :: c < extent ==> Hits(c, extent, size) != {}
    ensures extent >= size ==>
              forall x: nat, y: nat :: x < y < size ==> Sample(x, extent, size) != Sample(y, extent, size)
  {
    if extent <= size {
      forall c: nat | c < extent
        ensures Hits(c, extent, size) != {}
      {
        BalancedResampling(c, extent, size);
        Quotient(size, extent, 0);
      }
    }
    if extent >= size {
      forall x: nat, y: nat | x < y < size
        ensures Sample(x, extent, size) != Sample(y, extent, size)
      {
        var p := Sample(x, extent, size);
        Quotient(x * extent, size, p);
        Quotient(y * extent, size, p);
        MulMono(x + 1, y, extent);
        assert (x + 1) * extent == x * extent + extent && (p + 1) * size == p * size + size;
      }
    }
  }
}
