/** How a file of `size` bytes is cut into parts of `partSize` bytes: the part count computed by
    `upload` and the byte range `sendPart` slices for a part number (numbered from 1). */
module Parts {

  function Min(a: int, b: int): int
  {
    if a <= b then a else b
  }

  /** `Math.ceil(file.size / partSize)`, on natural numbers. */
  function TotalParts(size: nat, partSize: nat): nat
    requires partSize > 0
  {
    (size + partSize - 1) / partSize
  }

  /** `(partNumber - 1) * partSize`. */
  function PartStart(partNumber: nat, partSize: nat): int
  {
    (partNumber - 1) * partSize
  }

  /** The size of `Blob.slice(start, end)` for non-negative bounds: both bounds are clipped
      to the blob's size and an inverted range is empty. */
  function SliceSize(size: nat, start: nat, end: nat): nat
  {
    var s := Min(start, size);
    var e := Min(end, size);
    if e > s then e - s else 0
  }

  /** The length of part `partNumber`: the size of `file.slice(partStart, partStart + partSize)`,
      which is also the length passed to `getPartUrl`. */
  function PartLength(size: nat, partSize: nat, partNumber: nat): nat
    requires partNumber >= 1
  {
    var start := PartStart(partNumber, partSize);
    SliceSize(size, start, start + partSize)
  }

  /** The sum of the lengths of parts 1..k. */
  function CoveredBytes(size: nat, partSize: nat, k: nat): nat
  {
    if k == 0 then 0 else CoveredBytes(size, partSize, k - 1) + PartLength(size, partSize, k)
  }

  /** The part count is the ceiling of size / partSize. */
  lemma TotalPartsIsCeiling(size: nat, partSize: nat)
    requires partSize > 0
    ensures size <= TotalParts(size, partSize) * partSize
    ensures size > 0 ==> (TotalParts(size, partSize) - 1) * partSize < size
    ensures TotalParts(size, partSize) == 0 <==> size == 0
  {
    var t := TotalParts(size, partSize);
    var r := (size + partSize - 1) % partSize;
    assert size + partSize - 1 == t * partSize + r;
    assert (t - 1) * partSize == t * partSize - partSize;
  }

  /** Multiplying by a natural number keeps an order (helper). */
  lemma {:induction false} MulLe(a: int, b: int, p: nat)
    requires a <= b
    ensures a * p <= b * p
  {
    if p > 0 {
      MulLe(a, b, p - 1);
      assert a * p == a * (p - 1) + a;
      assert b * p == b * (p - 1) + b;
    }
  }

  /** Multiplication by a part size preserves a strict order with a gap of one part (helper). */
  lemma MulStep(a: int, c: int, p: nat)
    requires a < c
    ensures a * p + p <= c * p
  {
    MulLe(a + 1, c, p);
    assert (a + 1) * p == a * p + p;
  }

  /** Euclidean division by a positive number brackets the dividend (helper). */
  lemma DivBounds(b: nat, p: nat)
    requires p > 0
    ensures (b / p) * p <= b < (b / p) * p + p
  {
    assert b == (b / p) * p + b % p;
  }

  /** Every part starts at `(n - 1) * partSize`, inside the file. */
  lemma StartBelowSize(size: nat, partSize: nat, n: nat)
    requires partSize > 0 && 1 <= n <= TotalParts(size, partSize)
    ensures 0 <= PartStart(n, partSize) < size
    ensures PartStart(n, partSize) + partSize == n * partSize
  {
    TotalPartsIsCeiling(size, partSize);
    var t := TotalParts(size, partSize);
    MulLe(0, n - 1, partSize);
    MulLe(n - 1, t - 1, partSize);
    assert (n - 1) * partSize + partSize == n * partSize;
  }

  /** Every part that is uploaded is non-empty, at most `partSize` long, and is clipped at the
      end of the file: its length is `min(partSize, size - start)`. */
  lemma PartLengthClipped(size: nat, partSize: nat, n: nat)
    requires partSize > 0 && 1 <= n <= TotalParts(size, partSize)
    ensures PartLength(size, partSize, n) == Min(partSize, size - PartStart(n, partSize))
    ensures 0 < PartLength(size, partSize, n) <= partSize
    ensures PartStart(n, partSize) + PartLength(size, partSize, n) <= size
  {
    StartBelowSize(size, partSize, n);
  }

  /** Every part but the last is full, and the next part starts where it ends. */
  lemma PartsContiguous(size: nat, partSize: nat, n: nat)
    requires partSize > 0 && 1 <= n < TotalParts(size, partSize)
    ensures PartLength(size, partSize, n) == partSize
    ensures PartStart(n, partSize) + PartLength(size, partSize, n) == PartStart(n + 1, partSize)
  {
    StartBelowSize(size, partSize, n + 1);
    StartBelowSize(size, partSize, n);
  }

  /** The last part ends exactly at the end of the file. */
  lemma LastPartEndsAtSize(size: nat, partSize: nat)
    requires partSize > 0 && size > 0
    ensures var t := TotalParts(size, partSize);
      t >= 1 && PartStart(t, partSize) + PartLength(size, partSize, t) == size
  {
    TotalPartsIsCeiling(size, partSize);
    StartBelowSize(size, partSize, TotalParts(size, partSize));
  }

  /** Parts 1..k together cover exactly the first `k * partSize` bytes while k is below the
      count, and all `size` bytes at the count. */
  lemma {:induction false} CoveredPrefix(size: nat, partSize: nat, k: nat)
    requires partSize > 0 && k <= TotalParts(size, partSize)
    ensures CoveredBytes(size, partSize, k) == if k < TotalParts(size, partSize) then k * partSize else size
  {
    var t := TotalParts(size, partSize);
    if k == 0 {
      TotalPartsIsCeiling(size, partSize);
    } else {
      CoveredPrefix(size, partSize, k - 1);
      StartBelowSize(size, partSize, k);
      assert CoveredBytes(size, partSize, k - 1) == PartStart(k, partSize);
      if k < t {
        PartsContiguous(size, partSize, k);
      } else {
        LastPartEndsAtSize(size, partSize);
      }
    }
  }

  /** The lengths of all parts sum to the file size. */
  lemma PartsCoverSize(size: nat, partSize: nat)
    requires partSize > 0
    ensures CoveredBytes(size, partSize, TotalParts(size, partSize)) == size
  {
    CoveredPrefix(size, partSize, TotalParts(size, partSize));
  }

  /** Distinct parts do not overlap: an earlier part ends before a later one starts. */
  lemma PartsDisjoint(size: nat, partSize: nat, m: nat, n: nat)
    requires partSize > 0 && 1 <= m < n <= TotalParts(size, partSize)
    ensures PartStart(m, partSize) + PartLength(size, partSize, m) <= PartStart(n, partSize)
  {
    PartsContiguous(size, partSize, m);
    MulLe(m, n - 1, partSize);
  }

  /** Byte `b` lies in part `b / partSize + 1`. */
  lemma ByteInItsPart(size: nat, partSize: nat, b: nat)
    requires partSize > 0 && b < size
    ensures 1 <= b / partSize + 1 <= TotalParts(size, partSize)
    ensures var n := b / partSize + 1;
      PartStart(n, partSize) <= b < PartStart(n, partSize) + PartLength(size, partSize, n)
  {
    var t := TotalParts(size, partSize);
    var q := b / partSize;
    TotalPartsIsCeiling(size, partSize);
    DivBounds(b, partSize);
    assert q < t by {
      if q >= t {
        MulLe(t, q, partSize);
      }
    }
    PartLengthClipped(size, partSize, q + 1);
  }

  /** Byte `b` lies in no other part. */
  lemma ByteOutsideOtherParts(size: nat, partSize: nat, b: nat, n: nat)
    requires partSize > 0 && 1 <= n <= TotalParts(size, partSize) && n != b / partSize + 1
    ensures !(PartStart(n, partSize) <= b < PartStart(n, partSize) + PartLength(size, partSize, n))
  {
    var q := b / partSize;
    DivBounds(b, partSize);
    PartLengthClipped(size, partSize, n);
    if n - 1 < q {
      MulStep(n - 1, q, partSize);
    } else {
      MulStep(q, n - 1, partSize);
    }
  }

  /** Every byte of the file lies in exactly one part: part `b / partSize + 1`. */
  lemma ByteInExactlyOnePart(size: nat, partSize: nat, b: nat, n: nat)
    requires partSize > 0 && b < size && 1 <= n <= TotalParts(size, partSize)
    ensures 1 <= b / partSize + 1 <= TotalParts(size, partSize)
    ensures PartStart(n, partSize) <= b < PartStart(n, partSize) + PartLength(size, partSize, n)
        <==> n == b / partSize + 1
  {
    ByteInItsPart(size, partSize, b);
    if n != b / partSize + 1 {
      ByteOutsideOtherParts(size, partSize, b, n);
    }
  }

  /** 12,000,000 bytes in parts of 5,000,000 give three parts ... */
  lemma TwelveMillionPartCount()
    ensures TotalParts(12000000, 5000000) == 3
  {
  }

  /** ... of 5, 5 and 2 million bytes. */
  lemma TwelveMillionPartLengths(n: nat)
    requires 1 <= n <= 3
    ensures PartLength(12000000, 5000000, n) == if n < 3 then 5000000 else 2000000
  {
    TwelveMillionPartCount();
    if n < 3 {
      PartsContiguous(12000000, 5000000, n);
    } else {
      PartLengthClipped(12000000, 5000000, n);
    }
  }
}
