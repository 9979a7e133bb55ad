/**
 * components/ui/image-gallery.tsx: a dialog showing one image of a list at a
 * time, with wrap-around next and previous buttons.
 */
module ImageGallery {

  /**
   * JavaScript's `a % n` for a positive `n`: the remainder truncated toward
   * zero, so it takes the sign of `a`.
   */
  function JsRem(a: int, n: int): int
    requires n > 0
  {
    if a >= 0 then a % n else -((-a) % n)
  }

  /** The quotient and remainder are the only ones: `a == q * n + r` with `0 <= r < n` fixes both. */
  lemma DivModUnique(a: int, n: int, q: int, r: int)
    requires n > 0 && 0 <= r < n && a == q * n + r
    ensures a / n == q && a % n == r
  {
    var q0, r0 := a / n, a % n;
    assert a == q0 * n + r0;
    assert (q0 - q) * n == r - r0;
    if q0 > q {
      MulAtLeast(q0 - q, n);
    } else if q0 < q {
      MulAtLeast(q - q0, n);
    }
  }

  lemma MulAtLeast(d: int, n: int)
    requires d >= 1 && n > 0
    ensures d * n >= n
  {
    assert d * n == (d - 1) * n + n;
    assert (d - 1) * n >= 0;
  }

  lemma JsRemMeaning(a: int, n: int)
    requires n > 0
    ensures a >= 0 ==> 0 <= JsRem(a, n) < n && JsRem(a, n) == a % n
    ensures a < 0 ==> -n < JsRem(a, n) <= 0
    ensures 0 <= a < n ==> JsRem(a, n) == a
  {
    if 0 <= a < n {
      DivModUnique(a, n, 0, a);
    }
  }

  /** `(prev + 1) % images.length` */
  function Next(i: int, n: int): int
    requires n > 0
  {
    JsRem(i + 1, n)
  }

  /** `(prev - 1 + images.length) % images.length` */
  function Previous(i: int, n: int): int
    requires n > 0
  {
    JsRem(i - 1 + n, n)
  }

  /** From an index in range both steps stay in range, and from the ends they wrap around. */
  lemma StepsStayInRange(i: int, n: int)
    requires 0 <= i < n
    ensures 0 <= Next(i, n) < n && 0 <= Previous(i, n) < n
    ensures Next(i, n) == if i == n - 1 then 0 else i + 1
    ensures Previous(i, n) == if i == 0 then n - 1 else i - 1
  {
  }

  /** Previous undoes Next and Next undoes Previous. */
  lemma StepsAreInverse(i: int, n: int)
    requires 0 <= i < n
    ensures Previous(Next(i, n), n) == i
    ensures Next(Previous(i, n), n) == i
  {
    StepsStayInRange(i, n);
    StepsStayInRange(Next(i, n), n);
    StepsStayInRange(Previous(i, n), n);
  }

  /** Any non-negative starting index, even one past the end, is back in range after one Next. */
  lemma NextRepairsIndex(i: int, n: int)
    requires n > 0 && i >= 0
    ensures 0 <= Next(i, n) < n
  {
  }

  /** The index after `k` presses of Next. */
  function NextTimes(i: int, n: int, k: nat): int
    requires n > 0
  {
    if k == 0 then i else Next(NextTimes(i, n, k - 1), n)
  }

  /** `k` presses of Next from an index in range move `k` places around the circle. */
  lemma {:induction false} NextTimesMeaning(i: int, n: int, k: nat)
    requires 0 <= i < n
    ensures NextTimes(i, n, k) == (i + k) % n
  {
    if k == 0 {
      DivModUnique(i, n, 0, i);
    } else {
      NextTimesMeaning(i, n, k - 1);
      NextOfRemainder(i + k - 1, n);
    }
  }

  /** One Next from the remainder of `m` is the remainder of `m + 1`. */
  lemma NextOfRemainder(m: nat, n: int)
    requires n > 0
    ensures Next(m % n, n) == (m + 1) % n
  {
    var q, j := m / n, m % n;
    assert m == q * n + j;
    StepsStayInRange(j, n);
    if j == n - 1 {
      assert (q + 1) * n == q * n + n;
      DivModUnique(m + 1, n, q + 1, 0);
    } else {
      DivModUnique(m + 1, n, q, j + 1);
    }
  }

  /** Pressing Next once per image comes back to the starting image. */
  lemma FullCircle(i: int, n: int)
    requires 0 <= i < n
    ensures NextTimes(i, n, n) == i
  {
    NextTimesMeaning(i, n, n);
    DivModUnique(i + n, n, 1, i);
  }

  /** The previous/next buttons and the counter appear only with more than one image. */
  predicate ControlsShown(n: int) {
    n > 1
  }

  class Gallery {
    const images: seq<string>
    var currentIndex: int

    /** The index always points at an image that exists. */
    predicate Valid()
      reads this
    {
      0 <= currentIndex < |images|
    }

    /** `useState(initialIndex)`; the default index is 0. */
    constructor (images: seq<string>, initialIndex: int)
      ensures this.images == images && currentIndex == initialIndex
      ensures 0 <= initialIndex < |images| ==> Valid()
    {
      this.images := images;
      currentIndex := initialIndex;
    }

    /** `showNext` */
    method ShowNext()
      requires |images| > 0
      modifies this
      ensures currentIndex == Next(old(currentIndex), |images|)
      ensures old(Valid()) ==> Valid()
      ensures old(currentIndex) >= 0 ==> Valid()
    {
      currentIndex := JsRem(currentIndex + 1, |images|);
      if old(currentIndex) >= 0 {
        NextRepairsIndex(old(currentIndex), |images|);
      }
    }

    /** `showPrevious` */
    method ShowPrevious()
      requires |images| > 0
      modifies this
      ensures currentIndex == Previous(old(currentIndex), |images|)
      ensures old(Valid()) ==> Valid()
    {
      if Valid() {
        StepsStayInRange(currentIndex, |images|);
      }
      currentIndex := JsRem(currentIndex - 1 + |images|, |images|);
    }

    /** The image shown. */
    function CurrentImage(): string
      reads this
      requires Valid()
    {
      images[currentIndex]
    }

    /** The counter text `{currentIndex + 1} / {images.length}`, when it is shown. */
    function Counter(): (int, int)
      reads this
    {
      (currentIndex + 1, |images|)
    }

    /**
     * A valid gallery shows one of its images, and its counter reads a
     * position from 1 to the number of images; the buttons and the counter
     * are on screen exactly when there is more than one image.
     */
    lemma DisplayMeaning()
      requires Valid()
      ensures CurrentImage() in images
      ensures 1 <= Counter().0 <= Counter().1 && Counter().1 == |images|
      ensures ControlsShown(|images|) <==> |images| > 1
    {
    }
  }
}
