/**
 * components/products/price-comparison.tsx: a product's retailers sorted by
 * average price in either direction, the sort toggle, the image gallery
 * flags and the price text. Prices are whole numbers of hundredths (øre).
 */
module PriceComparison {
  import opened Wrappers
  import opened Text

  /** One entry of `retailer_stats`. */
  datatype RetailerStats = RetailerStats(
    retailerId: int,
    retailerName: string,
    averagePrice: int,
    minPrice: Option<int>,
    maxPrice: Option<int>,
    storeCount: int)

  datatype SortDirection = Asc | Desc

  /**
   * The comparator's verdict `a` may stay before `b`: `a - b <= 0` ascending,
   * `b - a <= 0` descending.
   */
  predicate InOrder(a: RetailerStats, b: RetailerStats, order: SortDirection) {
    if order == Asc then a.averagePrice <= b.averagePrice else b.averagePrice <= a.averagePrice
  }

  predicate Sorted(s: seq<RetailerStats>, order: SortDirection) {
    forall i, j :: 0 <= i < j < |s| ==> InOrder(s[i], s[j], order)
  }

  /** Puts `x` before the first element it may precede. */
  function Insert(x: RetailerStats, s: seq<RetailerStats>, order: SortDirection): seq<RetailerStats>
    decreases |s|
  {
    if s == [] || InOrder(x, s[0], order) then [x] + s
    else [s[0]] + Insert(x, s[1..], order)
  }

  /** A stable sort by average price (`Array.prototype.sort` is stable). */
  function SortByPrice(s: seq<RetailerStats>, order: SortDirection): seq<RetailerStats>
    decreases |s|
  {
    if s == [] then [] else Insert(s[0], SortByPrice(s[1..], order), order)
  }

  /** `[...(data.retailer_stats || [])].sort(...)`: a sorted copy; a missing list gives none. */
  function SortedRetailers(stats: Option<seq<RetailerStats>>, order: SortDirection): seq<RetailerStats> {
    SortByPrice(stats.GetOr([]), order)
  }

  lemma {:induction false} InsertPermutes(x: RetailerStats, s: seq<RetailerStats>, order: SortDirection)
    ensures multiset(Insert(x, s, order)) == multiset{x} + multiset(s)
    decreases |s|
  {
    if s != [] && !InOrder(x, s[0], order) {
      InsertPermutes(x, s[1..], order);
      assert s == [s[0]] + s[1..];
    }
  }

  lemma {:induction false} InsertSorted(x: RetailerStats, s: seq<RetailerStats>, order: SortDirection)
    requires Sorted(s, order)
    ensures Sorted(Insert(x, s, order), order)
    decreases |s|
  {
    if s != [] && !InOrder(x, s[0], order) {
      assert Sorted(s[1..], order);
      InsertSorted(x, s[1..], order);
      InsertAfter(s[0], x, s[1..], order);
      ConsSorted(s[0], Insert(x, s[1..], order), order);
    }
  }

  /** What may precede `x` and all of `s` may precede all of `Insert(x, s)`. */
  lemma InsertAfter(h: RetailerStats, x: RetailerStats, s: seq<RetailerStats>, order: SortDirection)
    requires InOrder(h, x, order)
    requires forall k :: 0 <= k < |s| ==> InOrder(h, s[k], order)
    ensures forall k :: 0 <= k < |Insert(x, s, order)| ==> InOrder(h, Insert(x, s, order)[k], order)
  {
    var r := Insert(x, s, order);
    InsertPermutes(x, s, order);
    forall k | 0 <= k < |r|
      ensures InOrder(h, r[k], order)
    {
      assert r[k] in multiset(r);
      if r[k] != x {
        assert r[k] in multiset(s);
        var m :| 0 <= m < |s| && s[m] == r[k];
      }
    }
  }

  /** A sorted list stays sorted with an element in front that may precede all of it. */
  lemma ConsSorted(h: RetailerStats, r: seq<RetailerStats>, order: SortDirection)
    requires Sorted(r, order)
    requires forall k :: 0 <= k < |r| ==> InOrder(h, r[k], order)
    ensures Sorted([h] + r, order)
  {
    var t := [h] + r;
    forall i, j | 0 <= i < j < |t|
      ensures InOrder(t[i], t[j], order)
    {
      assert t[j] == r[j - 1];
      if i > 0 {
        assert t[i] == r[i - 1];
      }
    }
  }

  /** The sorted copy holds the same retailers as the input, each as often. */
  lemma {:induction false} SortByPricePermutes(s: seq<RetailerStats>, order: SortDirection)
    ensures multiset(SortByPrice(s, order)) == multiset(s)
    decreases |s|
  {
    if s != [] {
      SortByPricePermutes(s[1..], order);
      InsertPermutes(s[0], SortByPrice(s[1..], order), order);
      assert s == [s[0]] + s[1..];
    }
  }

  lemma {:induction false} SortByPriceSorted(s: seq<RetailerStats>, order: SortDirection)
    ensures Sorted(SortByPrice(s, order), order)
    decreases |s|
  {
    if s != [] {
      SortByPriceSorted(s[1..], order);
      InsertSorted(s[0], SortByPrice(s[1..], order), order);
    }
  }

  /**
   * The retailers shown are a rearrangement of `retailer_stats` (none when it
   * is missing), with average prices non-decreasing for "asc" and
   * non-increasing for "desc".
   */
  lemma SortedRetailersMeaning(stats: Option<seq<RetailerStats>>, order: SortDirection)
    ensures multiset(SortedRetailers(stats, order)) == multiset(stats.GetOr([]))
    ensures stats.None? ==> SortedRetailers(stats, order) == []
    ensures order == Asc ==> forall i, j :: 0 <= i < j < |SortedRetailers(stats, order)| ==>
      SortedRetailers(stats, order)[i].averagePrice <= SortedRetailers(stats, order)[j].averagePrice
    ensures order == Desc ==> forall i, j :: 0 <= i < j < |SortedRetailers(stats, order)| ==>
      SortedRetailers(stats, order)[i].averagePrice >= SortedRetailers(stats, order)[j].averagePrice
  {
    SortByPricePermutes(stats.GetOr([]), order);
    SortByPriceSorted(stats.GetOr([]), order);
  }

  // ------------------------------------------------------- price text

  /** The price as `toFixed(2)` writes it: whole part, a point and two decimals. */
  function FixedTwo(hundredths: nat): string {
    NatToString(hundredths / 100) + "." + [DigitChar(hundredths % 100 / 10), DigitChar(hundredths % 10)]
  }

  /** `formatPrice`: "N/A" for anything that is not a number, else the price in NOK. */
  function FormatPrice(price: Option<int>): string {
    match price
    case None => "N/A"
    case Some(p) => (if p < 0 then "-" + FixedTwo(-p) else FixedTwo(p)) + " NOK"
  }

  /**
   * A missing price reads "N/A"; every number reads as a price ending in " NOK"
   * with exactly two digits after the decimal point, and never as "N/A".
   */
  lemma FormatPriceMeaning(price: Option<int>)
    ensures price.None? <==> FormatPrice(price) == "N/A"
    ensures price.Some? ==> PriceShape(FormatPrice(price))
  {
    if price.Some? {
      NumberShape(price.value);
      var t := FormatPrice(price);
      assert |t| != |"N/A"|;
    }
  }

  lemma NumberShape(p: int)
    ensures PriceShape(FormatPrice(Some(p)))
  {
    var body := if p < 0 then "-" + FixedTwo(-p) else FixedTwo(p);
    assert FormatPrice(Some(p)) == body + " NOK";
    BodyShape(p, body);
    NokShape(body, FormatPrice(Some(p)));
  }

  /** Ends in " NOK" after a point and two digits. */
  predicate PriceShape(t: string) {
    EndsWith(t, " NOK") && |t| >= 8 && t[|t| - 7] == '.' && IsDigit(t[|t| - 6]) && IsDigit(t[|t| - 5])
  }

  /** The signed fixed-point text of a price ends in a point and two digits. */
  lemma BodyShape(p: int, body: string)
    requires body == if p < 0 then "-" + FixedTwo(-p) else FixedTwo(p)
    ensures |body| >= 4 && body[|body| - 3] == '.' && IsDigit(body[|body| - 2]) && IsDigit(body[|body| - 1])
  {
    var n: nat := if p < 0 then -p else p;
    FixedTwoShape(n);
    SignedShape(FixedTwo(n), body);
  }

  /** A fixed-point text ends in a point and two digits. */
  lemma FixedTwoShape(hundredths: nat)
    ensures var f := FixedTwo(hundredths);
      |f| >= 4 && f[|f| - 3] == '.' && IsDigit(f[|f| - 2]) && IsDigit(f[|f| - 1])
  {
    assert |NatToString(hundredths / 100)| >= 1;
  }

  /** What ends a text also ends it with a sign in front. */
  lemma SignedShape(f: string, body: string)
    requires |f| >= 4 && f[|f| - 3] == '.' && IsDigit(f[|f| - 2]) && IsDigit(f[|f| - 1])
    requires body == f || body == "-" + f
    ensures |body| >= 4 && body[|body| - 3] == '.' && IsDigit(body[|body| - 2]) && IsDigit(body[|body| - 1])
  {
  }

  lemma NokShape(body: string, t: string)
    requires |body| >= 4 && body[|body| - 3] == '.' && IsDigit(body[|body| - 2]) && IsDigit(body[|body| - 1])
    requires t == body + " NOK"
    ensures PriceShape(t)
  {
    EndsWithConcat(body, " NOK");
  }

  /**
   * Reads a price text back into hundredths: an optional "-", the whole part,
   * a point, two decimals and " NOK"; `None` for anything else.
   */
  function ReadPrice(t: string): Option<int> {
    if !PriceShape(t) then None else ReadFixed(t[..|t| - 4])
  }

  /** Reads "[-]whole.dd" into hundredths. */
  function ReadFixed(body: string): Option<int>
    requires |body| >= 4 && IsDigit(body[|body| - 2]) && IsDigit(body[|body| - 1])
  {
    var cents := DigitValue(body[|body| - 2]) * 10 + DigitValue(body[|body| - 1]);
    match ParseInt(body[..|body| - 3])
    case None => None
    case Some(w) => Some(if body[0] == '-' then w * 100 - cents else w * 100 + cents)
  }

  /**
   * The price text reads back as the price: the whole part is the magnitude
   * divided by 100 and the two decimals its remainder, with the sign in front.
   */
  lemma FormatPriceReadBack(p: int)
    ensures ReadPrice(FormatPrice(Some(p))) == Some(p)
  {
    if p < 0 {
      SignedReadBack(p, -p, "-" + NatToString(-p / 100), "-" + FixedTwo(-p));
    } else {
      SignedReadBack(p, p, NatToString(p / 100), FixedTwo(p));
    }
  }

  /** The read-back of one sign's price text, from its signed whole part and its fixed-point body. */
  lemma SignedReadBack(p: int, n: nat, head: string, body: string)
    requires n == if p < 0 then -p else p
    requires head == if p < 0 then "-" + NatToString(n / 100) else NatToString(n / 100)
    requires body == if p < 0 then "-" + FixedTwo(n) else FixedTwo(n)
    ensures ReadPrice(FormatPrice(Some(p))) == Some(p)
  {
    var t := FormatPrice(Some(p));
    assert t == body + " NOK";
    NumberShape(p);
    NokBody(body, t);
    var cents := FixedTwoSplit(n, head, body, p < 0);
    var whole := SignedWhole(n / 100, head, p < 0);
    Recombine(p, n, whole, cents);
  }

  /** The price text starts with "-" exactly for a negative price, and "N/A" reads as no price. */
  lemma FormatPriceSign(p: int)
    ensures |FormatPrice(Some(p))| > 0 && (FormatPrice(Some(p))[0] == '-' <==> p < 0)
    ensures ReadPrice(FormatPrice(None)) == None
  {
    var n: nat := if p < 0 then -p else p;
    var digits := NatToString(n / 100);
    assert IsDigit(digits[0]);
    assert FixedTwo(n)[0] == digits[0];
  }

  /** The whole part and the decimals recombine into the price. */
  lemma Recombine(p: int, n: nat, whole: int, cents: nat)
    requires n == if p < 0 then -p else p
    requires whole == (if p < 0 then -((n / 100) as int) else n / 100) && cents == n % 100
    ensures (if p < 0 then whole * 100 - cents else whole * 100 + cents) == p
  {
    assert n == (n / 100) * 100 + n % 100;
  }

  /** The signed whole part parses as the whole part with its sign, and starts with "-" only when signed. */
  lemma SignedWhole(whole: nat, head: string, negative: bool) returns (w: int)
    requires head == if negative then "-" + NatToString(whole) else NatToString(whole)
    ensures w == if negative then -(whole as int) else whole
    ensures ParseInt(head) == Some(w)
    ensures head[0] == '-' <==> negative
  {
    var digits := NatToString(whole);
    NatToStringRoundTrip(whole);
    assert IsDigit(digits[0]);
    if negative {
      ParseNegative(digits);
      w := -(whole as int);
    } else {
      ParseDigits(digits);
      w := whole;
    }
  }

  /** The signed fixed-point text is the signed whole part followed by the point and the two decimals. */
  lemma FixedTwoSplit(n: nat, head: string, body: string, negative: bool) returns (cents: nat)
    requires head == if negative then "-" + NatToString(n / 100) else NatToString(n / 100)
    requires body == if negative then "-" + FixedTwo(n) else FixedTwo(n)
    ensures cents == n % 100
    ensures |head| >= 1 && |body| >= 4 && IsDigit(body[|body| - 2]) && IsDigit(body[|body| - 1])
    ensures body[0] == head[0]
    ensures ReadFixed(body) ==
      match ParseInt(head)
      case None => None
      case Some(w) => Some(if head[0] == '-' then w * 100 - cents else w * 100 + cents)
  {
    var tail := "." + [DigitChar(n % 100 / 10), DigitChar(n % 10)];
    assert FixedTwo(n) == NatToString(n / 100) + tail;
    assert body == head + tail;
    DigitRoundTrip(n % 100 / 10);
    DigitRoundTrip(n % 10);
    ReadFixedParts(body, head, tail);
    cents := n % 100;
  }

  /** A price text reads through its fixed-point part. */
  lemma NokBody(body: string, t: string)
    requires t == body + " NOK" && PriceShape(t)
    ensures |body| >= 4 && IsDigit(body[|body| - 2]) && IsDigit(body[|body| - 1])
    ensures ReadPrice(t) == ReadFixed(body) && t[0] == body[0]
  {
    assert t[..|t| - 4] == body;
  }

  /** A fixed-point text reads as its signed whole part and its two decimals. */
  lemma ReadFixedParts(body: string, head: string, tail: string)
    requires body == head + tail && |head| >= 1
    requires |tail| == 3 && IsDigit(tail[1]) && IsDigit(tail[2])
    ensures ReadFixed(body) ==
      var cents := DigitValue(tail[1]) * 10 + DigitValue(tail[2]);
      match ParseInt(head)
      case None => None
      case Some(w) => Some(if head[0] == '-' then w * 100 - cents else w * 100 + cents)
  {
    assert body[..|body| - 3] == head;
    assert body[0] == head[0];
  }

  // ------------------------------------------------------ the component

  /** The sort button's new order. */
  function Toggled(order: SortDirection): SortDirection {
    if order == Asc then Desc else Asc
  }

  /** Two presses of the sort button restore the order, and each press changes it. */
  lemma ToggleTwice(order: SortDirection)
    ensures Toggled(Toggled(order)) == order
    ensures Toggled(order) != order
  {
  }


  class PriceComparisonView {
    const images: Option<seq<string>>
    var sortOrder: SortDirection
    var showGallery: bool
    var selectedImageIndex: int

    constructor (images: Option<seq<string>>)
      ensures this.images == images
      ensures sortOrder == Asc && !showGallery && selectedImageIndex == 0
    {
      this.images := images;
      sortOrder := Asc;
      showGallery := false;
      selectedImageIndex := 0;
    }

    /** The sort button: `asc` and `desc` swap. */
    method ToggleSort()
      modifies this
      ensures sortOrder == Toggled(old(sortOrder))
      ensures showGallery == old(showGallery) && selectedImageIndex == old(selectedImageIndex)
    {
      sortOrder := Toggled(sortOrder);
    }

    /** `handleImageClick` */
    method ImageClick(index: int)
      modifies this
      ensures selectedImageIndex == index && showGallery && sortOrder == old(sortOrder)
      ensures GalleryShown() <==> images.Some?
    {
      selectedImageIndex := index;
      showGallery := true;
    }

    /** The gallery's `onClose` */
    method CloseGallery()
      modifies this
      ensures !showGallery && selectedImageIndex == old(selectedImageIndex) && sortOrder == old(sortOrder)
      ensures !GalleryShown()
    {
      showGallery := false;
    }

    /** The gallery is on screen when it was opened and the product has images. */
    predicate GalleryShown()
      reads this
    {
      showGallery && images.Some?
    }
  }
}
