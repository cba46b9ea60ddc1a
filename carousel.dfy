/** The hero carousel of components/HeroCarousel.tsx: a cursor over a fixed list
    of images, wrap-around stepping, the signed circular distance of every item
    from the cursor, and the table that turns a distance into a visual slot. */
module Carousel {

  /** One entry of the `images` prop. The prop type also admits a numeric id;
      the only caller passes strings. */
  datatype CarouselImage = CarouselImage(id: string, url: string, alt: string)

  /** Drag offset (whole pixels) that a release must exceed to change the image. */
  const SwipeThreshold: int := 100

  // ---------------------------------------------------------------------------
  // Stepping the cursor

  /** The updater that `navigate(direction)` hands to `setIndex`: step, then
      wrap a result below 0 to the last index and one at or past the end to 0. */
  function NextIndex(prev: int, direction: int, n: int): (next: int)
    requires n > 0
    ensures 0 <= next < n
  {
    var next := prev + direction;
    var next := if next < 0 then n - 1 else next;
    if next >= n then 0 else next
  }

  /** For the two directions the arrows and the drag gesture use, stepping is
      addition modulo the number of images. */
  lemma NextIndexIsModular(prev: int, direction: int, n: int)
    requires n > 0 && 0 <= prev < n && (direction == 1 || direction == -1)
    ensures NextIndex(prev, direction, n) == (prev + direction) % n
  {
    if prev + direction == -1 {
      assert (-1) % n == n - 1 by {
        assert -1 == (-1) * n + (n - 1);
      }
    } else if prev + direction == n {
      assert n % n == 0;
    } else {
      assert 0 <= prev + direction < n;
    }
  }

  /** One step forward and one step back, in either order, restore the cursor. */
  lemma NavigateInverse(c: int, n: int)
    requires n > 0 && 0 <= c < n
    ensures NextIndex(NextIndex(c, 1, n), -1, n) == c
    ensures NextIndex(NextIndex(c, -1, n), 1, n) == c
  {
  }

  /** The cursor after `k` presses of the right arrow. */
  function Advance(c: int, n: int, k: nat): (r: int)
    requires n > 0 && 0 <= c < n
    ensures 0 <= r < n
  {
    if k == 0 then c else NextIndex(Advance(c, n, k - 1), 1, n)
  }

  /** `k` forward steps move the cursor `k` places round the ring. */
  lemma {:induction false} AdvanceIsModular(c: int, n: int, k: nat)
    requires n > 0 && 0 <= c < n
    ensures Advance(c, n, k) == (c + k) % n
  {
    if k == 0 {
      ModOfMultipleSum(0, n, c);
    } else {
      AdvanceIsModular(c, n, k - 1);
      ModSucc(c + k - 1, n);
    }
  }

  lemma ModOfMultipleSum(q: int, n: int, r: int)
    requires n > 0 && 0 <= r < n
    ensures (q * n + r) % n == r
  {
    var x := q * n + r;
    var t := x / n - q;
    assert t * n == r - x % n by {
      assert x == (x / n) * n + x % n;
      assert (x / n) * n == t * n + q * n;
    }
  }

  lemma ModSucc(x: int, n: int)
    requires n > 0
    ensures (x + 1) % n == if x % n == n - 1 then 0 else x % n + 1
  {
    var q, r := x / n, x % n;
    assert x == q * n + r;
    if r == n - 1 {
      assert x + 1 == (q + 1) * n + 0;
      ModOfMultipleSum(q + 1, n, 0);
    } else {
      assert x + 1 == q * n + (r + 1);
      ModOfMultipleSum(q, n, r + 1);
    }
  }

  /** N presses of the right arrow bring back the starting image. */
  lemma FullTurn(c: int, n: int)
    requires n > 0 && 0 <= c < n
    ensures Advance(c, n, n) == c
  {
    AdvanceIsModular(c, n, n);
    ModOfMultipleSum(1, n, c);
  }

  // ---------------------------------------------------------------------------
  // Circular distance

  /** `getDistance(itemIndex)` with the cursor and list length passed explicitly.
      The component compares against `length / 2` in floating point; `diff > n / 2`
      is written `2 * diff > n`. */
  function Distance(itemIndex: int, cursor: int, n: int): (d: int)
    requires n > 0 && 0 <= itemIndex < n && 0 <= cursor < n
    ensures -n <= 2 * d <= n
    ensures d == itemIndex - cursor || d == itemIndex - cursor - n || d == itemIndex - cursor + n
  {
    var diff := itemIndex - cursor;
    var diff := if 2 * diff > n then diff - n else diff;
    if 2 * diff < -n then diff + n else diff
  }

  /** The distance names the same position on the ring as the plain difference. */
  lemma DistanceCongruent(i: int, c: int, n: int)
    requires n > 0 && 0 <= i < n && 0 <= c < n
    ensures Distance(i, c, n) % n == (i - c) % n
  {
    var d := Distance(i, c, n);
    var r := d % n;
    var j := if d == i - c then 0 else if d == i - c - n then 1 else -1;
    assert i - c == (d / n + j) * n + r by {
      assert d == (d / n) * n + r;
      assert i - c == d + j * n;
    }
    ModOfMultipleSum(d / n + j, n, r);
  }

  /** The second adjustment never fires after the first: the two sequential
      `if`s behave as an `if`/`else if`. */
  lemma AtMostOneAdjustment(i: int, c: int, n: int)
    requires n > 0 && 0 <= i < n && 0 <= c < n
    ensures Distance(i, c, n) ==
      if 2 * (i - c) > n then i - c - n
      else if 2 * (i - c) < -n then i - c + n
      else i - c
  {
  }

  /** Only the cursor itself is at distance 0. */
  lemma DistanceZeroIff(i: int, c: int, n: int)
    requires n > 0 && 0 <= i < n && 0 <= c < n
    ensures Distance(i, c, n) == 0 <==> i == c
  {
  }

  /** Swapping item and cursor negates the distance. */
  lemma DistanceAntisymmetric(i: int, c: int, n: int)
    requires n > 0 && 0 <= i < n && 0 <= c < n
    ensures Distance(i, c, n) == -Distance(c, i, n)
  {
  }

  /** No representative `i - c + m*n` of the same residue class is shorter. */
  lemma DistanceShortest(i: int, c: int, n: int, m: int)
    requires n > 0 && 0 <= i < n && 0 <= c < n
    ensures Abs(Distance(i, c, n)) <= Abs(i - c + m * n)
  {
    var d := Distance(i, c, n);
    // d == i - c + j * n for some j in {-1, 0, 1}, so the candidate is d + (m - j) * n
    var j := if d == i - c then 0 else if d == i - c - n then -1 else 1;
    assert i - c + m * n == d + (m - j) * n;
    var t := m - j;
    if t >= 1 {
      assert t * n >= n;
    } else if t <= -1 {
      assert t * n <= -n;
    } else {
      assert t == 0;
    }
  }

  /** Distinct items are at distinct distances, so no two items share a slot. */
  lemma DistanceInjective(i: int, j: int, c: int, n: int)
    requires n > 0 && 0 <= i < n && 0 <= j < n && 0 <= c < n
    requires Distance(i, c, n) == Distance(j, c, n)
    ensures i == j
  {
  }

  function Abs(x: int): int {
    if x < 0 then -x else x
  }

  // ---------------------------------------------------------------------------
  // Slot table

  /** The animated properties of one item. Scale and opacity are in hundredths,
      the x offset in percent of the item's width, rotateY in degrees and the
      blur radius in pixels. */
  datatype Style = Style(zIndex: int, xPercent: int, scale: int, opacity: int, rotateY: int, blurPx: int)

  /** The values an item keeps when no case of the table applies. */
  const Hidden: Style := Style(0, 0, 60, 0, 0, 4)

  /** The per-distance `if`/`else if` chain of the render loop. */
  function SlotStyle(distance: int): Style {
    if distance == 0 then Style(20, 0, 110, 100, 0, 0)
    else if distance == -1 then Style(10, -60, 75, 70, 15, 2)
    else if distance == 1 then Style(10, 60, 75, 70, -15, 2)
    else if distance == -2 then Style(5, -90, 50, 30, 0, 5)
    else if distance == 2 then Style(5, 90, 50, 30, 0, 5)
    else Hidden
  }

  /** The item on the other side at the same distance is the mirror image:
      horizontal offset and turn are negated, everything else is equal. */
  lemma SlotMirror(d: int)
    ensures SlotStyle(-d) == SlotStyle(d).(xPercent := -SlotStyle(d).xPercent, rotateY := -SlotStyle(d).rotateY)
  {
  }

  /** Which distances get which depth, and that only distances -2..2 are visible. */
  lemma SlotLayers(d: int)
    ensures SlotStyle(d).zIndex == 20 <==> d == 0
    ensures SlotStyle(d).zIndex == 10 <==> d == 1 || d == -1
    ensures SlotStyle(d).zIndex == 5 <==> d == 2 || d == -2
    ensures SlotStyle(d).opacity > 0 <==> -2 <= d <= 2
    ensures (d < -2 || d > 2) ==> SlotStyle(d) == Hidden
  {
  }

  /** Among visible items, one nearer the centre is in front, larger, more
      opaque and sharper. */
  lemma SlotDepthOrder(d1: int, d2: int)
    requires Abs(d1) < Abs(d2) <= 2
    ensures SlotStyle(d1).zIndex > SlotStyle(d2).zIndex
    ensures SlotStyle(d1).scale > SlotStyle(d2).scale
    ensures SlotStyle(d1).opacity > SlotStyle(d2).opacity
    ensures SlotStyle(d1).blurPx < SlotStyle(d2).blurPx
  {
  }

  /** The style of every item for a given cursor (the `images.map` of the render). */
  function Layout(n: int, cursor: int): (styles: seq<Style>)
    requires n > 0 && 0 <= cursor < n
    ensures |styles| == n
  {
    seq(n, i requires 0 <= i < n => SlotStyle(Distance(i, cursor, n)))
  }

  /** Exactly one item, the one under the cursor, is in the centre slot: on
      top (z 20), fully opaque and unblurred. */
  lemma ExactlyOneCentre(n: int, cursor: int)
    requires n > 0 && 0 <= cursor < n
    ensures (set i | 0 <= i < n && Layout(n, cursor)[i].zIndex == 20) == {cursor}
    ensures Layout(n, cursor)[cursor] == Style(20, 0, 110, 100, 0, 0)
    ensures forall i :: 0 <= i < n && i != cursor ==> Layout(n, cursor)[i].opacity < 100
  {
    var lay := Layout(n, cursor);
    forall i | 0 <= i < n
      ensures lay[i].zIndex == 20 <==> i == cursor
    {
      DistanceZeroIff(i, cursor, n);
      SlotLayers(Distance(i, cursor, n));
    }
  }

  /** The dot indicator: dot `idx` is highlighted when `idx === index`. */
  function Dots(n: nat, cursor: int): (active: seq<bool>)
    ensures |active| == n
  {
    seq(n, idx => idx == cursor)
  }

  /** With the cursor on a valid index, exactly one dot is highlighted. */
  lemma ExactlyOneActiveDot(n: nat, cursor: int)
    requires 0 <= cursor < n
    ensures (set idx | 0 <= idx < n && Dots(n, cursor)[idx]) == {cursor}
  {
  }

  // ---------------------------------------------------------------------------
  // The component's state

  /** One carousel instance: the fixed `images` prop and the `index` state
      (here `cursor`), created as 0. When there are no images the component
      renders nothing, so no handler can run. */
  class Navigator {
    const images: seq<CarouselImage>
    var cursor: int

    ghost predicate Valid()
      reads this
    {
      0 <= cursor && (|images| > 0 ==> cursor < |images|)
    }

    constructor (images: seq<CarouselImage>)
      ensures this.images == images && cursor == 0
      ensures Valid()
    {
      this.images := images;
      cursor := 0;
    }

    /** The style the render loop gives item `idx`. */
    function ItemStyle(idx: int): (s: Style)
      reads this
      requires Valid() && 0 <= idx < |images|
      ensures s == SlotStyle(Distance(idx, cursor, |images|))
      ensures s.zIndex == 20 <==> idx == cursor
      ensures idx == cursor ==> s == Style(20, 0, 110, 100, 0, 0)
    {
      ExactlyOneCentre(|images|, cursor);
      assert idx in (set i | 0 <= i < |images| && Layout(|images|, cursor)[i].zIndex == 20) <==> idx == cursor;
      Layout(|images|, cursor)[idx]
    }

    /** `navigate(direction)`; the arrows call it with -1 and +1. */
    method Navigate(direction: int)
      requires Valid() && |images| > 0
      modifies this
      ensures Valid()
      ensures cursor == NextIndex(old(cursor), direction, |images|)
    {
      cursor := NextIndex(cursor, direction, |images|);
    }

    /** Clicking item `idx`: a side item becomes the centre. The direction the
        code computes here is never used. */
    method ClickItem(idx: int)
      requires Valid() && 0 <= idx < |images|
      modifies this
      ensures Valid() && cursor == idx
      ensures ItemStyle(idx) == Style(20, 0, 110, 100, 0, 0)
    {
      if Distance(idx, cursor, |images|) != 0 {
        cursor := idx;
      } else {
        DistanceZeroIff(idx, cursor, |images|);
      }
    }

    /** Clicking dot `idx`. */
    method ClickDot(idx: int)
      requires Valid() && 0 <= idx < |images|
      modifies this
      ensures Valid() && cursor == idx
      ensures ItemStyle(idx) == Style(20, 0, 110, 100, 0, 0)
      ensures (set i | 0 <= i < |images| && Dots(|images|, cursor)[i]) == {idx}
    {
      cursor := idx;
      ExactlyOneActiveDot(|images|, cursor);
    }

    /** Releasing a drag of the centre item `offsetX` pixels: far enough left
        shows the next image, far enough right the previous one. */
    method DragEnd(offsetX: int)
      requires Valid() && |images| > 0
      modifies this
      ensures Valid()
      ensures offsetX < -SwipeThreshold ==> cursor == NextIndex(old(cursor), 1, |images|)
      ensures offsetX > SwipeThreshold ==> cursor == NextIndex(old(cursor), -1, |images|)
      ensures -SwipeThreshold <= offsetX <= SwipeThreshold ==> cursor == old(cursor)
    {
      if offsetX < -SwipeThreshold {
        Navigate(1);
      } else if offsetX > SwipeThreshold {
        Navigate(-1);
      }
    }
  }

  /** Releasing a drag 150 px to the left advances the carousel; 40 px to the
      right leaves it where it was. */
  method DragExamples(images: seq<CarouselImage>) returns (afterLong: int, afterShort: int)
    requires |images| == 5
    ensures afterLong == 1 && afterShort == 0
  {
    var nav := new Navigator(images);
    nav.DragEnd(-150);
    afterLong := nav.cursor;
    var other := new Navigator(images);
    other.DragEnd(40);
    afterShort := other.cursor;
  }

  /** Wrap-around at both ends on five images. */
  method WrapExamples(images: seq<CarouselImage>) returns (back: int, forth: int)
    requires |images| == 5
    ensures back == 4 && forth == 0
  {
    var nav := new Navigator(images);
    nav.Navigate(-1);
    back := nav.cursor;
    nav.Navigate(1);
    nav.ClickDot(4);
    nav.Navigate(1);
    forth := nav.cursor;
  }
}
