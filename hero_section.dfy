/** How components/HeroSection.tsx builds the carousel's `images` prop: every
    packaging image of every brand, in brand order, as an `{id, url, alt}` record. */
module HeroSection {
  import opened JsString
  import opened Carousel

  /** A brand of the site's constant data, reduced to the two fields used here. */
  datatype Brand = Brand(name: string, packagingImageUrls: seq<string>)

  /** `brand-${brand.name}-${idx}` */
  function ImageId(name: string, idx: nat): string {
    "brand-" + name + "-" + NatToString(idx)
  }

  /** `${brand.name} Rice ${idx + 1}`: the label counts from one. */
  function ImageAlt(name: string, idx: nat): string {
    name + " Rice " + NatToString(idx + 1)
  }

  /** The record the inner `map` builds for packaging image `idx` of brand `b`. */
  function Entry(b: Brand, idx: nat): CarouselImage
    requires idx < |b.packagingImageUrls|
  {
    CarouselImage(ImageId(b.name, idx), b.packagingImageUrls[idx], ImageAlt(b.name, idx))
  }

  /** `brand.packagingImageUrls.map((url, idx) => ...)` */
  function BrandImages(b: Brand): (r: seq<CarouselImage>)
    ensures |r| == |b.packagingImageUrls|
  {
    seq(|b.packagingImageUrls|, k requires 0 <= k < |b.packagingImageUrls| => Entry(b, k))
  }

  /** The `flatMap` over the brands, with its guard on an empty image list. */
  function CarouselImages(brands: seq<Brand>): seq<CarouselImage> {
    if brands == [] then [] else GuardedImages(brands[0]) + CarouselImages(brands[1..])
  }

  /** The callback of the `flatMap`: the brand's records, or `[]` when it has no images. */
  function GuardedImages(b: Brand): (r: seq<CarouselImage>)
    ensures |r| == |b.packagingImageUrls|
    ensures forall k :: 0 <= k < |r| ==> r[k] == Entry(b, k)
  {
    if |b.packagingImageUrls| > 0 then BrandImages(b) else []
  }

  /** The same comprehension without the guard. */
  function UnguardedImages(brands: seq<Brand>): seq<CarouselImage> {
    if brands == [] then [] else BrandImages(brands[0]) + UnguardedImages(brands[1..])
  }

  /** Total number of packaging images over all brands. */
  function ImageCount(brands: seq<Brand>): nat {
    if brands == [] then 0 else |brands[0].packagingImageUrls| + ImageCount(brands[1..])
  }

  /** Where brand `b`'s entries start: the number of images of the brands before it. */
  function Offset(brands: seq<Brand>, b: nat): nat
    requires b <= |brands|
  {
    ImageCount(brands[..b])
  }

  /** The guard changes nothing: mapping an empty list already yields no entries. */
  lemma {:induction false} GuardIsRedundant(brands: seq<Brand>)
    ensures CarouselImages(brands) == UnguardedImages(brands)
  {
    if brands != [] {
      GuardIsRedundant(brands[1..]);
      if |brands[0].packagingImageUrls| == 0 {
        assert BrandImages(brands[0]) == [];
      }
    }
  }

  /** The carousel gets exactly one entry per packaging image. */
  lemma {:induction false} CarouselImagesLength(brands: seq<Brand>)
    ensures |CarouselImages(brands)| == ImageCount(brands)
  {
    if brands != [] {
      CarouselImagesLength(brands[1..]);
    }
  }

  /** The list of a concatenation of brand lists is the concatenation of their lists. */
  lemma {:induction false} CarouselImagesAppend(xs: seq<Brand>, ys: seq<Brand>)
    ensures CarouselImages(xs + ys) == CarouselImages(xs) + CarouselImages(ys)
  {
    if xs == [] {
      assert xs + ys == ys;
    } else {
      assert (xs + ys)[0] == xs[0];
      assert (xs + ys)[1..] == xs[1..] + ys;
      CarouselImagesAppend(xs[1..], ys);
    }
  }

  /** A brand without packaging images contributes no entries, wherever it stands. */
  lemma EmptyBrandContributesNothing(before: seq<Brand>, name: string, after: seq<Brand>)
    ensures CarouselImages(before + [Brand(name, [])] + after) == CarouselImages(before + after)
  {
    var e := Brand(name, []);
    assert CarouselImages([e]) == [] by {
      assert GuardedImages(e) == [];
      assert [e][1..] == [];
    }
    calc {
      CarouselImages(before + [e] + after);
      { CarouselImagesAppend(before + [e], after); }
      CarouselImages(before + [e]) + CarouselImages(after);
      { CarouselImagesAppend(before, [e]); }
      CarouselImages(before) + [] + CarouselImages(after);
      { assert CarouselImages(before) + [] == CarouselImages(before); }
      CarouselImages(before) + CarouselImages(after);
      { CarouselImagesAppend(before, after); }
      CarouselImages(before + after);
    }
  }

  lemma OffsetStep(brands: seq<Brand>, b: nat)
    requires 0 < b <= |brands|
    ensures Offset(brands, b) == |brands[0].packagingImageUrls| + Offset(brands[1..], b - 1)
  {
    assert brands[..b][0] == brands[0];
    assert brands[..b][1..] == brands[1..][..b - 1];
  }

  /** Brands appear in order and, within a brand, images in URL order: entry `k`
      of brand `b` sits right after the entries of the brands before it. */
  lemma CarouselImageAt(brands: seq<Brand>, b: nat, k: nat)
    requires b < |brands| && k < |brands[b].packagingImageUrls|
    ensures Offset(brands, b) + k < |CarouselImages(brands)|
    ensures CarouselImages(brands)[Offset(brands, b) + k] == Entry(brands[b], k)
  {
    var before, from := brands[..b], brands[b..];
    assert brands == before + from;
    CarouselImagesAppend(before, from);
    CarouselImagesLength(before);
    assert CarouselImages(from) == GuardedImages(brands[b]) + CarouselImages(brands[b + 1..]) by {
      assert from[0] == brands[b] && from[1..] == brands[b + 1..];
    }
    var earlier, own, later := CarouselImages(before), GuardedImages(brands[b]), CarouselImages(brands[b + 1..]);
    assert (earlier + (own + later))[|earlier| + k] == own[k];
  }

  /** Every entry is entry `k` of some brand `b`. */
  lemma {:induction false} CarouselImageOrigin(brands: seq<Brand>, p: nat) returns (b: nat, k: nat)
    requires p < |CarouselImages(brands)|
    ensures b < |brands| && k < |brands[b].packagingImageUrls|
    ensures p == Offset(brands, b) + k
    ensures CarouselImages(brands)[p] == Entry(brands[b], k)
  {
    var width := |brands[0].packagingImageUrls|;
    if p < width {
      b, k := 0, p;
      assert brands[..0] == [];
      CarouselImageAt(brands, 0, p);
    } else {
      var head := GuardedImages(brands[0]);
      assert CarouselImages(brands) == head + CarouselImages(brands[1..]);
      var b', k' := CarouselImageOrigin(brands[1..], p - width);
      b, k := b' + 1, k';
      OffsetStep(brands, b);
      CarouselImageAt(brands, b, k);
    }
  }

  /** The id spells out its brand name and index: the part after the last '-'
      is the index, which has no '-' of its own. */
  lemma ImageIdInjective(n1: string, k1: nat, n2: string, k2: nat)
    requires ImageId(n1, k1) == ImageId(n2, k2)
    ensures n1 == n2 && k1 == k2
  {
    var s := ImageId(n1, k1);
    var d1, d2 := NatToString(k1), NatToString(k2);
    var len := |s|;
    assert s == "brand-" + n1 + "-" + d1 == "brand-" + n2 + "-" + d2;
    // the last '-' of the id separates name and index
    assert s[len - |d1| - 1] == '-' && s[len - |d2| - 1] == '-';
    assert d1 == s[len - |d1|..] == d2;
    NatToStringInjective(k1, k2);
    assert n1 == s[6..len - |d1| - 1] == n2;
  }

  /** When brand names are distinct, so are the ids the carousel uses as React keys. */
  lemma CarouselIdsDistinct(brands: seq<Brand>)
    requires forall i, j :: 0 <= i < j < |brands| ==> brands[i].name != brands[j].name
    ensures forall p, q :: 0 <= p < q < |CarouselImages(brands)| ==>
      CarouselImages(brands)[p].id != CarouselImages(brands)[q].id
  {
    var imgs := CarouselImages(brands);
    forall p, q | 0 <= p < q < |imgs|
      ensures imgs[p].id != imgs[q].id
    {
      var b1, k1 := CarouselImageOrigin(brands, p);
      var b2, k2 := CarouselImageOrigin(brands, q);
      if imgs[p].id == imgs[q].id {
        ImageIdInjective(brands[b1].name, k1, brands[b2].name, k2);
      }
    }
  }

  /** `<HeroCarousel images={carouselImages} />`: the carousel starts on the first
      image of the first brand that has one, over one entry per packaging image. */
  method MountCarousel(brands: seq<Brand>) returns (nav: Navigator)
    ensures fresh(nav) && nav.Valid()
    ensures nav.images == CarouselImages(brands) && nav.cursor == 0
    ensures |nav.images| == ImageCount(brands)
  {
    CarouselImagesLength(brands);
    nav := new Navigator(CarouselImages(brands));
  }
}
