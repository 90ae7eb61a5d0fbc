/**
 * The gallery section: a titled masonry grid of images.  The header is wiped
 * in from the right; each image tile registers its element in a shared ref
 * array, and on mount the component walks that array and gives every
 * registered element a reveal tween chosen by the transition tag.
 */
module GallerySection {
  import opened Wrappers
  import opened Tweens

  datatype AspectRatio = Portrait | Landscape | Square

  /** A tile's CSS aspect ratio (width:height) and how many grid rows and columns it spans. */
  datatype TileShape = TileShape(width: nat, height: nat, rowSpan: nat, colSpan: nat)

  /** The aspect switch, defined for all three ratios: portraits span two rows, landscapes two columns. */
  function AspectClass(ratio: AspectRatio): (t: TileShape)
    ensures t.rowSpan == 2 <==> ratio == Portrait
    ensures t.colSpan == 2 <==> ratio == Landscape
    ensures t.rowSpan == 1 && t.colSpan == 1 <==> ratio == Square
    ensures ratio == Portrait ==> t.width < t.height
    ensures ratio == Landscape ==> t.width > t.height
    ensures ratio == Square ==> t.width == t.height
  {
    match ratio
    case Portrait => TileShape(3, 4, 2, 1)
    case Landscape => TileShape(16, 9, 1, 2)
    case Square => TileShape(1, 1, 1, 1)
  }

  datatype GalleryImage = GalleryImage(src: string, alt: string, aspectRatio: AspectRatio)

  datatype GalleryTransition = Stagger | Cascade | Exposure

  /** The `transitionType` prop's default. */
  function ResolveTransition(t: Option<GalleryTransition>): (r: GalleryTransition)
    ensures t.None? ==> r == Stagger
    ensures t.Some? ==> r == t.value
  {
    t.GetOr(Stagger)
  }

  /** Start of an image reveal ("exposure", then "cascade", everything else staggers). */
  function FromProps(t: GalleryTransition): (s: Style)
    ensures Opacity in s && s[Opacity] == 0.0
    ensures !AtRest(s)
    ensures Brightness in s <==> t.Exposure?
    ensures RotateX in s <==> t.Cascade?
    ensures Scale in s <==> t.Stagger?
  {
    if t == Exposure then map[Opacity := 0.0, Brightness := 3.0]
    else if t == Cascade then map[Opacity := 0.0, Y := 100.0, RotateX := 15.0]
    else map[Opacity := 0.0, Y := 60.0, Scale := 0.95]
  }

  /** End of an image reveal. */
  function ToProps(t: GalleryTransition): (s: Style)
    ensures Opacity in s && s[Opacity] == 1.0
    ensures AtRest(s)
    ensures Brightness in s <==> t.Exposure?
    ensures RotateX in s <==> t.Cascade?
    ensures Scale in s <==> t.Stagger?
  {
    if t == Exposure then map[Opacity := 1.0, Brightness := 1.0]
    else if t == Cascade then map[Opacity := 1.0, Y := 0.0, RotateX := 0.0]
    else map[Opacity := 1.0, Y := 0.0, Scale := 1.0]
  }

  /** Every pair animates the same properties, from transparent to opaque, and ends at rest. */
  lemma ImagePairsReveal(t: GalleryTransition)
    ensures SameProps(FromProps(t), ToProps(t))
    ensures Opacity in FromProps(t) && FromProps(t)[Opacity] == 0.0
    ensures Opacity in ToProps(t) && ToProps(t)[Opacity] == 1.0
    ensures AtRest(ToProps(t))
  {
  }

  function Duration(t: GalleryTransition): (d: real)
    ensures d == 0.6 <==> t == Exposure
    ensures t != Exposure ==> d == 1.0
  {
    if t == Exposure then 0.6 else 1.0
  }

  /** Start delay of the tween for the image at position `i`: a tenth of a second per position for "cascade". */
  function Delay(t: GalleryTransition, i: nat): (d: real)
    ensures t != Cascade ==> d == 0.0
    ensures t == Cascade ==> d * 10.0 == i as real
  {
    if t == Cascade then i as real * 0.1 else 0.0
  }

  /** Under "cascade" later images start strictly later. */
  lemma CascadeDelaysIncrease(i: nat, j: nat)
    requires i < j
    ensures Delay(Cascade, i) < Delay(Cascade, j)
  {
  }

  /** The header wipe: from fully clipped on the right to unclipped, in 1.2 s. */
  const headerFrom: Style := map[InsetRightPercent := 100.0]
  const headerTo: Style := map[InsetRightPercent := 0.0]

  lemma HeaderWipeReveals()
    ensures SameProps(headerFrom, headerTo) && AtRest(headerTo) && !AtRest(headerFrom)
  {
    assert headerFrom[InsetRightPercent] != RestValue(InsetRightPercent);
  }

  /** The reveal tween given to one registered image element. */
  datatype ImageTween = ImageTween(element: nat, index: nat, from: Style, to: Style, duration: real, delay: real)

  function RevealTween(element: nat, i: nat, t: GalleryTransition): ImageTween {
    ImageTween(element, i, FromProps(t), ToProps(t), Duration(t), Delay(t, i))
  }

  /** The tweens the walk gives the first `n` slots of the ref array, in order; empty slots are skipped. */
  function Reveals(refs: seq<Option<nat>>, t: GalleryTransition, n: nat): seq<ImageTween>
    requires n <= |refs|
    decreases n
  {
    if n == 0 then []
    else Reveals(refs, t, n - 1) + (if refs[n - 1].Some? then [RevealTween(refs[n - 1].value, n - 1, t)] else [])
  }

  /** Number of filled slots among the first `n`. */
  function Registered(refs: seq<Option<nat>>, n: nat): nat
    requires n <= |refs|
    decreases n
  {
    if n == 0 then 0 else Registered(refs, n - 1) + (if refs[n - 1].Some? then 1 else 0)
  }

  /**
   * What the walk produces: one tween per filled slot and none for an empty one,
   * in slot order, each on the element in its slot, with the delay of its slot
   * and the tag's from/to pair (which takes it from transparent to opaque).
   */
  lemma {:induction false} RevealsSpec(refs: seq<Option<nat>>, t: GalleryTransition, n: nat)
    requires n <= |refs|
    ensures |Reveals(refs, t, n)| == Registered(refs, n)
    ensures forall k :: 0 <= k < |Reveals(refs, t, n)| ==>
      var tw := Reveals(refs, t, n)[k];
      tw.index < n && refs[tw.index] == Some(tw.element) && tw.delay == Delay(t, tw.index)
      && tw.from == FromProps(t) && tw.to == ToProps(t) && tw.duration == Duration(t)
    ensures forall k, l :: 0 <= k < l < |Reveals(refs, t, n)| ==>
      Reveals(refs, t, n)[k].index < Reveals(refs, t, n)[l].index
    ensures forall i :: 0 <= i < n && refs[i].Some? ==>
      exists k :: 0 <= k < |Reveals(refs, t, n)| && Reveals(refs, t, n)[k].index == i
    decreases n
  {
    if n > 0 {
      RevealsSpec(refs, t, n - 1);
      ImagePairsReveal(t);
      var prev := Reveals(refs, t, n - 1);
      var cur := Reveals(refs, t, n);
      if refs[n - 1].Some? {
        assert cur == prev + [RevealTween(refs[n - 1].value, n - 1, t)];
        assert cur[|prev|].index == n - 1;
      } else {
        assert cur == prev;
      }
      forall i | 0 <= i < n && refs[i].Some?
        ensures exists k :: 0 <= k < |cur| && cur[k].index == i
      {
        if i < n - 1 {
          var k :| 0 <= k < |prev| && prev[k].index == i;
          assert cur[k] == prev[k];
        } else {
          assert cur[|prev|].index == i;
        }
      }
    }
  }

  /** Under "cascade" the tweens start strictly one after another, in slot order. */
  lemma CascadeRevealsStaggered(refs: seq<Option<nat>>)
    ensures forall k, l :: 0 <= k < l < |Reveals(refs, Cascade, |refs|)| ==>
      Reveals(refs, Cascade, |refs|)[k].delay < Reveals(refs, Cascade, |refs|)[l].delay
  {
    RevealsSpec(refs, Cascade, |refs|);
  }

  /** One mounted gallery: its props, and the ref array its tiles write into. */
  class Gallery {
    const title: string
    const titleNative: Option<string>
    const images: seq<GalleryImage>
    const transitionType: GalleryTransition

    var imageRefs: seq<Option<nat>>   // the ref array; None for a null ref or a hole

    constructor (title: string, titleNative: Option<string>, images: seq<GalleryImage>,
                 transitionType: Option<GalleryTransition>)
      ensures imageRefs == []
      ensures this.title == title && this.titleNative == titleNative && this.images == images
      ensures this.transitionType == ResolveTransition(transitionType)
    {
      this.title := title;
      this.titleNative := titleNative;
      this.images := images;
      this.transitionType := ResolveTransition(transitionType);
      imageRefs := [];
    }

    /** The tile shapes, one per image, in order. */
    function Tiles(): (tiles: seq<TileShape>)
      reads this
      ensures |tiles| == |images|
      ensures forall i :: 0 <= i < |images| ==> tiles[i] == AspectClass(images[i].aspectRatio)
    {
      seq(|images|, i requires 0 <= i < |images| reads this => AspectClass(images[i].aspectRatio))
    }

    /** A tile's ref callback: store the element (or null) at the tile's index, growing the array with holes if needed. */
    method SetImageRef(index: nat, element: Option<nat>)
      modifies this`imageRefs
      ensures |imageRefs| == if index < |old(imageRefs)| then |old(imageRefs)| else index + 1
      ensures imageRefs[index] == element
      ensures forall i :: 0 <= i < |imageRefs| && i != index ==>
        imageRefs[i] == if i < |old(imageRefs)| then old(imageRefs)[i] else None
    {
      if index < |imageRefs| {
        imageRefs := imageRefs[index := element];
      } else {
        imageRefs := imageRefs + seq(index - |imageRefs|, _ => None) + [element];
      }
    }

    /** The walk over the ref array: skip empty slots, give every element its reveal tween. */
    method ScheduleImageReveals() returns (tweens: seq<ImageTween>)
      ensures tweens == Reveals(imageRefs, transitionType, |imageRefs|)
    {
      tweens := [];
      var i := 0;
      while i < |imageRefs|
        invariant 0 <= i <= |imageRefs|
        invariant tweens == Reveals(imageRefs, transitionType, i)
      {
        var img := imageRefs[i];
        if img.Some? {
          tweens := tweens + [RevealTween(img.value, i, transitionType)];
        }
        i := i + 1;
      }
    }
  }
}
