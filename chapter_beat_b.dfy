/**
 * Beat B of a hero chapter: the text-and-image block that fades in while
 * beat A fades out, with an image revealed in the second half of the scroll
 * range by a clip shape and a brightness filter chosen by the transition tag.
 */
module ChapterBeatB {
  import opened Wrappers
  import opened HeroChapter
  import Format
  import ChaptersData
  import ChapterBeatA

  /** Beat B's own default when no tag is passed: "wipe" (beat A's is "dissolve"). */
  function ResolveTransition(t: Option<Transition>): (r: Transition)
    ensures t.None? ==> r == Wipe
    ensures t.Some? ==> r == t.value
  {
    t.GetOr(Wipe)
  }

  function Min(a: real, b: real): real {
    if a < b then a else b
  }

  /** The fade-in curve: transparent before 40% of the scroll range, opaque from 80% on. */
  function Opacity(p: real): (o: real)
    ensures 0.0 <= o <= 1.0
    ensures p < 0.4 ==> o == 0.0
    ensures p >= 0.8 ==> o == 1.0
  {
    if p < 0.4 then 0.0 else Min(1.0, (p - 0.4) * 2.5)
  }

  lemma OpacityNonDecreasing(p: real, q: real)
    requires p <= q
    ensures Opacity(p) <= Opacity(q)
  {
  }

  /** The cross-fade: at every scroll position the two beats' opacities add up to one. */
  lemma CrossFade(p: real)
    ensures Opacity(p) + ChapterBeatA.Opacity(p) == 1.0
  {
  }

  /** How far the image is revealed: nothing before 50%, linearly to fully at the end of the range. */
  function ImageReveal(p: real): (r: real)
    ensures 0.0 <= r <= 1.0
    ensures p < 0.5 ==> r == 0.0
    ensures p <= 1.0 ==> (r == 1.0 <==> p == 1.0)
  {
    if p < 0.5 then 0.0 else Min(1.0, (p - 0.5) * 2.0)
  }

  lemma ImageRevealNonDecreasing(p: real, q: real)
    requires p <= q
    ensures ImageReveal(p) <= ImageReveal(q)
  {
  }

  /** The image clip, by kind, with the numeric parameter of its CSS string. */
  datatype ImageClip =
    | InsetRight(percent: real)    // inset(0 N% 0 0); N = 0 clips nothing
    | Triangle(extent: real)       // polygon(0 0, N% 0, 0 N%)

  /** The clip switch: "diagonal" grows a triangle; "exposure" clips nothing; "wipe" and every other tag uncover from the left. */
  function ImageClipPath(t: Transition, p: real): (c: ImageClip)
    ensures c.Triangle? <==> t == Diagonal
    ensures c.Triangle? ==> 0.0 <= c.extent <= 200.0 && c.extent == ImageReveal(p) * 200.0
    ensures c.InsetRight? ==> 0.0 <= c.percent <= 100.0
    ensures t == Exposure ==> c == InsetRight(0.0)
    ensures t != Exposure && t != Diagonal ==> c == InsetRight(100.0 - ImageReveal(p) * 100.0)
  {
    var shown := ImageReveal(p);
    match t
    case Diagonal => Triangle(shown * 200.0)
    case Wipe => InsetRight(100.0 - shown * 100.0)
    case Exposure => InsetRight(0.0)
    case _ => InsetRight(100.0 - shown * 100.0)
  }

  /** The brightness filter: only "exposure" over-exposes, from 3 down to 1 as the image is revealed. */
  function ImageBrightness(t: Transition, p: real): (b: real)
    ensures 1.0 <= b <= 3.0
    ensures t != Exposure ==> b == 1.0
    ensures t == Exposure ==> b == 1.0 + (1.0 - ImageReveal(p)) * 2.0
  {
    if t == Exposure then 1.0 + (1.0 - ImageReveal(p)) * 2.0 else 1.0
  }

  /** Does the clip leave the whole image visible?  (A 200% triangle covers the unit square.) */
  predicate FullyVisible(c: ImageClip) {
    match c
    case InsetRight(percent) => percent == 0.0
    case Triangle(extent) => extent >= 200.0
  }

  /** Whatever the tag, at the end of the scroll range the image is uncovered and at normal brightness. */
  lemma EndsFullyRevealed(t: Transition)
    ensures FullyVisible(ImageClipPath(t, 1.0))
    ensures ImageBrightness(t, 1.0) == 1.0
  {
  }

  /** Before half-way the wiping tags hide the whole image, "diagonal" shows none of it, and "exposure" is at triple brightness. */
  lemma StartsHidden(t: Transition, p: real)
    requires p < 0.5
    ensures t != Exposure && t != Diagonal ==> ImageClipPath(t, p) == InsetRight(100.0)
    ensures t == Diagonal ==> ImageClipPath(t, p) == Triangle(0.0)
    ensures t == Exposure ==> ImageBrightness(t, p) == 3.0
  {
  }

  /** The reveal only progresses: the right inset shrinks, the triangle grows, the brightness falls. */
  lemma RevealMonotone(t: Transition, p: real, q: real)
    requires p <= q
    ensures ImageClipPath(t, q).InsetRight? ==> ImageClipPath(t, q).percent <= ImageClipPath(t, p).percent
    ensures ImageClipPath(t, q).Triangle? ==> ImageClipPath(t, p).extent <= ImageClipPath(t, q).extent
    ensures ImageBrightness(t, q) <= ImageBrightness(t, p)
  {
    ImageRevealNonDecreasing(p, q);
  }

  /** The film-frame number over the image: "FRM " and the index padded to three digits. */
  function FrameLabel(index: nat): (r: string)
    ensures |r| >= 7 && r[..4] == "FRM "
    ensures index < 1000 ==> |r| == 7
    ensures Format.AllDigits(r[4..]) && Format.DecimalValue(r[4..]) == index
  {
    Format.PaddedIndexValue(index, 3);
    Format.NatToStringLength(index);
    var r := "FRM " + Format.PaddedIndex(index, 3);
    assert r[4..] == Format.PaddedIndex(index, 3);
    r
  }

  datatype ImageBlock = ImageBlock(src: string, alt: string, frameLabel: string)

  /** The image block renders only when the chapter has an image. */
  function Image(c: ChaptersData.ChapterData): (r: Option<ImageBlock>)
    ensures r.Some? <==> c.beatB.imageSrc != ""
    ensures r.Some? ==> r.value.src == c.beatB.imageSrc && r.value.alt == c.beatB.imageAlt
    ensures r.Some? ==> r.value.frameLabel == FrameLabel(c.index)
  {
    if c.beatB.imageSrc != "" then Some(ImageBlock(c.beatB.imageSrc, c.beatB.imageAlt, FrameLabel(c.index)))
    else None
  }

  const nativeFallback: string := "映像の中の一瞬"

  /** The native-language line: the chapter's own when present and non-empty, the stock line otherwise. */
  function NativeLine(c: ChaptersData.ChapterData): (r: string)
    ensures r != ""
    ensures Format.Truthy(c.beatB.textNative) ==> r == c.beatB.textNative.value
    ensures !Format.Truthy(c.beatB.textNative) ==> r == nativeFallback
  {
    if Format.Truthy(c.beatB.textNative) then c.beatB.textNative.value else nativeFallback
  }

  /** Over the table, only chapter 1 goes without an image. */
  lemma OnlyFirstWithoutImage()
    ensures forall i :: 0 <= i < |ChaptersData.chapters| ==> (Image(ChaptersData.chapters[i]).None? <==> i == 0)
  {
    ChaptersData.OnlyFirstHasNoImage();
    forall i | 0 <= i < |ChaptersData.chapters|
      ensures Image(ChaptersData.chapters[i]).None? <==> i == 0
    {
      var c := ChaptersData.chapters[i];
      assert Image(c).None? <==> c.beatB.imageSrc == "";
    }
  }

  /** Over the table, no chapter needs the stock native line. */
  lemma NoStockNativeLine()
    ensures forall i :: 0 <= i < |ChaptersData.chapters| ==>
      NativeLine(ChaptersData.chapters[i]) == ChaptersData.chapters[i].beatB.textNative.value
  {
    ChaptersData.AllHaveNativeText();
  }
}
