/**
 * Beat A of a hero chapter: the headline block that is fully visible at the
 * start of the chapter's scroll range and fades out between 40% and 80% of it,
 * with an extra exit effect chosen by the transition tag.
 */
module ChapterBeatA {
  import opened Wrappers
  import opened HeroChapter
  import Format
  import ChaptersData

  /** Beat A's own default when no tag is passed. */
  function ResolveTransition(t: Option<Transition>): (r: Transition)
    ensures t.None? ==> r == Dissolve
    ensures t.Some? ==> r == t.value
  {
    t.GetOr(Dissolve)
  }

  function Max(a: real, b: real): real {
    if a < b then b else a
  }

  /** The fade-out curve: opaque before 40% of the scroll range, transparent from 80% on. */
  function Opacity(p: real): (o: real)
    ensures 0.0 <= o <= 1.0
    ensures p < 0.4 ==> o == 1.0
    ensures p >= 0.8 ==> o == 0.0
    ensures 0.4 <= p <= 0.8 ==> o == (0.8 - p) * 2.5
  {
    if p < 0.4 then 1.0 else Max(0.0, 1.0 - (p - 0.4) * 2.5)
  }

  lemma OpacityNonIncreasing(p: real, q: real)
    requires p <= q
    ensures Opacity(q) <= Opacity(p)
  {
  }

  /** The extra exit effect, by kind, with the numeric parameter of its CSS string. */
  datatype ExitStyle =
    | NoExitStyle                         // no style besides opacity
    | ClipBottom(insetPercent: real)      // clip-path: inset(0 0 N% 0)
    | Brightness(level: real)             // filter: brightness(N)
    | TranslateY(px: real)                // transform: translateY(Npx)

  /** "wipe": the bottom inset grows from 0 after 40%, reaching 100% at 80% and, unclamped, 150% at the end. */
  function WipeInset(p: real): (inset: real)
    ensures inset >= 0.0
    ensures p <= 0.4 ==> inset == 0.0
    ensures p == 0.8 ==> inset == 100.0
    ensures p == 1.0 ==> inset == 150.0
  {
    if p > 0.4 then (p - 0.4) * 250.0 else 0.0
  }

  /** "exposure": brightness is 1 until 40% and only rises afterwards. */
  function ExposureBrightness(p: real): (level: real)
    ensures level >= 1.0
    ensures p <= 0.4 ==> level == 1.0
    ensures p == 1.0 ==> level == 2.8
  {
    1.0 + (if p > 0.4 then (p - 0.4) * 3.0 else 0.0)
  }

  /** "soft": the block drifts upwards (never downwards) after 40%. */
  function SoftOffset(p: real): (px: real)
    ensures px <= 0.0
    ensures p <= 0.4 ==> px == 0.0
    ensures p == 1.0 ==> px == -60.0
  {
    if p > 0.4 then (p - 0.4) * -100.0 else 0.0
  }

  /** The exit-effect switch: "wipe", "exposure" and "soft" have an effect; every other tag falls to the empty default. */
  function ExitTransform(t: Transition, p: real): (s: ExitStyle)
    ensures s.ClipBottom? <==> t == Wipe
    ensures s.Brightness? <==> t == Exposure
    ensures s.TranslateY? <==> t == Soft
    ensures s == NoExitStyle <==> t == Dissolve || t == Diagonal
    ensures s.ClipBottom? ==> s.insetPercent == WipeInset(p)
    ensures s.Brightness? ==> s.level == ExposureBrightness(p)
    ensures s.TranslateY? ==> s.px == SoftOffset(p)
  {
    match t
    case Wipe => ClipBottom(WipeInset(p))
    case Exposure => Brightness(ExposureBrightness(p))
    case Soft => TranslateY(SoftOffset(p))
    case _ => NoExitStyle
  }

  /** Every exit effect grows monotonically with scroll: the inset and brightness never shrink, the offset never comes back down. */
  lemma ExitEffectsMonotone(p: real, q: real)
    requires p <= q
    ensures WipeInset(p) <= WipeInset(q)
    ensures ExposureBrightness(p) <= ExposureBrightness(q)
    ensures SoftOffset(q) <= SoftOffset(p)
  {
  }

  /** Up to 80% the wipe hides exactly the share of the block the fade has taken away. */
  lemma WipeTracksFade(p: real)
    requires p <= 0.8
    ensures WipeInset(p) == 100.0 * (1.0 - Opacity(p))
  {
  }

  /** The six chapters are labelled "CH.01" to "CH.06". */
  lemma TableLabels()
    ensures forall i :: 0 <= i < |ChaptersData.chapters| ==>
      Format.ChapterLabel(ChaptersData.chapters[i].index) == "CH.0" + [Format.DigitChar(i + 1)]
  {
    forall i | 0 <= i < |ChaptersData.chapters|
      ensures Format.ChapterLabel(ChaptersData.chapters[i].index) == "CH.0" + [Format.DigitChar(i + 1)]
    {
      ChaptersData.ChapterCountAndNumbering();
      Format.PaddedOneDigit(i + 1, 2);
    }
  }
}
