/**
 * The silent section: a pinned full-screen video (or its poster) with an
 * optional ambient line that fades in between 30% and 50% of the pinned range
 * and out again between 50% and 70%.
 */
module SilentSection {
  import opened Wrappers
  import Format
  import ChaptersData

  datatype PinDuration = Short | Medium | Long

  /** The `duration` prop's default. */
  function ResolveDuration(d: Option<PinDuration>): (r: PinDuration)
    ensures d.None? ==> r == Medium
    ensures d.Some? ==> r == d.value
  {
    d.GetOr(Medium)
  }

  /** The pinned scroll length, in viewport heights (percent). */
  function HeightVh(d: PinDuration): (vh: nat)
    ensures vh >= 150
  {
    match d
    case Short => 150
    case Medium => 200
    case Long => 300
  }

  lemma PinLengthsOrdered()
    ensures HeightVh(Short) < HeightVh(Medium) < HeightVh(Long)
    ensures HeightVh(ResolveDuration(None)) == 200
  {
  }

  function Min3(a: real, b: real, c: real): real {
    if a <= b && a <= c then a else if b <= c then b else c
  }

  /** The ambient text's opacity: zero outside (0.3, 0.7), a tent peaking at 1 in the middle. */
  function TextOpacity(p: real): (o: real)
    ensures 0.0 <= o <= 1.0
    ensures p <= 0.3 || p >= 0.7 ==> o == 0.0
    ensures o == 1.0 <==> p == 0.5
  {
    if p < 0.3 then 0.0 else if p > 0.7 then 0.0 else Min3(1.0, (p - 0.3) * 5.0, (0.7 - p) * 5.0)
  }

  /** The curve is symmetric about the middle of the range. */
  lemma TextOpacitySymmetric(d: real)
    ensures TextOpacity(0.5 + d) == TextOpacity(0.5 - d)
  {
  }

  /** It rises on [0.3, 0.5] and falls on [0.5, 0.7]. */
  lemma TextOpacityRiseAndFall(p: real, q: real)
    requires p <= q
    ensures q <= 0.5 ==> TextOpacity(p) <= TextOpacity(q)
    ensures 0.5 <= p ==> TextOpacity(q) <= TextOpacity(p)
  {
  }

  datatype Background = Video(src: string, poster: string) | Poster(src: string)

  datatype AmbientBlock = AmbientBlock(text: string, native: Option<string>, opacity: real)

  /** One mounted silent section: its props, and the two state fields its listeners overwrite. */
  class SilentView {
    const videoSrc: Option<string>
    const posterSrc: string
    const duration: PinDuration
    const ambientText: Option<string>
    const ambientTextNative: Option<string>
    const language: ChaptersData.Language

    var progress: real          // last value reported by the scroll trigger
    var isReducedMotion: bool   // last value of the reduced-motion media query

    ghost predicate Valid()
      reads this
    {
      0.0 <= progress <= 1.0
    }

    constructor (videoSrc: Option<string>, posterSrc: string, duration: Option<PinDuration>,
                 ambientText: Option<string>, ambientTextNative: Option<string>,
                 language: Option<ChaptersData.Language>)
      ensures Valid()
      ensures progress == 0.0 && !isReducedMotion
      ensures this.videoSrc == videoSrc && this.posterSrc == posterSrc
      ensures this.duration == ResolveDuration(duration)
      ensures this.ambientText == ambientText && this.ambientTextNative == ambientTextNative
      ensures this.language == language.GetOr(ChaptersData.Jp)
    {
      this.videoSrc := videoSrc;
      this.posterSrc := posterSrc;
      this.duration := ResolveDuration(duration);
      this.ambientText := ambientText;
      this.ambientTextNative := ambientTextNative;
      this.language := language.GetOr(ChaptersData.Jp);
      progress := 0.0;
      isReducedMotion := false;
    }

    /** The scroll trigger's update callback. */
    method OnScrollUpdate(p: real)
      requires Valid()
      requires 0.0 <= p <= 1.0
      modifies this`progress
      ensures Valid()
      ensures progress == p
    {
      progress := p;
    }

    /** The media query's change listener (and its first reading on mount). */
    method OnMotionPreference(matches: bool)
      requires Valid()
      modifies this`isReducedMotion
      ensures Valid()
      ensures isReducedMotion == matches
    {
      isReducedMotion := matches;
    }

    /** The video plays only when a source is given and motion is not reduced; otherwise the poster shows. */
    function Backdrop(): (b: Background)
      reads this
      ensures b.Video? <==> Format.Truthy(videoSrc) && !isReducedMotion
      ensures b.Video? ==> b.src == videoSrc.value && b.poster == posterSrc
      ensures b.Poster? ==> b.src == posterSrc
    {
      if Format.Truthy(videoSrc) && !isReducedMotion then Video(videoSrc.value, posterSrc) else Poster(posterSrc)
    }

    /** The slow zoom is attached only to a rendered video, so it runs exactly when the video does. */
    predicate ZoomActive()
      reads this
    {
      Backdrop().Video? && !isReducedMotion
    }

    /** The ambient block renders only with ambient text, at the curve's opacity for the current progress. */
    function Ambient(): (a: Option<AmbientBlock>)
      reads this
      requires Valid()
      ensures a.Some? <==> Format.Truthy(ambientText)
      ensures a.Some? ==> a.value.text == ambientText.value && 0.0 <= a.value.opacity <= 1.0
      ensures a.Some? ==> a.value.opacity == TextOpacity(progress)
      ensures a.Some? ==> (a.value.native.Some? <==> Format.Truthy(ambientTextNative))
      ensures a.Some? && a.value.native.Some? ==> a.value.native == ambientTextNative
    {
      if Format.Truthy(ambientText) then
        Some(AmbientBlock(ambientText.value,
                          if Format.Truthy(ambientTextNative) then ambientTextNative else None,
                          TextOpacity(progress)))
      else None
    }
  }

  /** The zoom runs exactly when a video source is given and motion is not reduced. */
  lemma ZoomIffVideo(v: SilentView)
    ensures v.ZoomActive() <==> Format.Truthy(v.videoSrc) && !v.isReducedMotion
  {
  }
}
