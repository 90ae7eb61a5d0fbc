/**
 * The video interlude: a pinned full-screen video behind a quote.  While the
 * section is pinned (150% of the viewport) the video zooms out, and during the
 * first 50% the quote is revealed by one of three from/to pairs.  Reduced
 * motion replaces the video by its poster and turns both tweens off.
 */
module VideoInterlude {
  import opened Wrappers
  import opened Tweens
  import Format
  import ChaptersData

  datatype VideoTransition = Dissolve | Exposure | Wipe

  /** The `transitionType` prop's default. */
  function ResolveTransition(t: Option<VideoTransition>): (r: VideoTransition)
    ensures t.None? ==> r == Dissolve
    ensures t.Some? ==> r == t.value
  {
    t.GetOr(Dissolve)
  }

  /** The start of the quote reveal ("exposure" tests first, then "wipe", everything else dissolves). */
  function AnimFrom(t: VideoTransition): (s: Style)
    ensures t == Wipe <==> s.Keys == {InsetRightPercent}
    ensures t != Wipe ==> Opacity in s && s[Opacity] == 0.0
  {
    if t == Exposure then map[Brightness := 3.0, Opacity := 0.0]
    else if t == Wipe then map[InsetRightPercent := 100.0]
    else map[Opacity := 0.0, BlurPx := 10.0]
  }

  /** The end of the quote reveal. */
  function AnimTo(t: VideoTransition): (s: Style)
    ensures AtRest(s)
    ensures t == Wipe <==> s.Keys == {InsetRightPercent}
    ensures t != Wipe ==> Opacity in s && s[Opacity] == 1.0
  {
    if t == Exposure then map[Brightness := 1.0, Opacity := 1.0]
    else if t == Wipe then map[InsetRightPercent := 0.0]
    else map[Opacity := 1.0, BlurPx := 0.0]
  }

  /** Every pair animates the same properties, starts hidden and ends fully revealed. */
  lemma PairsReveal(t: VideoTransition)
    ensures SameProps(AnimFrom(t), AnimTo(t))
    ensures AtRest(AnimTo(t))
    ensures !AtRest(AnimFrom(t))
  {
    var from := AnimFrom(t);
    if t == Wipe {
      assert from[InsetRightPercent] != RestValue(InsetRightPercent);
    } else {
      assert from[Opacity] != RestValue(Opacity);
    }
  }

  /** How each pair hides the quote at the start: over-exposed and transparent, fully clipped from the right, or transparent and blurred. */
  lemma StartStates(t: VideoTransition)
    ensures t == Exposure ==> AnimFrom(t)[Brightness] == 3.0 && AnimFrom(t)[Opacity] == 0.0
    ensures t == Wipe ==> AnimFrom(t).Keys == {InsetRightPercent} && AnimFrom(t)[InsetRightPercent] == 100.0
    ensures t == Dissolve ==> AnimFrom(t)[Opacity] == 0.0 && AnimFrom(t)[BlurPx] == 10.0
  {
  }

  /** Pinned length and quote-reveal length, in percent of the viewport height. */
  const pinPercent: nat := 150
  const revealPercent: nat := 50


  datatype Target = VideoElement | Content

  /** A scroll-scrubbed tween starting when the section's top meets the viewport's and lasting `endPercent`. */
  datatype ScrubTween = ScrubTween(target: Target, from: Style, to: Style, endPercent: nat)

  datatype Background = Video(src: string, poster: string) | Poster(src: string)

  datatype Quote = Quote(native: Option<string>, text: string, author: Option<string>)

  /** One mounted video interlude: its props and the state its listeners overwrite. */
  class VideoView {
    const videoSrc: string
    const posterSrc: string
    const quote: string
    const quoteNative: Option<string>
    const language: ChaptersData.Language
    const author: Option<string>
    const transitionType: VideoTransition

    var progress: real
    var isReducedMotion: bool

    ghost predicate Valid()
      reads this
    {
      0.0 <= progress <= 1.0
    }

    constructor (videoSrc: string, posterSrc: string, quote: string, quoteNative: Option<string>,
                 language: Option<ChaptersData.Language>, author: Option<string>,
                 transitionType: Option<VideoTransition>)
      ensures Valid() && progress == 0.0 && !isReducedMotion
      ensures this.videoSrc == videoSrc && this.posterSrc == posterSrc
      ensures this.quote == quote && this.quoteNative == quoteNative && this.author == author
      ensures this.language == language.GetOr(ChaptersData.Jp)
      ensures this.transitionType == ResolveTransition(transitionType)
    {
      this.videoSrc := videoSrc;
      this.posterSrc := posterSrc;
      this.quote := quote;
      this.quoteNative := quoteNative;
      this.language := language.GetOr(ChaptersData.Jp);
      this.author := author;
      this.transitionType := ResolveTransition(transitionType);
      progress := 0.0;
      isReducedMotion := false;
    }

    method OnScrollUpdate(p: real)
      requires Valid()
      requires 0.0 <= p <= 1.0
      modifies this`progress
      ensures Valid() && progress == p
    {
      progress := p;
    }

    method OnMotionPreference(matches: bool)
      requires Valid()
      modifies this`isReducedMotion
      ensures Valid() && isReducedMotion == matches
    {
      isReducedMotion := matches;
    }

    /** With reduced motion the poster replaces the video. */
    function Backdrop(): (b: Background)
      reads this
      ensures b.Poster? <==> isReducedMotion
      ensures b.Poster? ==> b.src == posterSrc
      ensures b.Video? ==> b.src == videoSrc && b.poster == posterSrc
    {
      if isReducedMotion then Poster(posterSrc) else Video(videoSrc, posterSrc)
    }

    /** The tweens set up: the zoom over the whole pin and the quote reveal over its first 50%; none with reduced motion. */
    function Tweens(): (ts: seq<ScrubTween>)
      reads this
      ensures isReducedMotion <==> ts == []
      ensures !isReducedMotion ==> |ts| == 2
      ensures !isReducedMotion ==> ts[0].target == VideoElement && ts[0].endPercent == pinPercent
      ensures !isReducedMotion ==> ts[0].from == map[Scale := 1.1] && AtRest(ts[0].to) && SameProps(ts[0].from, ts[0].to)
      ensures !isReducedMotion ==> ts[1].target == Content && ts[1].endPercent == revealPercent
      ensures !isReducedMotion ==> ts[1].from == AnimFrom(transitionType) && ts[1].to == AnimTo(transitionType)
    {
      if isReducedMotion then []
      else [ScrubTween(VideoElement, map[Scale := 1.1], map[Scale := 1.0], pinPercent),
            ScrubTween(Content, AnimFrom(transitionType), AnimTo(transitionType), revealPercent)]
    }

    /** The native line renders only with `quoteNative`, the citation only with `author`. */
    function QuoteBlock(): (q: Quote)
      reads this
      ensures q.text == quote
      ensures q.native.Some? <==> Format.Truthy(quoteNative)
      ensures q.author.Some? <==> Format.Truthy(author)
      ensures q.native.Some? ==> q.native == quoteNative
      ensures q.author.Some? ==> q.author == author
    {
      Quote(if Format.Truthy(quoteNative) then quoteNative else None,
            quote,
            if Format.Truthy(author) then author else None)
    }
  }

  /**
   * The quote reveal ends a third of the way into the zoom's scroll range, which
   * spans the whole pin, so the quote is complete well before the section scrolls away.
   */
  lemma RevealWithinPin(v: VideoView)
    requires !v.isReducedMotion
    ensures v.Tweens()[1].endPercent < v.Tweens()[0].endPercent
    ensures v.Tweens()[1].endPercent * 3 == v.Tweens()[0].endPercent
  {
  }
}
