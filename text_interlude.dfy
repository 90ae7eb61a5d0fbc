/**
 * The text interlude: a passage of text revealed on scroll in one of four
 * styles, an optional native-language line above it, and a decorative line
 * below it whose width follows the scroll progress.
 */
module TextInterlude {
  import opened Wrappers
  import opened Tweens
  import Format
  import ChaptersData

  datatype TextTransition = Words | Lines | Exposure | Typewriter

  datatype Layout = Center | Left | Right

  /** The `transitionType` prop's default. */
  function ResolveTransition(t: Option<TextTransition>): (r: TextTransition)
    ensures t.None? ==> r == Words
    ensures t.Some? ==> r == t.value
  {
    t.GetOr(Words)
  }

  /** The `layout` prop's default. */
  function ResolveLayout(l: Option<Layout>): (r: Layout)
    ensures l.None? ==> r == Center
    ensures l.Some? ==> r == l.value
  {
    l.GetOr(Center)
  }

  /** The alignment lookup, defined for every layout; text and flex alignment always agree. */
  function AlignmentClass(l: Layout): (cls: string)
    ensures cls == "text-center items-center" <==> l == Center
    ensures cls == "text-left items-start" <==> l == Left
    ensures cls == "text-right items-end" <==> l == Right
  {
    match l
    case Center => "text-center items-center"
    case Left => "text-left items-start"
    case Right => "text-right items-end"
  }

  /** The decorative line's width in px: 200 times the progress, capped at 200. */
  function DecorativeWidth(p: real): (w: real)
    ensures w <= 200.0
    ensures 0.0 <= p <= 1.0 ==> w == 200.0 * p && 0.0 <= w
    ensures p >= 1.0 ==> w == 200.0
  {
    if 200.0 < p * 200.0 then 200.0 else p * 200.0
  }

  lemma DecorativeWidthMonotone(p: real, q: real)
    requires p <= q
    ensures DecorativeWidth(p) <= DecorativeWidth(q)
  {
  }

  /** Number of space characters in `s`. */
  function Spaces(s: string): nat {
    multiset(s)[' ']
  }

  /** `s.split(" ")`: the pieces between consecutive spaces, empty pieces included. */
  function Split(s: string): (words: seq<string>)
    ensures |words| == Spaces(s) + 1
    ensures forall i :: 0 <= i < |words| ==> ' ' !in words[i]
    decreases |s|
  {
    if s == [] then [""]
    else
      assert s == [s[0]] + s[1..];
      var rest := Split(s[1..]);
      if s[0] == ' ' then [""] + rest
      else [[s[0]] + rest[0]] + rest[1..]
  }

  /** `words.join(" ")`: the pieces with a single space between neighbours. */
  function Join(words: seq<string>): string
    requires |words| >= 1
    decreases |words|
  {
    if |words| == 1 then words[0] else words[0] + " " + Join(words[1..])
  }

  lemma JoinPrepend(c: char, words: seq<string>)
    requires |words| >= 1
    ensures Join([[c] + words[0]] + words[1..]) == [c] + Join(words)
  {
    var ws := [[c] + words[0]] + words[1..];
    assert ws[1..] == words[1..];
  }

  /** Joining the pieces with single spaces gives back the text: no character is lost or added. */
  lemma {:induction false} SplitJoin(s: string)
    ensures Join(Split(s)) == s
    decreases |s|
  {
    if s != [] {
      var rest := Split(s[1..]);
      SplitJoin(s[1..]);
      if s[0] == ' ' {
        var ws := [""] + rest;
        assert ws[1..] == rest;
      } else {
        JoinPrepend(s[0], rest);
      }
    }
  }

  lemma {:induction false} SplitWord(w: string, tail: Option<string>)
    requires ' ' !in w
    ensures tail.None? ==> Split(w) == [w]
    ensures tail.Some? ==> Split(w + " " + tail.value) == [w] + Split(tail.value)
    decreases |w|
  {
    if w != [] {
      SplitWord(w[1..], tail);
      assert [w[0]] + w[1..] == w;
      if tail.Some? {
        assert (w + " " + tail.value)[1..] == w[1..] + " " + tail.value;
      }
    } else if tail.Some? {
      assert w + " " + tail.value == [' '] + tail.value;
    }
  }

  /** The other direction: splitting a space-joined list of space-free words recovers the words. */
  lemma {:induction false} JoinSplit(words: seq<string>)
    requires |words| >= 1
    requires forall i :: 0 <= i < |words| ==> ' ' !in words[i]
    ensures Split(Join(words)) == words
    decreases |words|
  {
    if |words| == 1 {
      SplitWord(words[0], None);
    } else {
      JoinSplit(words[1..]);
      SplitWord(words[0], Some(Join(words[1..])));
    }
  }

  /** What the text block renders: one span per word for "words", the text as is otherwise. */
  datatype TextBody = WordSpans(words: seq<string>) | Whole(text: string)

  function Body(t: TextTransition, text: string): (b: TextBody)
    ensures b.WordSpans? <==> t == Words
    ensures b.WordSpans? ==> |b.words| == Spaces(text) + 1 && Join(b.words) == text
    ensures b.Whole? ==> b.text == text
  {
    SplitJoin(text);
    if t == Words then WordSpans(Split(text)) else Whole(text)
  }

  /** A from/to tween on the text block. */
  datatype TextTween = TextTween(from: Style, to: Style)

  /** The text tween per style; "typewriter" is accepted but no branch animates it. */
  function TextAnimation(t: TextTransition): (tw: Option<TextTween>)
    ensures tw.None? <==> t == Typewriter
    ensures tw.Some? ==> SameProps(tw.value.from, tw.value.to) && AtRest(tw.value.to)
    ensures tw.Some? ==> Opacity in tw.value.from ==> tw.value.from[Opacity] < 1.0
  {
    match t
    case Words => Some(TextTween(map[Opacity := 0.1, Y := 20.0], map[Opacity := 1.0, Y := 0.0]))
    case Exposure => Some(TextTween(map[Opacity := 0.0, Brightness := 3.0, BlurPx := 4.0],
                                    map[Opacity := 1.0, Brightness := 1.0, BlurPx := 0.0]))
    case Lines => Some(TextTween(map[InsetBottomPercent := 100.0], map[InsetBottomPercent := 0.0]))
    case Typewriter => None
  }

  /** The native line's tween: it rises into place but stays faint, ending at opacity 0.3. */
  function NativeTween(): (tw: TextTween)
    ensures SameProps(tw.from, tw.to)
    ensures Opacity in tw.to && Y in tw.to && Opacity in tw.from
    ensures tw.to[Opacity] == 0.3 && !AtRest(tw.to)
    ensures tw.from[Opacity] == 0.0 && tw.to[Y] == 0.0
  {
    TextTween(map[Opacity := 0.0, Y := 20.0], map[Opacity := 0.3, Y := 0.0])
  }

  /** One mounted text interlude: its props, and the progress its scroll trigger overwrites. */
  class TextView {
    const text: string
    const textNative: Option<string>
    const language: ChaptersData.Language
    const layout: Layout
    const transitionType: TextTransition

    var progress: real

    ghost predicate Valid()
      reads this
    {
      0.0 <= progress <= 1.0
    }

    constructor (text: string, textNative: Option<string>, language: Option<ChaptersData.Language>,
                 layout: Option<Layout>, transitionType: Option<TextTransition>)
      ensures Valid() && progress == 0.0
      ensures this.text == text && this.textNative == textNative
      ensures this.language == language.GetOr(ChaptersData.Jp)
      ensures this.layout == ResolveLayout(layout)
      ensures this.transitionType == ResolveTransition(transitionType)
    {
      this.text := text;
      this.textNative := textNative;
      this.language := language.GetOr(ChaptersData.Jp);
      this.layout := ResolveLayout(layout);
      this.transitionType := ResolveTransition(transitionType);
      progress := 0.0;
    }

    /** The scroll trigger's update callback. */
    method OnScrollUpdate(p: real)
      requires Valid()
      requires 0.0 <= p <= 1.0
      modifies this`progress
      ensures Valid() && progress == p
    {
      progress := p;
    }

    /** The decorative line's current width, from 0 px at the start to 200 px at the end. */
    function LineWidth(): (w: real)
      reads this
      requires Valid()
      ensures 0.0 <= w <= 200.0 && w == 200.0 * progress
    {
      DecorativeWidth(progress)
    }

    /** The native line renders, and is tweened, only when it is present and non-empty. */
    function NativeLine(): (r: Option<(string, TextTween)>)
      reads this
      ensures r.Some? <==> Format.Truthy(textNative)
      ensures r.Some? ==> r.value.0 == textNative.value && r.value.1 == NativeTween()
    {
      if Format.Truthy(textNative) then Some((textNative.value, NativeTween())) else None
    }
  }
}
