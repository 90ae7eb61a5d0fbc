# Cinematic scrollytelling site, modelled in Dafny

The site is a single page that tells a journey through Japan and Korea as a
scroll-driven film. This project models the logic the page computes, as opposed
to the markup and animation-library configuration around it. That logic falls
into four groups:

- **Scroll-progress curves.** Given a section's scroll progress `p`, the two
  beats of a hero chapter cross-fade, reveal an image and apply an exit effect.
  The silent section fades an ambient line in and out, and the text interlude
  grows a decorative line. These are functions over `real`.
- **Transition tables.** Each component maps a string tag to a pair of start
  and end visual states. Each tag set is a datatype, each pair a map from
  visual property to number (`Tweens.Style`), and "fully revealed" is the
  predicate `Tweens.AtRest`.
- **UI state.** The music player, the navbar, the sign-in dialog, and the
  per-section progress and reduced-motion state are classes. Each has one
  method per event handler, and a `Valid()` invariant where there is one to
  keep. The gallery's ref array is a `seq` field written by its ref callback,
  and a loop method walks it.
- **The chapter table** is a constant sequence with well-formedness lemmas.
  The zero-padded labels derived from it (`String(n).padStart(w, "0")`) are
  string functions, with a proved round trip from the label back to the
  number.

There is one module per source file. `Wrappers` (an `Option`) and `Format`
(decimal strings, `padStart`, JavaScript truthiness of optional strings) are
shared. An omitted optional prop is `None`, resolved to the TypeScript default
parameter.

## Model

| member | source | states |
|---|---|---|
| Format.NatToString | v0-cinematic-scrollytelling-website-main/components/chapter-beat-a.tsx:42 | `String(n)` for a non-negative integer: at least one character, all decimal digits, and a leading 0 only for n = 0 |
| Format.NatToStringRoundTrip | v0-cinematic-scrollytelling-website-main/components/chapter-beat-a.tsx:42 | reading the decimal digits of `String(n)` back gives n |
| Format.NatToStringLength | v0-cinematic-scrollytelling-website-main/components/hero-chapter.tsx:110 | one digit exactly for n < 10, two for 10 <= n < 100, three for 100 <= n < 1000 |
| Format.PadStart | v0-cinematic-scrollytelling-website-main/components/chapter-beat-b.tsx:66 | `padStart(width, fill)` with a one-character fill: the result is `width` long (or unchanged when already longer), ends with the original string and is fill characters before it |
| Format.PaddedIndex | v0-cinematic-scrollytelling-website-main/components/chapter-beat-b.tsx:66 | `String(n).padStart(width, "0")` is all digits, of length max(width, digits of n) |
| Format.ZeroPrefixIgnored | v0-cinematic-scrollytelling-website-main/components/chapter-beat-b.tsx:66 | leading zeros do not change the value a digit string denotes |
| Format.PaddedIndexValue | v0-cinematic-scrollytelling-website-main/components/chapter-beat-a.tsx:42 | zero-padding never changes the number shown: the padded label reads back as n |
| Format.PaddedOneDigit | v0-cinematic-scrollytelling-website-main/components/hud-navbar.tsx:193 | for a one-digit n the padded label is width-1 zeros followed by the digit |
| Format.ChapterLabel | v0-cinematic-scrollytelling-website-main/components/chapter-beat-a.tsx:42 | the "CH.NN" label (also hud-navbar.tsx:113): "CH." followed by digits that read back as the chapter number: exactly two of them for a number below 100, more only for a number that needs them |
| ChaptersData.ChapterCountAndNumbering | v0-cinematic-scrollytelling-website-main/lib/chapters-data.ts:26-171 | the table has six entries and entry i has index i+1 |
| ChaptersData.chapters | v0-cinematic-scrollytelling-website-main/lib/chapters-data.ts:26-171 | the six chapter records, every field transcribed from the table |
| ChaptersData.IdsDistinct | v0-cinematic-scrollytelling-website-main/lib/chapters-data.ts:28-148 | the chapter ids are pairwise distinct |
| ChaptersData.AllWellFormed | v0-cinematic-scrollytelling-website-main/lib/chapters-data.ts:30-34 | every title ends "(JAPAN)" for a jp chapter and "(KOREA)" for a kr one, every native title is non-empty, and every video and poster source is non-empty |
| ChaptersData.OnlyFirstHasNoImage | v0-cinematic-scrollytelling-website-main/lib/chapters-data.ts:47 | beatB.imageSrc is empty exactly for the first entry, "tokyo-night" |
| ChaptersData.AllHaveNativeText | v0-cinematic-scrollytelling-website-main/lib/chapters-data.ts:46-166 | every chapter carries a non-empty beatB.textNative |
| HeroChapter.ChapterCounter | v0-cinematic-scrollytelling-website-main/components/hero-chapter.tsx:110 | the counter is the padded index, whose digits read back as the index and are exactly two for an index below 100, followed by " / 06" |
| HeroChapter.CounterTotalIsChapterCount | v0-cinematic-scrollytelling-website-main/components/hero-chapter.tsx:110 | the hard-coded total 06 equals the number of chapters in the table |
| ChapterBeatA.ResolveTransition | v0-cinematic-scrollytelling-website-main/components/chapter-beat-a.tsx:12 | an omitted tag defaults to "dissolve"; a given tag is kept |
| ChapterBeatA.Opacity | v0-cinematic-scrollytelling-website-main/components/chapter-beat-a.tsx:14 | opacity lies in [0,1], is 1 before 0.4, is 0 from 0.8 on, and is (0.8-p)*2.5 in between |
| ChapterBeatA.OpacityNonIncreasing | v0-cinematic-scrollytelling-website-main/components/chapter-beat-a.tsx:14 | beat A only fades out as p grows |
| ChapterBeatA.WipeInset | v0-cinematic-scrollytelling-website-main/components/chapter-beat-a.tsx:19 | the wipe's bottom inset is never negative, is 0 up to 0.4, 100 at 0.8 and (unclamped) 150 at 1 |
| ChapterBeatA.ExposureBrightness | v0-cinematic-scrollytelling-website-main/components/chapter-beat-a.tsx:21 | brightness is always at least 1, is 1 up to 0.4 and 2.8 at 1 |
| ChapterBeatA.SoftOffset | v0-cinematic-scrollytelling-website-main/components/chapter-beat-a.tsx:23 | the soft drift is never downwards, is 0 up to 0.4 and -60 px at 1 |
| ChapterBeatA.ExitTransform | v0-cinematic-scrollytelling-website-main/components/chapter-beat-a.tsx:16-27 | wipe, exposure and soft each get their own effect; dissolve and diagonal (any other tag) get no style beyond opacity |
| ChapterBeatA.ExitEffectsMonotone | v0-cinematic-scrollytelling-website-main/components/chapter-beat-a.tsx:18-23 | each exit effect only grows with p |
| ChapterBeatA.WipeTracksFade | v0-cinematic-scrollytelling-website-main/components/chapter-beat-a.tsx:14-19 | up to 0.8 the wiped share equals the share the fade has removed |
| ChapterBeatA.TableLabels | v0-cinematic-scrollytelling-website-main/components/chapter-beat-a.tsx:42 | the six chapters are labelled CH.01 to CH.06 |
| ChapterBeatB.ResolveTransition | v0-cinematic-scrollytelling-website-main/components/chapter-beat-b.tsx:13 | an omitted tag defaults to "wipe"; a given tag is kept |
| ChapterBeatB.Opacity | v0-cinematic-scrollytelling-website-main/components/chapter-beat-b.tsx:15 | opacity lies in [0,1], is 0 before 0.4 and 1 from 0.8 on |
| ChapterBeatB.OpacityNonDecreasing | v0-cinematic-scrollytelling-website-main/components/chapter-beat-b.tsx:15 | beat B only fades in as p grows |
| ChapterBeatB.CrossFade | v0-cinematic-scrollytelling-website-main/components/chapter-beat-b.tsx:15 | beat B's opacity plus beat A's (chapter-beat-a.tsx:14) is exactly 1 for every p |
| ChapterBeatB.ImageReveal | v0-cinematic-scrollytelling-website-main/components/chapter-beat-b.tsx:16 | the reveal lies in [0,1], is 0 before 0.5, and within the range reaches 1 only at p = 1 |
| ChapterBeatB.ImageRevealNonDecreasing | v0-cinematic-scrollytelling-website-main/components/chapter-beat-b.tsx:16 | the reveal never goes back |
| ChapterBeatB.ImageClipPath | v0-cinematic-scrollytelling-website-main/components/chapter-beat-b.tsx:18-29 | diagonal gives a triangle of extent reveal*200 in [0,200]; exposure clips nothing; wipe and every other tag give a right inset 100 - reveal*100 in [0,100] |
| ChapterBeatB.ImageBrightness | v0-cinematic-scrollytelling-website-main/components/chapter-beat-b.tsx:31-36 | brightness lies in [1,3]; only exposure departs from 1, as 1 + (1 - reveal)*2 |
| ChapterBeatB.EndsFullyRevealed | v0-cinematic-scrollytelling-website-main/components/chapter-beat-b.tsx:18-36 | for every tag, at p = 1 the image is fully uncovered and at brightness 1 |
| ChapterBeatB.StartsHidden | v0-cinematic-scrollytelling-website-main/components/chapter-beat-b.tsx:16-33 | before 0.5 the wiping tags hide the whole image, diagonal shows none of it, exposure is at brightness 3 |
| ChapterBeatB.RevealMonotone | v0-cinematic-scrollytelling-website-main/components/chapter-beat-b.tsx:18-36 | the inset only shrinks, the triangle only grows and the brightness only falls as p grows |
| ChapterBeatB.FrameLabel | v0-cinematic-scrollytelling-website-main/components/chapter-beat-b.tsx:66 | "FRM " followed by digits that read back as the chapter index: exactly three of them for an index below 1000 |
| ChapterBeatB.Image | v0-cinematic-scrollytelling-website-main/components/chapter-beat-b.tsx:43-69 | the image block renders exactly when imageSrc is non-empty, with the chapter's source, alt text and frame label |
| ChapterBeatB.NativeLine | v0-cinematic-scrollytelling-website-main/components/chapter-beat-b.tsx:86 | the native line is never empty: the chapter's textNative when truthy, else the stock line |
| ChapterBeatB.OnlyFirstWithoutImage | v0-cinematic-scrollytelling-website-main/components/chapter-beat-b.tsx:43-86 | over the chapter table, exactly chapter 1 has no image block |
| ChapterBeatB.NoStockNativeLine | v0-cinematic-scrollytelling-website-main/components/chapter-beat-b.tsx:43-86 | over the chapter table, every chapter shows its own native line, never the stock one |
| SilentSection.ResolveDuration | v0-cinematic-scrollytelling-website-main/components/silent-section.tsx:22 | an omitted duration defaults to medium |
| SilentSection.HeightVh | v0-cinematic-scrollytelling-website-main/components/silent-section.tsx:32-36 | every pin length is at least 150 vh |
| SilentSection.PinLengthsOrdered | v0-cinematic-scrollytelling-website-main/components/silent-section.tsx:22-36 | short < medium < long, and the default pins for 200 vh |
| SilentSection.TextOpacity | v0-cinematic-scrollytelling-website-main/components/silent-section.tsx:82 | the ambient opacity lies in [0,1], is 0 when p <= 0.3 or p >= 0.7, and is 1 exactly at p = 0.5 |
| SilentSection.TextOpacitySymmetric | v0-cinematic-scrollytelling-website-main/components/silent-section.tsx:82 | the curve is symmetric about 0.5 |
| SilentSection.TextOpacityRiseAndFall | v0-cinematic-scrollytelling-website-main/components/silent-section.tsx:82 | non-decreasing up to 0.5, non-increasing from 0.5 |
| SilentSection.SilentView.constructor | v0-cinematic-scrollytelling-website-main/components/silent-section.tsx:19-30 | the props with their defaults (medium, jp); progress 0 and motion not reduced |
| SilentSection.SilentView.OnScrollUpdate | v0-cinematic-scrollytelling-website-main/components/silent-section.tsx:56 | the scroll callback stores the progress it is given |
| SilentSection.SilentView.OnMotionPreference | v0-cinematic-scrollytelling-website-main/components/silent-section.tsx:39-41 | the media-query listener stores whether motion is reduced |
| SilentSection.SilentView.Backdrop | v0-cinematic-scrollytelling-website-main/components/silent-section.tsx:92-106 | the video renders exactly when videoSrc is truthy and motion is not reduced; the poster otherwise |
| SilentSection.SilentView.Ambient | v0-cinematic-scrollytelling-website-main/components/silent-section.tsx:113-125 | the ambient block renders exactly when ambientText is truthy, at the curve's opacity for the current progress, with the native line, carrying the prop's own text, exactly when ambientTextNative is truthy |
| SilentSection.ZoomIffVideo | v0-cinematic-scrollytelling-website-main/components/silent-section.tsx:60 | the slow zoom runs exactly when the video renders |
| TextInterlude.ResolveTransition | v0-cinematic-scrollytelling-website-main/components/text-interlude.tsx:17 | an omitted tag defaults to "words" |
| TextInterlude.ResolveLayout | v0-cinematic-scrollytelling-website-main/components/text-interlude.tsx:17 | an omitted layout defaults to center |
| TextInterlude.AlignmentClass | v0-cinematic-scrollytelling-website-main/components/text-interlude.tsx:111-115 | the lookup is total and one-to-one over center, left and right |
| TextInterlude.DecorativeWidth | v0-cinematic-scrollytelling-website-main/components/text-interlude.tsx:149 | the width never exceeds 200, equals 200*p on [0,1] and is 200 from p = 1 on |
| TextInterlude.DecorativeWidthMonotone | v0-cinematic-scrollytelling-website-main/components/text-interlude.tsx:149 | the line only grows with p |
| TextInterlude.Split | v0-cinematic-scrollytelling-website-main/components/text-interlude.tsx:118 | `split(" ")` gives one more piece than there are spaces, and no piece contains a space |
| TextInterlude.SplitJoin | v0-cinematic-scrollytelling-website-main/components/text-interlude.tsx:118 | joining the pieces with single spaces gives back the text |
| TextInterlude.JoinSplit | v0-cinematic-scrollytelling-website-main/components/text-interlude.tsx:118 | splitting a space-joined list of space-free words gives back the words |
| TextInterlude.Body | v0-cinematic-scrollytelling-website-main/components/text-interlude.tsx:142 | the text is cut into word spans exactly for "words", and the spans rejoin to the text; it renders whole otherwise |
| TextInterlude.TextAnimation | v0-cinematic-scrollytelling-website-main/components/text-interlude.tsx:53-105 | words, exposure and lines each get a from/to pair on the same properties ending at rest; typewriter gets none |
| TextInterlude.NativeTween | v0-cinematic-scrollytelling-website-main/components/text-interlude.tsx:36-50 | the native line rises from opacity 0 to 0.3, not to full opacity |
| TextInterlude.TextView.constructor | v0-cinematic-scrollytelling-website-main/components/text-interlude.tsx:17-21 | the props with their defaults (jp, center, words); progress 0 |
| TextInterlude.TextView.OnScrollUpdate | v0-cinematic-scrollytelling-website-main/components/text-interlude.tsx:31 | the scroll callback stores the progress |
| TextInterlude.TextView.LineWidth | v0-cinematic-scrollytelling-website-main/components/text-interlude.tsx:149 | the line is 200*progress px wide, within [0,200] |
| TextInterlude.TextView.NativeLine | v0-cinematic-scrollytelling-website-main/components/text-interlude.tsx:130-137 | the native line renders, with its tween, exactly when textNative is truthy |
| VideoInterlude.ResolveTransition | v0-cinematic-scrollytelling-website-main/components/video-interlude.tsx:26 | an omitted tag defaults to "dissolve" |
| VideoInterlude.AnimFrom | v0-cinematic-scrollytelling-website-main/components/video-interlude.tsx:74-79 | the start state per tag: wipe sets only the right inset, every other tag starts at opacity 0 |
| VideoInterlude.AnimTo | v0-cinematic-scrollytelling-website-main/components/video-interlude.tsx:81-86 | the end state per tag is at rest: wipe sets only the right inset, every other tag ends at opacity 1 |
| VideoInterlude.PairsReveal | v0-cinematic-scrollytelling-website-main/components/video-interlude.tsx:74-86 | each chosen pair animates the same properties, starts hidden and ends at rest |
| VideoInterlude.StartStates | v0-cinematic-scrollytelling-website-main/components/video-interlude.tsx:74-79 | exposure starts at brightness 3 and opacity 0, wipe at right inset 100, dissolve (any other tag) at opacity 0 and blur 10 |
| VideoInterlude.RevealWithinPin | v0-cinematic-scrollytelling-website-main/components/video-interlude.tsx:49-94 | in the tweens the view sets up, the quote reveal's scroll range ends a third of the way into the zoom's, which spans the whole 150% pin |
| VideoInterlude.VideoView.constructor | v0-cinematic-scrollytelling-website-main/components/video-interlude.tsx:19-32 | the props with their defaults (jp, dissolve); progress 0 and motion not reduced |
| VideoInterlude.VideoView.OnScrollUpdate | v0-cinematic-scrollytelling-website-main/components/video-interlude.tsx:52 | the scroll callback stores the progress |
| VideoInterlude.VideoView.OnMotionPreference | v0-cinematic-scrollytelling-website-main/components/video-interlude.tsx:35-37 | the media-query listener stores whether motion is reduced |
| VideoInterlude.VideoView.Backdrop | v0-cinematic-scrollytelling-website-main/components/video-interlude.tsx:108-122 | the poster replaces the video exactly when motion is reduced |
| VideoInterlude.VideoView.Tweens | v0-cinematic-scrollytelling-website-main/components/video-interlude.tsx:55-98 | no tween with reduced motion; otherwise the video zooms from scale 1.1 to rest over the 150% pin and the quote runs the chosen pair over the first 50% |
| VideoInterlude.VideoView.QuoteBlock | v0-cinematic-scrollytelling-website-main/components/video-interlude.tsx:139-150 | the native line renders only with a truthy quoteNative, the citation only with a truthy author |
| GallerySection.AspectClass | v0-cinematic-scrollytelling-website-main/components/gallery-section.tsx:85-94 | total over the three ratios: portrait spans two rows and is taller than wide, landscape spans two columns and is wider than tall, square spans one cell |
| GallerySection.ResolveTransition | v0-cinematic-scrollytelling-website-main/components/gallery-section.tsx:23 | an omitted tag defaults to "stagger" |
| GallerySection.FromProps | v0-cinematic-scrollytelling-website-main/components/gallery-section.tsx:54-59 | every tag starts at opacity 0, not at rest; brightness only for exposure, rotateX only for cascade, scale only for stagger |
| GallerySection.ToProps | v0-cinematic-scrollytelling-website-main/components/gallery-section.tsx:61-66 | every tag ends at opacity 1 and at rest, on the same properties as its start state |
| GallerySection.ImagePairsReveal | v0-cinematic-scrollytelling-website-main/components/gallery-section.tsx:54-66 | every pair animates the same properties from opacity 0 to opacity 1 and ends at rest |
| GallerySection.Duration | v0-cinematic-scrollytelling-website-main/components/gallery-section.tsx:70 | 0.6 s exactly for exposure, 1 s otherwise |
| GallerySection.Delay | v0-cinematic-scrollytelling-website-main/components/gallery-section.tsx:77 | i*0.1 s for cascade, 0 for every other tag |
| GallerySection.CascadeDelaysIncrease | v0-cinematic-scrollytelling-website-main/components/gallery-section.tsx:77 | under cascade a later image starts strictly later |
| GallerySection.HeaderWipeReveals | v0-cinematic-scrollytelling-website-main/components/gallery-section.tsx:33-48 | the header wipes from right inset 100 to rest |
| GallerySection.RevealsSpec | v0-cinematic-scrollytelling-website-main/components/gallery-section.tsx:51-79 | the walk gives one tween per filled ref slot and none for an empty one, in slot order, each with its slot's element and delay and the tag's pair and duration |
| GallerySection.CascadeRevealsStaggered | v0-cinematic-scrollytelling-website-main/components/gallery-section.tsx:51-79 | under cascade the scheduled tweens start strictly one after another |
| GallerySection.Gallery.constructor | v0-cinematic-scrollytelling-website-main/components/gallery-section.tsx:23-25 | the props with their default tag, and an empty ref array |
| GallerySection.Gallery.Tiles | v0-cinematic-scrollytelling-website-main/components/gallery-section.tsx:113-119 | one tile per image, in order, shaped by its aspect ratio |
| GallerySection.Gallery.SetImageRef | v0-cinematic-scrollytelling-website-main/components/gallery-section.tsx:116-118 | the ref callback stores the element at its index, growing the array with empty slots, and leaves every other slot as it was |
| GallerySection.Gallery.ScheduleImageReveals | v0-cinematic-scrollytelling-website-main/components/gallery-section.tsx:51-79 | the forEach loop produces exactly the tweens RevealsSpec describes |
| MusicPlayer.NextProgress | v0-cinematic-scrollytelling-website-main/components/music-player.tsx:35 | a tick never makes progress negative, keeps it within 100 from any value up to 99.5, either resets to 0 or adds 0.5, and goes down exactly when it wraps from 100 or more |
| MusicPlayer.tracks | v0-cinematic-scrollytelling-website-main/components/music-player.tsx:16-21 | the four tracks, every field transcribed from the list |
| MusicPlayer.TicksCompose | v0-cinematic-scrollytelling-website-main/components/music-player.tsx:34-36 | a+b ticks are a ticks followed by b ticks |
| MusicPlayer.TicksFromZero | v0-cinematic-scrollytelling-website-main/components/music-player.tsx:28-35 | from 0, k ticks (k <= 200) show k*0.5 |
| MusicPlayer.ProgressPeriodic | v0-cinematic-scrollytelling-website-main/components/music-player.tsx:35 | the 201st tick wraps 100 back to 0, so progress repeats with period 201 |
| MusicPlayer.BarHeight | v0-cinematic-scrollytelling-website-main/components/music-player.tsx:73 | bar heights lie in [4,16] and are all 4 while paused |
| MusicPlayer.ExactlyOneFlagged | v0-cinematic-scrollytelling-website-main/components/music-player.tsx:144-148 | among rows flagged by index equality exactly one is flagged |
| MusicPlayer.Player.constructor | v0-cinematic-scrollytelling-website-main/components/music-player.tsx:24-28 | all flags off, track 0, progress 0 |
| MusicPlayer.Player.Tick | v0-cinematic-scrollytelling-website-main/components/music-player.tsx:32-38 | while playing a tick applies NextProgress; while paused progress is unchanged; progress stays a multiple of 0.5 in [0,100] |
| MusicPlayer.Player.TogglePlay | v0-cinematic-scrollytelling-website-main/components/music-player.tsx:94 | flips isPlaying and nothing else |
| MusicPlayer.Player.ToggleMute | v0-cinematic-scrollytelling-website-main/components/music-player.tsx:102 | flips isMuted and nothing else |
| MusicPlayer.Player.ToggleExpand | v0-cinematic-scrollytelling-website-main/components/music-player.tsx:114 | flips isExpanded and nothing else |
| MusicPlayer.Player.SelectTrack | v0-cinematic-scrollytelling-website-main/components/music-player.tsx:139-143 | selects track i, starts playing from progress 0, and leaves mute and expand as they were |
| MusicPlayer.Player.Track | v0-cinematic-scrollytelling-website-main/components/music-player.tsx:40 | the current track is always an entry of the four-track list |
| MusicPlayer.Player.RowHighlights | v0-cinematic-scrollytelling-website-main/components/music-player.tsx:144-148 | row i is highlighted exactly when i is the current track, so exactly one row is |
| MusicPlayer.PressEachTwice | v0-cinematic-scrollytelling-website-main/components/music-player.tsx:94-114 | pressing each button twice restores the whole state |
| MusicPlayer.SelectKeepsFlags | v0-cinematic-scrollytelling-website-main/components/music-player.tsx:139-143 | selecting a track keeps the mute and expand flags |
| HudNavbar.MenuNativeLinesBlank | v0-cinematic-scrollytelling-website-main/components/hud-navbar.tsx:199-201 | as written, no menu entry shows a native title although every chapter has one |
| HudNavbar.MenuEntryAsWritten | v0-cinematic-scrollytelling-website-main/components/hud-navbar.tsx:178-201 | menu entry i as written: chapter i's id and title, a number reading back as i+1, delay 0.3 + 0.1*i, and no native line |
| HudNavbar.MenuEntryFor | v0-cinematic-scrollytelling-website-main/components/hud-navbar.tsx:178-201 | corrected menu entry i: chapter i's id and title, a two-digit number reading back as i+1, the chapter's titleNative as native line, delay 0.3 + 0.1*i |
| HudNavbar.Menu | v0-cinematic-scrollytelling-website-main/components/hud-navbar.tsx:178-201 | one entry per chapter in table order, numbered 01..06, with the chapter's id and both titles, entry i revealed at 0.3 + 0.1*i s, strictly later than the one above |
| HudNavbar.MenuFixesOnlyNativeLine | v0-cinematic-scrollytelling-website-main/components/hud-navbar.tsx:199-201 | the corrected menu differs from the one written only in the native line |
| HudNavbar.Navbar.constructor | v0-cinematic-scrollytelling-website-main/components/hud-navbar.tsx:14-16 | currentChapter defaults to 1; not scrolled, menu closed, body unlocked |
| HudNavbar.Navbar.OnScroll | v0-cinematic-scrollytelling-website-main/components/hud-navbar.tsx:20-22 | isScrolled holds exactly when scrollY > 50 (strict) |
| HudNavbar.Navbar.SetMenuOpen | v0-cinematic-scrollytelling-website-main/components/hud-navbar.tsx:37-46 | setting the menu state re-runs the lock effect: overflow is "hidden" exactly when the menu is open |
| HudNavbar.Navbar.OpenMenu | v0-cinematic-scrollytelling-website-main/components/hud-navbar.tsx:72 | opens the menu and locks the body |
| HudNavbar.Navbar.CloseMenu | v0-cinematic-scrollytelling-website-main/components/hud-navbar.tsx:164 | closes the menu and unlocks the body |
| HudNavbar.Navbar.NavClick | v0-cinematic-scrollytelling-website-main/components/hud-navbar.tsx:48-51 | closes the menu, unlocks the body and forwards the same chapter id |
| HudNavbar.Navbar.Unmount | v0-cinematic-scrollytelling-website-main/components/hud-navbar.tsx:43-45 | the cleanup leaves the body unlocked |
| HudNavbar.Navbar.CornerElements | v0-cinematic-scrollytelling-website-main/components/hud-navbar.tsx:84-134 | the logo is at 0.6 when scrolled and 1 otherwise, and both indicators show exactly when scrolled, the chapter one as CH. and the padded current chapter |
| HudNavbar.Navbar.MenuOverlay | v0-cinematic-scrollytelling-website-main/components/hud-navbar.tsx:138-229 | the menu renders exactly while open |
| HudNavbar.NavigateFromMenu | v0-cinematic-scrollytelling-website-main/components/hud-navbar.tsx:178-181 | following entry i navigates to chapter i's id and leaves the menu closed and the body unlocked |
| AuthModal.Toggled | v0-cinematic-scrollytelling-website-main/components/auth-modal.tsx:148 | the mode switch always changes the mode |
| AuthModal.ToggleTwice | v0-cinematic-scrollytelling-website-main/components/auth-modal.tsx:148 | two switches restore the mode |
| AuthModal.Dialog.constructor | v0-cinematic-scrollytelling-website-main/components/auth-modal.tsx:15-19 | login mode, password hidden, all fields empty |
| AuthModal.Dialog.ToggleMode | v0-cinematic-scrollytelling-website-main/components/auth-modal.tsx:148 | flips the mode and keeps email, password and name |
| AuthModal.Dialog.ToggleShowPassword | v0-cinematic-scrollytelling-website-main/components/auth-modal.tsx:127 | flips password visibility |
| AuthModal.Dialog.SetName | v0-cinematic-scrollytelling-website-main/components/auth-modal.tsx:93 | stores the typed name |
| AuthModal.Dialog.SetEmail | v0-cinematic-scrollytelling-website-main/components/auth-modal.tsx:107 | stores the typed email |
| AuthModal.Dialog.SetPassword | v0-cinematic-scrollytelling-website-main/components/auth-modal.tsx:121 | stores the typed password |
| AuthModal.Dialog.Submit | v0-cinematic-scrollytelling-website-main/components/auth-modal.tsx:21-26 | submitting always asks to close, whatever the fields hold |
| AuthModal.Dialog.Dismiss | v0-cinematic-scrollytelling-website-main/components/auth-modal.tsx:50-63 | the backdrop and the close button ask to close |
| AuthModal.Dialog.PasswordInputType | v0-cinematic-scrollytelling-website-main/components/auth-modal.tsx:119 | the input type is "text" exactly when the password is shown, "password" otherwise |
| AuthModal.Dialog.View | v0-cinematic-scrollytelling-website-main/components/auth-modal.tsx:28-153 | nothing renders while closed; open, the name input appears exactly in register mode, every input shows its field's value, and the headings and button labels follow the mode |
| AuthModal.ToggleModeTwice | v0-cinematic-scrollytelling-website-main/components/auth-modal.tsx:148 | switching mode twice keeps every field and the password visibility |

## Left out

- Animation engines. GSAP ScrollTrigger (pinning, scrubbing, the progress it reports), framer-motion and Lenis are outside the model. Progress is an input. Tweens record only their from/to states, plus: the video interlude's scrubbed tweens their scroll end (`VideoInterlude.ScrubTween`); the gallery's image tweens their duration and delay (`GallerySection.ImageTween`). Easing, trigger start positions, toggle actions, the text interlude's durations and word stagger, and the gallery header's 1.2 s duration are not recorded.
- Floating point. All curves are over exact reals. In IEEE doubles the cross-fade sum and the 0.3/0.7 thresholds hold only approximately.
- The exponential easing `1.001 - 2^(-10t)` (lenis-provider.tsx:26, app/page.tsx:36), because it is floating-point `pow`.
- Time. The navbar clock (`Date`, `toLocaleTimeString`) is left out. The 100 ms interval cadence is also left out: a music-player tick is an abstract step (`MusicPlayer.Player.Tick`).
- Browser side effects are left out: `matchMedia` (its readings arrive as `OnMotionPreference` calls), `getElementById`/`scrollTo` (navigation returns the id it forwards), video playback, `console.log` in the dialog's submit, and DOM measurement.
- CSS strings. A clip-path, filter or transform string is represented by the number inside it. Class-name strings are kept only where a lookup table is the point (`TextInterlude.AlignmentClass`).
- Markup and configuration files: intro, outro, film overlays, split parallax, the horizontal gallery, the page composition and the layouts. Hero chapter is modelled only for its transition tag set and counter.
- Format.NatToString: models `String(n)` for non-negative integers only, which is every number the labels format.
- Format.PadStart: the fill is a single character, which is the only form the source uses.
- The typewriter style of the text interlude: the source accepts the tag but gives it no animation, and `TextInterlude.TextAnimation` returns `None` for it.
- MusicPlayer.BarHeight: the source renders four bars, so only the first four heights of the five-entry pattern are ever used. The function is stated for every bar index.
- HudNavbar.Navbar.MenuOverlay: renders the corrected menu (`HudNavbar.Menu`, native line from `titleNative`); the navbar as written shows no native line in its menu, which `HudNavbar.MenuEntryAsWritten` models (see Findings).
- HudNavbar.Navbar: event handlers require the navbar to be mounted, because React detaches them on unmount.
- The ScrollTrigger and media-query registration and teardown in the section effects are left out. The classes keep only the state those callbacks write.

## Findings

| source | as written | input that shows it | evidently intended | confidence | as-written member | corrected member |
|---|---|---|---|---|---|---|
| v0-cinematic-scrollytelling-website-main/components/hud-navbar.tsx:200 | the menu's native-title line reads `chapter.titleJp`, a member the chapter record (lib/chapters-data.ts:1-24) does not have, so the line is always undefined and renders empty | any chapter, e.g. "tokyo-night" with titleNative "東京の夜": its menu entry shows no native title | show the record's `titleNative`, as every other native line on the page does | high; not executed | HudNavbar.MenuNativeLinesBlank | HudNavbar.Menu |
