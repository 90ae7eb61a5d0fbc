/**
 * The static chapter table: six records read once and never changed.  Each
 * chapter's `id` is both a React key and the DOM id the navigation scrolls to,
 * and its `index` is the one-based number the labels print.
 */
module ChaptersData {
  import opened Wrappers
  import Format

  datatype Language = Jp | Kr

  datatype Metadata = Metadata(location: string, coordinates: string, season: string)

  datatype BeatAContent = BeatAContent(headline: string, caption: string, metadata: Metadata)

  datatype BeatBContent = BeatBContent(text: string, textNative: Option<string>, imageSrc: string, imageAlt: string)

  datatype ChapterData = ChapterData(
    id: string,
    index: nat,
    title: string,
    titleNative: string,
    language: Language,
    videoSrc: string,
    posterSrc: string,
    beatA: BeatAContent,
    beatB: BeatBContent)

  const placeholderVideo: string := "/placeholder.svg?height=1080&width=1920"
  const placeholderImage: string := "/placeholder.svg?height=600&width=800"

  const chapters: seq<ChapterData> := [
    ChapterData(
      "tokyo-night", 1, "TOKYO NIGHT (JAPAN)", "東京の夜", Jp,
      "/videos/tokyo_intro.mp4", "/images/japan1.jpeg",
      BeatAContent(
        "WHERE LIGHT BECOMES LIQUID",
        "Neon reflections dance on rain-slicked streets, a symphony of color in the urban night.",
        Metadata("Shibuya, Tokyo", "35.6595° N, 139.7004° E", "Autumn")),
      BeatBContent(
        "The city breathes in electric pulses. Each crossing, each alleyway holds a thousand stories written in flickering kanji. Here, solitude finds company in the glow of vending machines and the distant hum of trains that never sleep.",
        Some("街は電気の脈動で呼吸する。それぞれの交差点、路地裏には、ちらつく漢字で書かれた千の物語がある。"),
        "",
        "Tokyo alley at night with neon reflections")),
    ChapterData(
      "seoul-pulse", 2, "SEOUL PULSE (KOREA)", "서울의 맥박", Kr,
      placeholderVideo, placeholderVideo,
      BeatAContent(
        "BETWEEN ANCIENT AND MODERN",
        "Hanok rooftops whisper to glass skyscrapers under the shadow of Namsan.",
        Metadata("Bukchon, Seoul", "37.5826° N, 126.9836° E", "Spring")),
      BeatBContent(
        "Seoul is a paradox of time. In the narrow alleys of Bukchon, the Joseon dynasty feels alive, while a subway ride away, the future is already here. The city doesn't just move forward; it harmonizes with its past.",
        Some("서울은 시간의 역설이다. 북촌의 좁은 골목에서는 조선 왕조가 살아 숨 쉬는 듯하고, 지하철로 조금만 가면 미래가 이미 와 있다."),
        placeholderImage,
        "Seoul skyline contrast")),
    ChapterData(
      "kyoto-zen", 3, "KYOTO ZEN (JAPAN)", "京都の禅", Jp,
      placeholderVideo, placeholderVideo,
      BeatAContent(
        "THE SILENCE OF STONES",
        "In the gardens of Ryoan-ji, the world is reduced to rock, moss, and mind.",
        Metadata("Kyoto, Japan", "35.0345° N, 135.7182° E", "Spring")),
      BeatBContent(
        "Kyoto teaches the art of observation. It is a city of hidden courtyards and whispered prayers. To walk here is to tread on centuries of devotion, where even the falling of a leaf seems intentional.",
        Some("京都は観察の芸術を教えてくれる。隠れた中庭と囁かれる祈りの街だ。"),
        placeholderImage,
        "Zen garden in Kyoto")),
    ChapterData(
      "jeju-wind", 4, "JEJU WIND (KOREA)", "제주의 바람", Kr,
      placeholderVideo, placeholderVideo,
      BeatAContent(
        "ISLAND OF VOLCANIC STONE",
        "Black basalt meets the emerald sea, guarded by ancient stone grandfathers.",
        Metadata("Seongsan, Jeju", "33.4581° N, 126.9426° E", "Summer")),
      BeatBContent(
        "Jeju breathes with the ocean. The wind here carries the salt of the East Sea and the stories of the Haenyeo divers. It is a raw, elemental beauty that demands nothing but presence.",
        Some("제주는 바다와 함께 숨 쉰다. 이곳의 바람은 동해의 소금기와 해녀들의 이야기를 싣고 온다."),
        placeholderImage,
        "Jeju coastline with volcanic rocks")),
    ChapterData(
      "sapporo-winter", 5, "SAPPORO WINTER (JAPAN)", "札幌の冬", Jp,
      placeholderVideo, placeholderVideo,
      BeatAContent(
        "SNOW FALLING ON AMBER LIGHT",
        "In Hokkaido's capital, winter transforms the ordinary into the magical.",
        Metadata("Sapporo, Hokkaido", "43.0618° N, 141.3545° E", "Winter")),
      BeatBContent(
        "Snowflakes descend like whispered secrets through pools of amber lamplight. The streets of Sapporo wear winter like a kimono—elegant, quiet, purposeful.",
        Some("雪片は琥珀色の街灯の中を囁かれた秘密のように降りてくる。札幌の街は着物を纏うように冬を着る。"),
        placeholderImage,
        "Snow-covered Sapporo street")),
    ChapterData(
      "gyeongju-history", 6, "GYEONGJU (KOREA)", "경주의 역사", Kr,
      placeholderVideo, placeholderVideo,
      BeatAContent(
        "MUSEUM WITHOUT WALLS",
        "Burial mounds rise from the earth like green islands in a sea of history.",
        Metadata("Gyeongju, North Gyeongsang", "35.8328° N, 129.2066° E", "Autumn")),
      BeatBContent(
        "To walk in Gyeongju is to walk among kings. The silence of the tumuli speaks louder than words, a reminder of the golden kingdom of Silla that once ruled this peninsula.",
        Some("경주를 걷는 것은 왕들 사이를 걷는 것이다. 고분의 침묵은 말보다 더 크게 울린다."),
        placeholderImage,
        "Royal tumuli park in Gyeongju"))
  ]

  predicate EndsWith(s: string, suffix: string) {
    |suffix| <= |s| && s[|s| - |suffix|..] == suffix
  }

  /** The country tag a title ends with for each language. */
  function CountrySuffix(language: Language): string {
    match language
    case Jp => "(JAPAN)"
    case Kr => "(KOREA)"
  }

  /** A chapter is well formed when its title names the country of its language and its media paths are set. */
  predicate WellFormed(c: ChapterData) {
    && EndsWith(c.title, CountrySuffix(c.language))
    && c.titleNative != ""
    && c.videoSrc != ""
    && c.posterSrc != ""
  }

  /** Six chapters, numbered 1..6 in table order. */
  lemma ChapterCountAndNumbering()
    ensures |chapters| == 6
    ensures forall i :: 0 <= i < |chapters| ==> chapters[i].index == i + 1
  {
  }

  /** No two chapters share an `id`, so every React key and DOM target is unique. */
  lemma IdsDistinct()
    ensures forall i, j :: 0 <= i < j < |chapters| ==> chapters[i].id != chapters[j].id
  {
    forall i, j | 0 <= i < j < |chapters|
      ensures chapters[i].id != chapters[j].id
    {
      // the ids differ already in one of their first two characters
      assert chapters[i].id[0] != chapters[j].id[0] || chapters[i].id[1] != chapters[j].id[1];
    }
  }

  /** Every chapter is well formed: the title suffix matches the language, and video and poster are set. */
  lemma AllWellFormed()
    ensures forall i :: 0 <= i < |chapters| ==> WellFormed(chapters[i])
  {
    forall i | 0 <= i < |chapters|
      ensures WellFormed(chapters[i])
    {
      var c := chapters[i];
      var n := |c.title|;
      assert c.title[n - 7..] == CountrySuffix(c.language);
    }
  }

  /** Only chapter 1 ("tokyo-night") has no beat-B image. */
  lemma OnlyFirstHasNoImage()
    ensures forall i :: 0 <= i < |chapters| ==> (chapters[i].beatB.imageSrc == "" <==> i == 0)
    ensures chapters[0].id == "tokyo-night"
  {
  }

  /** Every chapter carries a native-language beat-B line. */
  lemma AllHaveNativeText()
    ensures forall i :: 0 <= i < |chapters| ==> Format.Truthy(chapters[i].beatB.textNative)
  {
  }
}
