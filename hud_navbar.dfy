/**
 * The heads-up navbar: corner buttons over the page, a chapter indicator and
 * an ambient badge that appear once the page has scrolled past 50 px, and a
 * full-screen chapter menu.  While the menu is open the page body is locked
 * against scrolling; closing the menu or unmounting the navbar unlocks it.
 */
module HudNavbar {
  import opened Wrappers
  import Format
  import ChaptersData

  /** The scroll threshold, in px; the comparison is strict. */
  const scrollThreshold: real := 50.0

  /** The corner elements as rendered. */
  datatype Hud = Hud(logoOpacity: real, chapterIndicator: Option<string>, ambientIndicator: bool)

  /** One entry of the chapter menu: the chapter it navigates to, its number, its two title lines, its reveal delay. */
  datatype MenuEntry = MenuEntry(id: string, number: string, title: string, native: Option<string>, delay: real)

  /**
   * The native-title line as the menu reads it: from a `titleJp` member that the
   * chapter record does not have, so it is always undefined and renders nothing.
   */
  function TitleJp(c: ChaptersData.ChapterData): Option<string> {
    None
  }

  /** Menu entry `i` as written, with the native line read from `titleJp`. */
  function MenuEntryAsWritten(i: nat): (e: MenuEntry)
    requires i < |ChaptersData.chapters|
    ensures e.id == ChaptersData.chapters[i].id && e.title == ChaptersData.chapters[i].title
    ensures Format.AllDigits(e.number) && Format.DecimalValue(e.number) == i + 1
    ensures e.delay * 10.0 == 3.0 + i as real
    ensures e.native.None?
  {
    ChaptersData.ChapterCountAndNumbering();
    Format.PaddedIndexValue(i + 1, 2);
    var c := ChaptersData.chapters[i];
    MenuEntry(c.id, Format.PaddedIndex(c.index, 2), c.title, TitleJp(c), 0.3 + i as real * 0.1)
  }

  /** As written, no menu entry shows a native title, although every chapter has one. */
  lemma MenuNativeLinesBlank()
    ensures forall i :: 0 <= i < |ChaptersData.chapters| ==>
      MenuEntryAsWritten(i).native.None? && ChaptersData.chapters[i].titleNative != ""
  {
    ChaptersData.AllWellFormed();
  }

  /** Menu entry `i` with the native line read from the record's `titleNative`. */
  function MenuEntryFor(i: nat): (e: MenuEntry)
    requires i < |ChaptersData.chapters|
    ensures e.id == ChaptersData.chapters[i].id && e.title == ChaptersData.chapters[i].title
    ensures Format.AllDigits(e.number) && |e.number| == 2 && Format.DecimalValue(e.number) == i + 1
    ensures e.native == Some(ChaptersData.chapters[i].titleNative)
    ensures e.delay * 10.0 == 3.0 + i as real
  {
    ChaptersData.ChapterCountAndNumbering();
    Format.PaddedIndexValue(i + 1, 2);
    Format.NatToStringLength(i + 1);
    var c := ChaptersData.chapters[i];
    MenuEntry(c.id, Format.PaddedIndex(c.index, 2), c.title, Some(c.titleNative), 0.3 + i as real * 0.1)
  }

  /**
   * The chapter menu: one entry per chapter, in table order, numbered 01 to 06,
   * each showing the chapter's two titles and revealed a tenth of a second after
   * the one above it.
   */
  function Menu(): (entries: seq<MenuEntry>)
    ensures |entries| == |ChaptersData.chapters| == 6
    ensures forall i :: 0 <= i < |entries| ==>
      && entries[i].id == ChaptersData.chapters[i].id
      && entries[i].title == ChaptersData.chapters[i].title
      && Format.AllDigits(entries[i].number) && |entries[i].number| == 2
      && Format.DecimalValue(entries[i].number) == i + 1
      && entries[i].native == Some(ChaptersData.chapters[i].titleNative)
      && entries[i].native.value != ""
      && entries[i].delay * 10.0 == 3.0 + i as real
    ensures forall i, j :: 0 <= i < j < |entries| ==> entries[i].delay < entries[j].delay
  {
    ChaptersData.ChapterCountAndNumbering();
    ChaptersData.AllWellFormed();
    seq(|ChaptersData.chapters|, i requires 0 <= i < |ChaptersData.chapters| => MenuEntryFor(i))
  }

  /** The corrected menu differs from the one written only in the native line. */
  lemma MenuFixesOnlyNativeLine()
    ensures forall i :: 0 <= i < |Menu()| ==>
      Menu()[i] == MenuEntryAsWritten(i).(native := Some(ChaptersData.chapters[i].titleNative))
  {
  }

  /** One mounted navbar: its prop, its state, and the body's overflow style as it leaves it. */
  class Navbar {
    const currentChapter: nat
    var isScrolled: bool
    var isMenuOpen: bool
    var bodyOverflow: string   // document.body.style.overflow
    var mounted: bool

    /** The scroll lock holds exactly while the mounted navbar's menu is open. */
    ghost predicate Valid()
      reads this
    {
      bodyOverflow == (if mounted && isMenuOpen then "hidden" else "")
    }

    /** Mount: nothing scrolled, menu closed, and the lock effect's first run leaves the body unlocked. */
    constructor (currentChapter: Option<nat>)
      ensures Valid() && mounted
      ensures !isScrolled && !isMenuOpen && bodyOverflow == ""
      ensures this.currentChapter == currentChapter.GetOr(1)
    {
      this.currentChapter := currentChapter.GetOr(1);
      isScrolled := false;
      isMenuOpen := false;
      bodyOverflow := "";
      mounted := true;
    }

    /** The window's scroll listener. */
    method OnScroll(scrollY: real)
      requires Valid() && mounted
      modifies this`isScrolled
      ensures Valid()
      ensures isScrolled <==> scrollY > scrollThreshold
    {
      isScrolled := scrollY > scrollThreshold;
    }

    /**
     * Setting the menu state.  When it changes, the effect keyed on it re-runs:
     * the previous run's cleanup clears the lock, and the new run locks the
     * body again if the menu is now open.
     */
    method SetMenuOpen(open: bool)
      requires Valid() && mounted
      modifies this`isMenuOpen, this`bodyOverflow
      ensures Valid()
      ensures isMenuOpen == open
      ensures bodyOverflow == "hidden" <==> open
    {
      if isMenuOpen != open {
        isMenuOpen := open;
        bodyOverflow := "";
        if open {
          bodyOverflow := "hidden";
        }
      }
    }

    /** The INDEX button. */
    method OpenMenu()
      requires Valid() && mounted
      modifies this`isMenuOpen, this`bodyOverflow
      ensures Valid() && isMenuOpen && bodyOverflow == "hidden"
    {
      SetMenuOpen(true);
    }

    /** The CLOSE button. */
    method CloseMenu()
      requires Valid() && mounted
      modifies this`isMenuOpen, this`bodyOverflow
      ensures Valid() && !isMenuOpen && bodyOverflow == ""
    {
      SetMenuOpen(false);
    }

    /** A menu entry's click: close the menu and pass the chapter's id on, unchanged, to the navigation callback. */
    method NavClick(chapterId: string) returns (navigateTo: string)
      requires Valid() && mounted
      modifies this`isMenuOpen, this`bodyOverflow
      ensures Valid() && !isMenuOpen && bodyOverflow == ""
      ensures navigateTo == chapterId
    {
      SetMenuOpen(false);
      navigateTo := chapterId;
    }

    /** Unmount: the lock effect's cleanup always leaves the body unlocked. */
    method Unmount()
      requires Valid() && mounted
      modifies this`mounted, this`bodyOverflow
      ensures Valid() && !mounted && bodyOverflow == ""
    {
      mounted := false;
      bodyOverflow := "";
    }

    /** The corner elements: the logo dims and both indicators appear exactly when the page has scrolled. */
    function CornerElements(): (h: Hud)
      reads this
      ensures h.logoOpacity == 0.6 <==> isScrolled
      ensures h.logoOpacity == 1.0 <==> !isScrolled
      ensures h.chapterIndicator.Some? <==> isScrolled
      ensures h.ambientIndicator <==> isScrolled
      ensures h.chapterIndicator.Some? ==> h.chapterIndicator.value == Format.ChapterLabel(currentChapter)
    {
      if isScrolled then Hud(0.6, Some(Format.ChapterLabel(currentChapter)), true)
      else Hud(1.0, None, false)
    }

    /** The menu overlay renders only while the menu is open. */
    function MenuOverlay(): (m: Option<seq<MenuEntry>>)
      reads this
      ensures m.Some? <==> isMenuOpen
      ensures m.Some? ==> m.value == Menu()
    {
      if isMenuOpen then Some(Menu()) else None
    }
  }

  /** Opening, then following a menu entry, unlocks the body again and navigates to that entry's chapter. */
  method NavigateFromMenu(n: Navbar, i: nat) returns (navigateTo: string)
    requires n.Valid() && n.mounted
    requires i < |Menu()|
    modifies n
    ensures n.Valid() && !n.isMenuOpen && n.bodyOverflow == ""
    ensures navigateTo == ChaptersData.chapters[i].id
  {
    n.OpenMenu();
    var entries := n.MenuOverlay();
    navigateTo := n.NavClick(entries.value[i].id);
  }
}
