/**
 * The part of the hero chapter the two beats depend on: the transition tag it
 * forwards unchanged to both beats, and its "NN / 06" chapter counter.
 */
module HeroChapter {
  import Format
  import ChaptersData

  /** The transition tags a hero chapter accepts; both beats receive the same one. */
  datatype Transition = Dissolve | Wipe | Exposure | Soft | Diagonal

  /** The corner counter: the chapter's index padded to two digits, then " / 06". */
  function ChapterCounter(index: nat): (r: string)
    ensures |r| >= 7 && r[|r| - 5..] == " / 06"
    ensures index < 100 ==> |r| == 7
    ensures Format.AllDigits(r[..|r| - 5]) && Format.DecimalValue(r[..|r| - 5]) == index
  {
    Format.PaddedIndexValue(index, 2);
    Format.NatToStringLength(index);
    var r := Format.PaddedIndex(index, 2) + " / 06";
    assert r[..|r| - 5] == Format.PaddedIndex(index, 2);
    r
  }

  /** The hard-coded total in the counter is the number of chapters in the table. */
  lemma CounterTotalIsChapterCount()
    ensures Format.DecimalValue("06") == |ChaptersData.chapters|
  {
    calc {
      Format.DecimalValue("06");
      Format.DecimalValue("0") * 10 + Format.DigitValue('6');
      { assert "0"[..0] == []; }
      6;
    }
  }
}
