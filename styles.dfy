/** The typography every renderer repeats: Times New Roman 10pt body runs on single-spaced lines. */
module Styles {
  import opened Wrappers
  import opened Docx

  /** Left aligned, nothing before, `spaceAfter` after, single line spacing; indents left to the style. */
  function LineFormat(spaceAfter: int): Format {
    Format(Some(Left), Some(Pt(0)), Some(spaceAfter), Some(SingleRule), None, None)
  }

  /** A 10pt Times New Roman run with the given emphasis (`None` leaves it to the style). */
  function Run10(text: string, bold: Option<bool>, italic: Option<bool>): Run {
    TextRun(text, Some(TimesNewRoman), Some(Pt(10)), bold, italic)
  }

  /** A separator run such as `" | "`: font and size set, emphasis left to the style. */
  function Plain10(text: string): Run {
    TextRun(text, Some(TimesNewRoman), Some(Pt(10)), None, None)
  }
}
