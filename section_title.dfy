/** The section title: one bold italic 13pt line with a rule under it. */
module SectionTitle {
  import opened Wrappers
  import opened Docx

  /** The bottom border under a title: `w:val="single" w:sz="8" w:space="1" w:color="auto"`. */
  const TitleRule: Border := Border("single", 8, 1, "auto")

  function TitleParagraph(title: string): (p: Paragraph)
    ensures PlainText(p) == title && |p.runs| == 1 && p.style == None
    ensures p.runs[0].TextRun? && p.runs[0].font == Some(TimesNewRoman) && p.runs[0].size == Some(Pt(13))
    ensures p.runs[0].bold == Some(true) && p.runs[0].italic == Some(true)
    ensures p.format.alignment == Some(Left)
    ensures p.format.spaceBefore == Some(0) && p.format.spaceAfter == Some(0)
    ensures p.format.lineSpacing == Some(OneLineMultiple)
    ensures p.border == Some(TitleRule)
  {
    var run := TextRun(title, Some(TimesNewRoman), Some(Pt(13)), Some(true), Some(true));
    assert [run][..0] == [];
    assert RunsText([run]) == title;
    Paragraph(None, Format(Some(Left), Some(Pt(0)), Some(Pt(0)), Some(OneLineMultiple), None, None),
              Some(TitleRule), [run])
  }

  /** `add_section_title(doc, title_text)` */
  method AddSectionTitle(doc: Document, titleText: string)
    modifies doc`paragraphs
    ensures doc.paragraphs == old(doc.paragraphs) + [TitleParagraph(titleText)]
  {
    var format := Format(Some(Left), Some(Pt(0)), Some(Pt(0)), Some(OneLineMultiple), None, None);
    var run := TextRun(titleText, Some(TimesNewRoman), Some(Pt(13)), Some(true), Some(true));
    var p := doc.AddParagraph(None, format);
    doc.AddRun(p, run);
    assert [] + [run] == [run];
    assert doc.paragraphs == old(doc.paragraphs) + [Paragraph(None, format, None, [run])];
    doc.SetBottomBorder(p, TitleRule);
  }
}
