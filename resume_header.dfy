/** The hyperlink helper used by the contact line. */
module ResumeHeader {
  import opened Docx

  const HyperlinkRelType: string := "http://schemas.openxmlformats.org/officeDocument/2006/relationships/hyperlink"

  /** The external hyperlink relationship for `url`. */
  function ExternalLink(url: string): Relationship {
    Relationship(HyperlinkRelType, url, true)
  }

  /** The `w:hyperlink` element: one blue, single-underlined run; `w:sz` counts half-points. */
  function LinkRun(rId: nat, text: string, fontName: string, fontSize: int): (r: Run)
    ensures r.Hyperlink? && r.relId == rId && r.text == text && r.linkFont == fontName
    ensures r.halfPoints == 2 * fontSize
    ensures r.color == "0000FF" && r.underline == "single"
  {
    Hyperlink(rId, text, fontName, fontSize * 2, "0000FF", "single")
  }

  /** `add_hyperlink(paragraph, url, text, font_name, font_size)`; returns the paragraph it was given. */
  method AddHyperlink(doc: Document, paragraph: nat, url: string, text: string,
                      fontName: string := TimesNewRoman, fontSize: int := 10)
    returns (result: nat)
    requires paragraph < |doc.paragraphs|
    modifies doc`paragraphs, doc`rels
    ensures result == paragraph
    ensures doc.rels == Relate(old(doc.rels), ExternalLink(url)).rels
    ensures doc.paragraphs == old(doc.paragraphs)[paragraph :=
      AppendRun(old(doc.paragraphs)[paragraph], LinkRun(Relate(old(doc.rels), ExternalLink(url)).rId, text, fontName, fontSize))]
    ensures var link := doc.paragraphs[paragraph].runs[|doc.paragraphs[paragraph].runs| - 1];
      link.Hyperlink? && link.relId < |doc.rels| && doc.rels[link.relId] == ExternalLink(url)
  {
    var rId := doc.RelateTo(HyperlinkRelType, url);
    doc.AddRun(paragraph, LinkRun(rId, text, fontName, fontSize));
    result := paragraph;
  }
}
