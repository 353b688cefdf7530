/** The heading of one job: optional company line, position line, optional extra line. */
module JobHeading {
  import opened Wrappers
  import opened Docx
  import opened ResumeData
  import opened Styles

  function CompanyLine(company: string, location: string): Paragraph {
    Paragraph(None, LineFormat(Pt(0)), None, [Run10(company + ", " + location, Some(true), None)])
  }

  function PositionLine(position: string, dateRange: string): Paragraph {
    Paragraph(None, LineFormat(Pt(0)), None,
              [Run10(position, Some(true), None), Plain10(" | "), Run10(dateRange, None, Some(true))])
  }

  function ExtraLine(text: string): Paragraph {
    Paragraph(None, LineFormat(Pt(5)), None, [Run10(text, Some(true), None)])
  }

  /**
   * What `add_job_heading` appends. A missing position or date range is
   * `None`, which `add_run` turns into an empty run.
   */
  function JobHeadingParagraphs(position: Option<string>, dateRange: Option<string>, company: Option<string>,
                                location: Option<string>, extraLine: Option<string>): (r: seq<Paragraph>)
    ensures var c := Bit(Truthy(company) && Truthy(location));
      && |r| == 1 + c + Bit(Truthy(extraLine))
      && (c == 1 ==> r[0].runs == [Run10(company.value + ", " + location.value, Some(true), None)])
      && |r[c].runs| == 3
      && r[c].runs[0] == Run10(position.GetOr(""), Some(true), None)
      && r[c].runs[1].text == " | "
      && r[c].runs[2] == Run10(dateRange.GetOr(""), None, Some(true))
      && (Truthy(extraLine) ==>
            r[c + 1].runs == [Run10(extraLine.value, Some(true), None)] && r[c + 1].format.spaceAfter == Some(Pt(5)))
    ensures forall i :: 0 <= i < |r| ==> r[i].format.spaceBefore == Some(0) && r[i].format.lineSpacing == Some(SingleRule)
    ensures forall i :: 0 <= i < |r| && !(Truthy(extraLine) && i == |r| - 1) ==> r[i].format.spaceAfter == Some(0)
  {
    (if Truthy(company) && Truthy(location) then [CompanyLine(company.value, location.value)] else [])
    + [PositionLine(position.GetOr(""), dateRange.GetOr(""))]
    + (if Truthy(extraLine) then [ExtraLine(extraLine.value)] else [])
  }

  /** `add_job_heading(doc, position, date_range, company, location, extra_line)` */
  method AddJobHeading(doc: Document, position: Option<string>, dateRange: Option<string>,
                       company: Option<string>, location: Option<string>, extraLine: Option<string>)
    modifies doc`paragraphs
    ensures doc.paragraphs == old(doc.paragraphs) + JobHeadingParagraphs(position, dateRange, company, location, extraLine)
  {
    ghost var expected := [];
    if Truthy(company) && Truthy(location) {
      AddCompanyLine(doc, company.value, location.value);
      expected := [CompanyLine(company.value, location.value)];
    }
    AddPositionLine(doc, position.GetOr(""), dateRange.GetOr(""));
    expected := expected + [PositionLine(position.GetOr(""), dateRange.GetOr(""))];
    if Truthy(extraLine) {
      AddExtraLine(doc, extraLine.value);
      expected := expected + [ExtraLine(extraLine.value)];
    }
    assert doc.paragraphs == old(doc.paragraphs) + expected;
  }

  method AddCompanyLine(doc: Document, company: string, location: string)
    modifies doc`paragraphs
    ensures doc.paragraphs == old(doc.paragraphs) + [CompanyLine(company, location)]
  {
    var p := doc.AddParagraph(None, LineFormat(Pt(0)));
    var run := Run10(company + ", " + location, Some(true), None);
    doc.AddRun(p, run);
    assert [] + [run] == [run];
  }

  method AddPositionLine(doc: Document, position: string, dateRange: string)
    modifies doc`paragraphs
    ensures doc.paragraphs == old(doc.paragraphs) + [PositionLine(position, dateRange)]
  {
    var p := doc.AddParagraph(None, LineFormat(Pt(0)));
    var first := Run10(position, Some(true), None);
    var bar := Plain10(" | ");
    var dates := Run10(dateRange, None, Some(true));
    doc.AddRun(p, first);
    doc.AddRun(p, bar);
    doc.AddRun(p, dates);
    assert [] + [first] + [bar] + [dates] == [first, bar, dates];
  }

  method AddExtraLine(doc: Document, text: string)
    modifies doc`paragraphs
    ensures doc.paragraphs == old(doc.paragraphs) + [ExtraLine(text)]
  {
    var p := doc.AddParagraph(None, LineFormat(Pt(5)));
    var run := Run10(text, Some(true), None);
    doc.AddRun(p, run);
    assert [] + [run] == [run];
  }
}
