/**
 * The three blocks of the education section: certificates (a bold heading, then
 * one line each), specializations (two lines each) and degrees (two lines each).
 * Every key of an entry is read by subscript, so a missing one raises after the
 * runs already added to the current line.
 */
module EducationSection {
  import opened Wrappers
  import opened Docx
  import opened ResumeData
  import opened Styles

  const CertificatesHeading: string := "Professional Certificates:"

  function HeadingLine(): Paragraph {
    Paragraph(None, LineFormat(Pt(0)), None, [Run10(CertificatesHeading, Some(true), None)])
  }

  function Line(spaceAfter: int, runs: seq<Run>): Paragraph {
    Paragraph(None, LineFormat(spaceAfter), None, runs)
  }

  /** `name | date`, with 10pt after only on the last certificate. */
  function CertificateLine(c: Certificate, isLast: bool): (e: Emission)
    ensures |e.paras| == 1
    ensures e.paras[0].format == LineFormat(if isLast then Pt(10) else Pt(0))
    ensures e.ok <==> c.name.Some? && c.date.Some?
    ensures e.ok ==> e.paras[0].runs == [Run10(c.name.value, Some(true), None), Plain10(" | "),
                                         Run10(c.date.value, Some(false), Some(true))]
  {
    var after := if isLast then Pt(10) else Pt(0);
    match c.name
    case None => Emission([Line(after, [])], false)
    case Some(name) =>
      match c.date
      case None => Emission([Line(after, [Run10(name, Some(true), None), Plain10(" | ")])], false)
      case Some(date) =>
        Done([Line(after, [Run10(name, Some(true), None), Plain10(" | "), Run10(date, Some(false), Some(true))])])
  }

  function CertificateRender(c: Certificate, isLast: bool): Emission { CertificateLine(c, isLast) }

  /** What `add_certificates` appends: the heading, then the certificates in order. */
  function CertificatesEmission(certs: seq<Certificate>): Emission {
    Then(Done([HeadingLine()]), EmitEach(certs, |certs|, CertificateRender))
  }

  /** `institution, location` in bold, nothing after. */
  function InstitutionLine(s: Specialization): Emission {
    if s.institution.Some? && s.location.Some? then
      Done([Line(Pt(0), [Run10(s.institution.value + ", " + s.location.value, Some(true), None)])])
    else Emission([Line(Pt(0), [])], false)
  }

  /** `specialization | Completed date`, 10pt after. */
  function CompletedLine(s: Specialization): Emission {
    match s.specialization
    case None => Emission([Line(Pt(10), [])], false)
    case Some(name) =>
      match s.date
      case None => Emission([Line(Pt(10), [Run10(name, Some(true), None), Plain10(" | Completed ")])], false)
      case Some(date) =>
        Done([Line(Pt(10), [Run10(name, Some(true), None), Plain10(" | Completed "), Run10(date, Some(false), Some(true))])])
  }

  function SpecializationLines(s: Specialization): (e: Emission)
    ensures e.ok <==> s.institution.Some? && s.location.Some? && s.specialization.Some? && s.date.Some?
    ensures e.ok ==> |e.paras| == 2
  {
    Then(InstitutionLine(s), CompletedLine(s))
  }

  function SpecializationRender(s: Specialization, isLast: bool): Emission { SpecializationLines(s) }

  function SpecializationsEmission(specs: seq<Specialization>): Emission {
    EmitEach(specs, |specs|, SpecializationRender)
  }

  /** `university, location | Graduated date`, nothing after. */
  function UniversityLine(d: Degree): Emission {
    if d.university.Some? && d.location.Some? then
      var place := Run10(d.university.value + ", " + d.location.value, Some(true), None);
      match d.date
      case None => Emission([Line(Pt(0), [place, Plain10(" | Graduated ")])], false)
      case Some(date) => Done([Line(Pt(0), [place, Plain10(" | Graduated "), Run10(date, Some(false), Some(true))])])
    else Emission([Line(Pt(0), [])], false)
  }

  /** The degree's name in bold, 10pt after. */
  function DegreeNameLine(d: Degree): Emission {
    match d.degree
    case None => Emission([Line(Pt(10), [])], false)
    case Some(name) => Done([Line(Pt(10), [Run10(name, Some(true), None)])])
  }

  function DegreeLines(d: Degree): (e: Emission)
    ensures e.ok <==> d.university.Some? && d.location.Some? && d.date.Some? && d.degree.Some?
    ensures e.ok ==> |e.paras| == 2
  {
    Then(UniversityLine(d), DegreeNameLine(d))
  }

  function DegreeRender(d: Degree, isLast: bool): Emission { DegreeLines(d) }

  function DegreesEmission(degrees: seq<Degree>): Emission {
    EmitEach(degrees, |degrees|, DegreeRender)
  }

  /** One iteration of the certificate loop. */
  method AddCertificateLine(doc: Document, c: Certificate, isLast: bool) returns (ok: bool)
    modifies doc`paragraphs
    ensures doc.paragraphs == old(doc.paragraphs) + CertificateLine(c, isLast).paras
    ensures ok == CertificateLine(c, isLast).ok
  {
    var after := if isLast then Pt(10) else Pt(0);
    var p := doc.AddParagraph(None, LineFormat(after));
    if c.name.None? {
      return false;
    }
    var run1 := Run10(c.name.value, Some(true), None);
    var run2 := Plain10(" | ");
    doc.AddRun(p, run1);
    doc.AddRun(p, run2);
    assert [] + [run1] + [run2] == [run1, run2];
    if c.date.None? {
      return false;
    }
    var run3 := Run10(c.date.value, Some(false), Some(true));
    doc.AddRun(p, run3);
    assert [run1, run2] + [run3] == [run1, run2, run3];
    ok := true;
  }

  /** `add_certificates(doc, certificates)` */
  method AddCertificates(doc: Document, certificates: seq<Certificate>) returns (ok: bool)
    modifies doc`paragraphs
    ensures doc.paragraphs == old(doc.paragraphs) + CertificatesEmission(certificates).paras
    ensures ok == CertificatesEmission(certificates).ok
  {
    var p := doc.AddParagraph(None, LineFormat(Pt(0)));
    var run := Run10(CertificatesHeading, Some(true), None);
    doc.AddRun(p, run);
    assert [] + [run] == [run];
    ok := AddCertificateLines(doc, certificates);
  }

  /** The loop of `add_certificates`. */
  method AddCertificateLines(doc: Document, certificates: seq<Certificate>) returns (ok: bool)
    modifies doc`paragraphs
    ensures doc.paragraphs == old(doc.paragraphs) + EmitEach(certificates, |certificates|, CertificateRender).paras
    ensures ok == EmitEach(certificates, |certificates|, CertificateRender).ok
  {
    var i := 0;
    while i < |certificates|
      invariant 0 <= i <= |certificates|
      invariant EmitEach(certificates, i, CertificateRender).ok
      invariant doc.paragraphs == old(doc.paragraphs) + EmitEach(certificates, i, CertificateRender).paras
    {
      var done := AddCertificateAt(doc, certificates, i, old(doc.paragraphs));
      if !done {
        EmitEachStops(certificates, i + 1, |certificates|, CertificateRender);
        return false;
      }
      i := i + 1;
    }
    ok := true;
  }

  /** Iteration `i` of the certificate loop, after `i` certificates rendered without raising. */
  method AddCertificateAt(doc: Document, certs: seq<Certificate>, i: nat, ghost base: seq<Paragraph>) returns (ok: bool)
    requires i < |certs| && EmitEach(certs, i, CertificateRender).ok
    requires doc.paragraphs == base + EmitEach(certs, i, CertificateRender).paras
    modifies doc`paragraphs
    ensures doc.paragraphs == base + EmitEach(certs, i + 1, CertificateRender).paras
    ensures ok == EmitEach(certs, i + 1, CertificateRender).ok
  {
    ok := AddCertificateLine(doc, certs[i], i == |certs| - 1);
    EmitEachAfter(base, certs, i, CertificateRender);
  }

  /** One iteration of the specialization loop. */
  method AddSpecialization(doc: Document, s: Specialization) returns (ok: bool)
    modifies doc`paragraphs
    ensures doc.paragraphs == old(doc.paragraphs) + SpecializationLines(s).paras
    ensures ok == SpecializationLines(s).ok
  {
    var p1 := doc.AddParagraph(None, LineFormat(Pt(0)));
    if s.institution.None? || s.location.None? {
      return false;
    }
    var run1 := Run10(s.institution.value + ", " + s.location.value, Some(true), None);
    doc.AddRun(p1, run1);
    assert [] + [run1] == [run1];
    var p2 := doc.AddParagraph(None, LineFormat(Pt(10)));
    if s.specialization.None? {
      return false;
    }
    var run2a := Run10(s.specialization.value, Some(true), None);
    var run2b := Plain10(" | Completed ");
    doc.AddRun(p2, run2a);
    doc.AddRun(p2, run2b);
    assert [] + [run2a] + [run2b] == [run2a, run2b];
    if s.date.None? {
      return false;
    }
    var run2c := Run10(s.date.value, Some(false), Some(true));
    doc.AddRun(p2, run2c);
    assert [run2a, run2b] + [run2c] == [run2a, run2b, run2c];
    ok := true;
  }

  /** `add_specializations(doc, specializations)` */
  method AddSpecializations(doc: Document, specializations: seq<Specialization>) returns (ok: bool)
    modifies doc`paragraphs
    ensures doc.paragraphs == old(doc.paragraphs) + SpecializationsEmission(specializations).paras
    ensures ok == SpecializationsEmission(specializations).ok
  {
    var i := 0;
    while i < |specializations|
      invariant 0 <= i <= |specializations|
      invariant EmitEach(specializations, i, SpecializationRender).ok
      invariant doc.paragraphs == old(doc.paragraphs) + EmitEach(specializations, i, SpecializationRender).paras
    {
      var done := AddSpecialization(doc, specializations[i]);
      if !done {
        EmitEachStops(specializations, i + 1, |specializations|, SpecializationRender);
        return false;
      }
      i := i + 1;
    }
    ok := true;
  }

  /** One iteration of the degree loop. */
  method AddDegree(doc: Document, d: Degree) returns (ok: bool)
    modifies doc`paragraphs
    ensures doc.paragraphs == old(doc.paragraphs) + DegreeLines(d).paras
    ensures ok == DegreeLines(d).ok
  {
    var p1 := doc.AddParagraph(None, LineFormat(Pt(0)));
    if d.university.None? || d.location.None? {
      return false;
    }
    var run1 := Run10(d.university.value + ", " + d.location.value, Some(true), None);
    var run2 := Plain10(" | Graduated ");
    doc.AddRun(p1, run1);
    doc.AddRun(p1, run2);
    assert [] + [run1] + [run2] == [run1, run2];
    if d.date.None? {
      return false;
    }
    var run3 := Run10(d.date.value, Some(false), Some(true));
    doc.AddRun(p1, run3);
    assert [run1, run2] + [run3] == [run1, run2, run3];
    var p2 := doc.AddParagraph(None, LineFormat(Pt(10)));
    if d.degree.None? {
      return false;
    }
    var run4 := Run10(d.degree.value, Some(true), None);
    doc.AddRun(p2, run4);
    assert [] + [run4] == [run4];
    ok := true;
  }

  /** `add_degrees(doc, degrees)` */
  method AddDegrees(doc: Document, degrees: seq<Degree>) returns (ok: bool)
    modifies doc`paragraphs
    ensures doc.paragraphs == old(doc.paragraphs) + DegreesEmission(degrees).paras
    ensures ok == DegreesEmission(degrees).ok
  {
    var i := 0;
    while i < |degrees|
      invariant 0 <= i <= |degrees|
      invariant EmitEach(degrees, i, DegreeRender).ok
      invariant doc.paragraphs == old(doc.paragraphs) + EmitEach(degrees, i, DegreeRender).paras
    {
      var done := AddDegree(doc, degrees[i]);
      if !done {
        EmitEachStops(degrees, i + 1, |degrees|, DegreeRender);
        return false;
      }
      i := i + 1;
    }
    ok := true;
  }

  predicate CertificateComplete(c: Certificate) {
    c.name.Some? && c.date.Some?
  }

  predicate SpecializationComplete(s: Specialization) {
    s.institution.Some? && s.location.Some? && s.specialization.Some? && s.date.Some?
  }

  predicate DegreeComplete(d: Degree) {
    d.university.Some? && d.location.Some? && d.date.Some? && d.degree.Some?
  }

  /** `add_certificates` raises exactly when some certificate lacks its name or date. */
  lemma CertificatesOk(certs: seq<Certificate>)
    ensures CertificatesEmission(certs).ok <==> forall i :: 0 <= i < |certs| ==> CertificateComplete(certs[i])
  {
    EmitEachOk(certs, |certs|, CertificateRender);
    assert forall i :: 0 <= i < |certs| ==> RenderAt(certs, i, CertificateRender) == CertificateLine(certs[i], i == |certs| - 1);
  }

  /**
   * With complete certificates: the heading, then one line per certificate in
   * order, `name | date`, and only the last one followed by 10pt.
   */
  lemma CertificatesLayout(certs: seq<Certificate>)
    requires forall i :: 0 <= i < |certs| ==> certs[i].name.Some? && certs[i].date.Some?
    ensures var e := CertificatesEmission(certs);
      && e.ok && |e.paras| == 1 + |certs| && e.paras[0] == HeadingLine()
      && forall i :: 0 <= i < |certs| ==>
           && e.paras[i + 1].runs == [Run10(certs[i].name.value, Some(true), None), Plain10(" | "),
                                      Run10(certs[i].date.value, Some(false), Some(true))]
           && e.paras[i + 1].format.spaceAfter == Some(if i == |certs| - 1 then Pt(10) else 0)
  {
    var n := |certs|;
    assert forall i :: 0 <= i < n ==> RenderAt(certs, i, CertificateRender) == CertificateLine(certs[i], i == n - 1);
    EmitEachSingles(certs, n, CertificateRender);
    var e := CertificatesEmission(certs);
    assert e.paras == [HeadingLine()] + EmitEach(certs, n, CertificateRender).paras;
    forall i | 0 <= i < n
      ensures e.paras[i + 1].runs == [Run10(certs[i].name.value, Some(true), None), Plain10(" | "),
                                      Run10(certs[i].date.value, Some(false), Some(true))]
      ensures e.paras[i + 1].format.spaceAfter == Some(if i == n - 1 then Pt(10) else 0)
    {
      assert e.paras[i + 1] == CertificateLine(certs[i], i == n - 1).paras[0];
    }
  }

  /** `add_specializations` raises exactly when some entry lacks one of its four keys. */
  lemma SpecializationsOk(specs: seq<Specialization>)
    ensures SpecializationsEmission(specs).ok <==> forall i :: 0 <= i < |specs| ==> SpecializationComplete(specs[i])
  {
    EmitEachOk(specs, |specs|, SpecializationRender);
    assert forall i :: 0 <= i < |specs| ==> RenderAt(specs, i, SpecializationRender) == SpecializationLines(specs[i]);
  }

  /**
   * With complete entries: two lines per specialization, `institution, location`
   * with nothing after and then `specialization | Completed date` with 10pt after.
   */
  lemma SpecializationsLayout(specs: seq<Specialization>)
    requires forall i :: 0 <= i < |specs| ==>
      specs[i].institution.Some? && specs[i].location.Some? && specs[i].specialization.Some? && specs[i].date.Some?
    ensures var e := SpecializationsEmission(specs);
      && e.ok && |e.paras| == 2 * |specs|
      && forall i :: 0 <= i < |specs| ==>
           && e.paras[2 * i].runs == [Run10(specs[i].institution.value + ", " + specs[i].location.value, Some(true), None)]
           && e.paras[2 * i].format.spaceAfter == Some(0)
           && e.paras[2 * i + 1].runs == [Run10(specs[i].specialization.value, Some(true), None), Plain10(" | Completed "),
                                          Run10(specs[i].date.value, Some(false), Some(true))]
           && e.paras[2 * i + 1].format.spaceAfter == Some(Pt(10))
  {
    var n := |specs|;
    assert forall i :: 0 <= i < n ==> RenderAt(specs, i, SpecializationRender) == SpecializationLines(specs[i]);
    EmitEachPairs(specs, n, SpecializationRender);
  }

  /** `add_degrees` raises exactly when some entry lacks one of its four keys. */
  lemma DegreesOk(degrees: seq<Degree>)
    ensures DegreesEmission(degrees).ok <==> forall i :: 0 <= i < |degrees| ==> DegreeComplete(degrees[i])
  {
    EmitEachOk(degrees, |degrees|, DegreeRender);
    assert forall i :: 0 <= i < |degrees| ==> RenderAt(degrees, i, DegreeRender) == DegreeLines(degrees[i]);
  }

  /**
   * With complete entries: two lines per degree, `university, location |
   * Graduated date` with nothing after and then the degree with 10pt after.
   */
  lemma DegreesLayout(degrees: seq<Degree>)
    requires forall i :: 0 <= i < |degrees| ==>
      degrees[i].university.Some? && degrees[i].location.Some? && degrees[i].date.Some? && degrees[i].degree.Some?
    ensures var e := DegreesEmission(degrees);
      && e.ok && |e.paras| == 2 * |degrees|
      && forall i :: 0 <= i < |degrees| ==>
           && e.paras[2 * i].runs == [Run10(degrees[i].university.value + ", " + degrees[i].location.value, Some(true), None),
                                      Plain10(" | Graduated "), Run10(degrees[i].date.value, Some(false), Some(true))]
           && e.paras[2 * i].format.spaceAfter == Some(0)
           && e.paras[2 * i + 1].runs == [Run10(degrees[i].degree.value, Some(true), None)]
           && e.paras[2 * i + 1].format.spaceAfter == Some(Pt(10))
  {
    var n := |degrees|;
    assert forall i :: 0 <= i < n ==> RenderAt(degrees, i, DegreeRender) == DegreeLines(degrees[i]);
    EmitEachPairs(degrees, n, DegreeRender);
  }
}
