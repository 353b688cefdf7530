/**
 * The whole resume: a centred header (name, then a contact line of hyperlinks
 * and phone separated by diamonds), then the summary, skills, experience and
 * education sections, on pages with half-inch top and side margins.
 */
module FullResume {
  import opened Wrappers
  import opened Docx
  import opened ResumeData
  import opened Styles
  import opened SectionTitle
  import opened ResumeHeader
  import opened JobHeading
  import opened JobDetails
  import opened EducationSection

  /*
   * Header
   */

  const Diamond: string := " ⬥ "

  /** Centred, nothing before or after, single line spacing. */
  const CenteredFormat: Format := Format(Some(Center), Some(Pt(0)), Some(Pt(0)), Some(SingleRule), None, None)

  function NameLine(name: string): Paragraph {
    Paragraph(None, CenteredFormat, None, [TextRun(name, Some(TimesNewRoman), Some(Pt(18)), Some(true), None)])
  }

  /** `p.add_run(text).font.size = Pt(10)`: only the size is set. */
  function SizedRun(text: string): Run {
    TextRun(text, None, Some(Pt(10)), None, None)
  }

  /** The contact line being built and the relationships registered so far. */
  datatype Contact = Contact(runs: seq<Run>, rels: seq<Relationship>)

  /** `add_hyperlink(p2, url, caption, font_size=10)` when `present`. */
  function MaybeLink(c: Contact, present: bool, url: string, caption: string): Contact {
    if present then
      var r := Relate(c.rels, ExternalLink(url));
      Contact(c.runs + [LinkRun(r.rId, caption, TimesNewRoman, 10)], r.rels)
    else c
  }

  function Plain(c: Contact, text: string): Contact {
    Contact(c.runs + [SizedRun(text)], c.rels)
  }

  /** The email link (when truthy) and the first diamond. */
  function EmailPart(h: Header, c: Contact): Contact {
    Plain(MaybeLink(c, Truthy(h.email), "mailto:" + h.email.GetOr(""), h.email.GetOr("")), Diamond)
  }

  /** The phone (when truthy) as a plain run, and the second diamond. */
  function PhonePart(h: Header, c: Contact): Contact {
    Plain(if Truthy(h.phone) then Plain(c, h.phone.value) else c, Diamond)
  }

  function LinkedInPart(h: Header, c: Contact): Contact {
    Plain(MaybeLink(c, Truthy(h.linkedin), h.linkedin.GetOr(""), "LinkedIn"), Diamond)
  }

  function GithubPart(h: Header, c: Contact): Contact {
    Plain(MaybeLink(c, Truthy(h.github), h.github.GetOr(""), "Github"), Diamond)
  }

  function WebsitePart(h: Header, c: Contact): Contact {
    MaybeLink(c, Truthy(h.website), h.website.GetOr(""), "Personal Website")
  }

  /** The contact line of `add_resume_header`, run by run, starting from the document's relationships. */
  function ContactLine(h: Header, rels: seq<Relationship>): Contact {
    WebsitePart(h, GithubPart(h, LinkedInPart(h, PhonePart(h, EmailPart(h, Contact([], rels))))))
  }

  /** The two header paragraphs: the name (empty when missing) and the contact line. */
  function HeaderLines(h: Header, rels: seq<Relationship>): seq<Paragraph> {
    [NameLine(h.name.GetOr("")), Paragraph(None, CenteredFormat, None, ContactLine(h, rels).runs)]
  }

  /** A hyperlink's target and its displayed text. */
  datatype LinkSpec = LinkSpec(target: string, caption: string)

  function LinkIf(present: bool, target: string, caption: string): seq<LinkSpec> {
    if present then [LinkSpec(target, caption)] else []
  }

  /** Every link is a 10pt Times New Roman hyperlink run whose relationship is the external link to its target. */
  predicate LinksResolve(links: seq<Run>, rels: seq<Relationship>, specs: seq<LinkSpec>) {
    && |links| == |specs|
    && forall i :: 0 <= i < |links| ==>
         && links[i].Hyperlink? && links[i].relId < |rels|
         && rels[links[i].relId] == ExternalLink(specs[i].target)
         && links[i] == LinkRun(links[i].relId, specs[i].caption, TimesNewRoman, 10)
  }

  /** `rels` keeps `base` as its prefix: relationships are only ever added. */
  predicate Extends(base: seq<Relationship>, rels: seq<Relationship>) {
    base <= rels
  }

  lemma LinkStep(c: Contact, present: bool, url: string, caption: string, specs: seq<LinkSpec>)
    requires LinksResolve(Hyperlinks(c.runs), c.rels, specs)
    ensures var d := MaybeLink(c, present, url, caption);
      && LinksResolve(Hyperlinks(d.runs), d.rels, specs + LinkIf(present, url, caption))
      && TextRuns(d.runs) == TextRuns(c.runs)
      && Extends(c.rels, d.rels)
  {
    if present {
      var r := Relate(c.rels, ExternalLink(url));
      var run := LinkRun(r.rId, caption, TimesNewRoman, 10);
      AppendRunViews(c.runs, run);
      assert c.rels <= r.rels;
    } else {
      assert specs + [] == specs;
    }
  }

  lemma PlainStep(c: Contact, text: string)
    ensures var d := Plain(c, text);
      && Hyperlinks(d.runs) == Hyperlinks(c.runs) && d.rels == c.rels
      && TextRuns(d.runs) == TextRuns(c.runs) + [SizedRun(text)]
  {
    AppendRunViews(c.runs, SizedRun(text));
  }

  /** What a partly built contact line holds: resolving `links`, plain runs `texts`, relationships extending `rels`. */
  predicate Holds(c: Contact, rels: seq<Relationship>, links: seq<LinkSpec>, texts: seq<Run>) {
    LinksResolve(Hyperlinks(c.runs), c.rels, links) && TextRuns(c.runs) == texts && Extends(rels, c.rels)
  }

  lemma LinkThenDiamond(c: Contact, present: bool, url: string, caption: string,
                        rels: seq<Relationship>, links: seq<LinkSpec>, texts: seq<Run>)
    requires Holds(c, rels, links, texts)
    ensures Holds(Plain(MaybeLink(c, present, url, caption), Diamond), rels,
                  links + LinkIf(present, url, caption), texts + [SizedRun(Diamond)])
  {
    LinkStep(c, present, url, caption, links);
    PlainStep(MaybeLink(c, present, url, caption), Diamond);
  }

  lemma PhoneStage(h: Header, c: Contact, rels: seq<Relationship>, links: seq<LinkSpec>, texts: seq<Run>)
    requires Holds(c, rels, links, texts)
    ensures Holds(PhonePart(h, c), rels, links, texts + PhoneRuns(h) + [SizedRun(Diamond)])
  {
    if Truthy(h.phone) {
      PlainStep(c, h.phone.value);
      PlainStep(Plain(c, h.phone.value), Diamond);
    } else {
      PlainStep(c, Diamond);
      assert texts + [] == texts;
    }
  }

  /** The contact line up to the fourth diamond. */
  function ThroughGithub(h: Header, rels: seq<Relationship>): Contact {
    GithubPart(h, LinkedInPart(h, PhonePart(h, EmailPart(h, Contact([], rels)))))
  }

  function EmailLinks(h: Header): seq<LinkSpec> {
    LinkIf(Truthy(h.email), "mailto:" + h.email.GetOr(""), h.email.GetOr(""))
  }

  function LinkedInLinks(h: Header): seq<LinkSpec> {
    LinkIf(Truthy(h.linkedin), h.linkedin.GetOr(""), "LinkedIn")
  }

  function GithubLinks(h: Header): seq<LinkSpec> {
    LinkIf(Truthy(h.github), h.github.GetOr(""), "Github")
  }

  function WebsiteLinks(h: Header): seq<LinkSpec> {
    LinkIf(Truthy(h.website), h.website.GetOr(""), "Personal Website")
  }

  /** The links the contact line should carry, in order: one per truthy field. */
  function ExpectedLinks(h: Header): seq<LinkSpec> {
    EmailLinks(h) + LinkedInLinks(h) + GithubLinks(h) + WebsiteLinks(h)
  }

  function PhoneRuns(h: Header): seq<Run> {
    if Truthy(h.phone) then [SizedRun(h.phone.value)] else []
  }

  /** The plain runs the contact line should carry: four diamonds, with the phone after the first. */
  function ExpectedTextRuns(h: Header): seq<Run> {
    [SizedRun(Diamond)] + PhoneRuns(h) + [SizedRun(Diamond)] + [SizedRun(Diamond)] + [SizedRun(Diamond)]
  }

  /** The contact line up to the second diamond. */
  function ThroughPhone(h: Header, rels: seq<Relationship>): Contact {
    PhonePart(h, EmailPart(h, Contact([], rels)))
  }

  lemma ThroughPhoneContents(h: Header, rels: seq<Relationship>)
    ensures Holds(ThroughPhone(h, rels), rels, EmailLinks(h), [SizedRun(Diamond)] + PhoneRuns(h) + [SizedRun(Diamond)])
  {
    var d := [SizedRun(Diamond)];
    var c0 := Contact([], rels);
    assert Holds(c0, rels, [], []);
    LinkThenDiamond(c0, Truthy(h.email), "mailto:" + h.email.GetOr(""), h.email.GetOr(""), rels, [], []);
    assert [] + EmailLinks(h) == EmailLinks(h) && [] + d == d;
    PhoneStage(h, EmailPart(h, c0), rels, EmailLinks(h), d);
  }

  lemma ThroughGithubContents(h: Header, rels: seq<Relationship>)
    ensures Holds(ThroughGithub(h, rels), rels, EmailLinks(h) + LinkedInLinks(h) + GithubLinks(h), ExpectedTextRuns(h))
  {
    var d := [SizedRun(Diamond)];
    var texts := d + PhoneRuns(h) + d;
    ThroughPhoneContents(h, rels);
    var c2 := ThroughPhone(h, rels);
    LinkThenDiamond(c2, Truthy(h.linkedin), h.linkedin.GetOr(""), "LinkedIn", rels, EmailLinks(h), texts);
    var c3 := LinkedInPart(h, c2);
    LinkThenDiamond(c3, Truthy(h.github), h.github.GetOr(""), "Github", rels, EmailLinks(h) + LinkedInLinks(h), texts + d);
  }

  /**
   * The contact line holds exactly the expected links, each resolving to an
   * external relationship for its target, and exactly four diamond separators
   * with the phone, when truthy, as the only other plain run. Relationships
   * already in the document are kept.
   */
  lemma ContactLineContents(h: Header, rels: seq<Relationship>)
    ensures Holds(ContactLine(h, rels), rels, ExpectedLinks(h), ExpectedTextRuns(h))
  {
    ThroughGithubContents(h, rels);
    LinkStep(ThroughGithub(h, rels), Truthy(h.website), h.website.GetOr(""), "Personal Website",
             EmailLinks(h) + LinkedInLinks(h) + GithubLinks(h));
  }

  /** The number of hyperlinks on the contact line is the number of truthy link fields. */
  lemma ContactLinkCount(h: Header, rels: seq<Relationship>)
    ensures |Hyperlinks(ContactLine(h, rels).runs)|
         == Bit(Truthy(h.email)) + Bit(Truthy(h.linkedin)) + Bit(Truthy(h.github)) + Bit(Truthy(h.website))
  {
    ContactLineContents(h, rels);
  }

  /** The paragraph under construction is the last one, and it holds the runs of `c`. */
  ghost predicate Building(doc: Document, base: seq<Paragraph>, c: Contact)
    reads doc
  {
    doc.paragraphs == base + [Paragraph(None, CenteredFormat, None, c.runs)] && doc.rels == c.rels
  }

  /** `if header.get(field): add_hyperlink(p2, url, caption, font_size=10)` */
  method AddContactLink(doc: Document, p: nat, present: bool, url: string, caption: string,
                        ghost base: seq<Paragraph>, ghost c: Contact)
    requires p == |base| && Building(doc, base, c)
    modifies doc`paragraphs, doc`rels
    ensures Building(doc, base, MaybeLink(c, present, url, caption))
  {
    if present {
      var _ := AddHyperlink(doc, p, url, caption, TimesNewRoman, 10);
    }
  }

  /** `p2.add_run(text).font.size = Pt(10)` */
  method AddSizedRun(doc: Document, p: nat, text: string, ghost base: seq<Paragraph>, ghost c: Contact)
    requires p == |base| && Building(doc, base, c)
    modifies doc`paragraphs
    ensures Building(doc, base, Plain(c, text))
  {
    doc.AddRun(p, SizedRun(text));
  }

  /** The email link when the field is truthy, then a diamond. */
  method AddEmailPart(doc: Document, p: nat, h: Header, ghost base: seq<Paragraph>, ghost c: Contact)
    requires p == |base| && Building(doc, base, c)
    modifies doc`paragraphs, doc`rels
    ensures Building(doc, base, EmailPart(h, c))
  {
    AddContactLink(doc, p, Truthy(h.email), "mailto:" + h.email.GetOr(""), h.email.GetOr(""), base, c);
    AddSizedRun(doc, p, Diamond, base, MaybeLink(c, Truthy(h.email), "mailto:" + h.email.GetOr(""), h.email.GetOr("")));
  }

  /** The phone as a plain run when the field is truthy, then a diamond. */
  method AddPhonePart(doc: Document, p: nat, h: Header, ghost base: seq<Paragraph>, ghost c: Contact)
    requires p == |base| && Building(doc, base, c)
    modifies doc`paragraphs
    ensures Building(doc, base, PhonePart(h, c))
  {
    ghost var d := c;
    if Truthy(h.phone) {
      AddSizedRun(doc, p, h.phone.value, base, c);
      d := Plain(c, h.phone.value);
    }
    AddSizedRun(doc, p, Diamond, base, d);
  }

  /** The LinkedIn or GitHub step: a link when `present`, then a diamond. */
  method AddLinkPart(doc: Document, p: nat, present: bool, url: string, caption: string,
                     ghost base: seq<Paragraph>, ghost c: Contact)
    requires p == |base| && Building(doc, base, c)
    modifies doc`paragraphs, doc`rels
    ensures Building(doc, base, Plain(MaybeLink(c, present, url, caption), Diamond))
  {
    AddContactLink(doc, p, present, url, caption, base, c);
    AddSizedRun(doc, p, Diamond, base, MaybeLink(c, present, url, caption));
  }

  /** `add_resume_header(doc, header)` */
  method AddResumeHeader(doc: Document, header: Header)
    modifies doc`paragraphs, doc`rels
    ensures doc.paragraphs == old(doc.paragraphs) + HeaderLines(header, old(doc.rels))
    ensures doc.rels == ContactLine(header, old(doc.rels)).rels
  {
    var p1 := doc.AddParagraph(None, CenteredFormat);
    var nameRun := TextRun(header.name.GetOr(""), Some(TimesNewRoman), Some(Pt(18)), Some(true), None);
    doc.AddRun(p1, nameRun);
    assert [] + [nameRun] == [nameRun];
    ghost var base := doc.paragraphs;
    var p2 := doc.AddParagraph(None, CenteredFormat);
    ghost var c0 := Contact([], doc.rels);
    assert Building(doc, base, c0);
    AddEmailPart(doc, p2, header, base, c0);
    ghost var c1 := EmailPart(header, c0);
    AddPhonePart(doc, p2, header, base, c1);
    ghost var c2 := PhonePart(header, c1);
    AddLinkPart(doc, p2, Truthy(header.linkedin), header.linkedin.GetOr(""), "LinkedIn", base, c2);
    ghost var c3 := LinkedInPart(header, c2);
    AddLinkPart(doc, p2, Truthy(header.github), header.github.GetOr(""), "Github", base, c3);
    ghost var c4 := GithubPart(header, c3);
    AddContactLink(doc, p2, Truthy(header.website), header.website.GetOr(""), "Personal Website", base, c4);
    assert WebsitePart(header, c4) == ContactLine(header, old(doc.rels));
  }

  /*
   * Summary and skills
   */

  /** Left aligned, nothing before, `spaceAfter` after, single spacing, both indents zero. */
  function BodyFormat(spaceAfter: int): Format {
    Format(Some(Left), Some(Pt(0)), Some(spaceAfter), Some(SingleRule), Some(Pt(0)), Some(Pt(0)))
  }

  function SummaryLine(summary: string): Paragraph {
    Paragraph(None, BodyFormat(Pt(10)), None, [Plain10(summary)])
  }

  /** What `add_professional_summary` appends: the title, then the summary with 10pt after. */
  function SummaryParagraphs(summary: string): seq<Paragraph> {
    [TitleParagraph("Professional Summary"), SummaryLine(summary)]
  }

  /** `add_professional_summary(doc, summary)` */
  method AddProfessionalSummary(doc: Document, summary: string)
    modifies doc`paragraphs
    ensures doc.paragraphs == old(doc.paragraphs) + SummaryParagraphs(summary)
  {
    AddSectionTitle(doc, "Professional Summary");
    var p := doc.AddParagraph(None, BodyFormat(Pt(10)));
    var run := Plain10(summary);
    doc.AddRun(p, run);
    assert [] + [run] == [run];
  }

  /**
   * `"category:"` in bold then `" details"`, 10pt after only on the last group.
   * Both keys are subscripts, read as each run is added.
   */
  function SkillLine(s: SkillGroup, isLast: bool): (e: Emission)
    ensures |e.paras| == 1 && e.paras[0].format == BodyFormat(if isLast then Pt(10) else Pt(0))
    ensures e.ok <==> s.category.Some? && s.details.Some?
  {
    var format := BodyFormat(if isLast then Pt(10) else Pt(0));
    match s.category
    case None => Emission([Paragraph(None, format, None, [])], false)
    case Some(category) =>
      var head := Run10(category + ":", Some(true), None);
      match s.details
      case None => Emission([Paragraph(None, format, None, [head])], false)
      case Some(details) => Done([Paragraph(None, format, None, [head, Run10(" " + details, Some(false), None)])])
  }

  function SkillRender(s: SkillGroup, isLast: bool): Emission { SkillLine(s, isLast) }

  /** What `add_technical_skills` appends: the title, then one line per group. */
  function SkillsEmission(skills: seq<SkillGroup>): Emission {
    Then(Done([TitleParagraph("Technical Skills")]), EmitEach(skills, |skills|, SkillRender))
  }

  /** One iteration of the skills loop. */
  method AddSkillLine(doc: Document, s: SkillGroup, isLast: bool) returns (ok: bool)
    modifies doc`paragraphs
    ensures doc.paragraphs == old(doc.paragraphs) + SkillLine(s, isLast).paras
    ensures ok == SkillLine(s, isLast).ok
  {
    var p := doc.AddParagraph(None, BodyFormat(if isLast then Pt(10) else Pt(0)));
    if s.category.None? {
      return false;
    }
    var head := Run10(s.category.value + ":", Some(true), None);
    doc.AddRun(p, head);
    assert [] + [head] == [head];
    if s.details.None? {
      return false;
    }
    var desc := Run10(" " + s.details.value, Some(false), None);
    doc.AddRun(p, desc);
    assert [head] + [desc] == [head, desc];
    ok := true;
  }

  /** Iteration `i` of the skills loop, after `i` groups rendered without raising. */
  method AddSkillAt(doc: Document, skills: seq<SkillGroup>, i: nat, ghost base: seq<Paragraph>) returns (ok: bool)
    requires i < |skills| && EmitEach(skills, i, SkillRender).ok
    requires doc.paragraphs == base + EmitEach(skills, i, SkillRender).paras
    modifies doc`paragraphs
    ensures doc.paragraphs == base + EmitEach(skills, i + 1, SkillRender).paras
    ensures ok == EmitEach(skills, i + 1, SkillRender).ok
  {
    ok := AddSkillLine(doc, skills[i], i == |skills| - 1);
    EmitEachAfter(base, skills, i, SkillRender);
  }

  /** The loop of `add_technical_skills`. */
  method AddSkillLines(doc: Document, skills: seq<SkillGroup>) returns (ok: bool)
    modifies doc`paragraphs
    ensures doc.paragraphs == old(doc.paragraphs) + EmitEach(skills, |skills|, SkillRender).paras
    ensures ok == EmitEach(skills, |skills|, SkillRender).ok
  {
    var i := 0;
    while i < |skills|
      invariant 0 <= i <= |skills|
      invariant EmitEach(skills, i, SkillRender).ok
      invariant doc.paragraphs == old(doc.paragraphs) + EmitEach(skills, i, SkillRender).paras
    {
      var done := AddSkillAt(doc, skills, i, old(doc.paragraphs));
      if !done {
        EmitEachStops(skills, i + 1, |skills|, SkillRender);
        return false;
      }
      i := i + 1;
    }
    ok := true;
  }

  /** `add_technical_skills(doc, skills)` */
  method AddTechnicalSkills(doc: Document, skills: seq<SkillGroup>) returns (ok: bool)
    modifies doc`paragraphs
    ensures doc.paragraphs == old(doc.paragraphs) + SkillsEmission(skills).paras
    ensures ok == SkillsEmission(skills).ok
  {
    AddSectionTitle(doc, "Technical Skills");
    ok := AddSkillLines(doc, skills);
  }

  /** `add_technical_skills` raises exactly when some group lacks its category or details. */
  lemma SkillsOk(skills: seq<SkillGroup>)
    ensures SkillsEmission(skills).ok <==> forall i :: 0 <= i < |skills| ==> skills[i].category.Some? && skills[i].details.Some?
  {
    EmitEachOk(skills, |skills|, SkillRender);
    assert forall i :: 0 <= i < |skills| ==> RenderAt(skills, i, SkillRender) == SkillLine(skills[i], i == |skills| - 1);
  }

  /**
   * With complete groups: the title, then one paragraph per group in order,
   * bold `"category:"` and non-bold `" details"`, and only the last followed by 10pt.
   */
  lemma SkillsLayout(skills: seq<SkillGroup>)
    requires forall i :: 0 <= i < |skills| ==> skills[i].category.Some? && skills[i].details.Some?
    ensures var e := SkillsEmission(skills);
      && e.ok && |e.paras| == 1 + |skills| && e.paras[0] == TitleParagraph("Technical Skills")
      && forall i :: 0 <= i < |skills| ==>
           && e.paras[i + 1].runs == [Run10(skills[i].category.value + ":", Some(true), None),
                                      Run10(" " + skills[i].details.value, Some(false), None)]
           && e.paras[i + 1].format.spaceAfter == Some(if i == |skills| - 1 then Pt(10) else 0)
  {
    var n := |skills|;
    assert forall i :: 0 <= i < n ==> RenderAt(skills, i, SkillRender) == SkillLine(skills[i], i == n - 1);
    EmitEachSingles(skills, n, SkillRender);
    var e := SkillsEmission(skills);
    assert e.paras == [TitleParagraph("Technical Skills")] + EmitEach(skills, n, SkillRender).paras;
    forall i | 0 <= i < n
      ensures e.paras[i + 1].runs == [Run10(skills[i].category.value + ":", Some(true), None),
                                      Run10(" " + skills[i].details.value, Some(false), None)]
      ensures e.paras[i + 1].format.spaceAfter == Some(if i == n - 1 then Pt(10) else 0)
    {
      assert e.paras[i + 1] == SkillLine(skills[i], i == n - 1).paras[0];
    }
  }

  /*
   * Experience
   */

  /** The job's bullet points as one leading untitled application, followed by its applications. */
  function AllApplications(job: Job): (r: seq<Application>)
    ensures job.bulletPoints.GetOr([]) == [] ==> r == job.applications.GetOr([])
    ensures job.bulletPoints.GetOr([]) != [] ==>
      |r| >= 1 && r[0] == Application(Some(""), job.bulletPoints) && r[1..] == job.applications.GetOr([])
  {
    var bulletPoints := job.bulletPoints.GetOr([]);
    (if bulletPoints != [] then [Application(Some(""), Some(bulletPoints))] else []) + job.applications.GetOr([])
  }

  /** The heading `add_professional_experience` gives a job: its `extra_line` is never passed on. */
  function JobHeadingOf(job: Job): seq<Paragraph> {
    JobHeadingParagraphs(job.position, job.dateRange, job.company, job.location, None)
  }

  /** One iteration of the loop over jobs. */
  function JobEmission(job: Job): Emission {
    var apps := AllApplications(job);
    Then(Done(JobHeadingOf(job)), if apps != [] then ApplicationsEmission(apps) else Done([]))
  }

  function JobRender(job: Job, isLast: bool): Emission { JobEmission(job) }

  /** What `add_professional_experience` appends: the title, then each job in order. */
  function ExperienceEmission(jobs: seq<Job>): Emission {
    Then(Done([TitleParagraph("Professional Experience")]), EmitEach(jobs, |jobs|, JobRender))
  }

  /** `all_applications` built with `append` and `extend`. */
  method CollectApplications(job: Job) returns (all: seq<Application>)
    ensures all == AllApplications(job)
  {
    var bulletPoints := job.bulletPoints.GetOr([]);
    var applications := job.applications.GetOr([]);
    all := [];
    if bulletPoints != [] {
      all := all + [Application(Some(""), Some(bulletPoints))];
    }
    all := all + applications;
  }

  /** One iteration of the experience loop. */
  method AddJob(doc: Document, job: Job) returns (ok: bool)
    modifies doc`paragraphs
    ensures doc.paragraphs == old(doc.paragraphs) + JobEmission(job).paras
    ensures ok == JobEmission(job).ok
  {
    AddJobHeading(doc, job.position, job.dateRange, job.company, job.location, None);
    var all := CollectApplications(job);
    ok := true;
    if all != [] {
      ok := AddJobApplications(doc, all);
    } else {
      assert JobHeadingOf(job) + [] == JobHeadingOf(job);
    }
  }

  /** Iteration `i` of the experience loop, after `i` jobs rendered without raising. */
  method AddJobAt(doc: Document, jobs: seq<Job>, i: nat, ghost base: seq<Paragraph>) returns (ok: bool)
    requires i < |jobs| && EmitEach(jobs, i, JobRender).ok
    requires doc.paragraphs == base + EmitEach(jobs, i, JobRender).paras
    modifies doc`paragraphs
    ensures doc.paragraphs == base + EmitEach(jobs, i + 1, JobRender).paras
    ensures ok == EmitEach(jobs, i + 1, JobRender).ok
  {
    ok := AddJob(doc, jobs[i]);
    EmitEachAfter(base, jobs, i, JobRender);
  }

  /** The loop of `add_professional_experience`. */
  method AddJobs(doc: Document, jobs: seq<Job>) returns (ok: bool)
    modifies doc`paragraphs
    ensures doc.paragraphs == old(doc.paragraphs) + EmitEach(jobs, |jobs|, JobRender).paras
    ensures ok == EmitEach(jobs, |jobs|, JobRender).ok
  {
    var i := 0;
    while i < |jobs|
      invariant 0 <= i <= |jobs|
      invariant EmitEach(jobs, i, JobRender).ok
      invariant doc.paragraphs == old(doc.paragraphs) + EmitEach(jobs, i, JobRender).paras
    {
      var done := AddJobAt(doc, jobs, i, old(doc.paragraphs));
      if !done {
        EmitEachStops(jobs, i + 1, |jobs|, JobRender);
        return false;
      }
      i := i + 1;
    }
    ok := true;
  }

  /** `add_professional_experience(doc, experience)` */
  method AddProfessionalExperience(doc: Document, experience: seq<Job>) returns (ok: bool)
    modifies doc`paragraphs
    ensures doc.paragraphs == old(doc.paragraphs) + ExperienceEmission(experience).paras
    ensures ok == ExperienceEmission(experience).ok
  {
    AddSectionTitle(doc, "Professional Experience");
    ok := AddJobs(doc, experience);
  }

  /**
   * A job's paragraphs start with its heading, which never has an extra line
   * (so nothing in it is followed by space), whatever `extra_line` the job carries.
   */
  lemma JobStartsWithHeading(job: Job, extra: Option<string>)
    ensures var e := JobEmission(job);
      var n := 1 + Bit(Truthy(job.company) && Truthy(job.location));
      && n <= |e.paras| && e.paras[..n] == JobHeadingOf(job)
      && (forall i :: 0 <= i < n ==> e.paras[i].format.spaceAfter == Some(0))
      && JobEmission(job.(extraLine := extra)) == e
  {
    var heading := JobHeadingOf(job);
    var apps := AllApplications(job);
    var rest := if apps != [] then ApplicationsEmission(apps) else Done([]);
    assert JobEmission(job).paras == heading + rest.paras;
    assert (heading + rest.paras)[..|heading|] == heading;
  }

  /**
   * Non-empty bullet points render right after the heading, as untitled
   * bullets in their order; the last one trails only if the job's last
   * application equals the pseudo-application made of them.
   */
  lemma BulletPointsFollowHeading(job: Job)
    requires job.bulletPoints.GetOr([]) != []
    ensures var e := JobEmission(job);
      var n := |JobHeadingOf(job)|;
      var bullets := job.bulletPoints.value;
      var apps := AllApplications(job);
      && n + |bullets| <= |e.paras|
      && forall i :: 0 <= i < |bullets| ==>
           e.paras[n + i] == BulletLine(bullets[i], apps[0] == apps[|apps| - 1] && i == |bullets| - 1)
  {
    var apps := AllApplications(job);
    var bullets := Bullets(job.bulletPoints.value, apps[0] == apps[|apps| - 1]);
    LeadingBullets(job);
    JobParas(job);
    var whole := ApplicationsEmission(apps).paras;
    var heading := JobHeadingOf(job);
    forall i | 0 <= i < |bullets| ensures (heading + whole)[|heading| + i] == bullets[i] {
    }
  }

  /** A job renders as its heading followed by its combined application list. */
  lemma JobParas(job: Job)
    ensures JobEmission(job).paras == JobHeadingOf(job) + ApplicationsEmission(AllApplications(job)).paras
  {
    if AllApplications(job) == [] {
      assert ApplicationsEmission([]).paras == [];
      assert JobHeadingOf(job) + [] == JobHeadingOf(job);
    }
  }

  /** The pseudo-application of bullet points renders first, as untitled bullets. */
  lemma LeadingBullets(job: Job)
    requires job.bulletPoints.GetOr([]) != []
    ensures var apps := AllApplications(job);
      Bullets(job.bulletPoints.value, apps[0] == apps[|apps| - 1]) <= ApplicationsEmission(apps).paras
  {
    var apps := AllApplications(job);
    FirstApplicationLeads(apps);
    EmissionParts(apps[0], apps[|apps| - 1]);
    assert TitleLines("") == [];
    assert [] + Bullets(job.bulletPoints.value, apps[0] == apps[|apps| - 1]) == Bullets(job.bulletPoints.value, apps[0] == apps[|apps| - 1]);
  }

  /** The first application's paragraphs open those of the whole list. */
  lemma FirstApplicationLeads(apps: seq<Application>)
    requires apps != []
    ensures ApplicationEmission(apps[0], apps[|apps| - 1]).paras <= ApplicationsEmission(apps).paras
  {
    assert AppsPrefix(apps, 1).paras == ApplicationEmission(apps[0], apps[|apps| - 1]).paras;
    AppsPrefixGrows(apps, 1, |apps|);
  }

  /*
   * Education and assembly
   */

  /** Python truthiness of an optional list. */
  predicate NonEmpty<T>(xs: Option<seq<T>>) {
    xs.Some? && xs.value != []
  }

  /** `if education.get("certificates"): add_certificates(doc, education["certificates"])` */
  function CertificatesBlock(ed: Education): Emission {
    if NonEmpty(ed.certificates) then CertificatesEmission(ed.certificates.value) else Done([])
  }

  function SpecializationsBlock(ed: Education): Emission {
    if NonEmpty(ed.specializations) then SpecializationsEmission(ed.specializations.value) else Done([])
  }

  function DegreesBlock(ed: Education): Emission {
    if NonEmpty(ed.degrees) then DegreesEmission(ed.degrees.value) else Done([])
  }

  /** What `add_education` appends: the title, then each non-empty block in order. */
  function EducationEmission(ed: Education): Emission {
    Then(Done([TitleParagraph("Education")]), EducationBlocks(ed))
  }

  method AddCertificatesBlock(doc: Document, education: Education) returns (ok: bool)
    modifies doc`paragraphs
    ensures doc.paragraphs == old(doc.paragraphs) + CertificatesBlock(education).paras
    ensures ok == CertificatesBlock(education).ok
  {
    ok := true;
    if NonEmpty(education.certificates) {
      ok := AddCertificates(doc, education.certificates.value);
    }
  }

  method AddSpecializationsBlock(doc: Document, education: Education) returns (ok: bool)
    modifies doc`paragraphs
    ensures doc.paragraphs == old(doc.paragraphs) + SpecializationsBlock(education).paras
    ensures ok == SpecializationsBlock(education).ok
  {
    ok := true;
    if NonEmpty(education.specializations) {
      ok := AddSpecializations(doc, education.specializations.value);
    }
  }

  method AddDegreesBlock(doc: Document, education: Education) returns (ok: bool)
    modifies doc`paragraphs
    ensures doc.paragraphs == old(doc.paragraphs) + DegreesBlock(education).paras
    ensures ok == DegreesBlock(education).ok
  {
    ok := true;
    if NonEmpty(education.degrees) {
      ok := AddDegrees(doc, education.degrees.value);
    }
  }

  /** The three blocks after the education title. */
  function EducationBlocks(ed: Education): Emission {
    Then(CertificatesBlock(ed), LaterBlocks(ed))
  }

  /** `add_education(doc, education)` */
  method AddEducation(doc: Document, education: Education) returns (ok: bool)
    modifies doc`paragraphs
    ensures doc.paragraphs == old(doc.paragraphs) + EducationEmission(education).paras
    ensures ok == EducationEmission(education).ok
  {
    AddSectionTitle(doc, "Education");
    ok := AddEducationBlocks(doc, education);
  }

  method AddEducationBlocks(doc: Document, education: Education) returns (ok: bool)
    modifies doc`paragraphs
    ensures doc.paragraphs == old(doc.paragraphs) + EducationBlocks(education).paras
    ensures ok == EducationBlocks(education).ok
  {
    ok := AddCertificatesBlock(doc, education);
    if !ok {
      return;
    }
    ok := AddLaterBlocks(doc, education);
    ThenAfter(old(doc.paragraphs), CertificatesBlock(education), LaterBlocks(education));
  }

  /** The specializations and degrees blocks. */
  function LaterBlocks(ed: Education): Emission {
    Then(SpecializationsBlock(ed), DegreesBlock(ed))
  }

  method AddLaterBlocks(doc: Document, education: Education) returns (ok: bool)
    modifies doc`paragraphs
    ensures doc.paragraphs == old(doc.paragraphs) + LaterBlocks(education).paras
    ensures ok == LaterBlocks(education).ok
  {
    ok := AddSpecializationsBlock(doc, education);
    if !ok {
      return;
    }
    ok := AddDegreesBlock(doc, education);
    ThenAfter(old(doc.paragraphs), SpecializationsBlock(education), DegreesBlock(education));
  }

  /** Paragraphs each complete block takes: the certificates heading only comes with certificates. */
  function EducationCount(ed: Education): nat {
    1 + (if NonEmpty(ed.certificates) then 1 + |ed.certificates.value| else 0)
    + (if NonEmpty(ed.specializations) then 2 * |ed.specializations.value| else 0)
    + (if NonEmpty(ed.degrees) then 2 * |ed.degrees.value| else 0)
  }

  /** With complete entries, the education section is its title and the three blocks, and nothing raises. */
  lemma EducationLayout(ed: Education)
    requires forall c :: c in ed.certificates.GetOr([]) ==> c.name.Some? && c.date.Some?
    requires forall s :: s in ed.specializations.GetOr([]) ==>
      s.institution.Some? && s.location.Some? && s.specialization.Some? && s.date.Some?
    requires forall d :: d in ed.degrees.GetOr([]) ==>
      d.university.Some? && d.location.Some? && d.date.Some? && d.degree.Some?
    ensures EducationEmission(ed).ok && |EducationEmission(ed).paras| == EducationCount(ed)
    ensures EducationEmission(ed).paras[0] == TitleParagraph("Education")
  {
    var certs := ed.certificates.GetOr([]);
    var specs := ed.specializations.GetOr([]);
    var degrees := ed.degrees.GetOr([]);
    assert forall i :: 0 <= i < |certs| ==> certs[i] in certs;
    assert forall i :: 0 <= i < |specs| ==> specs[i] in specs;
    assert forall i :: 0 <= i < |degrees| ==> degrees[i] in degrees;
    if NonEmpty(ed.certificates) { CertificatesLayout(certs); }
    if NonEmpty(ed.specializations) { SpecializationsLayout(specs); }
    if NonEmpty(ed.degrees) { DegreesLayout(degrees); }
  }

  /** Half an inch at the top, left and right; nothing at the bottom and no gutter. */
  const ResumeMargins: Section := Section(HalfInch, 0, HalfInch, HalfInch, 0)

  /** Everything after the header, in the order `build_resume_docx` renders it; a section that raises ends the build. */
  function BodyEmission(r: Resume): Emission {
    Then(Done(SummaryParagraphs(r.summary.GetOr(""))), RestEmission(r))
  }

  /** Every section of the template gets the resume's margins. */
  method SetMargins(doc: Document)
    modifies doc`sections
    ensures |doc.sections| == |old(doc.sections)|
    ensures forall i :: 0 <= i < |doc.sections| ==> doc.sections[i] == ResumeMargins
  {
    var i := 0;
    while i < |doc.sections|
      invariant 0 <= i <= |doc.sections| == |old(doc.sections)|
      invariant forall j :: 0 <= j < i ==> doc.sections[j] == ResumeMargins
    {
      doc.sections := doc.sections[i := doc.sections[i].(topMargin := HalfInch, bottomMargin := 0,
                                                          leftMargin := HalfInch, rightMargin := HalfInch, gutter := 0)];
      i := i + 1;
    }
  }

  /** The sections after the header, stopping at the first that raises. */
  method AddBody(doc: Document, resume: Resume) returns (ok: bool)
    modifies doc`paragraphs
    ensures doc.paragraphs == old(doc.paragraphs) + BodyEmission(resume).paras
    ensures ok == BodyEmission(resume).ok
  {
    AddProfessionalSummary(doc, resume.summary.GetOr(""));
    ok := AddRest(doc, resume);
  }

  /** The emission of the sections after the summary. */
  function RestEmission(r: Resume): Emission {
    Then(SkillsEmission(r.skills.GetOr([])),
         Then(ExperienceEmission(r.experience.GetOr([])), EducationEmission(r.education.GetOr(EmptyEducation))))
  }

  method AddRest(doc: Document, resume: Resume) returns (ok: bool)
    modifies doc`paragraphs
    ensures doc.paragraphs == old(doc.paragraphs) + RestEmission(resume).paras
    ensures ok == RestEmission(resume).ok
  {
    ok := AddTechnicalSkills(doc, resume.skills.GetOr([]));
    if !ok {
      return;
    }
    ok := AddLastSections(doc, resume);
    ThenAfter(old(doc.paragraphs), SkillsEmission(resume.skills.GetOr([])),
              Then(ExperienceEmission(resume.experience.GetOr([])), EducationEmission(resume.education.GetOr(EmptyEducation))));
  }

  method AddLastSections(doc: Document, resume: Resume) returns (ok: bool)
    modifies doc`paragraphs
    ensures doc.paragraphs == old(doc.paragraphs)
      + Then(ExperienceEmission(resume.experience.GetOr([])), EducationEmission(resume.education.GetOr(EmptyEducation))).paras
    ensures ok == Then(ExperienceEmission(resume.experience.GetOr([])), EducationEmission(resume.education.GetOr(EmptyEducation))).ok
  {
    ok := AddProfessionalExperience(doc, resume.experience.GetOr([]));
    if !ok {
      return;
    }
    ok := AddEducation(doc, resume.education.GetOr(EmptyEducation));
  }

  /** `build_resume_docx(resume_data)`: `ok` is false when a renderer raised. */
  method BuildResumeDocx(resume: Resume, templateSections: seq<Section>, templateRels: seq<Relationship>)
    returns (doc: Document, ok: bool)
    ensures fresh(doc)
    ensures |doc.sections| == |templateSections|
    ensures forall i :: 0 <= i < |doc.sections| ==> doc.sections[i] == ResumeMargins
    ensures doc.paragraphs == HeaderLines(resume.header.GetOr(EmptyHeader), templateRels) + BodyEmission(resume).paras
    ensures doc.rels == ContactLine(resume.header.GetOr(EmptyHeader), templateRels).rels
    ensures ok == BodyEmission(resume).ok
  {
    doc := NewResumeDocument(templateSections, templateRels);
    ok := AddContent(doc, resume);
  }

  /** A document from the template, with every section's margins set. */
  method NewResumeDocument(templateSections: seq<Section>, templateRels: seq<Relationship>) returns (doc: Document)
    ensures fresh(doc)
    ensures |doc.sections| == |templateSections|
    ensures forall i :: 0 <= i < |doc.sections| ==> doc.sections[i] == ResumeMargins
    ensures doc.paragraphs == [] && doc.rels == templateRels
  {
    doc := new Document(templateSections, templateRels);
    SetMargins(doc);
  }

  /** The header, then the sections after it. */
  method AddContent(doc: Document, resume: Resume) returns (ok: bool)
    modifies doc`paragraphs, doc`rels
    ensures doc.paragraphs == old(doc.paragraphs) + HeaderLines(resume.header.GetOr(EmptyHeader), old(doc.rels))
                              + BodyEmission(resume).paras
    ensures doc.rels == ContactLine(resume.header.GetOr(EmptyHeader), old(doc.rels)).rels
    ensures ok == BodyEmission(resume).ok
  {
    AddResumeHeader(doc, resume.header.GetOr(EmptyHeader));
    ok := AddBody(doc, resume);
  }

  /**
   * The sections come in the fixed order summary, skills, experience,
   * education: the build completes exactly when each renders without raising,
   * and then the body is their concatenation.
   */
  lemma SectionOrder(r: Resume)
    ensures var summary := SummaryParagraphs(r.summary.GetOr(""));
      var skills := SkillsEmission(r.skills.GetOr([]));
      var experience := ExperienceEmission(r.experience.GetOr([]));
      var education := EducationEmission(r.education.GetOr(EmptyEducation));
      && (BodyEmission(r).ok <==> skills.ok && experience.ok && education.ok)
      && (BodyEmission(r).ok ==> BodyEmission(r).paras == summary + skills.paras + experience.paras + education.paras)
  {
    ThenChain(SummaryParagraphs(r.summary.GetOr("")), SkillsEmission(r.skills.GetOr([])),
              ExperienceEmission(r.experience.GetOr([])), EducationEmission(r.education.GetOr(EmptyEducation)));
  }

  /** Each section opens with its title. */
  lemma SectionTitlesLead(r: Resume)
    ensures SummaryParagraphs(r.summary.GetOr(""))[0] == TitleParagraph("Professional Summary")
    ensures SkillsEmission(r.skills.GetOr([])).paras[0] == TitleParagraph("Technical Skills")
    ensures ExperienceEmission(r.experience.GetOr([])).paras[0] == TitleParagraph("Professional Experience")
    ensures EducationEmission(r.education.GetOr(EmptyEducation)).paras[0] == TitleParagraph("Education")
  {
  }
}
