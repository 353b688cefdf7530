/**
 * The data helpers of the Streamlit application around the renderers: the
 * job normalisation of the edit step, the parsing of a details text area, the
 * required-field checks of the two forms, the cover-letter salutation, the
 * edited resume's file name and the cover-letter document.
 */
module MainApp {
  import opened Wrappers
  import opened Strings
  import opened Docx
  import opened ResumeData
  import opened JobDetails
  import opened FullResume

  /*
   * Job normalisation: a job whose bullet points are missing or empty and whose
   * first application is untitled gets that application's details as its bullet
   * points, and the application is dropped.
   */

  /** The condition of the normalisation; a missing title counts as `""`. */
  predicate MovesFirstApplication(job: Job) {
    && job.bulletPoints.GetOr([]) == []
    && job.applications.Some? && job.applications.value != []
    && job.applications.value[0].title.GetOr("") == ""
  }

  /** The job after normalisation. */
  function Normalized(job: Job): (r: Job)
    ensures MovesFirstApplication(job) ==>
      && r.bulletPoints == Some(job.applications.value[0].details.GetOr([]))
      && r.applications == Some(job.applications.value[1..])
    ensures !MovesFirstApplication(job) ==> r == job
    ensures r.(bulletPoints := job.bulletPoints, applications := job.applications) == job
  {
    if MovesFirstApplication(job) then
      var apps := job.applications.value;
      job.(bulletPoints := Some(apps[0].details.GetOr([]))).(applications := Some(apps[1..]))
    else job
  }

  /** The loop over the experience list, normalising each job in place. */
  method NormalizeExperience(experience: array<Job>)
    modifies experience
    ensures forall i :: 0 <= i < experience.Length ==> experience[i] == Normalized(old(experience[i]))
  {
    var i := 0;
    while i < experience.Length
      invariant 0 <= i <= experience.Length
      invariant forall j :: 0 <= j < i ==> experience[j] == Normalized(old(experience[j]))
      invariant forall j :: i <= j < experience.Length ==> experience[j] == old(experience[j])
    {
      var job := experience[i];
      if && job.bulletPoints.GetOr([]) == []
         && job.applications.Some? && job.applications.value != []
         && job.applications.value[0].title.GetOr("") == ""
      {
        var apps := job.applications.value;
        job := job.(bulletPoints := Some(apps[0].details.GetOr([])));
        job := job.(applications := Some(apps[1..]));
        experience[i] := job;
      }
      i := i + 1;
    }
  }

  /**
   * When the moved application is titled `""` and has details, the resume
   * renders the normalised list exactly as the original one: the bullet points
   * come back as a leading untitled application.
   */
  lemma NormalizedKeepsApplications(job: Job)
    requires MovesFirstApplication(job)
    requires job.applications.value[0].title == Some("")
    requires job.applications.value[0].details.Some? && job.applications.value[0].details.value != []
    ensures AllApplications(Normalized(job)) == AllApplications(job)
  {
    var apps := job.applications.value;
    assert [apps[0]] + apps[1..] == apps;
  }

  /** A leading application that renders nothing can be dropped from a list of two or more. */
  lemma {:induction false} DropSilentFirst(apps: seq<Application>, k: nat)
    requires |apps| >= 2 && 1 <= k <= |apps|
    requires ApplicationEmission(apps[0], apps[|apps| - 1]) == Done([])
    ensures AppsPrefix(apps, k) == AppsPrefix(apps[1..], k - 1)
    decreases k
  {
    if k > 1 {
      DropSilentFirst(apps, k - 1);
      assert apps[1..][k - 2] == apps[k - 1];
      assert apps[1..][|apps[1..]| - 1] == apps[|apps| - 1];
    } else {
      assert AppsPrefix(apps, 1) == Then(Done([]), Done([]));
    }
  }

  /**
   * Whenever the moved application is titled `""` and has a `details` list
   * (empty or not), the normalised job renders exactly as the original.
   */
  lemma NormalizedRendersAlike(job: Job)
    requires MovesFirstApplication(job)
    requires job.applications.value[0].title == Some("") && job.applications.value[0].details.Some?
    ensures JobEmission(Normalized(job)) == JobEmission(job)
  {
    var norm := Normalized(job);
    assert JobHeadingOf(norm) == JobHeadingOf(job);
    if job.applications.value[0].details.value != [] {
      NormalizedKeepsApplications(job);
    } else {
      EmptyFirstDropped(job.applications.value);
      assert AllApplications(job) == job.applications.value;
      assert AllApplications(norm) == job.applications.value[1..];
    }
  }

  /** Dropping a leading application titled `""` without details leaves the list's rendering unchanged. */
  lemma EmptyFirstDropped(apps: seq<Application>)
    requires apps != [] && apps[0] == Application(Some(""), Some([]))
    ensures ApplicationsEmission(apps[1..]) == ApplicationsEmission(apps)
  {
    EmissionParts(apps[0], apps[|apps| - 1]);
    assert ApplicationEmission(apps[0], apps[|apps| - 1]) == Done([]);
    if |apps| >= 2 {
      DropSilentFirst(apps, |apps|);
    } else {
      assert |apps| == 1 && apps[1..] == [];
      assert AppsPrefix(apps, 1) == Then(AppsPrefix(apps, 0), ApplicationEmission(apps[0], apps[0]));
    }
  }

  /** Without normalisation, a first application lacking its `title` key makes the job raise. */
  lemma UntitledFirstRaises(job: Job)
    requires MovesFirstApplication(job) && job.applications.value[0].title.None?
    ensures !JobEmission(job).ok
  {
    var apps := job.applications.value;
    assert AllApplications(job) == apps;
    MissingKeyRaises(apps, 0);
  }

  /** Normalising twice is normalising once when the moved details are non-empty. */
  lemma NormalizeIdempotent(job: Job)
    requires MovesFirstApplication(job) ==> job.applications.value[0].details.GetOr([]) != []
    ensures Normalized(Normalized(job)) == Normalized(job)
  {
  }

  /*
   * Details parsing: each application's details are edited as one text, one
   * bullet per line, and read back line by line.
   */

  /** `[line.strip() for line in lines if line.strip()]` */
  function Cleaned(lines: seq<string>): (r: seq<string>)
    ensures |r| <= |lines|
  {
    if lines == [] then []
    else
      var line := Strip(lines[0]);
      (if line != "" then [line] else []) + Cleaned(lines[1..])
  }

  /** A detail the parser gives back unchanged: non-empty, stripped, a single line. */
  predicate CleanLine(line: string) {
    line != [] && Trimmed(line) && NoLineBreak(line)
  }

  lemma {:induction false} CleanedLines(lines: seq<string>)
    requires forall k :: 0 <= k < |lines| ==> NoLineBreak(lines[k])
    ensures forall k :: 0 <= k < |Cleaned(lines)| ==> CleanLine(Cleaned(lines)[k])
  {
    if lines != [] {
      var line := Strip(lines[0]);
      StripNoLineBreak(lines[0]);
      CleanedLines(lines[1..]);
      var head := if line != "" then [line] else [];
      assert forall k :: 0 <= k < |head| ==> CleanLine(head[k]);
      assert Cleaned(lines) == head + Cleaned(lines[1..]);
    }
  }

  /** The details of a text area: non-blank lines, stripped. */
  function ParseDetails(text: string): (r: seq<string>)
    ensures forall k :: 0 <= k < |r| ==> CleanLine(r[k])
  {
    CleanedLines(SplitLines(text));
    Cleaned(SplitLines(text))
  }

  /** A clean line at the head passes through unchanged. */
  lemma CleanedCons(line: string, rest: seq<string>)
    requires CleanLine(line)
    ensures Cleaned([line] + rest) == [line] + Cleaned(rest)
  {
    assert ([line] + rest)[1..] == rest;
  }

  /** Showing clean details one per line and parsing the text back gives the same details. */
  lemma {:induction false} ParseJoinedDetails(details: seq<string>)
    requires forall k :: 0 <= k < |details| ==> CleanLine(details[k])
    ensures ParseDetails(Join(details, "\n")) == details
    decreases |details|
  {
    if |details| == 1 {
      SplitLinesSingle(details[0]);
      CleanedCons(details[0], []);
    } else if |details| > 1 {
      ParseJoinedDetails(details[1..]);
      ParseJoinedStep(details);
    }
  }

  /** The inductive step: a clean line in front of details that already parse back. */
  lemma ParseJoinedStep(details: seq<string>)
    requires |details| > 1 && CleanLine(details[0])
    requires ParseDetails(Join(details[1..], "\n")) == details[1..]
    ensures ParseDetails(Join(details, "\n")) == details
  {
    var rest := Join(details[1..], "\n");
    assert Join(details, "\n") == details[0] + "\n" + rest;
    ParseCons(details[0], rest);
    assert [details[0]] + details[1..] == details;
  }

  /** A clean first line followed by a newline parses as itself, then the rest. */
  lemma ParseCons(line: string, rest: string)
    requires CleanLine(line)
    ensures ParseDetails(line + "\n" + rest) == [line] + ParseDetails(rest)
  {
    SplitLinesCons(line, rest);
    CleanedCons(line, SplitLines(rest));
  }

  /** An edit that changes nothing keeps the parsed details: parsing is idempotent through the text area. */
  lemma ParseDetailsStable(text: string)
    ensures ParseDetails(Join(ParseDetails(text), "\n")) == ParseDetails(text)
  {
    ParseJoinedDetails(ParseDetails(text));
  }

  /*
   * Required fields of the two forms. A text input gives a string, empty when
   * left blank; the form proceeds only when none of the listed fields is empty.
   */

  const Step1Error: string := "Please provide the job title, job description, and your resume content."
  const Step2Error: string := "Please provide all required fields."

  /** The resume-polish form: `None` to proceed, or the error shown. */
  function Step1Check(jobTitle: string, jobDescription: string, resumeContent: string): (r: Option<string>)
    ensures r.None? <==> jobTitle != "" && jobDescription != "" && resumeContent != ""
    ensures r.Some? ==> r.value == Step1Error
  {
    if jobTitle == "" || jobDescription == "" || resumeContent == "" then Some(Step1Error) else None
  }

  /** The cover-letter form; the recruiter name is optional. */
  function Step2Check(companyName: string, positionName: string, jobDescription: string, resumeContent: string)
    : (r: Option<string>)
    ensures r.None? <==> companyName != "" && positionName != "" && jobDescription != "" && resumeContent != ""
    ensures r.Some? ==> r.value == Step2Error
  {
    if companyName == "" || positionName == "" || jobDescription == "" || resumeContent == "" then Some(Step2Error)
    else None
  }

  /** The second form asks for everything the first does, with the position in place of the job title, and the company. */
  lemma Step2Stricter(companyName: string, positionName: string, jobDescription: string, resumeContent: string)
    ensures Step2Check(companyName, positionName, jobDescription, resumeContent).None?
        <==> companyName != "" && Step1Check(positionName, jobDescription, resumeContent).None?
  {
  }

  /*
   * Salutation of the cover letter.
   */

  const DefaultSalutation: string := "Dear Hiring Manager,"

  /** `"Dear {recruiter_name},"` for a name that is not blank (kept unstripped), else the default. */
  function Salutation(recruiterName: string): (r: string)
    ensures Blank(recruiterName) ==> r == DefaultSalutation
    ensures !Blank(recruiterName) ==>
      |r| == |recruiterName| + 6 && r[..5] == "Dear " && r[5..|r| - 1] == recruiterName && r[|r| - 1] == ','
  {
    if Strip(recruiterName) != "" then "Dear " + recruiterName + "," else DefaultSalutation
  }

  /** The name a salutation addresses, `None` for the default one. */
  function Addressee(salutation: string): Option<string> {
    if salutation == DefaultSalutation || |salutation| < 6 then None
    else Some(salutation[5..|salutation| - 1])
  }

  /** The salutation names the recruiter when one was given and no one otherwise. */
  lemma SalutationAddressee(recruiterName: string)
    requires recruiterName != "Hiring Manager"
    ensures Addressee(Salutation(recruiterName)) == if Blank(recruiterName) then None else Some(recruiterName)
  {
    if !Blank(recruiterName) {
      assert recruiterName != [];
      MiddleDiffers("Dear ", recruiterName, "Hiring Manager", ",");
      assert DefaultSalutation == "Dear " + "Hiring Manager" + ",";
    }
  }

  /** Strings that differ in the middle differ as a whole. */
  lemma MiddleDiffers(a: string, m: string, n: string, c: string)
    requires m != n
    ensures a + m + c != a + n + c
  {
    if |m| == |n| {
      var k :| 0 <= k < |m| && m[k] != n[k];
      assert (a + m + c)[|a| + k] == m[k];
      assert (a + n + c)[|a| + k] == n[k];
    } else {
      assert |a + m + c| != |a + n + c|;
    }
  }

  /*
   * File name of the edited resume: `"{name} Resume for {company} ({date}).docx"`
   * with the date in ISO format.
   */

  /** A calendar date as `date.today()` gives it; the clock is a parameter. */
  datatype Date = Date(year: nat, month: nat, day: nat)

  predicate ValidDate(d: Date) {
    1 <= d.year <= 9999 && 1 <= d.month <= 12 && 1 <= d.day <= 31
  }

  function Pow10(width: nat): nat {
    if width == 0 then 1 else 10 * Pow10(width - 1)
  }

  predicate IsDigit(c: char) {
    '0' <= c <= '9'
  }

  predicate AllDigits(s: string) {
    forall i :: 0 <= i < |s| ==> IsDigit(s[i])
  }

  function DigitChar(d: nat): char
    requires d < 10
  {
    ('0' as int + d) as char
  }

  /** `n` in decimal, zero-padded on the left to `width` digits. */
  function Padded(n: nat, width: nat): (s: string)
    ensures |s| == width && AllDigits(s)
  {
    if width == 0 then "" else Padded(n / 10, width - 1) + [DigitChar(n % 10)]
  }

  /** The number a string of decimal digits denotes. */
  function DigitsValue(s: string): nat
    requires AllDigits(s)
  {
    if s == [] then 0 else 10 * DigitsValue(s[..|s| - 1]) + (s[|s| - 1] as int - '0' as int)
  }

  lemma {:induction false} PaddedValue(n: nat, width: nat)
    requires n < Pow10(width)
    ensures DigitsValue(Padded(n, width)) == n
  {
    if width > 0 {
      PaddedValue(n / 10, width - 1);
      var s := Padded(n, width);
      assert s[..|s| - 1] == Padded(n / 10, width - 1);
    }
  }

  lemma {:induction false} ValuePadded(s: string)
    requires AllDigits(s)
    ensures DigitsValue(s) < Pow10(|s|) && Padded(DigitsValue(s), |s|) == s
  {
    if s != [] {
      var init := s[..|s| - 1];
      ValuePadded(init);
      var d := s[|s| - 1] as int - '0' as int;
      assert DigitsValue(s) / 10 == DigitsValue(init) && DigitsValue(s) % 10 == d;
      assert s == init + [DigitChar(d)];
    }
  }

  /** `YYYY-MM-DD`. */
  predicate IsoShaped(s: string) {
    && |s| == 10 && s[4] == '-' && s[7] == '-'
    && AllDigits(s[..4]) && AllDigits(s[5..7]) && AllDigits(s[8..])
  }

  /** `date.isoformat()` */
  function IsoDate(d: Date): (s: string)
    requires ValidDate(d)
    ensures IsoShaped(s)
  {
    var s := Padded(d.year, 4) + "-" + Padded(d.month, 2) + "-" + Padded(d.day, 2);
    assert s[..4] == Padded(d.year, 4) && s[5..7] == Padded(d.month, 2) && s[8..] == Padded(d.day, 2);
    s
  }

  function ParseIsoDate(s: string): Date
    requires IsoShaped(s)
  {
    Date(DigitsValue(s[..4]), DigitsValue(s[5..7]), DigitsValue(s[8..]))
  }

  /** Reading the ISO text back gives the date. */
  lemma IsoDateRoundTrip(d: Date)
    requires ValidDate(d)
    ensures ParseIsoDate(IsoDate(d)) == d
  {
    var s := IsoDate(d);
    assert s[..4] == Padded(d.year, 4) && s[5..7] == Padded(d.month, 2) && s[8..] == Padded(d.day, 2);
    PaddedValue(d.year, 4);
    PaddedValue(d.month, 2);
    PaddedValue(d.day, 2);
  }

  /** Every `YYYY-MM-DD` text of a valid date is the ISO text of the date it reads as. */
  lemma ParseIsoDateRoundTrip(s: string)
    requires IsoShaped(s) && ValidDate(ParseIsoDate(s))
    ensures IsoDate(ParseIsoDate(s)) == s
  {
    ValuePadded(s[..4]);
    ValuePadded(s[5..7]);
    ValuePadded(s[8..]);
    assert s == s[..4] + "-" + s[5..7] + "-" + s[8..];
  }

  /** `resume_data.get('header', {}).get('name', 'Resume')`: an empty name stays empty. */
  function ResumeName(resume: Resume): (name: string)
    ensures resume.header.Some? && resume.header.value.name.Some? ==> name == resume.header.value.name.value
    ensures resume.header.None? || resume.header.value.name.None? ==> name == "Resume"
  {
    match resume.header
    case None => "Resume"
    case Some(h) => h.name.GetOr("Resume")
  }

  const ResumeFor: string := " Resume for "

  /** The file name offered for the edited resume. */
  function ResumeFilename(resume: Resume, company: string, today: Date): (r: string)
    requires ValidDate(today)
    ensures var name := ResumeName(resume);
      && |r| == |name| + |company| + 30
      && r[..|name|] == name
      && r[|name|..|name| + 12] == ResumeFor
      && r[|name| + 12..|name| + 12 + |company|] == company
      && r[|r| - 18..|r| - 16] == " ("
      && IsoShaped(r[|r| - 16..|r| - 6]) && ParseIsoDate(r[|r| - 16..|r| - 6]) == today
      && r[|r| - 6..] == ").docx"
  {
    var name := ResumeName(resume);
    var date := IsoDate(today);
    var r := name + ResumeFor + company + " (" + date + ").docx";
    assert r[|r| - 16..|r| - 6] == date;
    IsoDateRoundTrip(today);
    r
  }

  /*
   * The cover-letter document: one paragraph per `'\n'`-separated line of the
   * generated letter, empty lines included, each with nothing after it.
   */

  const LetterFormat: Format := Format(None, None, Some(Pt(0)), None, None, None)

  /** `doc.add_paragraph(line)`: a run only for a non-empty line. */
  function LetterParagraph(line: string): (p: Paragraph)
    ensures p.style == None && p.border == None && p.format.spaceAfter == Some(0)
    ensures PlainText(p) == line
    ensures p.runs == [] <==> line == ""
  {
    var runs := if line == "" then [] else [TextRun(line, None, None, None, None)];
    assert RunsText(runs) == line by {
      if line != "" {
        assert runs[..|runs| - 1] == [];
      }
    }
    Paragraph(None, LetterFormat, None, runs)
  }

  /** The paragraphs of the letter, in order. */
  function LetterParagraphs(text: string): (r: seq<Paragraph>)
    ensures |r| == Occurrences(text, '\n') + 1
    ensures forall i :: 0 <= i < |r| ==> r[i] == LetterParagraph(Split(text, '\n')[i])
  {
    var lines := Split(text, '\n');
    seq(|lines|, i requires 0 <= i < |lines| => LetterParagraph(lines[i]))
  }

  /** The texts of some paragraphs. */
  function Texts(ps: seq<Paragraph>): (r: seq<string>)
    ensures |r| == |ps| && forall i :: 0 <= i < |ps| ==> r[i] == PlainText(ps[i])
  {
    seq(|ps|, i requires 0 <= i < |ps| => PlainText(ps[i]))
  }

  /** Reading the document's paragraphs back, one per line, gives the letter's text. */
  lemma LetterRoundTrip(text: string)
    ensures Join(Texts(LetterParagraphs(text)), "\n") == text
  {
    assert Texts(LetterParagraphs(text)) == Split(text, '\n');
    JoinSplit(text, '\n');
  }

  /** The cover-letter download: a template document with the letter's paragraphs appended. */
  method CoverLetterDocx(text: string, templateSections: seq<Section>, templateRels: seq<Relationship>)
    returns (doc: Document)
    ensures fresh(doc)
    ensures doc.paragraphs == LetterParagraphs(text)
    ensures doc.sections == templateSections && doc.rels == templateRels
  {
    doc := new Document(templateSections, templateRels);
    var lines := Split(text, '\n');
    var i := 0;
    while i < |lines|
      invariant 0 <= i <= |lines|
      invariant doc.paragraphs == LetterParagraphs(text)[..i]
      invariant doc.sections == templateSections && doc.rels == templateRels
    {
      var p := doc.AddParagraph(None, LetterFormat);
      if lines[i] != "" {
        var run := TextRun(lines[i], None, None, None, None);
        doc.AddRun(p, run);
        assert [] + [run] == [run];
      }
      assert LetterParagraphs(text)[..i + 1] == LetterParagraphs(text)[..i] + [LetterParagraph(lines[i])];
      i := i + 1;
    }
    assert LetterParagraphs(text)[..|lines|] == LetterParagraphs(text);
  }
}
