# Resume and cover-letter layout engine

This project models the layout engine of a Streamlit application that tailors a
résumé and writes a cover letter. The engine turns the résumé JSON into a Word
document through python-docx.

A résumé is a record with five optional parts: a header, a summary, skill groups,
jobs and an education block. A job carries free bullet points and titled
applications. The engine writes:

- the name and a contact line of hyperlinks and diamond separators;
- four sections, each opened by a ruled title;
- each job as a heading followed by bulleted applications;
- certificates, specializations and degrees.

The application around the engine adds four things:

- it moves an untitled first application into the job's bullet points;
- it parses the edited bullet text back into lines;
- it checks the two forms for required fields and builds the salutation;
- it names the download and turns the cover letter into one paragraph per line.

Modules, one per source file plus shared ones:

| module | file | what it holds |
|---|---|---|
| `Wrappers` | wrappers.dfy | `Option` |
| `Strings` | strings.dfy | Python's `strip`, `split`, `splitlines` and `join` |
| `Docx` | docx.dfy | the document: a `Document` class with `sections`, `paragraphs` and relationship `rels`, updated in place |
| `Docx` | docx.dfy | `Emission` and `Then`: what a renderer appends, and whether it finished without raising |
| `ResumeData` | resume_data.dfy | the résumé JSON as datatypes with optional keys |
| `Styles` | styles.dfy | shared paragraph and run formats |
| `SectionTitle` | section_title.dfy | the section title |
| `ResumeHeader` | resume_header.dfy | the hyperlink helper |
| `JobHeading` | job_heading.dfy | the job heading |
| `JobDetails` | job_details.dfy | the applications list |
| `EducationSection` | education_section.dfy | certificates, specializations and degrees |
| `FullResume` | full_resume.dfy | the header, summary, skills, experience, education and the whole document |
| `MainApp` | main_app.dfy | the application fragments listed above |

Each renderer is a module-level method that takes the `Document` and may change
its paragraphs (`modifies doc`paragraphs`; the header also changes `doc`rels`).
Its postcondition says that the new paragraph list is the old one followed by
the paragraphs of a specification function. Lemmas about those functions state what the layout promises.

A subscript such as `skill['category']` on a missing key raises `KeyError`. That
is modelled as `ok == false`, together with exactly the paragraphs appended
before the raise.

Four behaviours of the code shape the model:

- The summary paragraph is left-aligned.
- A missing key under a subscript raises; it does not degrade to empty text.
- A contact link is added whenever its value is truthy, whatever the value looks like.
- The last application is recognised by value equality (`app == applications[-1]`). A duplicate of the last application therefore also gets the trailing space.

## Model

| member | source | states |
|---|---|---|
| `Docx.Document.constructor` | full_resume_template.py:104 | a new document holds the template's sections and relationships and no paragraphs |
| `Docx.Document.AddParagraph` | section_title_template.py:9 | appends one empty paragraph with the given style and format, and returns its index |
| `Docx.Document.AddRun` | section_title_template.py:11 | appends a run to the chosen paragraph; every other paragraph is unchanged |
| `Docx.Document.SetBottomBorder` | section_title_template.py:22-31 | sets the bottom border of one paragraph and changes nothing else |
| `Docx.Document.RelateTo` | resume_header_template.py:10 | reuses an equal external relationship or appends a new one; the returned id indexes that relationship |
| `Docx.Relate` | resume_header_template.py:10 | the id points at the relationship, no earlier entry is equal to it, and the list grows only when the relationship is new |
| `Docx.IndexOf` | resume_header_template.py:10 | finds the first equal relationship, and returns none exactly when there is none |
| `Docx.AppendRunViews` | section_title_template.py:11 | appending a run extends the paragraph's text, its hyperlinks and its text runs by that run alone |
| `Docx.EmitEachOk` | full_resume_template.py:53-70 | a loop of renderers finishes without raising iff every item renders without raising |
| `Docx.EmitEachStops` | full_resume_template.py:53-70 | after an item raises, later items append nothing |
| `Docx.EmitEachPrefix` | full_resume_template.py:53-70 | the paragraphs of the first k items begin those of the first n items |
| `Docx.EmitEachSingles` | full_resume_template.py:53-70 | when each item renders one paragraph, paragraph i is item i's paragraph |
| `Docx.EmitEachPairs` | education_section_template.py:41-73 | when each item renders two paragraphs, paragraphs 2i and 2i+1 are item i's |
| `Docx.ThenChain` | full_resume_template.py:111-115 | three sections after a fixed prefix finish iff each finishes, and then they concatenate in order |
| `SectionTitle.TitleParagraph` | section_title_template.py:7-31 | the title is one bold italic 13pt Times New Roman run, left-aligned, zero spacing, single line, single 8-eighths rule under it |
| `SectionTitle.AddSectionTitle` | section_title_template.py:7-31 | appends exactly the title paragraph |
| `ResumeHeader.LinkRun` | resume_header_template.py:11-32 | the hyperlink run refers to the relationship id, is blue and single-underlined, and has a size of twice the point size in half-points |
| `ResumeHeader.AddHyperlink` | resume_header_template.py:8-34 | registers the external relationship, appends the link run to the given paragraph only, and returns that paragraph; the appended run's id resolves to the URL |
| `FullResume.LinkStep` | resume_header_template.py:8-34 | adding a link keeps every earlier link resolving to its URL and only extends the relationship list |
| `FullResume.ThroughPhoneContents` | full_resume_template.py:27-30 | after the email and phone parts, the links are the email link (when truthy) and the text runs are diamond, phone (when truthy), diamond |
| `FullResume.ThroughGithubContents` | full_resume_template.py:27-34 | after the GitHub part, the links are email, LinkedIn and GitHub, each present iff its field is truthy, and each resolves to its URL |
| `FullResume.ContactLineContents` | full_resume_template.py:22-35 | the contact line's links are the truthy ones, in order email, LinkedIn, GitHub, website; each resolves to its URL; the text runs are the four diamonds and the phone |
| `FullResume.ContactLinkCount` | full_resume_template.py:27-35 | the number of hyperlinks equals the number of truthy link fields |
| `FullResume.AddResumeHeader` | full_resume_template.py:11-35 | appends the name line and the contact line; relationships become those the contact line registered |
| `FullResume.AddProfessionalSummary` | full_resume_template.py:37-49 | appends the section title and one left-aligned 10pt paragraph holding the summary |
| `FullResume.SkillLine` | full_resume_template.py:53-70 | one paragraph, 10pt after only for the last skill; it raises iff the category or the details are missing |
| `FullResume.AddTechnicalSkills` | full_resume_template.py:51-70 | appends the title, then each skill line in order, stopping at the first that raises |
| `FullResume.SkillsOk` | full_resume_template.py:53-70 | the section finishes iff every skill has both a category and details |
| `FullResume.SkillsLayout` | full_resume_template.py:51-70 | for complete skills: title, then one `category:` / ` details` line per skill, with space after only the last one |
| `FullResume.AllApplications` | full_resume_template.py:83-90 | truthy bullet points become an untitled first application ahead of the applications; otherwise the list is the applications alone |
| `FullResume.CollectApplications` | full_resume_template.py:83-90 | the loop builds exactly that list |
| `FullResume.AddProfessionalExperience` | full_resume_template.py:72-92 | appends the title, then per job its heading and its applications, stopping at the first job that raises |
| `FullResume.JobStartsWithHeading` | full_resume_template.py:75-82 | a job opens with its heading; the heading has no extra line and no space after; the job's own `extra_line` never matters |
| `FullResume.JobParas` | full_resume_template.py:74-92 | a job renders as its heading followed by its combined application list |
| `FullResume.BulletPointsFollowHeading` | full_resume_template.py:83-92 | non-empty bullet points render right after the heading, as untitled bullets in order |
| `FullResume.LeadingBullets` | full_resume_template.py:86-92 | the bullet-point pseudo-application renders first |
| `FullResume.FirstApplicationLeads` | job_details_template.py:8-37 | the first application's paragraphs open the whole list |
| `FullResume.AddEducation` | full_resume_template.py:94-101 | appends the title, then certificates, specializations and degrees, each only when its list is non-empty, stopping at a raise |
| `FullResume.EducationLayout` | full_resume_template.py:94-101 | for complete entries the section finishes, opens with its title, and has 1 + (1 + certificates) + 2·specializations + 2·degrees paragraphs, omitting empty blocks |
| `FullResume.SetMargins` | full_resume_template.py:105-110 | every section gets margins of half an inch at the top, left and right, and zero at the bottom and gutter; the section count is kept |
| `FullResume.BuildResumeDocx` | full_resume_template.py:103-116 | a fresh document (`fresh(doc)`) with the margins set, the header lines, then the body; relationships are the template's plus the contact links; `ok` iff no renderer raised |
| `FullResume.SectionOrder` | full_resume_template.py:111-115 | the body finishes iff skills, experience and education each finish; it is then summary, skills, experience, education in that order |
| `FullResume.SectionTitlesLead` | full_resume_template.py:37-101 | each of the four sections opens with its own title |
| `JobHeading.JobHeadingParagraphs` | job_heading_template.py:6-49 | the company line exists iff company and location are truthy; the position line always has three runs (position, ` \| `, italic dates); the extra line exists iff truthy and alone has 5pt after |
| `JobHeading.AddJobHeading` | job_heading_template.py:6-49 | appends exactly those paragraphs |
| `JobDetails.AppTitleLine` | job_details_template.py:10-21 | a bold 10pt title with no indent and no space after |
| `JobDetails.BulletLine` | job_details_template.py:23-37 | a `List Bullet` paragraph, not bold, indented a quarter inch, 10pt after only when trailing |
| `JobDetails.Bullets` | job_details_template.py:23-37 | one bullet per detail, in order; only the last detail of the last application trails |
| `JobDetails.ApplicationEmission` | job_details_template.py:8-37 | an application raises iff its title or details key is missing; a missing title appends nothing |
| `JobDetails.EmissionParts` | job_details_template.py:10-37 | a titled application renders its title line (only when the title is non-empty), then its bullets |
| `JobDetails.AddJobApplications` | job_details_template.py:7-37 | appends each application in order, stopping at the first that raises |
| `JobDetails.AppsPrefixStops` | job_details_template.py:8 | after an application raises, later ones append nothing |
| `JobDetails.AppsPrefixGrows` | job_details_template.py:8 | the paragraphs of the first k applications begin those of the first n |
| `JobDetails.PrefixCount` | job_details_template.py:8-37 | for well-formed applications the loop finishes, and its paragraph count is the sum of non-empty titles and details |
| `JobDetails.ApplicationsCount` | job_details_template.py:7-37 | the same for the whole list |
| `JobDetails.MissingKeyRaises` | job_details_template.py:8-37 | any application missing its title or details makes the call raise |
| `JobDetails.NoTrailingPrefix` | job_details_template.py:28-36 | when the last application has no details, no paragraph of any prefix has space after |
| `JobDetails.NoTrailingSpaceWhenLastHasNoDetails` | job_details_template.py:28-36 | the same for the whole list |
| `JobDetails.DuplicateOfLastTrails` | job_details_template.py:28-36 | any application equal to the last one, at any position, renders a last paragraph that is its last detail's bullet with 10pt after |
| `JobDetails.DuplicateOfLastTrailsInList` | job_details_template.py:8-37 | in the whole list, when the applications before it are well formed, the line that ends such an application sits at `LineCount(apps, k + 1) - 1` and is that trailing bullet |
| `EducationSection.CertificateLine` | education_section_template.py:20-39 | one `name \| date` line, 10pt after only for the last one; it raises iff the name or date is missing |
| `EducationSection.AddCertificates` | education_section_template.py:7-39 | appends the `Professional Certificates:` heading, then each certificate line, stopping at a raise |
| `EducationSection.CertificatesOk` | education_section_template.py:7-39 | finishes iff every certificate has a name and a date |
| `EducationSection.CertificatesLayout` | education_section_template.py:7-39 | for complete certificates: heading, then line i+1 is certificate i, with space after only the last |
| `EducationSection.SpecializationLines` | education_section_template.py:43-73 | raises iff a field is missing; otherwise two lines |
| `EducationSection.AddSpecializations` | education_section_template.py:41-73 | appends each specialization's two lines, stopping at a raise |
| `EducationSection.SpecializationsOk` | education_section_template.py:41-73 | finishes iff every specialization has all four fields |
| `EducationSection.SpecializationsLayout` | education_section_template.py:41-73 | line 2i is `institution, location` with no space after; line 2i+1 is `name \| Completed date` with 10pt after |
| `EducationSection.DegreeLines` | education_section_template.py:77-107 | raises iff a field is missing; otherwise two lines |
| `EducationSection.AddDegrees` | education_section_template.py:75-107 | appends each degree's two lines, stopping at a raise |
| `EducationSection.DegreesOk` | education_section_template.py:75-107 | finishes iff every degree has all four fields |
| `EducationSection.DegreesLayout` | education_section_template.py:75-107 | line 2i is `university, location \| Graduated date`; line 2i+1 is the degree in bold with 10pt after |
| `MainApp.Normalized` | main_app.py:367-369 | when bullet points are falsy and the first application's title is empty, its details become the bullet points and it is dropped; otherwise the job is unchanged; no other field changes |
| `MainApp.NormalizeExperience` | main_app.py:364-369 | every job in the list is replaced by its normalised form |
| `MainApp.NormalizedKeepsApplications` | main_app.py:367-369 | moving an empty-titled first application with details leaves the combined application list of `add_professional_experience` unchanged |
| `MainApp.NormalizedRendersAlike` | main_app.py:367-369 | such a job renders identically in the experience section (full_resume_template.py) before and after the move |
| `MainApp.EmptyFirstDropped` | main_app.py:367-369 | dropping a first application with an empty title and no details does not change the rendering |
| `MainApp.UntitledFirstRaises` | main_app.py:367 | a first application without a title key would make `add_job_applications` raise |
| `MainApp.NormalizeIdempotent` | main_app.py:367-369 | normalising twice equals normalising once when a moved application has details |
| `Strings.Strip` | main_app.py:426 | `str.strip()`: the result has no whitespace at either end, is empty iff the input is all whitespace, and leaves an already trimmed string alone; whitespace is Python's `isspace` set |
| `Strings.SplitLines` | main_app.py:426 | `str.splitlines()`: no piece contains a line boundary of Python's set; the lemmas below fix the pieces themselves |
| `Strings.SplitLinesCons` | main_app.py:426 | a line without boundaries followed by a newline splits off as exactly that line |
| `Strings.SplitLinesCrLf` | main_app.py:426 | `\r\n` counts as one boundary: the line before it splits off and no empty line follows |
| `Strings.SplitLinesBreak` | main_app.py:426 | any other boundary, a lone `\r` included, ends the line before it, and the text after it starts the next line |
| `Strings.SplitLinesSingle` | main_app.py:426 | a non-empty string without boundaries is a single line; with the two lemmas above, this fixes the pieces of every string |
| `Strings.Split` | main_app.py:192 | `str.split('\n')`: one piece more than there are separators, and no piece contains the separator |
| `Strings.Join` | main_app.py:424 | `sep.join(parts)`: the length is the total length of the parts plus one separator between each pair |
| `Strings.JoinSplit` | main_app.py:192 | joining the pieces of a split with the separator gives the string back |
| `MainApp.Cleaned` | main_app.py:426 | the comprehension keeps at most as many lines as it is given; `MainApp.CleanedLines` states what each kept line is |
| `MainApp.ParseDetails` | main_app.py:426 | every parsed line is stripped, non-empty and has no line boundary |
| `MainApp.CleanedLines` | main_app.py:426 | stripping and dropping blank lines keeps only clean lines |
| `MainApp.ParseJoinedDetails` | main_app.py:424-426 | joining clean details with newlines and parsing them back gives the same details |
| `MainApp.ParseDetailsStable` | main_app.py:424-426 | re-parsing the joined result of a parse changes nothing |
| `MainApp.Step1Check` | main_app.py:75-76 | no error iff the job title, description and résumé are all non-empty; otherwise the exact message |
| `MainApp.Step2Check` | main_app.py:162-163 | no error iff company, position, description and résumé are all non-empty; otherwise the exact message |
| `MainApp.Step2Stricter` | main_app.py:162 | the cover-letter form passes iff the company is given and the résumé form would pass with the position as title |
| `MainApp.Salutation` | main_app.py:166-169 | a blank name gives `Dear Hiring Manager,`; otherwise `Dear `, the unstripped name, and `,` |
| `MainApp.SalutationAddressee` | main_app.py:166-169 | the salutation addresses the given name when it is not blank, and no one otherwise |
| `MainApp.Padded` | main_app.py:454 | a zero-padded field has the requested width and only digits |
| `MainApp.PaddedValue` | main_app.py:454 | reading a padded number back gives the number |
| `MainApp.ValuePadded` | main_app.py:454 | padding the value of a digit string gives the string back |
| `MainApp.IsoDate` | main_app.py:454 | `date.isoformat()` of a valid date is ten characters: four digits, `-`, two digits, `-`, two digits |
| `MainApp.IsoDateRoundTrip` | main_app.py:454 | parsing the ISO form of a valid date gives the date |
| `MainApp.ParseIsoDateRoundTrip` | main_app.py:454 | an ISO-shaped string of a valid date is the ISO form of its parse |
| `MainApp.ResumeName` | main_app.py:452 | the header's name, or `Resume` when the header or the name is missing |
| `MainApp.ResumeFilename` | main_app.py:452-455 | `name Resume for company (YYYY-MM-DD).docx`: its length, each piece at its place, and the date part parses back to today |
| `MainApp.LetterParagraph` | main_app.py:193-194 | one paragraph with no space after whose text is the line; it has no run iff the line is empty |
| `MainApp.LetterParagraphs` | main_app.py:192-194 | one paragraph per newline-separated piece, empty pieces included |
| `MainApp.LetterRoundTrip` | main_app.py:192-194 | joining the paragraph texts with newlines gives the letter back |
| `MainApp.CoverLetterDocx` | main_app.py:191-194 | a fresh document from the template whose paragraphs are exactly those of the letter |

## Left out

- The Streamlit forms, session state, buttons and download widgets are not part of this model. Only the values they hand to the engine are.
- The prompt texts sent for polishing and for the cover letter, the OpenAI calls, JSON parsing of the model's reply, uploading a DOCX and rendering a PDF are left out; they go to or come from external services. The cover-letter text and the résumé record are parameters.
- The date comes from the clock, so it is a parameter of `MainApp.ResumeFilename`.
- Template contents (the default sections and relationships of `Document()`) are parameters too.
- Saving to a byte buffer and the WordprocessingML serialisation are left out. This includes the element order inside `w:rPr`, the `eastAsia` font attribute and `OxmlElement` plumbing. A paragraph is modelled as its style, format, border and runs.
- JSON `null` and a missing key are both `None`. Python's `.get(k, d)` returns `None` for an explicit `null`, which the model cannot distinguish.
  This reverses the outcome for an explicit `null` in a subscripted field:
  - In Python, `f"{skill['category']}:"` renders `None:` and `f" {skill['details']}"` renders ` None`.
  - `add_run(cert['date'])`, and likewise a specialization's or degree's `date`, adds an empty run.
  - `if app['title']:` treats a `null` title as no title.
  - The model treats each of these as a missing key and raises, in `FullResume.SkillLine`, `EducationSection.CertificateLine`, `EducationSection.SpecializationLines`, `EducationSection.DegreeLines` and `JobDetails.ApplicationEmission`.
  - Only `details: null` on an application raises in both, because iterating over `None` fails.
  - Such `null` cells arise when a row is added in the application's editable tables.
- f-strings and `add_run` of non-string values (numbers, lists) are left out; all fields are strings or lists of strings.
- `MainApp.NormalizeExperience` replaces array elements with new values. The Python code mutates shared dictionaries in place, so aliasing between jobs is not captured.
- `MainApp.Cleaned`: its contract states only the length bound. That its lines are clean is proved separately in `MainApp.CleanedLines`, to keep the function cheap to use.
- `MainApp.NormalizeIdempotent` requires that a moved application has details. Moving an empty list leaves falsy bullet points, and the next application may move again, so idempotence does not hold there.
- `MainApp.SalutationAddressee` excludes the recruiter name `Hiring Manager`. Its salutation equals the default one, so the name cannot be read back.
- `MainApp.ValidDate` accepts day 31 in every month. Calendar validity is the clock's business and does not affect formatting.
- The sample-usage blocks at the bottom of the template files are demonstration code and are left out.
