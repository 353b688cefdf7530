/**
 * The applications of one job: for each application an optional bold title
 * line, then one "List Bullet" paragraph per detail.
 */
module JobDetails {
  import opened Wrappers
  import opened Docx
  import opened ResumeData
  import opened Styles

  const ListBullet: string := "List Bullet"

  /** Title line: bold, no left indent, nothing after. */
  function AppTitleLine(title: string): (p: Paragraph)
    ensures p.style == None && p.runs == [Run10(title, Some(true), None)]
    ensures p.format.leftIndent == Some(0) && p.format.spaceAfter == Some(0)
  {
    Paragraph(None, LineFormat(Pt(0)).(leftIndent := Some(Pt(0))), None, [Run10(title, Some(true), None)])
  }

  function BulletFormat(trailing: bool): Format {
    LineFormat(if trailing then Pt(10) else Pt(0)).(leftIndent := Some(QuarterInch), rightIndent := Some(Pt(0)))
  }

  /** Bullet line: not bold, indented a quarter inch; 10pt after only when `trailing`. */
  function BulletLine(detail: string, trailing: bool): (p: Paragraph)
    ensures p.style == Some(ListBullet) && p.runs == [Run10(detail, Some(false), None)]
    ensures p.format.leftIndent == Some(QuarterInch) && p.format.rightIndent == Some(0)
    ensures p.format.spaceAfter == Some(if trailing then Pt(10) else 0)
  {
    Paragraph(Some(ListBullet), BulletFormat(trailing), None, [Run10(detail, Some(false), None)])
  }

  /** The bullets of one application, the last one trailing when `lastApp`. */
  function Bullets(details: seq<string>, lastApp: bool): (r: seq<Paragraph>)
    ensures |r| == |details|
    ensures forall i :: 0 <= i < |r| ==> r[i] == BulletLine(details[i], lastApp && i == |details| - 1)
  {
    seq(|details|, i requires 0 <= i < |details| => BulletLine(details[i], lastApp && i == |details| - 1))
  }

  predicate WellFormed(app: Application) {
    app.title.Some? && app.details.Some?
  }

  /**
   * One iteration of the loop over applications. `app['title']` and
   * `app['details']` are subscripts: a missing one raises after whatever was
   * appended before it. The last bullet trails when the application is
   * value-equal to the list's last one.
   */
  function ApplicationEmission(app: Application, last: Application): (e: Emission)
    ensures e.ok <==> WellFormed(app)
    ensures app.title.None? ==> e.paras == []
  {
    match app.title
    case None => Emission([], false)
    case Some(title) =>
      var heading := TitleLines(title);
      match app.details
      case None => Emission(heading, false)
      case Some(ds) => Done(heading + Bullets(ds, app == last))
  }

  /** The title line, present only when the title is truthy. */
  function TitleLines(title: string): (r: seq<Paragraph>)
    ensures |r| == Bit(title != "")
    ensures title != "" ==> r[0] == AppTitleLine(title)
  {
    if title != "" then [AppTitleLine(title)] else []
  }

  /** A titled application: its title line, then its bullets (none when `details` is missing). */
  lemma EmissionParts(app: Application, last: Application)
    requires app.title.Some?
    ensures ApplicationEmission(app, last).paras == TitleLines(app.title.value) + Bullets(app.details.GetOr([]), app == last)
  {
    if app.details.None? {
      assert Bullets([], app == last) == [];
      assert TitleLines(app.title.value) + [] == TitleLines(app.title.value);
    }
  }

  /**
   * The first `k` iterations of `add_job_applications` over `apps`, stopping at
   * the first application that raised. This is not `EmitEach`: that loop tells
   * each item whether it sits at the last index, while this one compares each
   * application by value with the last one, so a duplicate of the last
   * application is treated as last too.
   */
  function AppsPrefix(apps: seq<Application>, k: nat): Emission
    requires k <= |apps|
  {
    if k == 0 then Done([]) else Then(AppsPrefix(apps, k - 1), ApplicationEmission(apps[k - 1], apps[|apps| - 1]))
  }

  function ApplicationsEmission(apps: seq<Application>): Emission {
    AppsPrefix(apps, |apps|)
  }

  /** Once an application raised, later ones add nothing. */
  lemma {:induction false} AppsPrefixStops(apps: seq<Application>, k: nat, n: nat)
    requires k <= n <= |apps| && !AppsPrefix(apps, k).ok
    ensures AppsPrefix(apps, n) == AppsPrefix(apps, k)
    decreases n
  {
    if n > k {
      AppsPrefixStops(apps, k, n - 1);
    }
  }

  /** What the first `k` applications appended opens what the first `n` append. */
  lemma {:induction false} AppsPrefixGrows(apps: seq<Application>, k: nat, n: nat)
    requires k <= n <= |apps|
    ensures AppsPrefix(apps, k).paras <= AppsPrefix(apps, n).paras
    decreases n
  {
    if n > k {
      AppsPrefixGrows(apps, k, n - 1);
    }
  }

  /** The bullet loop of one application. */
  method AddBullets(doc: Document, details: seq<string>, lastApp: bool)
    modifies doc`paragraphs
    ensures doc.paragraphs == old(doc.paragraphs) + Bullets(details, lastApp)
  {
    ghost var bullets := Bullets(details, lastApp);
    var i := 0;
    while i < |details|
      invariant 0 <= i <= |details|
      invariant doc.paragraphs == old(doc.paragraphs) + bullets[..i]
    {
      var isLastBullet := i == |details| - 1 && lastApp;
      var p := doc.AddParagraph(Some(ListBullet), BulletFormat(isLastBullet));
      var run := Run10(details[i], Some(false), None);
      doc.AddRun(p, run);
      assert [] + [run] == [run];
      assert bullets[..i + 1] == bullets[..i] + [BulletLine(details[i], isLastBullet)];
      i := i + 1;
    }
    assert bullets[..|details|] == bullets;
  }

  /** The body of the loop over applications, for `app` in a list whose last element is `last`. */
  method AddApplication(doc: Document, app: Application, last: Application) returns (ok: bool)
    modifies doc`paragraphs
    ensures doc.paragraphs == old(doc.paragraphs) + ApplicationEmission(app, last).paras
    ensures ok == ApplicationEmission(app, last).ok
  {
    if app.title.None? {
      return false;
    }
    var title := app.title.value;
    EmissionParts(app, last);
    if title != "" {
      var p := doc.AddParagraph(None, LineFormat(Pt(0)).(leftIndent := Some(Pt(0))));
      var run := Run10(title, Some(true), None);
      doc.AddRun(p, run);
      assert [] + [run] == [run];
    }
    if app.details.None? {
      return false;
    }
    AddBullets(doc, app.details.value, app == last);
    ok := true;
  }

  /** Iteration `k` of the loop over applications, after `k` applications rendered without raising. */
  method AddApplicationAt(doc: Document, apps: seq<Application>, k: nat, ghost base: seq<Paragraph>) returns (ok: bool)
    requires k < |apps| && AppsPrefix(apps, k).ok
    requires doc.paragraphs == base + AppsPrefix(apps, k).paras
    modifies doc`paragraphs
    ensures doc.paragraphs == base + AppsPrefix(apps, k + 1).paras
    ensures ok == AppsPrefix(apps, k + 1).ok
  {
    ok := AddApplication(doc, apps[k], apps[|apps| - 1]);
    ThenAfter(base, AppsPrefix(apps, k), ApplicationEmission(apps[k], apps[|apps| - 1]));
  }

  /** `add_job_applications(doc, applications)` */
  method AddJobApplications(doc: Document, applications: seq<Application>) returns (ok: bool)
    modifies doc`paragraphs
    ensures doc.paragraphs == old(doc.paragraphs) + ApplicationsEmission(applications).paras
    ensures ok == ApplicationsEmission(applications).ok
  {
    var k := 0;
    while k < |applications|
      invariant 0 <= k <= |applications|
      invariant AppsPrefix(applications, k).ok
      invariant doc.paragraphs == old(doc.paragraphs) + AppsPrefix(applications, k).paras
    {
      var done := AddApplicationAt(doc, applications, k, old(doc.paragraphs));
      if !done {
        AppsPrefixStops(applications, k + 1, |applications|);
        return false;
      }
      k := k + 1;
    }
    ok := true;
  }

  /** Paragraphs the first `n` well-formed applications take: a title line when titled, plus one per detail. */
  function LineCount(apps: seq<Application>, n: nat): nat
    requires n <= |apps|
  {
    if n == 0 then 0
    else LineCount(apps, n - 1) + Bit(apps[n - 1].title.GetOr("") != "") + |apps[n - 1].details.GetOr([])|
  }

  lemma {:induction false} PrefixCount(apps: seq<Application>, n: nat)
    requires n <= |apps|
    requires forall i :: 0 <= i < n ==> WellFormed(apps[i])
    ensures AppsPrefix(apps, n).ok && |AppsPrefix(apps, n).paras| == LineCount(apps, n)
  {
    if n > 0 {
      PrefixCount(apps, n - 1);
    }
  }

  /** When every application has both keys, nothing raises and the count is the sum of the lines. */
  lemma ApplicationsCount(apps: seq<Application>)
    requires forall i :: 0 <= i < |apps| ==> WellFormed(apps[i])
    ensures ApplicationsEmission(apps).ok
    ensures |ApplicationsEmission(apps).paras| == LineCount(apps, |apps|)
  {
    PrefixCount(apps, |apps|);
  }

  /** An application without `title` or `details` raises: it is an error, not a skipped line. */
  lemma MissingKeyRaises(apps: seq<Application>, i: nat)
    requires i < |apps| && !WellFormed(apps[i])
    ensures !ApplicationsEmission(apps).ok
  {
    assert !AppsPrefix(apps, i + 1).ok;
    AppsPrefixStops(apps, i + 1, |apps|);
  }

  /** With the last application holding no details, every paragraph of one application has nothing after. */
  lemma NoTrailingOne(app: Application, last: Application)
    requires last.details == Some([])
    ensures forall j :: 0 <= j < |ApplicationEmission(app, last).paras| ==>
      ApplicationEmission(app, last).paras[j].format.spaceAfter == Some(0)
  {
    if app.title.Some? {
      EmissionParts(app, last);
      var bullets := Bullets(app.details.GetOr([]), app == last);
      assert forall j :: 0 <= j < |bullets| ==> bullets[j].format.spaceAfter == Some(0);
    }
  }

  lemma {:induction false} NoTrailingPrefix(apps: seq<Application>, n: nat)
    requires apps != [] && n <= |apps|
    requires apps[|apps| - 1].details == Some([])
    ensures forall j :: 0 <= j < |AppsPrefix(apps, n).paras| ==> AppsPrefix(apps, n).paras[j].format.spaceAfter == Some(0)
  {
    if n > 0 {
      NoTrailingPrefix(apps, n - 1);
      NoTrailingOne(apps[n - 1], apps[|apps| - 1]);
    }
  }

  /** When the last application has no details, no bullet of the job gets the 10pt trailing space. */
  lemma NoTrailingSpaceWhenLastHasNoDetails(apps: seq<Application>)
    requires apps != [] && apps[|apps| - 1].details == Some([])
    ensures forall j :: 0 <= j < |ApplicationsEmission(apps).paras| ==>
      ApplicationsEmission(apps).paras[j].format.spaceAfter == Some(0)
  {
    NoTrailingPrefix(apps, |apps|);
  }

  /**
   * Value equality, not position, decides the trailing space: any application
   * equal to the last one, wherever it sits, ends with a trailing bullet.
   */
  lemma DuplicateOfLastTrails(apps: seq<Application>, k: nat)
    requires k < |apps| && apps[k] == apps[|apps| - 1] && WellFormed(apps[k]) && apps[k].details.value != []
    ensures var e := ApplicationEmission(apps[k], apps[|apps| - 1]);
      && e.paras != []
      && e.paras[|e.paras| - 1] == BulletLine(apps[k].details.value[|apps[k].details.value| - 1], true)
      && e.paras[|e.paras| - 1].format.spaceAfter == Some(Pt(10))
  {
    EmissionParts(apps[k], apps[|apps| - 1]);
  }

  /**
   * Where that bullet lands in the whole list: when the applications before it
   * are well formed, the paragraph ending application `k`'s lines trails.
   */
  lemma {:induction false} DuplicateOfLastTrailsInList(apps: seq<Application>, k: nat)
    requires k < |apps| && apps[k] == apps[|apps| - 1] && WellFormed(apps[k]) && apps[k].details.value != []
    requires forall i :: 0 <= i < k ==> WellFormed(apps[i])
    ensures var whole := ApplicationsEmission(apps).paras;
      && 0 < LineCount(apps, k + 1) <= |whole|
      && whole[LineCount(apps, k + 1) - 1] == BulletLine(apps[k].details.value[|apps[k].details.value| - 1], true)
  {
    var p := AppsPrefix(apps, k + 1).paras;
    DuplicatePrefixEnds(apps, k);
    AppsPrefixGrows(apps, k + 1, |apps|);
    assert ApplicationsEmission(apps).paras[|p| - 1] == p[|p| - 1];
  }

  /** The first `k + 1` applications end with that trailing bullet, after `LineCount` lines. */
  lemma {:induction false} DuplicatePrefixEnds(apps: seq<Application>, k: nat)
    requires k < |apps| && apps[k] == apps[|apps| - 1] && WellFormed(apps[k]) && apps[k].details.value != []
    requires forall i :: 0 <= i < k ==> WellFormed(apps[i])
    ensures var p := AppsPrefix(apps, k + 1).paras;
      && |p| == LineCount(apps, k + 1) && p != []
      && p[|p| - 1] == BulletLine(apps[k].details.value[|apps[k].details.value| - 1], true)
  {
    DuplicateOfLastTrails(apps, k);
    PrefixCount(apps, k);
    AppsPrefixEndsWith(apps, k);
    PrefixCount(apps, k + 1);
  }

  /** After a prefix that did not raise, the next application's last line ends the longer prefix. */
  lemma {:induction false} AppsPrefixEndsWith(apps: seq<Application>, k: nat)
    requires k < |apps| && AppsPrefix(apps, k).ok
    requires ApplicationEmission(apps[k], apps[|apps| - 1]).paras != []
    ensures var p := AppsPrefix(apps, k + 1).paras; var e := ApplicationEmission(apps[k], apps[|apps| - 1]).paras;
      p != [] && p[|p| - 1] == e[|e| - 1]
  {
    var before := AppsPrefix(apps, k).paras;
    var e := ApplicationEmission(apps[k], apps[|apps| - 1]).paras;
    assert AppsPrefix(apps, k + 1).paras == before + e;
    assert (before + e)[|before + e| - 1] == e[|e| - 1];
  }
}
