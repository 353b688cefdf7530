/**
 * The part of a python-docx `Document` that the resume renderers touch: the
 * body's paragraphs (with their format, optional bottom border and runs), the
 * document part's relationships (hyperlink targets) and the page sections.
 * Lengths are English Metric Units (EMU), which is what python-docx's `Pt` and
 * `Inches` produce.
 */
module Docx {
  import opened Wrappers

  const EmuPerPoint: int := 12700
  const EmuPerInch: int := 914400

  /** `Pt(n)` */
  function Pt(n: int): int { n * EmuPerPoint }

  /** `Inches(0.5)` and `Inches(0.25)` */
  const HalfInch: int := EmuPerInch / 2
  const QuarterInch: int := EmuPerInch / 4

  const TimesNewRoman: string := "Times New Roman"

  datatype Alignment = Left | Center

  /** `line_spacing_rule = WD_LINE_SPACING.SINGLE` versus `line_spacing = 1.0` (a multiple of one line). */
  datatype LineSpacing = SingleRule | OneLineMultiple

  /** The `paragraph_format` fields the renderers assign; `None` is a field left to the style. */
  datatype Format = Format(
    alignment: Option<Alignment>,
    spaceBefore: Option<int>,
    spaceAfter: Option<int>,
    lineSpacing: Option<LineSpacing>,
    leftIndent: Option<int>,
    rightIndent: Option<int>)

  /** A `w:bottom` element inside the paragraph's `w:pBdr`. */
  datatype Border = Border(val: string, size: int, space: int, color: string)

  /**
   * The content of a paragraph: a run made by `add_run` (unset font properties
   * are `None`), or a `w:hyperlink` element holding one run, whose `relId`
   * indexes the document part's relationships.
   */
  datatype Run =
    | TextRun(text: string, font: Option<string>, size: Option<int>, bold: Option<bool>, italic: Option<bool>)
    | Hyperlink(relId: nat, text: string, linkFont: string, halfPoints: int, color: string, underline: string)

  datatype Paragraph = Paragraph(style: Option<string>, format: Format, border: Option<Border>, runs: seq<Run>)

  datatype Relationship = Relationship(relType: string, target: string, external: bool)

  datatype Section = Section(topMargin: int, bottomMargin: int, leftMargin: int, rightMargin: int, gutter: int)

  function AppendRun(p: Paragraph, r: Run): Paragraph {
    p.(runs := p.runs + [r])
  }

  /** The text a reader sees in a paragraph: its runs' texts, in order. */
  function PlainText(p: Paragraph): string {
    RunsText(p.runs)
  }

  function RunsText(runs: seq<Run>): string {
    if runs == [] then "" else RunsText(runs[..|runs| - 1]) + runs[|runs| - 1].text
  }

  /** The hyperlink elements among `runs`, in order. */
  function Hyperlinks(runs: seq<Run>): (r: seq<Run>)
    ensures |r| <= |runs|
    ensures forall i :: 0 <= i < |r| ==> r[i].Hyperlink?
  {
    if runs == [] then []
    else Hyperlinks(runs[..|runs| - 1]) + (if runs[|runs| - 1].Hyperlink? then [runs[|runs| - 1]] else [])
  }

  /** The plain runs among `runs`, in order. */
  function TextRuns(runs: seq<Run>): (r: seq<Run>)
    ensures |r| <= |runs|
    ensures forall i :: 0 <= i < |r| ==> r[i].TextRun?
  {
    if runs == [] then []
    else TextRuns(runs[..|runs| - 1]) + (if runs[|runs| - 1].TextRun? then [runs[|runs| - 1]] else [])
  }

  /** Appending one run extends exactly one of the two views, and the text by the run's text. */
  lemma AppendRunViews(runs: seq<Run>, r: Run)
    ensures Hyperlinks(runs + [r]) == Hyperlinks(runs) + (if r.Hyperlink? then [r] else [])
    ensures TextRuns(runs + [r]) == TextRuns(runs) + (if r.TextRun? then [r] else [])
    ensures RunsText(runs + [r]) == RunsText(runs) + r.text
  {
    assert (runs + [r])[..|runs|] == runs;
  }

  function Bit(b: bool): nat { if b then 1 else 0 }

  /*
   * Relationships. python-docx's `part.relate_to(url, reltype, is_external=True)`
   * reuses the first relationship with the same type, target and external flag,
   * and otherwise adds one; the returned `rId` is modelled by its position.
   */

  datatype Related = Related(rels: seq<Relationship>, rId: nat)

  /** The first position holding `rel`, if any. */
  function IndexOf(rels: seq<Relationship>, rel: Relationship): (k: Option<nat>)
    ensures k.Some? ==> k.value < |rels| && rels[k.value] == rel
    ensures k.Some? ==> forall j :: 0 <= j < k.value ==> rels[j] != rel
    ensures k.None? <==> rel !in rels
  {
    if rels == [] then None
    else if rels[0] == rel then Some(0)
    else match IndexOf(rels[1..], rel)
      case None => None
      case Some(k) => Some(k + 1)
  }

  /** Get-or-add of an external relationship. */
  function Relate(rels: seq<Relationship>, rel: Relationship): (r: Related)
    ensures r.rId < |r.rels| && r.rels[r.rId] == rel
    ensures forall j :: 0 <= j < r.rId ==> r.rels[j] != rel
    ensures r.rels == if rel in rels then rels else rels + [rel]
  {
    match IndexOf(rels, rel)
    case Some(k) => Related(rels, k)
    case None => Related(rels + [rel], |rels|)
  }

  /*
   * Rendering outcomes. Python renderers append paragraphs one after the other
   * and raise KeyError at a missing key, leaving what they appended so far in the
   * document. An emission is what a renderer appended and whether it completed.
   */

  datatype Emission = Emission(paras: seq<Paragraph>, ok: bool)

  function Done(paras: seq<Paragraph>): Emission { Emission(paras, true) }

  /** `a` followed by `b`; `b` never runs when `a` raised. */
  function Then(a: Emission, b: Emission): Emission {
    if a.ok then Emission(a.paras + b.paras, b.ok) else a
  }

  /** Appending what `Then(a, b)` appends to `base`, once `a` completed. */
  lemma ThenAfter(base: seq<Paragraph>, a: Emission, b: Emission)
    requires a.ok
    ensures base + Then(a, b).paras == base + a.paras + b.paras
    ensures Then(a, b).ok == b.ok
  {
    assert base + (a.paras + b.paras) == base + a.paras + b.paras;
  }

  /** Four renderers in a row complete when each of the last three does, and then append one after the other. */
  lemma ThenChain(p: seq<Paragraph>, a: Emission, b: Emission, c: Emission)
    ensures var e := Then(Done(p), Then(a, Then(b, c)));
      && (e.ok <==> a.ok && b.ok && c.ok)
      && (e.ok ==> e.paras == p + a.paras + b.paras + c.paras)
  {
    if a.ok && b.ok && c.ok {
      assert p + (a.paras + (b.paras + c.paras)) == p + a.paras + b.paras + c.paras;
    }
  }

  /** Item `i` rendered as a `for i, x in enumerate(xs)` loop body does, told whether it is the last one. */
  function RenderAt<T>(xs: seq<T>, i: nat, render: (T, bool) -> Emission): Emission
    requires i < |xs|
  {
    render(xs[i], i == |xs| - 1)
  }

  /** The first `n` iterations of such a loop, stopping at the first item that raised. */
  function EmitEach<T>(xs: seq<T>, n: nat, render: (T, bool) -> Emission): Emission
    requires n <= |xs|
  {
    if n == 0 then Done([]) else Then(EmitEach(xs, n - 1, render), RenderAt(xs, n - 1, render))
  }

  /** One more iteration, after iterations that all completed, appends what the item renders. */
  lemma EmitEachAfter<T>(base: seq<Paragraph>, xs: seq<T>, i: nat, render: (T, bool) -> Emission)
    requires i < |xs| && EmitEach(xs, i, render).ok
    ensures base + EmitEach(xs, i + 1, render).paras == base + EmitEach(xs, i, render).paras + RenderAt(xs, i, render).paras
    ensures EmitEach(xs, i + 1, render).ok == RenderAt(xs, i, render).ok
  {
    ThenAfter(base, EmitEach(xs, i, render), RenderAt(xs, i, render));
  }

  /** Once an iteration raised, later iterations add nothing. */
  lemma {:induction false} EmitEachStops<T>(xs: seq<T>, k: nat, n: nat, render: (T, bool) -> Emission)
    requires k <= n <= |xs| && !EmitEach(xs, k, render).ok
    ensures EmitEach(xs, n, render) == EmitEach(xs, k, render)
    decreases n
  {
    if n > k {
      EmitEachStops(xs, k, n - 1, render);
    }
  }

  /** The loop completes exactly when every iteration completes. */
  lemma {:induction false} EmitEachOk<T>(xs: seq<T>, n: nat, render: (T, bool) -> Emission)
    requires n <= |xs|
    ensures EmitEach(xs, n, render).ok <==> forall i :: 0 <= i < n ==> RenderAt(xs, i, render).ok
    decreases n
  {
    if n > 0 {
      EmitEachOk(xs, n - 1, render);
    }
  }

  /** What the first `k` iterations appended is a prefix of what the first `n` append. */
  lemma {:induction false} EmitEachPrefix<T>(xs: seq<T>, k: nat, n: nat, render: (T, bool) -> Emission)
    requires k <= n <= |xs|
    ensures EmitEach(xs, k, render).paras <= EmitEach(xs, n, render).paras
    decreases n
  {
    if n > k {
      EmitEachPrefix(xs, k, n - 1, render);
    }
  }

  /** When every item renders completely into one paragraph, item `i` is paragraph `i`. */
  lemma {:induction false} EmitEachSingles<T>(xs: seq<T>, n: nat, render: (T, bool) -> Emission)
    requires n <= |xs|
    requires forall i :: 0 <= i < n ==> RenderAt(xs, i, render).ok && |RenderAt(xs, i, render).paras| == 1
    ensures EmitEach(xs, n, render).ok && |EmitEach(xs, n, render).paras| == n
    ensures forall i :: 0 <= i < n ==> EmitEach(xs, n, render).paras[i] == RenderAt(xs, i, render).paras[0]
    decreases n
  {
    if n > 0 {
      EmitEachSingles(xs, n - 1, render);
    }
  }

  /** When every item renders completely into two paragraphs, item `i` is paragraphs `2i` and `2i + 1`. */
  lemma {:induction false} EmitEachPairs<T>(xs: seq<T>, n: nat, render: (T, bool) -> Emission)
    requires n <= |xs|
    requires forall i :: 0 <= i < n ==> RenderAt(xs, i, render).ok && |RenderAt(xs, i, render).paras| == 2
    ensures EmitEach(xs, n, render).ok && |EmitEach(xs, n, render).paras| == 2 * n
    ensures forall i :: 0 <= i < n ==>
      && EmitEach(xs, n, render).paras[2 * i] == RenderAt(xs, i, render).paras[0]
      && EmitEach(xs, n, render).paras[2 * i + 1] == RenderAt(xs, i, render).paras[1]
    decreases n
  {
    if n > 0 {
      EmitEachPairs(xs, n - 1, render);
    }
  }

  /** The document being built. */
  class Document {
    var sections: seq<Section>
    var paragraphs: seq<Paragraph>
    var rels: seq<Relationship>

    /**
     * `Document()`: the default template has an empty body; its sections and its
     * document part's relationships are given.
     */
    constructor (templateSections: seq<Section>, templateRels: seq<Relationship>)
      ensures sections == templateSections && paragraphs == [] && rels == templateRels
    {
      sections := templateSections;
      paragraphs := [];
      rels := templateRels;
    }

    /** `doc.add_paragraph(style=style)` followed by the assignments to its format. */
    method AddParagraph(style: Option<string>, format: Format) returns (p: nat)
      modifies this`paragraphs
      ensures paragraphs == old(paragraphs) + [Paragraph(style, format, None, [])]
      ensures p == |old(paragraphs)|
    {
      p := |paragraphs|;
      paragraphs := paragraphs + [Paragraph(style, format, None, [])];
    }

    /** `paragraph.add_run(...)`, or appending a hyperlink element to `paragraph._p`. */
    method AddRun(p: nat, run: Run)
      requires p < |paragraphs|
      modifies this`paragraphs
      ensures paragraphs == old(paragraphs)[p := AppendRun(old(paragraphs)[p], run)]
    {
      paragraphs := paragraphs[p := AppendRun(paragraphs[p], run)];
    }

    /** Appending a `w:pBdr` holding `border` to the paragraph's properties. */
    method SetBottomBorder(p: nat, border: Border)
      requires p < |paragraphs|
      modifies this`paragraphs
      ensures paragraphs == old(paragraphs)[p := old(paragraphs)[p].(border := Some(border))]
    {
      paragraphs := paragraphs[p := paragraphs[p].(border := Some(border))];
    }

    /** `part.relate_to(target, relType, is_external=True)`: the search for a match, then the add. */
    method RelateTo(relType: string, target: string) returns (rId: nat)
      modifies this`rels
      ensures rels == Relate(old(rels), Relationship(relType, target, true)).rels
      ensures rId == Relate(old(rels), Relationship(relType, target, true)).rId
    {
      var rel := Relationship(relType, target, true);
      var i := 0;
      while i < |rels|
        invariant 0 <= i <= |rels|
        invariant forall j :: 0 <= j < i ==> rels[j] != rel
      {
        if rels[i] == rel {
          return i;
        }
        i := i + 1;
      }
      rId := |rels|;
      rels := rels + [rel];
    }
  }
}
