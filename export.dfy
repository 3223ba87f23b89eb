/**
 * The `/export` handler: it lays out any report mapping as a flat text document,
 * a three-line preamble followed by seven titled sections in a fixed order, and
 * joins the lines with newlines. It accepts every mapping, an empty one included;
 * a missing key shows as "None".
 */
module Export {
  import opened Wrappers
  import opened Json
  import Analyze

  /**
   * The two library renderings the exporter relies on and the model leaves
   * uninterpreted: `json.dumps(v, indent=2)`, `str` of an `int` and `str` of a `float`.
   */
  datatype Renderer = Renderer(dump: Value -> string, showInt: int -> string, showFloat: real -> string)

  /**
   * A section's value as text: a list or dict goes through the structured dump,
   * anything else through `str`, where a missing value and `null` are both "None".
   */
  function Render(value: Option<Value>, r: Renderer): (text: string)
    ensures value.None? || value == Some(Null) ==> text == "None"
    ensures value.Some? && (value.value.Array? || value.value.Object?) ==> text == r.dump(value.value)
    ensures value.Some? && value.value.Str? ==> text == value.value.s
    ensures value.Some? && value.value.Bool? ==> text == (if value.value.b then "True" else "False")
    ensures value.Some? && value.value.Int? ==> text == r.showInt(value.value.i)
    ensures value.Some? && value.value.Float? ==> text == r.showFloat(value.value.x)
  {
    match value
    case None => "None"
    case Some(Null) => "None"
    case Some(Bool(b)) => if b then "True" else "False"
    case Some(Int(i)) => r.showInt(i)
    case Some(Float(x)) => r.showFloat(x)
    case Some(Str(s)) => s
    case Some(Array(_)) => r.dump(value.value)
    case Some(Object(_)) => r.dump(value.value)
  }

  /** The header line of a section; it starts with a newline, so the text shows a blank line before it. */
  function Header(title: string): (h: string)
    ensures |h| == |title| + 7 && h[0] == '\n'
    ensures h[..4] == "\n== " && h[4..4 + |title|] == title && h[4 + |title|..] == " =="
  {
    "\n== " + title + " =="
  }

  datatype Section = Section(title: string, key: string)

  /** The seven sections, in the order they are written, each with the payload key it shows. */
  const Sections: seq<Section> := [
    Section("Summary", "summary"),
    Section("Text Reasoning", "text_reasoning"),
    Section("Image Findings", "image_findings"),
    Section("Integrated Assessment", "integrated_assessment"),
    Section("Recommended Next Steps", "next_steps"),
    Section("Patient-Friendly Summary", "patient_friendly"),
    Section("Confidence", "confidence")]

  const Title := "RAFAEL — Clinical Report"
  const Preamble: seq<string> := [Title, "", "Sections:"]

  /** What `add_section` writes: the section's header line, then its rendered value. */
  function SectionPair(title: string, value: Option<Value>, r: Renderer): seq<string> {
    [Header(title), Render(value, r)]
  }

  /** The two lines written for section `i`: its header, then the rendered value of its key. */
  function SectionLines(data: seq<Field>, r: Renderer, i: nat): seq<string>
    requires i < |Sections|
  {
    SectionPair(Sections[i].title, Get(data, Sections[i].key), r)
  }

  /** The lines written once the first `k` sections are added: the preamble, then two lines per section. */
  function LinesAfter(data: seq<Field>, r: Renderer, k: nat): (lines: seq<string>)
    requires k <= |Sections|
    ensures |lines| == 3 + 2 * k
  {
    if k == 0 then Preamble else LinesAfter(data, r, k - 1) + SectionLines(data, r, k - 1)
  }

  /** The lines of the exported document, before joining. */
  function ExportLines(data: seq<Field>, r: Renderer): seq<string> {
    LinesAfter(data, r, |Sections|)
  }

  /** `"\n".join(lines)`: the first line leads, and a newline ends it when more follow. */
  function JoinLines(lines: seq<string>): (text: string)
    ensures lines == [] ==> text == ""
    ensures lines != [] ==> lines[0] <= text
    ensures |lines| > 1 ==> |text| > |lines[0]| && text[|lines[0]|] == '\n'
  {
    if lines == [] then ""
    else if |lines| == 1 then lines[0]
    else lines[0] + "\n" + JoinLines(lines[1..])
  }

  /**
   * Adding sections never disturbs what is written: after `k` sections, the preamble
   * leads, and section `i < k` sits at lines `3 + 2i` (header) and `4 + 2i` (value).
   */
  lemma {:induction false} LinesAfterAt(data: seq<Field>, r: Renderer, k: nat, i: nat)
    requires i < k <= |Sections|
    ensures LinesAfter(data, r, k)[..3] == Preamble
    ensures LinesAfter(data, r, k)[3 + 2 * i] == Header(Sections[i].title)
    ensures LinesAfter(data, r, k)[4 + 2 * i] == Render(Get(data, Sections[i].key), r)
  {
    var prev, added := LinesAfter(data, r, k - 1), SectionLines(data, r, k - 1);
    assert LinesAfter(data, r, k) == prev + added;
    if i < k - 1 {
      LinesAfterAt(data, r, k - 1, i);
    } else {
      assert added == [Header(Sections[i].title), Render(Get(data, Sections[i].key), r)];
      if k > 1 {
        LinesAfterAt(data, r, k - 1, 0);
      }
    }
  }

  /**
   * The line list, before the join, has 17 entries: the preamble, then for each of
   * the seven sections in order its header entry followed by its value entry.
   * (A header starts with a newline and a dumped value may span several lines, so
   * the joined text has more lines than the list has entries.)
   */
  lemma ExportLayout(data: seq<Field>, r: Renderer)
    ensures |ExportLines(data, r)| == 17
    ensures ExportLines(data, r)[..3] == Preamble
    ensures forall i :: 0 <= i < 7 ==>
      && ExportLines(data, r)[3 + 2 * i] == Header(Sections[i].title)
      && ExportLines(data, r)[4 + 2 * i] == Render(Get(data, Sections[i].key), r)
  {
    LinesAfterAt(data, r, 7, 0);
    forall i | 0 <= i < 7
      ensures ExportLines(data, r)[3 + 2 * i] == Header(Sections[i].title)
      ensures ExportLines(data, r)[4 + 2 * i] == Render(Get(data, Sections[i].key), r)
    {
      LinesAfterAt(data, r, 7, i);
    }
  }

  /** The same layout written out section by section, with each section's key. */
  lemma ExportLinesUnfolded(data: seq<Field>, r: Renderer)
    ensures ExportLines(data, r) == Preamble
      + [Header("Summary"), Render(Get(data, "summary"), r)]
      + [Header("Text Reasoning"), Render(Get(data, "text_reasoning"), r)]
      + [Header("Image Findings"), Render(Get(data, "image_findings"), r)]
      + [Header("Integrated Assessment"), Render(Get(data, "integrated_assessment"), r)]
      + [Header("Recommended Next Steps"), Render(Get(data, "next_steps"), r)]
      + [Header("Patient-Friendly Summary"), Render(Get(data, "patient_friendly"), r)]
      + [Header("Confidence"), Render(Get(data, "confidence"), r)]
  {
    assert LinesAfter(data, r, 1) == Preamble + [Header("Summary"), Render(Get(data, "summary"), r)];
    assert LinesAfter(data, r, 2) == LinesAfter(data, r, 1) + SectionLines(data, r, 1);
    assert LinesAfter(data, r, 3) == LinesAfter(data, r, 2) + SectionLines(data, r, 2);
    assert LinesAfter(data, r, 4) == LinesAfter(data, r, 3) + SectionLines(data, r, 3);
    assert LinesAfter(data, r, 5) == LinesAfter(data, r, 4) + SectionLines(data, r, 4);
    assert LinesAfter(data, r, 6) == LinesAfter(data, r, 5) + SectionLines(data, r, 5);
    assert LinesAfter(data, r, 7) == LinesAfter(data, r, 6) + SectionLines(data, r, 6);
  }

  /** Joining splits at any inner line boundary. */
  lemma {:induction false} JoinSplit(lines: seq<string>, k: nat)
    requires 0 < k < |lines|
    ensures JoinLines(lines) == JoinLines(lines[..k]) + "\n" + JoinLines(lines[k..])
  {
    if k > 1 {
      JoinSplit(lines[1..], k - 1);
      assert lines[..k][1..] == lines[1..][..k - 1];
      assert lines[1..][k - 1..] == lines[k..];
    }
  }

  /** What follows a line in the joined text: nothing at the end, otherwise a newline and the rest. */
  function Rest(tail: seq<string>): string {
    if tail == [] then "" else "\n" + JoinLines(tail)
  }

  /** A joined text is its first line followed by the rest. */
  lemma JoinCons(lines: seq<string>)
    requires lines != []
    ensures JoinLines(lines) == lines[0] + Rest(lines[1..])
  {
  }

  /** Helper for `JoinAt`: concatenation regrouped from the right to the left. */
  lemma Regroup(a: string, b: string, c: string, d: string, e: string)
    ensures a + (b + (c + (d + e))) == a + b + c + d + e
  {
  }

  /** In the joined text, line `k` is followed by a newline and line `k + 1`. */
  lemma JoinAt(lines: seq<string>, k: nat)
    requires 0 < k && k + 1 < |lines|
    ensures JoinLines(lines)
      == JoinLines(lines[..k]) + "\n" + lines[k] + "\n" + lines[k + 1] + Rest(lines[k + 2..])
  {
    JoinSplit(lines, k);
    var tail := lines[k..];
    var tail2 := tail[1..];
    assert tail2 == lines[k + 1..];
    assert tail2[1..] == lines[k + 2..];
    JoinCons(tail);
    JoinCons(tail2);
    var front, x, y, more := JoinLines(lines[..k]), lines[k], lines[k + 1], Rest(lines[k + 2..]);
    assert JoinLines(tail) == x + ("\n" + (y + more));
    Regroup(front + "\n", x, "\n", y, more);
  }

  /** In the joined text, each section's header is followed on the next line by its value. */
  lemma SectionInText(data: seq<Field>, r: Renderer, i: nat)
    requires i < 7
    ensures var lines := ExportLines(data, r);
      JoinLines(lines)
        == JoinLines(lines[..3 + 2 * i]) + "\n" + Header(Sections[i].title) + "\n"
           + Render(Get(data, Sections[i].key), r) + Rest(lines[5 + 2 * i..])
  {
    LinesAfterAt(data, r, 7, i);
    JoinAt(ExportLines(data, r), 3 + 2 * i);
  }

  /** The joined preamble: the title, a blank line, then "Sections:". */
  lemma PreambleText()
    ensures JoinLines(Preamble) == Title + "\n" + "" + "\n" + "Sections:"
  {
    assert Preamble[1..] == ["", "Sections:"];
    assert JoinLines(["Sections:"]) == "Sections:";
    assert JoinLines(["", "Sections:"]) == "" + "\n" + "Sections:";
  }

  /** The text opens with the preamble, a newline and the Summary section. */
  lemma ExportOpening(data: seq<Field>, r: Renderer)
    ensures var lines := ExportLines(data, r);
      JoinLines(lines) == JoinLines(Preamble) + "\n" + Header("Summary") + "\n"
        + Render(Get(data, "summary"), r) + Rest(lines[5..])
  {
    SectionInText(data, r, 0);
    LinesAfterAt(data, r, 7, 0);
  }

  /** A key the mapping lacks, or binds to null, shows as "None" in its section; it is not an error. */
  lemma MissingSectionRendersNone(data: seq<Field>, r: Renderer, i: nat)
    requires i < 7
    requires Sections[i].key !in Keys(data) || Get(data, Sections[i].key) == Some(Null)
    ensures ExportLines(data, r)[4 + 2 * i] == "None"
  {
    LinesAfterAt(data, r, 7, i);
  }

  /** The empty mapping exports the preamble and seven headers, each followed by "None". */
  lemma EmptyExport(r: Renderer)
    ensures ExportLines([], r) == Preamble
      + [Header("Summary"), "None"]
      + [Header("Text Reasoning"), "None"]
      + [Header("Image Findings"), "None"]
      + [Header("Integrated Assessment"), "None"]
      + [Header("Recommended Next Steps"), "None"]
      + [Header("Patient-Friendly Summary"), "None"]
      + [Header("Confidence"), "None"]
  {
    ExportLinesUnfolded([], r);
  }

  /** The exporter reads exactly the seven keys the analyzer writes, in the same order. */
  lemma SectionKeysMatchReport()
    ensures |Sections| == |Analyze.ReportKeys|
    ensures forall i :: 0 <= i < |Sections| ==> Sections[i].key == Analyze.ReportKeys[i]
  {
  }

  /**
   * Exporting a report payload shows each report field in its section: text fields
   * as they are, nested objects and lists through the dump, and the confidence
   * through `str`.
   */
  lemma ExportOfReport(rep: Analyze.Report, r: Renderer)
    ensures var lines := ExportLines(rep.ToJson(), r);
      && |lines| == 17 && lines[..3] == Preamble
      && lines[3] == Header("Summary") && lines[4] == rep.summary
      && lines[5] == Header("Text Reasoning") && lines[6] == r.dump(rep.textReasoning.ToJson())
      && lines[7] == Header("Image Findings") && lines[8] == r.dump(rep.imageFindings.ToJson())
      && lines[9] == Header("Integrated Assessment") && lines[10] == rep.integratedAssessment
      && lines[11] == Header("Recommended Next Steps") && lines[12] == r.dump(Array(StrArray(rep.nextSteps)))
      && lines[13] == Header("Patient-Friendly Summary") && lines[14] == rep.patientFriendly
      && lines[15] == Header("Confidence") && lines[16] == r.showFloat(rep.confidence)
  {
    var d := rep.ToJson();
    Analyze.OutputFields(rep);
    ExportLayout(d, r);
    assert Sections[0] == Section("Summary", "summary");
    assert Sections[1] == Section("Text Reasoning", "text_reasoning");
    assert Sections[2] == Section("Image Findings", "image_findings");
    assert Sections[3] == Section("Integrated Assessment", "integrated_assessment");
    assert Sections[4] == Section("Recommended Next Steps", "next_steps");
    assert Sections[5] == Section("Patient-Friendly Summary", "patient_friendly");
    assert Sections[6] == Section("Confidence", "confidence");
  }

  /**
   * Exporting what `analyze` returned: the lay-summary section is the canned text
   * exactly when the view flag is on or the role is "Patient", and an empty line
   * otherwise; the confidence section shows 0.78; the store outcome plays no part.
   */
  lemma ExportOfAnalysis(req: Analyze.Request, storeAccepts: bool, r: Renderer)
    ensures var lines := ExportLines(Analyze.Analyze(req, storeAccepts).response, r);
      && |lines| == 17
      && lines[14] == Analyze.PatientFriendly(req.Flag(), req.role)
      && (lines[14] != "" <==> req.Flag() || req.role == "Patient")
      && lines[16] == r.showFloat(Analyze.Confidence)
      && lines[7] == Header("Image Findings")
      && lines[8] == r.dump(Analyze.BuildReport(req).imageFindings.ToJson())
  {
    ExportOfReport(Analyze.BuildReport(req), r);
  }

  /** The document for `{"summary": "ok", "next_steps": ["a", "b"]}`. */
  lemma ExportExample(r: Renderer)
    ensures var data := [Field("summary", Str("ok")), Field("next_steps", Array([Str("a"), Str("b")]))];
      var lines := ExportLines(data, r);
      && lines[3] == Header("Summary") && lines[4] == "ok"
      && lines[11] == Header("Recommended Next Steps") && lines[12] == r.dump(Array([Str("a"), Str("b")]))
      && lines[15] == Header("Confidence") && lines[16] == "None"
  {
    var data := [Field("summary", Str("ok")), Field("next_steps", Array([Str("a"), Str("b")]))];
    LinesAfterAt(data, r, 7, 0);
    LinesAfterAt(data, r, 7, 4);
    LinesAfterAt(data, r, 7, 6);
    assert Get(data, "summary") == Some(Str("ok"));
    assert Get(data, "next_steps") == Some(Array([Str("a"), Str("b")]));
    assert Get(data, "confidence") == None;
  }

  /** The list of lines `export_pdf` grows; `AddSection` is its nested `add_section` helper. */
  class ReportBuilder {
    var text: seq<string>

    constructor ()
      ensures text == Preamble
    {
      text := Preamble;
    }

    /** Appends the section's header line, then its rendered value. */
    method AddSection(title: string, value: Option<Value>, r: Renderer)
      modifies this
      ensures text == old(text) + SectionPair(title, value, r)
    {
      text := text + [Header(title)];
      text := text + [Render(value, r)];
    }
  }

  /** `export_pdf`: the text of the document for `data`; it never fails. */
  method ExportPdf(data: Dict, r: Renderer) returns (content: string)
    ensures content == JoinLines(ExportLines(data, r))
  {
    var b := new ReportBuilder();
    b.AddSection("Summary", Get(data, "summary"), r);
    b.AddSection("Text Reasoning", Get(data, "text_reasoning"), r);
    b.AddSection("Image Findings", Get(data, "image_findings"), r);
    b.AddSection("Integrated Assessment", Get(data, "integrated_assessment"), r);
    b.AddSection("Recommended Next Steps", Get(data, "next_steps"), r);
    b.AddSection("Patient-Friendly Summary", Get(data, "patient_friendly"), r);
    b.AddSection("Confidence", Get(data, "confidence"), r);
    ExportLinesUnfolded(data, r);
    content := JoinLines(b.text);
  }
}
