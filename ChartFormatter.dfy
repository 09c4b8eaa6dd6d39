/**
 * `format_chart_for_ai`: the chart as report lines in a fixed section order, joined by
 * newlines. Every entry of every list becomes its own line(s), in stored order.
 */
module ChartFormatter {
  import opened Text
  import opened Records

  const PatientHeader := "═══ PATIENT ═══"
  const ProblemListHeader := "\n═══ PROBLEM LIST ═══"
  const VitalsHeader := "\n═══ VITALS ═══"
  const LabsHeader := "\n═══ LABS ═══"
  const HomeMedicationsHeader := "\n═══ HOME MEDICATIONS ═══"
  const CurrentOrdersHeader := "\n═══ CURRENT ORDERS ═══"
  const ImagingHeader := "\n═══ IMAGING ═══"
  const ClinicalNotesHeader := "\n═══ CLINICAL NOTES ═══"

  function Bullet(entry: string): string {
    "  • " + entry
  }

  /** One bullet line per entry, in order. */
  function Bullets(entries: seq<string>): (lines: seq<string>)
    ensures |lines| == |entries|
    ensures forall i | 0 <= i < |entries| :: lines[i] == Bullet(entries[i])
  {
    if entries == [] then [] else Bullets(entries[..|entries| - 1]) + [Bullet(entries[|entries| - 1])]
  }

  /** "  [STATUS] study", the status upper-cased. */
  function StatusLine(report: ImagingReport): string {
    "  [" + Upper(report.status) + "] " + report.study
  }

  function FindingsLine(report: ImagingReport): string {
    "  " + report.findings
  }

  /** Two lines per report, in order: the status line, then the findings. */
  function ImagingLines(reports: seq<ImagingReport>): (lines: seq<string>)
    ensures |lines| == 2 * |reports|
    ensures forall i | 0 <= i < |reports| ::
      lines[2 * i] == StatusLine(reports[i]) && lines[2 * i + 1] == FindingsLine(reports[i])
  {
    if reports == [] then []
    else
      var last := reports[|reports| - 1];
      ImagingLines(reports[..|reports| - 1]) + [StatusLine(last), FindingsLine(last)]
  }

  function NoteHeader(note: Note): string {
    "--- " + note.docType + " ---"
  }

  /** Two lines per note, in order: the type header, then the text verbatim. */
  function NoteLines(notes: seq<Note>): (lines: seq<string>)
    ensures |lines| == 2 * |notes|
    ensures forall i | 0 <= i < |notes| :: lines[2 * i] == NoteHeader(notes[i]) && lines[2 * i + 1] == notes[i].text
  {
    if notes == [] then []
    else
      var last := notes[|notes| - 1];
      NoteLines(notes[..|notes| - 1]) + [NoteHeader(last), last.text]
  }

  /** The demographics, encounter and allergy lines. */
  function PatientLines(chart: Chart): seq<string> {
    var p := chart.patient;
    var enc := chart.encounter;
    [ PatientHeader,
      "Name: " + p.name,
      "MRN: " + p.mrn,
      "DOB: " + p.dob + "  |  Sex: " + p.gender,
      "Location: " + enc.location,
      "Reason for Visit: " + enc.reason,
      "\nAllergies: " + Join(chart.allergies, ", ") ]
  }

  /** The report, line by line: the patient block, then each section in order. */
  function ReportLines(chart: Chart): seq<string> {
    PatientLines(chart) + Assemble(Sections(chart))
  }

  /** The report text: its lines joined by newlines. */
  function Report(chart: Chart): string {
    Join(ReportLines(chart), "\n")
  }

  /** One of the `for x in ...: lines.append(f"  • {x}")` loops. */
  method AppendBullets(lines: seq<string>, entries: seq<string>) returns (out: seq<string>)
    ensures out == lines + Bullets(entries)
  {
    out := lines;
    var i := 0;
    while i < |entries|
      invariant 0 <= i <= |entries|
      invariant out == lines + Bullets(entries[..i])
    {
      out := out + ["  • " + entries[i]];
      assert entries[..i + 1][..i] == entries[..i];
      i := i + 1;
    }
    assert entries[..i] == entries;
  }

  /** The imaging loop: status line, then findings, per report. */
  method AppendImaging(lines: seq<string>, reports: seq<ImagingReport>) returns (out: seq<string>)
    ensures out == lines + ImagingLines(reports)
  {
    out := lines;
    var i := 0;
    while i < |reports|
      invariant 0 <= i <= |reports|
      invariant out == lines + ImagingLines(reports[..i])
    {
      var img := reports[i];
      out := out + ["  [" + Upper(img.status) + "] " + img.study];
      out := out + ["  " + img.findings];
      assert reports[..i + 1][..i] == reports[..i];
      i := i + 1;
    }
    assert reports[..i] == reports;
  }

  /** The notes loop: type header, then the text, per note. */
  method AppendNotes(lines: seq<string>, notes: seq<Note>) returns (out: seq<string>)
    ensures out == lines + NoteLines(notes)
  {
    out := lines;
    var k := 0;
    while k < |notes|
      invariant 0 <= k <= |notes|
      invariant out == lines + NoteLines(notes[..k])
    {
      var note := notes[k];
      out := out + ["--- " + note.docType + " ---"];
      out := out + [note.text];
      assert notes[..k + 1][..k] == notes[..k];
      k := k + 1;
    }
    assert notes[..k] == notes;
  }

  /** `format_chart_for_ai`: total, and the same chart always gives the same text. */
  method FormatChart(chart: Chart) returns (text: string)
    ensures text == Report(chart)
  {
    var lines: seq<string> := [];
    var p := chart.patient;
    lines := lines + [PatientHeader];
    lines := lines + ["Name: " + p.name];
    lines := lines + ["MRN: " + p.mrn];
    lines := lines + ["DOB: " + p.dob + "  |  Sex: " + p.gender];
    var enc := chart.encounter;
    lines := lines + ["Location: " + enc.location];
    lines := lines + ["Reason for Visit: " + enc.reason];
    lines := lines + ["\nAllergies: " + Join(chart.allergies, ", ")];
    assert lines == PatientLines(chart);

    lines := lines + [ProblemListHeader];
    lines := AppendBullets(lines, chart.conditions);
    lines := lines + [VitalsHeader];
    lines := AppendBullets(lines, chart.vitals);
    lines := lines + [LabsHeader];
    lines := AppendBullets(lines, chart.labs);
    lines := lines + [HomeMedicationsHeader];
    lines := AppendBullets(lines, chart.medications.home);
    lines := lines + [CurrentOrdersHeader];
    lines := AppendBullets(lines, chart.medications.inpatient);

    lines := lines + [ImagingHeader];
    lines := AppendImaging(lines, chart.imaging);
    lines := lines + [ClinicalNotesHeader];
    lines := AppendNotes(lines, chart.notes);
    ReportLinesInOrder(chart);
    text := Join(lines, "\n");
  }

  /** A report section after the patient block: its header line and its body lines. */
  datatype Section = Section(header: string, body: seq<string>)

  /** The sections after the patient block, in report order. */
  function Sections(chart: Chart): seq<Section> {
    [ Section(ProblemListHeader, Bullets(chart.conditions)),
      Section(VitalsHeader, Bullets(chart.vitals)),
      Section(LabsHeader, Bullets(chart.labs)),
      Section(HomeMedicationsHeader, Bullets(chart.medications.home)),
      Section(CurrentOrdersHeader, Bullets(chart.medications.inpatient)),
      Section(ImagingHeader, ImagingLines(chart.imaging)),
      Section(ClinicalNotesHeader, NoteLines(chart.notes)) ]
  }

  /** The number of lines the sections take: a header line plus the body, each. */
  function Width(sections: seq<Section>): nat {
    if sections == [] then 0 else 1 + |sections[0].body| + Width(sections[1..])
  }

  /** Each section's header, then its body, section after section. */
  function Assemble(sections: seq<Section>): (lines: seq<string>)
    ensures |lines| == Width(sections)
  {
    if sections == [] then [] else [sections[0].header] + sections[0].body + Assemble(sections[1..])
  }

  /** The position of the header of section `k` within `Assemble(sections)`. */
  function Offset(sections: seq<Section>, k: nat): (at: nat)
    requires k <= |sections|
    ensures k < |sections| ==> at + 1 + |sections[k].body| <= Width(sections)
  {
    if k == 0 then 0 else 1 + |sections[0].body| + Offset(sections[1..], k - 1)
  }

  /** In the assembled lines, section `k` is its header followed by exactly its body. */
  lemma {:induction false} AssembleLayout(sections: seq<Section>, k: nat)
    requires k < |sections|
    ensures Offset(sections, k + 1) == Offset(sections, k) + 1 + |sections[k].body|
    ensures Assemble(sections)[Offset(sections, k)] == sections[k].header
    ensures Assemble(sections)[Offset(sections, k) + 1..Offset(sections, k + 1)] == sections[k].body
  {
    var head := [sections[0].header] + sections[0].body;
    var rest := sections[1..];
    var lines := Assemble(sections);
    assert lines == head + Assemble(rest);
    if k > 0 {
      AssembleLayout(rest, k - 1);
      assert rest[k - 1] == sections[k];
      assert lines[Offset(sections, k)] == Assemble(rest)[Offset(rest, k - 1)];
      assert lines[Offset(sections, k) + 1..Offset(sections, k + 1)]
          == Assemble(rest)[Offset(rest, k - 1) + 1..Offset(rest, k)];
    }
  }

  /** Appending one section to lines already assembled. */
  lemma Step(before: seq<string>, header: string, body: seq<string>, after: seq<string>)
    ensures before + ([header] + body + after) == before + [header] + body + after
  {
  }

  /** Seven sections assemble to their headers and bodies concatenated in order. */
  lemma AssembleSeven(prefix: seq<string>, s1: Section, s2: Section, s3: Section, s4: Section,
                      s5: Section, s6: Section, s7: Section)
    ensures prefix + Assemble([s1, s2, s3, s4, s5, s6, s7])
         == prefix + [s1.header] + s1.body + [s2.header] + s2.body + [s3.header] + s3.body
            + [s4.header] + s4.body + [s5.header] + s5.body + [s6.header] + s6.body
            + [s7.header] + s7.body
  {
    var ss := [s1, s2, s3, s4, s5, s6, s7];
    assert ss[1..] == [s2, s3, s4, s5, s6, s7];
    assert ss[2..] == [s3, s4, s5, s6, s7];
    assert ss[3..] == [s4, s5, s6, s7];
    assert ss[4..] == [s5, s6, s7];
    assert ss[5..] == [s6, s7];
    assert ss[6..] == [s7];
    assert ss[1..][1..] == ss[2..];
    assert ss[2..][1..] == ss[3..];
    assert ss[3..][1..] == ss[4..];
    assert ss[4..][1..] == ss[5..];
    assert ss[5..][1..] == ss[6..];
    assert ss[6..][1..] == [];
    var p1 := prefix + [s1.header] + s1.body;
    var p2 := p1 + [s2.header] + s2.body;
    var p3 := p2 + [s3.header] + s3.body;
    var p4 := p3 + [s4.header] + s4.body;
    var p5 := p4 + [s5.header] + s5.body;
    var p6 := p5 + [s6.header] + s6.body;
    Step(prefix, s1.header, s1.body, Assemble(ss[1..]));
    Step(p1, s2.header, s2.body, Assemble(ss[2..]));
    Step(p2, s3.header, s3.body, Assemble(ss[3..]));
    Step(p3, s4.header, s4.body, Assemble(ss[4..]));
    Step(p4, s5.header, s5.body, Assemble(ss[5..]));
    Step(p5, s6.header, s6.body, Assemble(ss[6..]));
    Step(p6, s7.header, s7.body, []);
    assert p6 + [s7.header] + s7.body + [] == p6 + [s7.header] + s7.body;
  }

  /** The report lines written out, in the order `format_chart_for_ai` appends them. */
  lemma ReportLinesInOrder(chart: Chart)
    ensures ReportLines(chart)
         == PatientLines(chart)
            + [ProblemListHeader] + Bullets(chart.conditions)
            + [VitalsHeader] + Bullets(chart.vitals)
            + [LabsHeader] + Bullets(chart.labs)
            + [HomeMedicationsHeader] + Bullets(chart.medications.home)
            + [CurrentOrdersHeader] + Bullets(chart.medications.inpatient)
            + [ImagingHeader] + ImagingLines(chart.imaging)
            + [ClinicalNotesHeader] + NoteLines(chart.notes)
  {
    var ss := Sections(chart);
    AssembleSeven(PatientLines(chart), ss[0], ss[1], ss[2], ss[3], ss[4], ss[5], ss[6]);
  }

  /** The eight headers, in the fixed order they appear in. */
  lemma HeaderOrder(chart: Chart)
    ensures |Sections(chart)| == 7
    ensures [PatientHeader] + seq(7, k requires 0 <= k < 7 => Sections(chart)[k].header)
         == ["═══ PATIENT ═══", "\n═══ PROBLEM LIST ═══", "\n═══ VITALS ═══", "\n═══ LABS ═══",
             "\n═══ HOME MEDICATIONS ═══", "\n═══ CURRENT ORDERS ═══", "\n═══ IMAGING ═══",
             "\n═══ CLINICAL NOTES ═══"]
  {
  }

  /**
   * The layout of the report: the seven patient-block lines first, then each section
   * `k` (in the order of `Sections`) as its header line followed by exactly its body
   * lines, at a position fixed by the sizes of the sections before it; nothing else.
   * With `Bullets`, `ImagingLines` and `NoteLines` this places every list entry.
   */
  lemma ReportLayout(chart: Chart, k: nat)
    requires k < 7
    ensures ReportLines(chart)[..7] == PatientLines(chart)
    ensures |ReportLines(chart)| == 7 + Width(Sections(chart))
    ensures Offset(Sections(chart), k + 1) == Offset(Sections(chart), k) + 1 + |Sections(chart)[k].body|
    ensures ReportLines(chart)[7 + Offset(Sections(chart), k)] == Sections(chart)[k].header
    ensures ReportLines(chart)[7 + Offset(Sections(chart), k) + 1..7 + Offset(Sections(chart), k + 1)]
         == Sections(chart)[k].body
  {
    var ss := Sections(chart);
    AssembleLayout(ss, k);
    var lines := ReportLines(chart);
    var body := Assemble(ss);
    assert lines[..7] == PatientLines(chart);
    assert lines[7 + Offset(ss, k)] == body[Offset(ss, k)];
    assert lines[7 + Offset(ss, k) + 1..7 + Offset(ss, k + 1)] == body[Offset(ss, k) + 1..Offset(ss, k + 1)];
  }
}
