/** `get_imaging`: one study/status/findings summary per DiagnosticReport. */
module ImagingSummary {
  import opened Json
  import opened Records

  const NoConclusion := "No conclusion provided"

  /** The fields `get_imaging` reads hold the JSON kinds FHIR R4 gives them. */
  predicate ReportShaped(r: Json) {
    && ObjAt(r, "code")
    && StrAt(GetObj(r, "code"), "text")
    && StrAt(r, "conclusion")
    && StrAt(r, "status")
  }

  predicate AllReportsShaped(rs: seq<Json>) {
    forall i | 0 <= i < |rs| :: ReportShaped(rs[i])
  }

  /**
   * The summary of one report. Findings fall back to the sentinel only when `conclusion` is
   * absent (an empty conclusion stays empty); status and study fall back to "".
   */
  function Summary(r: Json): (s: ImagingReport)
    requires ReportShaped(r)
    ensures !Has(r, "conclusion") ==> s.findings == NoConclusion
    ensures Has(r, "conclusion") ==> s.findings == r.fields["conclusion"].s
    ensures !Has(r, "status") ==> s.status == ""
    ensures Has(r, "status") ==> s.status == r.fields["status"].s
    ensures !Has(GetObj(r, "code"), "text") ==> s.study == ""
    ensures Has(GetObj(r, "code"), "text") ==> s.study == GetObj(r, "code").fields["text"].s
  {
    ImagingReport(GetStr(GetObj(r, "code"), "text", ""), GetStr(r, "status", ""), GetStr(r, "conclusion", NoConclusion))
  }

  /** One summary per report, in order. */
  function Summaries(rs: seq<Json>): (s: seq<ImagingReport>)
    requires AllReportsShaped(rs)
    ensures |s| == |rs|
    ensures forall i | 0 <= i < |rs| :: s[i] == Summary(rs[i])
  {
    if rs == [] then [] else Summaries(rs[..|rs| - 1]) + [Summary(rs[|rs| - 1])]
  }

  /** `get_imaging` after the fetch. */
  method GetImaging(resources: seq<Json>) returns (reports: seq<ImagingReport>)
    requires AllReportsShaped(resources)
    ensures reports == Summaries(resources)
  {
    reports := [];
    var i := 0;
    while i < |resources|
      invariant 0 <= i <= |resources|
      invariant reports == Summaries(resources[..i])
    {
      var r := resources[i];
      var name := GetStr(GetObj(r, "code"), "text", "");
      var conclusion := GetStr(r, "conclusion", NoConclusion);
      var status := GetStr(r, "status", "");
      reports := reports + [ImagingReport(name, status, conclusion)];
      assert resources[..i + 1][..i] == resources[..i];
      i := i + 1;
    }
    assert resources[..i] == resources;
  }

  /** The seeded CT report (setup_demo_patient.py) without its conclusion text. */
  const CtWithoutConclusion: Json := JObj(map[
    "status" := JStr("preliminary"),
    "code" := JObj(map["text" := JStr("CT Abdomen/Pelvis with IV Contrast")])])

  lemma MissingConclusion()
    ensures ReportShaped(CtWithoutConclusion)
    ensures Summaries([CtWithoutConclusion]) ==
            [ImagingReport("CT Abdomen/Pelvis with IV Contrast", "preliminary", "No conclusion provided")]
  {
    assert Summaries([CtWithoutConclusion])[0] == Summary(CtWithoutConclusion);
  }
}
