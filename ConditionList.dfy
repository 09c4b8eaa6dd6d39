/** `get_conditions`: the problem list. */
module ConditionList {
  import opened Wrappers
  import opened Json
  import opened Records

  /** `r.get("code", {})`. */
  function Code(r: Json): Json
    requires ObjAt(r, "code")
  {
    GetObj(r, "code")
  }

  /** The fields `get_conditions` reads hold the JSON kinds FHIR R4 gives them. */
  predicate ConditionShaped(r: Json) {
    && ObjAt(r, "code")
    && StrAt(Code(r), "text")
    && ListAt(Code(r), "coding")
    && (var codings := GetList(Code(r), "coding", []); codings != [] ==> StrAt(codings[0], "code"))
  }

  predicate AllConditionsShaped(rs: seq<Json>) {
    forall i | 0 <= i < |rs| :: ConditionShaped(rs[i])
  }

  function ConditionText(r: Json): string
    requires ConditionShaped(r)
  {
    GetStr(Code(r), "text", "")
  }

  /** The first coding's code, "" when there is no coding. */
  function ConditionCode(r: Json): string
    requires ConditionShaped(r)
  {
    var codings := GetList(Code(r), "coding", []);
    if codings != [] then GetStr(codings[0], "code", "") else ""
  }

  /** The problem-list entry of one condition: none without text, else the text with its code in parentheses when it has one. */
  function Entry(r: Json): Option<string>
    requires ConditionShaped(r)
  {
    var text := ConditionText(r);
    var code := ConditionCode(r);
    if text == "" then None
    else if code != "" then Some(text + " (" + code + ")")
    else Some(text)
  }

  /** The problem list of `rs`: the entries of the conditions that have one, in order. */
  function Conditions(rs: seq<Json>): seq<string>
    requires AllConditionsShaped(rs)
  {
    if rs == [] then []
    else
      var last := rs[|rs| - 1];
      Conditions(rs[..|rs| - 1]) + (if Entry(last).Some? then [Entry(last).value] else [])
  }

  /** `get_conditions` after the fetch. */
  method GetConditions(resources: seq<Json>) returns (conditions: seq<string>)
    requires AllConditionsShaped(resources)
    ensures conditions == Conditions(resources)
  {
    conditions := [];
    var i := 0;
    while i < |resources|
      invariant 0 <= i <= |resources|
      invariant conditions == Conditions(resources[..i])
    {
      var r := resources[i];
      var text := GetStr(Code(r), "text", "");
      var codings := GetList(Code(r), "coding", []);
      var code := if codings != [] then GetStr(codings[0], "code", "") else "";
      if text != "" {
        conditions := conditions + [if code != "" then text + " (" + code + ")" else text];
      }
      assert resources[..i + 1][..i] == resources[..i];
      i := i + 1;
    }
    assert resources[..i] == resources;
  }

  /** The problem list of a concatenation is the concatenation of the problem lists: order is kept. */
  lemma {:induction false} ConditionsAppend(a: seq<Json>, b: seq<Json>)
    requires AllConditionsShaped(a) && AllConditionsShaped(b)
    ensures AllConditionsShaped(a + b)
    ensures Conditions(a + b) == Conditions(a) + Conditions(b)
  {
    if b == [] {
      assert a + b == a;
    } else {
      var b' := b[..|b| - 1];
      assert (a + b)[..|a + b| - 1] == a + b';
      assert (a + b)[|a + b| - 1] == b[|b| - 1];
      ConditionsAppend(a, b');
    }
  }

  /** One entry per condition with text, none for a condition without: the list is never longer than the input. */
  lemma {:induction false} ConditionsLength(rs: seq<Json>)
    requires AllConditionsShaped(rs)
    ensures |Conditions(rs)| <= |rs|
    ensures (forall i | 0 <= i < |rs| :: ConditionText(rs[i]) == "") ==> Conditions(rs) == []
  {
    if rs != [] {
      ConditionsLength(rs[..|rs| - 1]);
    }
  }

  /** When every condition has text, the list holds exactly one entry per condition, position by position. */
  lemma {:induction false} ConditionsAllKept(rs: seq<Json>)
    requires AllConditionsShaped(rs)
    requires forall i | 0 <= i < |rs| :: ConditionText(rs[i]) != ""
    ensures |Conditions(rs)| == |rs|
    ensures forall i | 0 <= i < |rs| :: Some(Conditions(rs)[i]) == Entry(rs[i])
  {
    if rs != [] {
      ConditionsAllKept(rs[..|rs| - 1]);
    }
  }

  /** The form of an entry: "text (code)" with a code, the bare text without one. */
  lemma EntryForm(r: Json)
    requires ConditionShaped(r)
    ensures Entry(r).Some? <==> ConditionText(r) != ""
    ensures Entry(r).Some? && ConditionCode(r) != "" ==> Entry(r).value == ConditionText(r) + " (" + ConditionCode(r) + ")"
    ensures Entry(r).Some? && ConditionCode(r) == "" ==> Entry(r).value == ConditionText(r)
  {
  }

  const Hypertension: Json := JObj(map[
    "code" := JObj(map[
      "coding" := JList([JObj(map["system" := JStr("http://hl7.org/fhir/sid/icd-10-cm"), "code" := JStr("I10"), "display" := JStr("Hypertension")])]),
      "text" := JStr("Hypertension")])])

  /** A seeded condition (setup_demo_patient.py) renders with its ICD-10 code. */
  lemma HypertensionEntry()
    ensures ConditionShaped(Hypertension)
    ensures Conditions([Hypertension]) == ["Hypertension (I10)"]
  {
    assert [Hypertension][..0] == [];
    assert ConditionText(Hypertension) == "Hypertension";
    assert ConditionCode(Hypertension) == "I10";
    assert "Hypertension" + " (" + "I10" + ")" == "Hypertension (I10)";
  }
}
