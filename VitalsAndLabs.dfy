/**
 * `get_vitals` and `get_labs`: one rendered line per Observation. Vitals render a
 * compound observation (one with components, e.g. blood pressure) as its component
 * parts joined by " / "; labs always use the simple "name: value unit" form.
 */
module VitalsAndLabs {
  import opened Wrappers
  import opened Json
  import opened Text
  import opened Records

  /** `o.get("valueQuantity", {})`. */
  function Quantity(o: Json): Json
    requires ObjAt(o, "valueQuantity")
  {
    GetObj(o, "valueQuantity")
  }

  /** An object whose `valueQuantity` has a numeric value and a string unit when present. */
  predicate MeasuredShaped(o: Json) {
    ObjAt(o, "valueQuantity") && NumAt(Quantity(o), "value") && StrAt(Quantity(o), "unit")
  }

  /** `str(val.get('value', ''))`: the value's text, "" when absent. */
  function Value(o: Json): string
    requires MeasuredShaped(o)
  {
    NumText(Quantity(o), "value")
  }

  /** `val.get('unit', '')`. */
  function Unit(o: Json): string
    requires MeasuredShaped(o)
  {
    GetStr(Quantity(o), "unit", "")
  }

  /** `comp.get("code", {}).get("coding", [{}])`: one empty coding when the key is absent. */
  function Codings(comp: Json): seq<Json>
    requires ObjAt(comp, "code") && ListAt(GetObj(comp, "code"), "coding")
  {
    GetList(GetObj(comp, "code"), "coding", [EmptyObj])
  }

  predicate ComponentShaped(comp: Json) {
    && ObjAt(comp, "code")
    && ListAt(GetObj(comp, "code"), "coding")
    && (Codings(comp) != [] ==> StrAt(Codings(comp)[0], "display"))
    && MeasuredShaped(comp)
  }

  /** The fields `get_labs` reads hold the JSON kinds FHIR R4 gives them. */
  predicate LabShaped(r: Json) {
    ObjAt(r, "code") && StrAt(GetObj(r, "code"), "text") && MeasuredShaped(r)
  }

  /** `r.get("component")` as a list, [] when absent. */
  function Components(r: Json): seq<Json>
    requires ListAt(r, "component")
  {
    GetList(r, "component", [])
  }

  /** A vital sign also reads its components. */
  predicate VitalShaped(r: Json) {
    && LabShaped(r)
    && ListAt(r, "component")
    && forall k | 0 <= k < |Components(r)| :: ComponentShaped(Components(r)[k])
  }

  predicate AllLabsShaped(rs: seq<Json>) {
    forall i | 0 <= i < |rs| :: LabShaped(rs[i])
  }

  predicate AllVitalsShaped(rs: seq<Json>) {
    forall i | 0 <= i < |rs| :: VitalShaped(rs[i])
  }

  predicate AllComponentsShaped(comps: seq<Json>) {
    forall k | 0 <= k < |comps| :: ComponentShaped(comps[k])
  }

  /** `r.get("code", {}).get("text", "")`. */
  function ObservationName(r: Json): string
    requires ObjAt(r, "code") && StrAt(GetObj(r, "code"), "text")
  {
    GetStr(GetObj(r, "code"), "text", "")
  }

  /** "name: value unit"; a missing value or unit leaves its place empty. */
  function SimpleLine(r: Json): string
    requires LabShaped(r)
  {
    ObservationName(r) + ": " + Value(r) + " " + Unit(r)
  }

  /** "display: value unit" of one component; `coding[0]` raises IndexError on an empty coding list. */
  function Part(comp: Json): Result<string, Error>
    requires ComponentShaped(comp)
  {
    if Codings(comp) == [] then Err(IndexError)
    else Ok(GetStr(Codings(comp)[0], "display", "") + ": " + Value(comp) + " " + Unit(comp))
  }

  /** The parts of all components in order; fails exactly when one component fails. */
  function Parts(comps: seq<Json>): (r: Result<seq<string>, Error>)
    requires AllComponentsShaped(comps)
    ensures r.Ok? <==> forall k | 0 <= k < |comps| :: Part(comps[k]).Ok?
    ensures r.Err? ==> r.error == IndexError
    ensures r.Ok? ==> |r.value| == |comps| && forall k | 0 <= k < |comps| :: Part(comps[k]) == Ok(r.value[k])
  {
    if comps == [] then Ok([])
    else
      var init :- Parts(comps[..|comps| - 1]);
      var part :- Part(comps[|comps| - 1]);
      Ok(init + [part])
  }

  /** The line of one vital sign: compound when the component list is non-empty, simple otherwise. */
  function VitalLine(r: Json): (result: Result<string, Error>)
    requires VitalShaped(r)
    ensures Components(r) == [] ==> result == Ok(SimpleLine(r))
    ensures result.Ok? <==> forall k | 0 <= k < |Components(r)| :: Codings(Components(r)[k]) != []
    ensures result.Err? ==> result.error == IndexError
    ensures Components(r) != [] && result.Ok? ==>
      Parts(Components(r)).Ok? && result.value == ObservationName(r) + ": " + Join(Parts(Components(r)).value, " / ")
  {
    if Components(r) != [] then
      var parts :- Parts(Components(r));
      Ok(ObservationName(r) + ": " + Join(parts, " / "))
    else Ok(SimpleLine(r))
  }

  /** The vitals list: one line per observation in order, or IndexError when any observation fails. */
  function Vitals(rs: seq<Json>): (r: Result<seq<string>, Error>)
    requires AllVitalsShaped(rs)
    ensures r.Ok? <==> forall i | 0 <= i < |rs| :: VitalLine(rs[i]).Ok?
    ensures r.Err? ==> r.error == IndexError
    ensures r.Ok? ==> |r.value| == |rs| && forall i | 0 <= i < |rs| :: VitalLine(rs[i]) == Ok(r.value[i])
  {
    if rs == [] then Ok([])
    else
      var init :- Vitals(rs[..|rs| - 1]);
      var line :- VitalLine(rs[|rs| - 1]);
      Ok(init + [line])
  }

  /** The labs list: exactly one simple line per observation, in order, components ignored. */
  function Labs(rs: seq<Json>): (r: seq<string>)
    requires AllLabsShaped(rs)
    ensures |r| == |rs|
    ensures forall i | 0 <= i < |rs| :: r[i] == SimpleLine(rs[i])
  {
    if rs == [] then [] else Labs(rs[..|rs| - 1]) + [SimpleLine(rs[|rs| - 1])]
  }

  /** The `parts` loop of `get_vitals` over one observation's components. */
  method ComponentParts(comps: seq<Json>) returns (r: Result<seq<string>, Error>)
    requires AllComponentsShaped(comps)
    ensures r == Parts(comps)
  {
    var parts: seq<string> := [];
    var j := 0;
    while j < |comps|
      invariant 0 <= j <= |comps|
      invariant Parts(comps[..j]) == Ok(parts)
    {
      var comp := comps[j];
      var codings := GetList(GetObj(comp, "code"), "coding", [EmptyObj]);
      if codings == [] {
        // `[0]` on the empty coding list raises
        assert Part(comps[j]).Err?;
        return Err(IndexError);
      }
      var quantity := GetObj(comp, "valueQuantity");
      parts := parts + [GetStr(codings[0], "display", "") + ": " + NumText(quantity, "value") + " " + GetStr(quantity, "unit", "")];
      assert comps[..j + 1][..j] == comps[..j];
      j := j + 1;
    }
    assert comps[..j] == comps;
    return Ok(parts);
  }

  /** The body of the `get_vitals` loop for one observation. */
  method RenderVital(res: Json) returns (r: Result<string, Error>)
    requires VitalShaped(res)
    ensures r == VitalLine(res)
  {
    var name := GetStr(GetObj(res, "code"), "text", "");
    var comps := GetList(res, "component", []);
    assert comps == Components(res) && AllComponentsShaped(comps);
    if comps != [] {
      var parts :- ComponentParts(comps);
      return Ok(name + ": " + Join(parts, " / "));
    } else {
      var quantity := GetObj(res, "valueQuantity");
      return Ok(name + ": " + NumText(quantity, "value") + " " + GetStr(quantity, "unit", ""));
    }
  }

  /** `get_vitals` after the fetch. */
  method GetVitals(resources: seq<Json>) returns (r: Result<seq<string>, Error>)
    requires AllVitalsShaped(resources)
    ensures r == Vitals(resources)
  {
    var vitals: seq<string> := [];
    var i := 0;
    while i < |resources|
      invariant 0 <= i <= |resources|
      invariant Vitals(resources[..i]) == Ok(vitals)
    {
      var line := RenderVital(resources[i]);
      if line.Err? {
        assert !VitalLine(resources[i]).Ok?;
        return Err(line.error);
      }
      vitals := vitals + [line.value];
      assert resources[..i + 1][..i] == resources[..i];
      i := i + 1;
    }
    assert resources[..i] == resources;
    return Ok(vitals);
  }

  /** `get_labs` after the fetch. */
  method GetLabs(resources: seq<Json>) returns (labs: seq<string>)
    requires AllLabsShaped(resources)
    ensures labs == Labs(resources)
  {
    labs := [];
    var i := 0;
    while i < |resources|
      invariant 0 <= i <= |resources|
      invariant labs == Labs(resources[..i])
    {
      var res := resources[i];
      var name := GetStr(GetObj(res, "code"), "text", "");
      var quantity := GetObj(res, "valueQuantity");
      labs := labs + [name + ": " + NumText(quantity, "value") + " " + GetStr(quantity, "unit", "")];
      assert labs[|labs| - 1] == SimpleLine(res);
      assert resources[..i + 1][..i] == resources[..i];
      i := i + 1;
    }
    assert resources[..i] == resources;
  }

  function LoincCoding(code: string, display: string): Json {
    JObj(map["system" := JStr("http://loinc.org"), "code" := JStr(code), "display" := JStr(display)])
  }

  function BloodPressureComponent(code: string, display: string, value: string): Json {
    JObj(map[
      "code" := JObj(map["coding" := JList([LoincCoding(code, display)])]),
      "valueQuantity" := JObj(map["value" := JNum(value), "unit" := JStr("mmHg")])])
  }

  /** The seeded blood-pressure panel (setup_demo_patient.py), systolic 94 and diastolic 58 mmHg. */
  const BloodPressure: Json := JObj(map[
    "status" := JStr("final"),
    "code" := JObj(map["coding" := JList([LoincCoding("85354-9", "Blood pressure")]), "text" := JStr("Blood pressure")]),
    "component" := JList([BloodPressureComponent("8480-6", "Systolic", "94"), BloodPressureComponent("8462-4", "Diastolic", "58")])])

  /** The seeded heart rate, 112 bpm. */
  const HeartRate: Json := JObj(map[
    "status" := JStr("final"),
    "code" := JObj(map["coding" := JList([LoincCoding("8867-4", "Heart rate")]), "text" := JStr("Heart rate")]),
    "valueQuantity" := JObj(map["value" := JNum("112"), "unit" := JStr("bpm"), "code" := JStr("/min")])])

  lemma BloodPressureComponentPart(code: string, display: string, value: string)
    ensures ComponentShaped(BloodPressureComponent(code, display, value))
    ensures Part(BloodPressureComponent(code, display, value)) == Ok(display + ": " + value + " " + "mmHg")
  {
    var comp := BloodPressureComponent(code, display, value);
    assert Codings(comp) == [LoincCoding(code, display)];
    assert GetStr(LoincCoding(code, display), "display", "") == display;
  }

  lemma BloodPressureParts()
    ensures VitalShaped(BloodPressure)
    ensures Parts(Components(BloodPressure)) == Ok(["Systolic: 94 mmHg", "Diastolic: 58 mmHg"])
  {
    BloodPressureComponentPart("8480-6", "Systolic", "94");
    BloodPressureComponentPart("8462-4", "Diastolic", "58");
    var comps := Components(BloodPressure);
    assert comps == [BloodPressureComponent("8480-6", "Systolic", "94"), BloodPressureComponent("8462-4", "Diastolic", "58")];
    var parts := Parts(comps);
    assert parts.Ok? && |parts.value| == 2;
    assert "Systolic" + ": " + "94" + " " + "mmHg" == "Systolic: 94 mmHg";
    assert "Diastolic" + ": " + "58" + " " + "mmHg" == "Diastolic: 58 mmHg";
    assert Part(comps[0]) == Ok(parts.value[0]) && Part(comps[1]) == Ok(parts.value[1]);
    assert parts.value == [parts.value[0], parts.value[1]];
  }

  /** The compound rendering of the seeded blood-pressure panel. */
  lemma BloodPressureLine()
    ensures VitalShaped(BloodPressure)
    ensures VitalLine(BloodPressure) == Ok("Blood pressure: Systolic: 94 mmHg / Diastolic: 58 mmHg")
  {
    BloodPressureParts();
    var joined := Join(["Systolic: 94 mmHg", "Diastolic: 58 mmHg"], " / ");
    assert joined == "Systolic: 94 mmHg" + " / " + "Diastolic: 58 mmHg";
    assert ObservationName(BloodPressure) == "Blood pressure";
    assert VitalLine(BloodPressure) == Ok("Blood pressure" + ": " + joined);
    BloodPressureText();
  }

  lemma BloodPressureText()
    ensures "Blood pressure" + ": " + ("Systolic: 94 mmHg" + " / " + "Diastolic: 58 mmHg")
         == "Blood pressure: Systolic: 94 mmHg / Diastolic: 58 mmHg"
  {
  }

  /** The simple rendering of the seeded heart rate. */
  lemma HeartRateLine()
    ensures VitalShaped(HeartRate)
    ensures VitalLine(HeartRate) == Ok("Heart rate: 112 bpm")
  {
    assert Components(HeartRate) == [];
    assert SimpleLine(HeartRate) == "Heart rate" + ": " + "112" + " " + "bpm";
    assert "Heart rate" + ": " + "112" + " " + "bpm" == "Heart rate: 112 bpm";
  }

  /** Labs never use the compound form: the blood-pressure panel as a lab has neither value nor unit. */
  lemma LabsIgnoreComponents()
    ensures LabShaped(BloodPressure)
    ensures Labs([BloodPressure]) == ["Blood pressure:  "]
  {
    assert Labs([BloodPressure])[0] == SimpleLine(BloodPressure);
    assert Quantity(BloodPressure) == EmptyObj;
    assert SimpleLine(BloodPressure) == "Blood pressure" + ": " + "" + " " + "";
    assert "Blood pressure" + ": " + "" + " " + "" == "Blood pressure:  ";
  }
}
