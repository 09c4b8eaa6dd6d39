/** `get_patient`: demographics out of one Patient resource. */
module PatientExtractor {
  import opened Wrappers
  import opened Json
  import opened Text
  import opened Records

  /** `p.get("name", [{}])`: the name list, or one empty name when the key is absent. */
  function Names(p: Json): seq<Json>
    requires ListAt(p, "name")
  {
    GetList(p, "name", [EmptyObj])
  }

  /** The fields `get_patient` reads hold the JSON kinds FHIR R4 gives them. */
  predicate PatientShaped(p: Json) {
    && ListAt(p, "name")
    && (Names(p) != [] ==> StrListAt(Names(p)[0], "given") && StrAt(Names(p)[0], "family"))
    && ListAt(p, "identifier")
    && (GetList(p, "identifier", []) != [] ==> StrAt(GetList(p, "identifier", [])[0], "value"))
    && StrAt(p, "birthDate")
    && StrAt(p, "gender")
  }

  /** The display name: the given parts joined by single spaces, one space, then the family name. */
  function FullName(given: seq<string>, family: string): string {
    Join(given, " ") + " " + family
  }

  /** `get_patient` after the fetch. The only failure is `name[0]` on an empty name list. */
  function GetPatient(p: Json): (r: Result<Patient, Error>)
    requires PatientShaped(p)
    ensures r.Err? <==> Has(p, "name") && p.fields["name"].items == []
    ensures r.Err? ==> r.error == IndexError
    ensures r.Ok? ==> r.value.name == FullName(GetStrList(Names(p)[0], "given"), GetStr(Names(p)[0], "family", ""))
    ensures r.Ok? && !Has(p, "name") ==> r.value.name == " "
    ensures r.Ok? && GetList(p, "identifier", []) == [] ==> r.value.mrn == ""
    ensures r.Ok? && Has(p, "identifier") && p.fields["identifier"].items != [] ==>
              r.value.mrn == GetStr(p.fields["identifier"].items[0], "value", "")
    ensures r.Ok? ==> (r.value.dob == "Unknown" <== !Has(p, "birthDate"))
    ensures r.Ok? && Has(p, "birthDate") ==> r.value.dob == p.fields["birthDate"].s
    ensures r.Ok? ==> (r.value.gender == "Unknown" <== !Has(p, "gender"))
    ensures r.Ok? && Has(p, "gender") ==> r.value.gender == p.fields["gender"].s
  {
    var names := Names(p);
    if names == [] then Err(IndexError)
    else
      var name := names[0];
      var fullName := FullName(GetStrList(name, "given"), GetStr(name, "family", ""));
      var ids := GetList(p, "identifier", []);
      // `for ident in ...: mrn = ...; break` reads the first identifier only
      var mrn := if ids != [] then GetStr(ids[0], "value", "") else "";
      Ok(Patient(fullName, mrn, GetStr(p, "birthDate", "Unknown"), GetStr(p, "gender", "Unknown")))
  }

  /**
   * With at least one given part the name is all the parts, family last, separated by
   * single spaces; with none it is a leading space and the family name.
   */
  lemma {:induction false} FullNameParts(given: seq<string>, family: string)
    ensures given != [] ==> FullName(given, family) == Join(given + [family], " ")
    ensures given == [] ==> FullName(given, family) == " " + family
  {
    if given != [] {
      JoinSnoc(given, family, " ");
    }
  }

  /** A missing family name leaves a trailing space after the given parts. */
  lemma FullNameWithoutFamily(given: seq<string>)
    requires given != []
    ensures FullName(given, "") == Join(given, " ") + " "
    ensures FullName(given, "")[|FullName(given, "")| - 1] == ' '
  {
  }

  /** The seeded demo patient (setup_demo_patient.py). */
  const DemoPatient: Json := JObj(map[
    "resourceType" := JStr("Patient"),
    "identifier" := JList([JObj(map["system" := JStr("urn:oid:1.2.3.4.5"), "value" := JStr("004593821")])]),
    "name" := JList([JObj(map["family" := JStr("Whitaker"), "given" := JList([JStr("Harold")])])]),
    "gender" := JStr("male"),
    "birthDate" := JStr("1957-08-03")])

  lemma DemoPatientDemographics()
    ensures PatientShaped(DemoPatient)
    ensures GetPatient(DemoPatient) == Ok(Patient("Harold Whitaker", "004593821", "1957-08-03", "male"))
  {
    var name := Names(DemoPatient)[0];
    assert GetStrList(name, "given") == ["Harold"];
    assert FullName(["Harold"], "Whitaker") == "Harold Whitaker";
  }
}
