/** `get_encounter`: location, reason and id of the most recent encounter. */
module EncounterExtractor {
  import opened Wrappers
  import opened Json
  import opened Records

  const UnknownLocation := "Unknown"
  const NoReason := "Not specified"

  /** The fields `get_encounter` reads hold the JSON kinds FHIR R4 gives them. */
  predicate EncounterShaped(e: Json) {
    && ListAt(e, "location")
    && (var locs := GetList(e, "location", []);
        locs != [] ==> ObjAt(locs[0], "location") && StrAt(GetObj(locs[0], "location"), "display"))
    && ListAt(e, "reasonCode")
    && (var reasons := GetList(e, "reasonCode", []); reasons != [] ==> StrAt(reasons[0], "text"))
  }

  /** The first location's display name, "Unknown" when there is none. */
  function Location(e: Json): (r: string)
    requires EncounterShaped(e)
    ensures GetList(e, "location", []) == [] ==> r == UnknownLocation
    ensures GetList(e, "location", []) != [] ==>
              r == GetStr(GetObj(GetList(e, "location", [])[0], "location"), "display", UnknownLocation)
  {
    var locs := GetList(e, "location", []);
    // `for loc in ...: location = ...; break` reads the first location only
    if locs != [] then GetStr(GetObj(locs[0], "location"), "display", UnknownLocation) else UnknownLocation
  }

  /** The first reason's text, "" when there is none. */
  function Reason(e: Json): (r: string)
    requires EncounterShaped(e)
    ensures GetList(e, "reasonCode", []) == [] ==> r == ""
    ensures GetList(e, "reasonCode", []) != [] ==> r == GetStr(GetList(e, "reasonCode", [])[0], "text", "")
  {
    var reasons := GetList(e, "reasonCode", []);
    if reasons != [] then GetStr(reasons[0], "text", "") else ""
  }

  /**
   * `get_encounter` after the fetch. No encounter gives the fixed default without an id; an
   * encounter without `id` raises KeyError; only the first encounter is read.
   */
  function GetEncounter(encounters: seq<Json>): (r: Result<Encounter, Error>)
    requires encounters != [] ==> EncounterShaped(encounters[0])
    ensures encounters == [] ==> r == Ok(Encounter(UnknownLocation, NoReason, None))
    ensures encounters != [] ==> (r.Ok? <==> Has(encounters[0], "id"))
    ensures r.Err? ==> r.error == KeyError("id")
    ensures r.Ok? && encounters != [] ==>
              r.value == Encounter(Location(encounters[0]), Reason(encounters[0]), Some(encounters[0].fields["id"]))
    ensures r.Ok? ==> (r.value.encounterId.None? <==> encounters == [])
  {
    if encounters == [] then Ok(Encounter(UnknownLocation, NoReason, None))
    else
      var enc := encounters[0];
      var location := Location(enc);
      var reason := Reason(enc);
      if "id" in enc.fields then Ok(Encounter(location, reason, Some(enc.fields["id"]))) else Err(KeyError("id"))
  }

  /** The seeded emergency visit (setup_demo_patient.py), as the server returns it with an id. */
  const DemoEncounter: Json := JObj(map[
    "id" := JStr("enc-1"),
    "status" := JStr("in-progress"),
    "location" := JList([JObj(map["location" := JObj(map["display" := JStr("ED Room 12")])])]),
    "reasonCode" := JList([JObj(map["text" := JStr("Abdominal pain, CT shows free air")])])])

  lemma DemoEncounterDetails()
    ensures EncounterShaped(DemoEncounter)
    ensures GetEncounter([DemoEncounter]) ==
            Ok(Encounter("ED Room 12", "Abdominal pain, CT shows free air", Some(JStr("enc-1"))))
  {
  }
}
