/**
 * `pull_full_chart`: the nine requests in order, each turned into its part of the chart.
 * The responses are inputs; the first failure (an HTTP error status or a Python exception
 * while unwrapping or extracting) ends the pull.
 */
module ChartAggregator {
  import opened Wrappers
  import opened Json
  import opened Records
  import opened Bundle
  import PatientExtractor
  import EncounterExtractor
  import ConditionList
  import AllergyList
  import VitalsAndLabs
  import MedicationClassifier
  import ImagingSummary
  import NoteExtractor

  /** The response to each of the nine requests `pull_full_chart` makes. */
  datatype Responses = Responses(
    patient: Response,
    encounter: Response,
    conditions: Response,
    allergies: Response,
    vitals: Response,
    labs: Response,
    medications: Response,
    imaging: Response,
    notes: Response)

  /** The requests in the order they are made, each with the resource type it names. */
  function Requests(rs: Responses): (reqs: seq<(string, Response)>)
    ensures |reqs| == 9
  {
    [ ("Patient", rs.patient),
      ("Encounter", rs.encounter),
      ("Condition", rs.conditions),
      ("AllergyIntolerance", rs.allergies),
      ("Observation", rs.vitals),
      ("Observation", rs.labs),
      ("MedicationRequest", rs.medications),
      ("DiagnosticReport", rs.imaging),
      ("DocumentReference", rs.notes) ]
  }

  /** Every successful response has the FHIR R4 shape its extractor reads. */
  predicate ResponsesShaped(rs: Responses) {
    && (!Failed(rs.patient) ==> PatientExtractor.PatientShaped(rs.patient.body))
    && FirstResourceSatisfies(rs.encounter, EncounterExtractor.EncounterShaped)
    && ResourcesSatisfy(rs.conditions, ConditionList.ConditionShaped)
    && ResourcesSatisfy(rs.allergies, AllergyList.AllergyShaped)
    && ResourcesSatisfy(rs.vitals, VitalsAndLabs.VitalShaped)
    && ResourcesSatisfy(rs.labs, VitalsAndLabs.LabShaped)
    && ResourcesSatisfy(rs.medications, MedicationClassifier.MedicationShaped)
    && ResourcesSatisfy(rs.imaging, ImagingSummary.ReportShaped)
    && ResourcesSatisfy(rs.notes, NoteExtractor.NoteShaped)
  }

  /** The HTTP error of the first request whose response failed, if any. */
  function FirstFailure(rs: Responses): Option<Error> {
    if Failed(rs.patient) then Some(HttpError("Patient", rs.patient.status))
    else if Failed(rs.encounter) then Some(HttpError("Encounter", rs.encounter.status))
    else if Failed(rs.conditions) then Some(HttpError("Condition", rs.conditions.status))
    else if Failed(rs.allergies) then Some(HttpError("AllergyIntolerance", rs.allergies.status))
    else if Failed(rs.vitals) then Some(HttpError("Observation", rs.vitals.status))
    else if Failed(rs.labs) then Some(HttpError("Observation", rs.labs.status))
    else if Failed(rs.medications) then Some(HttpError("MedicationRequest", rs.medications.status))
    else if Failed(rs.imaging) then Some(HttpError("DiagnosticReport", rs.imaging.status))
    else if Failed(rs.notes) then Some(HttpError("DocumentReference", rs.notes.status))
    else None
  }

  /** `FirstFailure` agrees with the request list: None exactly when no response failed. */
  lemma FirstFailureNone(rs: Responses)
    ensures FirstFailure(rs) == None <==> forall i | 0 <= i < 9 :: !Failed(Requests(rs)[i].1)
  {
    var reqs := Requests(rs);
    if FirstFailure(rs) != None {
      if Failed(rs.patient) { assert Failed(reqs[0].1); }
      else if Failed(rs.encounter) { assert Failed(reqs[1].1); }
      else if Failed(rs.conditions) { assert Failed(reqs[2].1); }
      else if Failed(rs.allergies) { assert Failed(reqs[3].1); }
      else if Failed(rs.vitals) { assert Failed(reqs[4].1); }
      else if Failed(rs.labs) { assert Failed(reqs[5].1); }
      else if Failed(rs.medications) { assert Failed(reqs[6].1); }
      else if Failed(rs.imaging) { assert Failed(reqs[7].1); }
      else { assert Failed(reqs[8].1); }
    }
  }

  /** `get_patient`: the request, then the demographics. */
  function FetchPatient(resp: Response): (r: Result<Patient, Error>)
    requires !Failed(resp) ==> PatientExtractor.PatientShaped(resp.body)
    ensures Failed(resp) <==> r == Err(HttpError("Patient", resp.status))
    ensures r.Err? && r.error.HttpError? ==> Failed(resp)
  {
    if Failed(resp) then Err(HttpError("Patient", resp.status)) else PatientExtractor.GetPatient(resp.body)
  }

  /** `get_encounter`: the search, then the first encounter. */
  function FetchEncounter(resp: Response): (r: Result<Encounter, Error>)
    requires FirstResourceSatisfies(resp, EncounterExtractor.EncounterShaped)
    ensures Failed(resp) <==> r == Err(HttpError("Encounter", resp.status))
    ensures r.Err? && r.error.HttpError? ==> Failed(resp)
  {
    var encounters :- GetBundle("Encounter", resp);
    BundleFirstSatisfies("Encounter", resp, EncounterExtractor.EncounterShaped);
    EncounterExtractor.GetEncounter(encounters)
  }

  /** `get_conditions`: the search, then the problem list. */
  function FetchConditions(resp: Response): (r: Result<seq<string>, Error>)
    requires ResourcesSatisfy(resp, ConditionList.ConditionShaped)
    ensures Failed(resp) <==> r == Err(HttpError("Condition", resp.status))
    ensures r.Err? ==> Failed(resp) || r.error == KeyError("resource")
    ensures r.Ok? ==> GetBundle("Condition", resp).Ok? && |r.value| <= |GetBundle("Condition", resp).value|
  {
    var resources :- GetBundle("Condition", resp);
    BundleResourcesSatisfy("Condition", resp, ConditionList.ConditionShaped);
    ConditionList.ConditionsLength(resources);
    Ok(ConditionList.Conditions(resources))
  }

  /** `get_allergies`: the search, then the allergy list, never empty. */
  function FetchAllergies(resp: Response): (r: Result<seq<string>, Error>)
    requires ResourcesSatisfy(resp, AllergyList.AllergyShaped)
    ensures Failed(resp) <==> r == Err(HttpError("AllergyIntolerance", resp.status))
    ensures r.Err? ==> Failed(resp) || r.error == KeyError("resource")
    ensures r.Ok? ==> r.value != []
  {
    var resources :- GetBundle("AllergyIntolerance", resp);
    BundleResourcesSatisfy("AllergyIntolerance", resp, AllergyList.AllergyShaped);
    Ok(AllergyList.Allergies(resources))
  }

  /** `get_vitals`: the search, then one line per observation. */
  function FetchVitals(resp: Response): (r: Result<seq<string>, Error>)
    requires ResourcesSatisfy(resp, VitalsAndLabs.VitalShaped)
    ensures Failed(resp) <==> r == Err(HttpError("Observation", resp.status))
    ensures r.Err? ==> Failed(resp) || r.error == KeyError("resource") || r.error == IndexError
    ensures r.Ok? ==> GetBundle("Observation", resp).Ok? && |r.value| == |GetBundle("Observation", resp).value|
  {
    var resources :- GetBundle("Observation", resp);
    BundleResourcesSatisfy("Observation", resp, VitalsAndLabs.VitalShaped);
    VitalsAndLabs.Vitals(resources)
  }

  /** `get_labs`: the search, then one line per observation. */
  function FetchLabs(resp: Response): (r: Result<seq<string>, Error>)
    requires ResourcesSatisfy(resp, VitalsAndLabs.LabShaped)
    ensures Failed(resp) <==> r == Err(HttpError("Observation", resp.status))
    ensures r.Err? ==> Failed(resp) || r.error == KeyError("resource")
    ensures r.Ok? ==> GetBundle("Observation", resp).Ok? && |r.value| == |GetBundle("Observation", resp).value|
  {
    var resources :- GetBundle("Observation", resp);
    BundleResourcesSatisfy("Observation", resp, VitalsAndLabs.LabShaped);
    Ok(VitalsAndLabs.Labs(resources))
  }

  /** `get_medications`: the search, then the home/inpatient partition. */
  function FetchMedications(resp: Response): (r: Result<Meds, Error>)
    requires ResourcesSatisfy(resp, MedicationClassifier.MedicationShaped)
    ensures Failed(resp) <==> r == Err(HttpError("MedicationRequest", resp.status))
    ensures r.Err? ==> Failed(resp) || r.error == KeyError("resource")
    ensures r.Ok? ==> GetBundle("MedicationRequest", resp).Ok? && |r.value.home| + |r.value.inpatient| == |GetBundle("MedicationRequest", resp).value|
  {
    var resources :- GetBundle("MedicationRequest", resp);
    BundleResourcesSatisfy("MedicationRequest", resp, MedicationClassifier.MedicationShaped);
    MedicationClassifier.ClassifySizes(resources);
    Ok(MedicationClassifier.Classify(resources))
  }

  /** `get_imaging`: the search, then one summary per report. */
  function FetchImaging(resp: Response): (r: Result<seq<ImagingReport>, Error>)
    requires ResourcesSatisfy(resp, ImagingSummary.ReportShaped)
    ensures Failed(resp) <==> r == Err(HttpError("DiagnosticReport", resp.status))
    ensures r.Err? ==> Failed(resp) || r.error == KeyError("resource")
    ensures r.Ok? ==> GetBundle("DiagnosticReport", resp).Ok? && |r.value| == |GetBundle("DiagnosticReport", resp).value|
  {
    var resources :- GetBundle("DiagnosticReport", resp);
    BundleResourcesSatisfy("DiagnosticReport", resp, ImagingSummary.ReportShaped);
    Ok(ImagingSummary.Summaries(resources))
  }

  /** `get_notes`: the search, then one note per document. */
  function FetchNotes(resp: Response, decode: string -> string): (r: Result<seq<Note>, Error>)
    requires ResourcesSatisfy(resp, NoteExtractor.NoteShaped)
    ensures Failed(resp) <==> r == Err(HttpError("DocumentReference", resp.status))
    ensures r.Err? ==> Failed(resp) || r.error == KeyError("resource")
    ensures r.Ok? ==> GetBundle("DocumentReference", resp).Ok? && |r.value| == |GetBundle("DocumentReference", resp).value|
  {
    var resources :- GetBundle("DocumentReference", resp);
    BundleResourcesSatisfy("DocumentReference", resp, NoteExtractor.NoteShaped);
    Ok(NoteExtractor.Notes(resources, decode))
  }

  /**
   * `pull_full_chart`: the chart, or the error of the first request or extraction that
   * fails, in the order the source calls them. An HTTP error that ends the pull is the
   * one of the first failed request; a chart is only produced when no request failed.
   */
  function PullFullChart(rs: Responses, decode: string -> string): (r: Result<Chart, Error>)
    requires ResponsesShaped(rs)
    ensures r.Ok? ==> FirstFailure(rs) == None
    ensures r.Err? && r.error.HttpError? ==> FirstFailure(rs) == Some(r.error)
    ensures Failed(rs.patient) ==> r == Err(HttpError("Patient", rs.patient.status))
    ensures r.Ok? ==> r.value.allergies != []
    ensures r.Ok? ==>
      && GetBundle("MedicationRequest", rs.medications).Ok?
      && |r.value.medications.home| + |r.value.medications.inpatient|
         == |GetBundle("MedicationRequest", rs.medications).value|
  {
    var patient :- FetchPatient(rs.patient);
    var encounter :- FetchEncounter(rs.encounter);
    var conditions :- FetchConditions(rs.conditions);
    var allergies :- FetchAllergies(rs.allergies);
    var vitals :- FetchVitals(rs.vitals);
    var labs :- FetchLabs(rs.labs);
    var medications :- FetchMedications(rs.medications);
    var imaging :- FetchImaging(rs.imaging);
    var notes :- FetchNotes(rs.notes, decode);
    Ok(Chart(patient, encounter, conditions, allergies, vitals, labs, medications, imaging, notes))
  }
}
