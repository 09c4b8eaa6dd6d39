/**
 * The normalised chart that `pull_full_chart` builds and `format_chart_for_ai` renders,
 * and the errors that abort building it.
 */
module Records {
  import opened Wrappers
  import opened Json

  /**
   * What Python raises. `HttpError` is `raise_for_status` on a failed fetch (it names the
   * resource type queried and the status); `KeyError` is a `d[key]` on a missing key;
   * `IndexError` is `xs[0]` on an empty list.
   */
  datatype Error =
    | HttpError(resourceType: string, status: int)
    | KeyError(key: string)
    | IndexError

  datatype Patient = Patient(name: string, mrn: string, dob: string, gender: string)

  /** `encounterId` is `None` exactly when no encounter was found. */
  datatype Encounter = Encounter(location: string, reason: string, encounterId: Option<Json>)

  /** Medication orders split into home (community) and inpatient lists. */
  datatype Meds = Meds(home: seq<string>, inpatient: seq<string>)

  datatype ImagingReport = ImagingReport(study: string, status: string, findings: string)

  /** `docType` is the note's `type` key. */
  datatype Note = Note(docType: string, text: string)

  datatype Chart = Chart(
    patient: Patient,
    encounter: Encounter,
    conditions: seq<string>,
    allergies: seq<string>,
    vitals: seq<string>,
    labs: seq<string>,
    medications: Meds,
    imaging: seq<ImagingReport>,
    notes: seq<Note>)
}
