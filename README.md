# Chart normalisation and rendering of `fhir_client.py`

This project models the core of a surgical-consult assistant. The core reads HL7 FHIR R4
resources for one patient and normalises them into a chart:

- Patient demographics.
- The current encounter.
- The problem list and allergies.
- Vital signs and laboratory results.
- Medications, split into home medications and current (inpatient) orders.
- Imaging reports and clinical notes.

It then renders the chart as a fixed plain-text report. The Dafny model follows the
Python code function by function:

- `Json` is the JSON value a FHIR server returns. A number keeps the text Python's
  `str()` gives it.
- `Bundle` models `_get_bundle`. The HTTP exchange is an input: a status code and the
  decoded body. An error status and a Bundle entry without a `resource` become `Err`
  results.
- One module per extractor: `PatientExtractor`, `EncounterExtractor`, `ConditionList`,
  `AllergyList`, `VitalsAndLabs`, `MedicationClassifier`, `ImagingSummary` and
  `NoteExtractor`.
  - The extractors that build their lists with `for ... append` loops are methods with
    loops and invariants. Each is proved equal to a specification function on its
    input sequence. The lemmas about the extractor are stated on that function.
  - `get_patient` and `get_encounter` only have loops that stop after the first
    element. They are functions over the first element.
- `ChartAggregator` models `pull_full_chart`. It is a function sequencing the nine
  requests in the source's order. The first exception ends the pull, like an uncaught
  Python exception.
- `ChartFormatter` models `format_chart_for_ai`: a specification of the report lines,
  the method that appends them the way the source does, and layout lemmas.

Wherever Python code would raise on well-typed input, the model returns an `Err`
(`Records.Error`):

- `raise_for_status` on a 4xx/5xx status gives `HttpError(resourceType, status)`.
- A Bundle entry without `resource` gives `KeyError("resource")`.
- An encounter without `id` gives `KeyError("id")`.
- A Patient whose `name` list is present but empty gives `IndexError`.
- A vital-sign component whose `code.coding` list is empty gives `IndexError`.

Each extractor asks, as a precondition in a `...Shaped` predicate, that every field it
reads holds the JSON kind FHIR R4 gives that field: a string, an object, a list. It
asks this for a field only when the field is present.

With no encounter the code returns the reason `"Not specified"` (fhir_client.py:42), not
an empty reason; the model follows the code.

## Model

| member | source | states |
|---|---|---|
| `Bundle.Resources` | fhir_client.py:16 | Succeeds exactly when every entry has a `resource`, otherwise `KeyError("resource")`; on success one resource per entry, in entry order |
| `Bundle.Unwrap` | fhir_client.py:15-16 | A Bundle without `entry` unwraps to no resources |
| `Bundle.GetBundle` | fhir_client.py:11-16 | A 4xx/5xx status gives `HttpError` with the resource type and status; otherwise the Bundle body is unwrapped |
| `PatientExtractor.GetPatient` | fhir_client.py:19-35 | Fails (IndexError) exactly when `name` is present and empty. Name is the given names joined then a space then the family. MRN is the first identifier's value, or "" when there is none. `dob`/`gender` are "Unknown" only when the key is absent, otherwise the stored string |
| `PatientExtractor.FullNameParts` | fhir_client.py:25 | With given names, the full name is given names and family joined by single spaces; without them it is a leading space then the family |
| `PatientExtractor.FullNameWithoutFamily` | fhir_client.py:25 | A missing family leaves a trailing space after the given names |
| `PatientExtractor.DemoPatientDemographics` | fhir_client.py:19-35 | The demo Patient resource gives "Harold Whitaker", MRN "004593821", born 1957-08-03, male |
| `EncounterExtractor.Location` | fhir_client.py:44-47 | No `location` entries gives "Unknown"; otherwise the first entry's `location.display`, "Unknown" when that is absent |
| `EncounterExtractor.Reason` | fhir_client.py:48-51 | No `reasonCode` entries gives ""; otherwise the `text` of the first `reasonCode` entry, "" when that entry has none |
| `EncounterExtractor.GetEncounter` | fhir_client.py:38-52 | No encounters gives exactly location "Unknown", reason "Not specified", no id. Otherwise it succeeds exactly when the first encounter has an `id` (else KeyError("id")), and the result is the first encounter's location, reason and id. The id is absent exactly for the empty list |
| `EncounterExtractor.DemoEncounterDetails` | fhir_client.py:43-52 | The demo encounter gives "ED Room 12" and its reason text |
| `ConditionList.GetConditions` | fhir_client.py:55-65 | The append loop computes the problem list `Conditions` of its input |
| `ConditionList.ConditionsAppend` | fhir_client.py:59-64 | The problem list of a concatenation is the concatenation of the problem lists: order kept, each resource handled on its own |
| `ConditionList.ConditionsLength` | fhir_client.py:58-65 | At most one entry per resource; if no resource has text the list is empty |
| `ConditionList.ConditionsAllKept` | fhir_client.py:59-64 | When every resource has text, entry i is exactly resource i's entry |
| `ConditionList.EntryForm` | fhir_client.py:60-64 | A resource gives an entry exactly when its text is non-empty; the entry is "text (code)" with a non-empty first code, else just the text |
| `ConditionList.HypertensionEntry` | fhir_client.py:60-64 | A Hypertension condition coded I10 gives "Hypertension (I10)" |
| `AllergyList.Texts` | fhir_client.py:73-77 | At most one text per resource, none of them empty |
| `AllergyList.Allergies` | fhir_client.py:68-78 | Never empty and never holds "". Exactly ["No allergies listed"] when no resource has text, otherwise the texts |
| `AllergyList.GetAllergies` | fhir_client.py:68-78 | The loop with its early return computes `Allergies` of its input |
| `AllergyList.TextsAppend` | fhir_client.py:74-77 | The texts of a concatenation are the concatenation of the texts (input order kept) |
| `AllergyList.SentinelIffNoText` | fhir_client.py:71-78 | No text is kept exactly when every resource's text is empty, which is when the placeholder is returned |
| `AllergyList.DemoAllergies` | fhir_client.py:71-78 | The "No Known Drug Allergies" resource gives that text; no resources give the placeholder |
| `VitalsAndLabs.Parts` | fhir_client.py:94-98 | Succeeds exactly when every component's part succeeds (IndexError otherwise); one part per component, in order |
| `VitalsAndLabs.VitalLine` | fhir_client.py:91-102 | No components gives "name: value unit". Otherwise it succeeds exactly when every component has a coding, and the line is "name: " followed by the component parts ("display: value unit") joined by " / "; IndexError otherwise |
| `VitalsAndLabs.Vitals` | fhir_client.py:89-103 | Succeeds exactly when every line does; then exactly one line per resource, line i rendering resource i |
| `VitalsAndLabs.Labs` | fhir_client.py:114-119 | Exactly one simple "name: value unit" line per resource, in order |
| `VitalsAndLabs.ComponentParts` | fhir_client.py:94-98 | The component loop computes `Parts` |
| `VitalsAndLabs.RenderVital` | fhir_client.py:91-102 | One loop iteration renders `VitalLine` |
| `VitalsAndLabs.GetVitals` | fhir_client.py:81-103 | The loop computes `Vitals`, stopping at the first component without a coding |
| `VitalsAndLabs.GetLabs` | fhir_client.py:106-119 | The loop computes `Labs` |
| `VitalsAndLabs.BloodPressureComponentPart` | fhir_client.py:96-98 | A systolic component renders as "Systolic: 94 mmHg" |
| `VitalsAndLabs.BloodPressureParts` | fhir_client.py:94-98 | The two blood-pressure components render in order |
| `VitalsAndLabs.BloodPressureLine` | fhir_client.py:93-99 | A blood-pressure observation renders as "Blood pressure: Systolic: 94 mmHg / Diastolic: 58 mmHg" |
| `VitalsAndLabs.HeartRateLine` | fhir_client.py:100-102 | A heart-rate observation renders as "Heart rate: 112 bpm" |
| `VitalsAndLabs.LabsIgnoreComponents` | fhir_client.py:115-118 | Labs never use the compound form: the blood-pressure observation gives "Blood pressure:  " |
| `MedicationClassifier.CategoryOf` | fhir_client.py:129-132 | The nested loop leaves the last coding's code seen across all categories |
| `MedicationClassifier.GetMedications` | fhir_client.py:122-137 | The loop computes the partition `Classify` |
| `MedicationClassifier.ClassifySizes` | fhir_client.py:127-136 | Every resource lands in exactly one list: the sizes add up to the input size |
| `MedicationClassifier.ClassifyAppend` | fhir_client.py:127-136 | Both lists of a concatenation are the concatenations of the lists (relative order kept) |
| `MedicationClassifier.ClassifyRoutes` | fhir_client.py:133-136 | Resource i's text is the next home entry when its category is "community", otherwise the next current order |
| `MedicationClassifier.CategoryFromLastCoded` | fhir_client.py:130-132 | The category comes from the last category that has codings; later empty categories change nothing |
| `MedicationClassifier.LastCodingWins` | fhir_client.py:130-136 | Codes [community, inpatient] make an order inpatient; [inpatient, community] make it home; no category makes it inpatient |
| `ImagingSummary.Summary` | fhir_client.py:145-148 | Findings are "No conclusion provided" only when `conclusion` is absent, status "" only when `status` is absent, study "" only when `code.text` is absent, otherwise the stored strings |
| `ImagingSummary.Summaries` | fhir_client.py:143-149 | One summary per resource, in order |
| `ImagingSummary.GetImaging` | fhir_client.py:140-149 | The loop computes `Summaries` |
| `ImagingSummary.MissingConclusion` | fhir_client.py:145-148 | A preliminary CT report without conclusion gets the default findings |
| `NoteExtractor.LastPayload` | fhir_client.py:159-163 | No payload exactly when every attachment's `data` is empty; otherwise a non-empty payload of some attachment after which all data are empty |
| `NoteExtractor.Notes` | fhir_client.py:155-165 | One note per resource, in order, with its type and its decoded text |
| `NoteExtractor.DecodeAttachments` | fhir_client.py:158-163 | The overwriting loop leaves the decoding of the last non-empty payload, or "" |
| `NoteExtractor.GetNotes` | fhir_client.py:152-165 | The loop computes `Notes` |
| `NoteExtractor.EmptyLaterAttachmentKeepsText` | fhir_client.py:160-163 | An attachment without data appended at the end leaves the text as it was |
| `NoteExtractor.LaterPayloadWins` | fhir_client.py:160-163 | An attachment with data appended at the end supplies the payload, whatever the earlier attachments hold |
| `NoteExtractor.TwoPayloadNote` | fhir_client.py:155-164 | Example: a document with two payloads and no `type` becomes a "Clinical Note" with the decoding of the second payload |
| `Text.Upper` | fhir_client.py:231 | Upper-casing keeps the length and maps every character through the ASCII case map |
| `Text.UpperIdempotent` | fhir_client.py:231 | Upper-casing twice is upper-casing once, and leaves no lower-case ASCII letter |
| `Text.JoinSnoc` | fhir_client.py:207 | Joining one more part adds the separator and the part at the end |
| `ChartAggregator.FirstFailureNone` | fhir_client.py:168-177 | There is no first failure exactly when none of the nine responses failed |
| `ChartAggregator.FetchPatient` | fhir_client.py:19-23 | The Patient request's HTTP error is the only HTTP error `get_patient` raises |
| `ChartAggregator.FetchEncounter` | fhir_client.py:38-40 | The Encounter search's HTTP error is the only HTTP error `get_encounter` raises |
| `ChartAggregator.FetchConditions` | fhir_client.py:55-65 | Fails only with the search's HTTP error or a missing resource; at most one entry per resource |
| `ChartAggregator.FetchAllergies` | fhir_client.py:68-78 | Fails only with the search's HTTP error or a missing resource; the list it gives is never empty |
| `ChartAggregator.FetchVitals` | fhir_client.py:81-103 | Fails only with the search's HTTP error, a missing resource or a component without coding; one line per resource |
| `ChartAggregator.FetchLabs` | fhir_client.py:106-119 | Fails only with the search's HTTP error or a missing resource; one line per resource |
| `ChartAggregator.FetchMedications` | fhir_client.py:122-137 | Fails only with the search's HTTP error or a missing resource; home and inpatient sizes add up to the resources |
| `ChartAggregator.FetchImaging` | fhir_client.py:140-149 | Fails only with the search's HTTP error or a missing resource; one summary per resource |
| `ChartAggregator.FetchNotes` | fhir_client.py:152-165 | Fails only with the search's HTTP error or a missing resource; one note per resource |
| `ChartAggregator.PullFullChart` | fhir_client.py:168-190 | A chart only when no request failed (by `FirstFailureNone`, none of the nine responses). An HTTP error ending the pull is that of the first failed request; a failed Patient request always ends it. A pulled chart's allergy list is never empty, and its medication partition covers every MedicationRequest |
| `ChartFormatter.Bullets` | fhir_client.py:210-227 | One "  • entry" line per entry, in stored order |
| `ChartFormatter.ImagingLines` | fhir_client.py:230-232 | Exactly two lines per report: "  [STATUS] study" with the status upper-cased, then "  findings" |
| `ChartFormatter.NoteLines` | fhir_client.py:235-237 | Exactly two lines per note: "--- type ---", then the text verbatim |
| `ChartFormatter.AppendBullets` | fhir_client.py:210-227 | Each bullet loop appends exactly `Bullets` of its list |
| `ChartFormatter.AppendImaging` | fhir_client.py:230-232 | The imaging loop appends exactly `ImagingLines` |
| `ChartFormatter.AppendNotes` | fhir_client.py:235-237 | The notes loop appends exactly `NoteLines` |
| `ChartFormatter.FormatChart` | fhir_client.py:193-239 | The appending code gives the report lines joined by newlines, for every chart (total, and a function of the chart) |
| `ChartFormatter.AssembleLayout` | fhir_client.py:209-237 | In assembled sections, section k is its header line followed by exactly its body, at the offset fixed by the sections before it |
| `ChartFormatter.ReportLinesInOrder` | fhir_client.py:198-237 | The report lines are the patient block, then each header and its lines in the order the source appends them |
| `ChartFormatter.HeaderOrder` | fhir_client.py:198-234 | The headers come in the fixed order PATIENT, PROBLEM LIST, VITALS, LABS, HOME MEDICATIONS, CURRENT ORDERS, IMAGING, CLINICAL NOTES |
| `ChartFormatter.ReportLayout` | fhir_client.py:198-237 | The first seven lines are the patient block, ending with the allergies joined by ", " on one line. Then each section k is its header followed by exactly its lines, and nothing else follows the last section |

## Left out

- HTTP is not modelled: `requests.get`, the server URL, the headers and the query
  parameters (fhir_client.py:13, 21, 40, 57, 70, 83-88, 108-113, 124, 142, 154). The
  server-side filters (`clinical-status=active`, `status=active`, `_sort`, `_count`) are
  therefore not modelled. Each response is an input.
- Connection errors, timeouts and a body that is not JSON (`resp.json()` raising) are
  not modelled. Only an error status is an error here.
- Base64 and UTF-8 decoding of note attachments (fhir_client.py:163) is a `decode`
  parameter. An undecodable payload, which raises in Python, is not modelled.
- Rendering a JSON number with Python's `str()`, which is float formatting: a number
  carries its rendered text.
- `str.upper()` (fhir_client.py:231) is modelled for ASCII letters only, not for the
  rest of Unicode.
- Fields holding a JSON kind other than the FHIR R4 one are excluded by the
  `...Shaped` preconditions. Python would raise there, or print the value's `str()`.
- The loops that stop after their first element (identifier, encounter location,
  reason code) are modelled as tests of the first element.
- `ChartAggregator.PullFullChart`: the chart is a record of nine parts, not a Python
  dict. Its success case is stated through the extractor functions, not as an
  if-and-only-if over all inputs.
- The other files of the repository are not part of this model:
  - web/app.js, the browser interface.
  - setup_demo_patient.py, a seeding script. Its resources appear here only as
    example inputs.
  - consult_agent.py, the model calls and console loop.
  - prompts.py, constant strings.
