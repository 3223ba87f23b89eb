# RAFAEL backend: verified model of the analysis, export and session-record rules

RAFAEL is a small HTTP backend that simulates a "multi-model medical analysis". Most
of what it returns is fixed placeholder text. The behaviour it does compute, and that
this Dafny project models and proves things about, is:

- **`analyze`** (module `Analyze`, `analyze.dfy`):
  - coerces the `simple_view` form string to a flag;
  - derives the imaging modality from which uploads are present;
  - includes the patient-friendly summary only for the flag or the exact role `"Patient"`;
  - assembles the seven-key report payload;
  - builds a session record and tries to store it. Whether the store accepts or
    fails the write is a parameter, and the response is proved not to depend on it.
- **`export_pdf`** (module `Export`, `export.dfy`) lays out any report mapping as text.
  The text is a three-line preamble, then seven sections in a fixed order, each a
  header line and a value line, joined by newlines. The local line list and its
  nested `add_section` helper are a class (`ReportBuilder`) whose field holds the
  list and whose method appends to it. `ExportPdf` is proved to produce the joined
  document that the specification function `ExportLines` describes.
- **`RafaelSession`** (module `Schemas`, `schemas.dfy`) is a validating constructor.
  `role` is required, and the other fields take their defaults when omitted.
  `confidence`, when present, must lie in the closed interval [0, 1]. A subset type
  `Session` makes the bound hold for every record that exists.
- JSON data (module `Json`, `json.dfy`) is modelled as a tagged value:
  null, bool, integer, float, string, array or object. An object is an ordered list
  of fields, as a Python `dict` keeps insertion order. Only the top-level mapping a
  handler works on (`Dict`) is required to have distinct keys; nested objects are
  plain field lists. `Get` is `dict.get`.
- `Wrappers` (`wrappers.dfy`) holds `Option` and `Result`.

The code calls `json.dumps` without `sort_keys`, so a dumped mapping keeps insertion
order. Objects are therefore ordered field lists, not unordered maps.

## Model

| member | source | states |
|---|---|---|
| Json.Get | main.py:127-133 | `data.get(key)` gives no value exactly when the key is absent; a key bound to JSON null gives `Some(Null)`, which `Export.Render` shows as "None", as Python's `str(None)` does |
| Json.GetEntry | main.py:127-133 | in a dict, looking up an entry's key yields that entry's value |
| Schemas.Errors | schemas.py:16-24 | no error iff `role` is given and `confidence` is absent or in [0, 1]; the missing role is reported iff `role` is omitted; exactly one error per failed rule (so a `confidence` error appears iff `confidence` is out of range, and at most two errors in all); an out-of-range `confidence` is reported last, as below zero or above one |
| Schemas.NewSession | schemas.py:11-24 | construction succeeds iff `role` is given and `confidence` is absent or in [0, 1]; on failure the errors are exactly those `Errors` finds: non-empty, the missing role iff it is missing, and the matching bound error iff `confidence` is out of range; on success `role`, `confidence`, the three texts and both filenames are copied, `simple_view` is false unless given true, and `output` is the given mapping, or empty when omitted |
| Schemas.RoleOnlyDefaults | schemas.py:16-24 | with only `role` supplied, the record has `simple_view` false, every optional text and filename absent, an empty `output` and no `confidence` |
| Schemas.RoleRequired | schemas.py:16 | without `role` construction fails, and the first error is the missing role |
| Schemas.ConfidenceBoundary | schemas.py:24 | 0.0 and 1.0 are accepted; 1.5 fails the upper bound and -0.1 the lower bound |
| Schemas.ConstructedInRange | schemas.py:24 | every successfully constructed record has its `confidence` in [0, 1] |
| Analyze.Lower | main.py:43 | lower-casing keeps the length and lowers each character |
| Analyze.LowerMatches | main.py:43 | lower-casing a string gives an already lower-case word iff the two match up to case |
| Analyze.ParseFlag | main.py:43 | the flag is on iff the string is "1", or "true" or "yes" in any mix of case |
| Analyze.ParseFlagAccepts | main.py:43 | "1", "true", "TRUE", "True", "yes", "YES" and "yEs" turn the flag on |
| Analyze.ParseFlagRejects | main.py:43 | "", "false", "no", "0", " yes", "true ", "y" and "on" leave it off |
| Analyze.Request.Flag | main.py:29-43 | the coerced flag is on iff `simple_view` was sent and is "1", or "true" or "yes" in any mix of case; an omitted field, which defaults to "false", leaves it off |
| Analyze.OmittedFlagIsOff | main.py:29 | an omitted `simple_view` defaults to "false" and leaves the flag off |
| Analyze.DeriveModality | main.py:56 | "unknown" iff neither upload is present; "video" iff a video is present; "image" iff only an image is present |
| Analyze.PatientFriendly | main.py:90 | the lay summary is non-empty iff the flag is on or the role is exactly "Patient", and then it is the canned text |
| Analyze.TextReasoning.ToJson | main.py:46-53 | `text_reasoning` is an object with exactly the keys `differential` and `rationale`, in that order, each once; `differential` is the list of differential strings and `rationale` the rationale text |
| Analyze.ImageFindings.ToJson | main.py:55-62 | `image_findings` is an object with exactly the keys `imaging_modality`, `key_findings` and `quality`, in that order, each once; `imaging_modality` is the derived modality's name, `key_findings` the list of findings and `quality` the quality note |
| Analyze.Report.ToJson | main.py:84-92 | the payload's keys are the seven report keys, in order, each once |
| Analyze.BuildReport | main.py:43-92 | the report's modality and lay summary follow the two rules above, and its confidence lies in [0, 1] |
| Analyze.OutputKeys | main.py:84-92 | a key is present in the payload iff it is one of the seven report keys |
| Analyze.OutputConfidence | main.py:82-91 | the payload's `confidence` is the number 0.78, which lies in [0, 1] |
| Analyze.OutputPatientFriendly | main.py:90 | the payload's `patient_friendly` is the lay summary the rule gives |
| Analyze.OutputModality | main.py:55-62 | the payload's `image_findings.imaging_modality` is the derived modality's name |
| Analyze.OutputFields | main.py:84-92 | looking up each of the seven keys in the payload gives the matching report field |
| Analyze.SessionArgsFor | main.py:96-106 | the record arguments carry the role, the coerced flag and the three texts; a filename is given iff that upload is present and is its filename; the output is the payload; the confidence is given and in [0, 1] |
| Analyze.Analyze | main.py:26-112 | the response is the report payload; a record is stored iff the store accepts the write; the stored record copies role, coerced flag, texts and the upload filenames (present iff uploaded), and holds the very payload and confidence returned |
| Analyze.SessionAlwaysBuilds | main.py:95-106 | the record `analyze` builds always passes validation |
| Analyze.ResponseIgnoresStore | main.py:95-112 | the response is the same whether the store write succeeds or fails |
| Analyze.ScenarioClinicianPlain | main.py:56 | clinician, flag "false", no media: empty lay summary and modality "unknown" |
| Analyze.ScenarioPatient | main.py:90 | role "Patient" with the flag off gets the lay summary; role "patient" does not |
| Analyze.ScenarioClinicianVideo | main.py:56 | clinician, flag "true", a video: lay summary given and modality "video" |
| Export.Render | main.py:121-125 | a list or dict is rendered by the structured dump; a string as itself; a boolean as "True" or "False"; an integer and a float through their own `str` renderings; a missing value or null as "None" |
| Export.LinesAfter | main.py:118-133 | after `k` sections the line list has 3 + 2k lines |
| Export.LinesAfterAt | main.py:118-133 | adding sections keeps the preamble first, and section `i` stays at lines 3 + 2i (header) and 4 + 2i (value) |
| Export.ExportLayout | main.py:118-133 | the line list has 17 entries: the preamble, then for each of the seven sections in order its header and its rendered value |
| Export.ExportLinesUnfolded | main.py:127-133 | the document is the preamble followed by the seven header/value pairs, each section reading its own key |
| Export.Header | main.py:120 | a header is a newline, "== ", the title and " ==", so it is 7 characters longer than the title |
| Export.JoinLines | main.py:135 | joining no lines gives the empty text; the first line is a prefix of the joined text, followed by a newline when more lines follow |
| Export.JoinSplit | main.py:135 | the joined text splits with a newline at any inner line boundary |
| Export.JoinCons | main.py:135 | the joined text is the first line followed by the rest |
| Export.JoinAt | main.py:135 | in the joined text, line `k` is followed by a newline and line `k + 1` |
| Export.SectionInText | main.py:119-135 | in the exported text each section header is followed, on the next line, by that section's rendered value |
| Export.PreambleText | main.py:118 | the preamble joins to the title, a blank line and "Sections:" |
| Export.ExportOpening | main.py:118-127 | the text opens with the preamble, then the Summary header and value |
| Export.MissingSectionRendersNone | main.py:125-133 | a key that is absent or null shows as "None" in its section; export does not fail |
| Export.EmptyExport | main.py:118-133 | the empty mapping exports the preamble and seven headers, each followed by "None" |
| Export.SectionKeysMatchReport | main.py:127-133 | the exporter reads exactly the seven keys the analyzer writes, in the same order |
| Export.ExportOfReport | main.py:119-133 | exporting a report payload shows each field in its section: text fields as they are, nested objects and lists through the dump, the confidence through `str` |
| Export.ExportOfAnalysis | main.py:84-133 | exporting an `analyze` response shows the canned lay summary iff the flag is on or the role is "Patient", and the confidence 0.78, whatever the store did |
| Export.ExportExample | main.py:119-133 | `{"summary": "ok", "next_steps": ["a", "b"]}` exports "ok" under Summary, the dump of the list under Recommended Next Steps, and "None" under Confidence |
| Export.ReportBuilder.constructor | main.py:118 | the line list starts as the title, an empty line and "Sections:" |
| Export.ReportBuilder.AddSection | main.py:119-125 | appends exactly the header line and then the rendered value, and changes nothing else |
| Export.ExportPdf | main.py:114-135 | the seven `add_section` calls and the join produce exactly the document `ExportLines` describes, for every input mapping |

## Left out

- HTTP plumbing: FastAPI routing, CORS, `Form`/`File` parsing, the 422 response for a missing `role`, and `uvicorn` startup. This is framework code; a request arrives as an already-parsed `Request` value.
- `read_root` and `/test`: both return fixed dictionaries. `/test` also reads the store handle, which belongs to the `database` module.
- The `database` module (`db`, `create_document`) is not part of this model. Its write is modelled only as a boolean outcome, where false means the call raised.
- The byte encoding, `BytesIO`, `StreamingResponse` and the `application/pdf` attachment headers are I/O and transport metadata, so they are left out. The model stops at the joined text.
- The exact output of `json.dumps(value, indent=2)` and of `str` on an `int` or a `float` are library behaviour, so the model leaves them uninterpreted. They are the three fields of `Export.Renderer`, so every property holds for any rendering.
- A JSON float is a Dafny `real`. The `NaN`, `Infinity` and `-Infinity` that `json.loads` accepts are not representable, so a request body holding them is outside the model.
- Analyze.Lower: lowers ASCII letters only, while Python's `str.lower` is Unicode-wide. The only characters whose lower-case form contains ASCII letters are U+212A (to "k") and U+0130 (to "i" plus a combining dot). Neither involves a letter of "true" or "yes", so `ParseFlag` agrees with the source on every string.
- The `confidence` of the payload and the record is a Dafny `real`. So 0.78 is exact, and floating-point rounding and NaN are not modelled.
- Pydantic's type coercion, such as turning strings into booleans, is left out. Constructor arguments arrive already typed. Validation errors are modelled as a list in field order. Pydantic's messages and error locations are not.
- An upload's file content is discarded by the source too. Its `filename` is modelled as a string, which is what the multipart parser supplies for a file part.
- The placeholder schemas `User` and `Product` are left out. They hold no logic and nothing uses them.
