/**
 * The `/analyze` handler: it coerces the `simple_view` form field to a flag, derives
 * the imaging modality from the uploads, assembles the seven-key clinical report and
 * logs a session record. The log write is best effort: its outcome is a parameter
 * here, and the returned report never depends on it.
 */
module Analyze {
  import opened Wrappers
  import opened Json
  import opened Schemas

  // ---------------------------------------------------------------- simple_view

  /** ASCII lower-casing of one character. */
  function LowerChar(c: char): char {
    if 'A' <= c <= 'Z' then (c as int + 32) as char else c
  }

  /** `s.lower()`, character by character. */
  function Lower(s: string): (r: string)
    ensures |r| == |s|
    ensures forall i :: 0 <= i < |s| ==> r[i] == LowerChar(s[i])
  {
    if s == [] then [] else [LowerChar(s[0])] + Lower(s[1..])
  }

  /** `a` and `b` have the same length and agree position by position up to case. */
  predicate EqualsIgnoringCase(a: string, b: string) {
    |a| == |b| && forall i :: 0 <= i < |a| ==> LowerChar(a[i]) == LowerChar(b[i])
  }

  /** The spellings that turn the view flag on, in lower case. */
  const TruthyWords: seq<string> := ["1", "true", "yes"]

  /** Lower-casing `s` yields the already-lower-case word `w` exactly when they match up to case. */
  lemma LowerMatches(s: string, w: string)
    requires Lower(w) == w
    ensures Lower(s) == w <==> EqualsIgnoringCase(s, w)
  {
  }

  /**
   * `str(simple_view).lower() in ("1", "true", "yes")`: the flag is on exactly for
   * "1" and for "true" and "yes" in any mix of case; anything else, including
   * surrounding blanks, leaves it off.
   */
  function ParseFlag(raw: string): (flag: bool)
    ensures flag <==> raw == "1" || EqualsIgnoringCase(raw, "true") || EqualsIgnoringCase(raw, "yes")
  {
    LowerMatches(raw, "1");
    LowerMatches(raw, "true");
    LowerMatches(raw, "yes");
    assert EqualsIgnoringCase(raw, "1") <==> raw == "1" by {
      if EqualsIgnoringCase(raw, "1") { assert raw[0] == "1"[0]; }
    }
    Lower(raw) in TruthyWords
  }

  /** Any mix of case of "true" or "yes", and "1", turns the flag on. */
  lemma ParseFlagAccepts()
    ensures ParseFlag("1") && ParseFlag("true") && ParseFlag("TRUE") && ParseFlag("True")
    ensures ParseFlag("yes") && ParseFlag("YES") && ParseFlag("yEs")
  {
  }

  /** Everything else leaves it off: the empty string, other words, and blanks around a truthy word. */
  lemma ParseFlagRejects()
    ensures !ParseFlag("") && !ParseFlag("false") && !ParseFlag("no") && !ParseFlag("0")
    ensures !ParseFlag(" yes") && !ParseFlag("true ") && !ParseFlag("y") && !ParseFlag("on")
  {
  }

  // ---------------------------------------------------------------- request

  /** An uploaded file; its content is discarded, only its name is kept. */
  datatype Upload = Upload(filename: string)

  /** The form fields of one `/analyze` request; `role` is a required field. */
  datatype Request = Request(
    role: string,
    simpleView: Option<string>,
    symptoms: Option<string>,
    vitals: Option<string>,
    history: Option<string>,
    image: Option<Upload>,
    video: Option<Upload>)
  {
    /** The `simple_view` field as received; it defaults to "false". */
    function SimpleViewText(): string {
      simpleView.GetOr("false")
    }

    /** The coerced view flag: on exactly when the received text is a truthy word up to case. */
    function Flag(): (flag: bool)
      ensures flag <==> (simpleView.Some? &&
        (simpleView.value == "1" || EqualsIgnoringCase(simpleView.value, "true") || EqualsIgnoringCase(simpleView.value, "yes")))
    {
      assert !EqualsIgnoringCase("false", "true") by { assert LowerChar("false"[0]) != LowerChar("true"[0]); }
      assert !EqualsIgnoringCase("false", "yes");
      ParseFlag(SimpleViewText())
    }
  }

  /** Omitting `simple_view` leaves the flag off. */
  lemma OmittedFlagIsOff(req: Request)
    requires req.simpleView.None?
    ensures !req.Flag()
  {
  }

  // ---------------------------------------------------------------- modality

  datatype Modality = Unknown | Image | Video {
    function Name(): string {
      match this
      case Unknown => "unknown"
      case Image => "image"
      case Video => "video"
    }
  }

  /** A video wins over an image; with neither the modality is unknown. */
  function DeriveModality(image: Option<Upload>, video: Option<Upload>): (m: Modality)
    ensures m == Unknown <==> image.None? && video.None?
    ensures m == Video <==> video.Some?
    ensures m == Image <==> image.Some? && video.None?
  {
    if image.None? && video.None? then Unknown
    else if video.Some? then Video
    else Image
  }

  // ---------------------------------------------------------------- placeholder content

  const Differential: seq<string> := [
    "Viral upper respiratory infection",
    "Bacterial pneumonia",
    "Asthma exacerbation"]
  const Rationale := "Symptoms and vitals suggest possible lower respiratory tract involvement."
  const KeyFindings: seq<string> := [
    "No obvious fracture",
    "Possible left lower lobe opacity"]
  const Quality := "adequate"
  const Summary := "Acute cough and dyspnea with possible infectious etiology; correlate imaging and vitals."
  const IntegratedAssessment :=
    "Clinical features combined with imaging suggest community-acquired pneumonia; consider antibiotics if bacterial risk high."
  const NextSteps: seq<string> := [
    "Order CBC, CMP, and CRP",
    "Obtain pulse oximetry monitoring",
    "Consider empiric antibiotics per local guidelines",
    "Reassess in 24-48 hours"]
  const PatientFriendlyText :=
    "You likely have a chest infection. We'll check some blood tests and may start antibiotics. We'll keep an eye on your oxygen levels."
  /** The demonstration confidence score. */
  const Confidence: real := 0.78

  /** The lay summary is given when the view flag is on or the role is exactly "Patient"; otherwise it is empty. */
  function PatientFriendly(flag: bool, role: string): (text: string)
    ensures text != "" <==> flag || role == "Patient"
    ensures text == "" || text == PatientFriendlyText
  {
    if flag || role == "Patient" then PatientFriendlyText else ""
  }

  // ---------------------------------------------------------------- report payload

  datatype TextReasoning = TextReasoning(differential: seq<string>, rationale: string) {
    /** The `text_reasoning` object: the differential as a list of strings, then the rationale. */
    function ToJson(): (v: Value)
      ensures v.Object? && UniqueKeys(v.fields) && Keys(v.fields) == ["differential", "rationale"]
      ensures Get(v.fields, "differential") == Some(Array(StrArray(differential)))
      ensures Get(v.fields, "rationale") == Some(Str(rationale))
    {
      Object([Field("differential", Array(StrArray(differential))), Field("rationale", Str(rationale))])
    }
  }

  datatype ImageFindings = ImageFindings(modality: Modality, keyFindings: seq<string>, quality: string) {
    /** The `image_findings` object: the modality's name, the findings as a list of strings, then the quality note. */
    function ToJson(): (v: Value)
      ensures v.Object? && UniqueKeys(v.fields) && Keys(v.fields) == ["imaging_modality", "key_findings", "quality"]
      ensures Get(v.fields, "imaging_modality") == Some(Str(modality.Name()))
      ensures Get(v.fields, "key_findings") == Some(Array(StrArray(keyFindings)))
      ensures Get(v.fields, "quality") == Some(Str(quality))
    {
      assert "imaging_modality"[0] != "key_findings"[0] && "key_findings"[0] != "quality"[0] && "quality"[0] != "imaging_modality"[0];
      var fields: Dict := [
        Field("imaging_modality", Str(modality.Name())),
        Field("key_findings", Array(StrArray(keyFindings))),
        Field("quality", Str(quality))];
      GetEntry(fields, 2);
      Object(fields)
    }
  }

  datatype Report = Report(
    summary: string,
    textReasoning: TextReasoning,
    imageFindings: ImageFindings,
    integratedAssessment: string,
    nextSteps: seq<string>,
    patientFriendly: string,
    confidence: real)
  {
    /** The report as the JSON object returned to the caller, keys in `ReportKeys` order. */
    function ToJson(): (d: Dict)
      ensures Keys(d) == ReportKeys
    {
      [
        Field("summary", Str(summary)),
        Field("text_reasoning", textReasoning.ToJson()),
        Field("image_findings", imageFindings.ToJson()),
        Field("integrated_assessment", Str(integratedAssessment)),
        Field("next_steps", Array(StrArray(nextSteps))),
        Field("patient_friendly", Str(patientFriendly)),
        Field("confidence", Float(confidence))
      ]
    }
  }

  /** The seven keys of every payload, in order. */
  const ReportKeys: seq<string> := [
    "summary", "text_reasoning", "image_findings", "integrated_assessment",
    "next_steps", "patient_friendly", "confidence"]

  /** The report for a request: placeholder findings plus the two input-driven rules. */
  function BuildReport(req: Request): (rep: Report)
    ensures rep.imageFindings.modality == DeriveModality(req.image, req.video)
    ensures rep.patientFriendly == PatientFriendly(req.Flag(), req.role)
    ensures 0.0 <= rep.confidence <= 1.0
  {
    Report(
      Summary,
      TextReasoning(Differential, Rationale),
      ImageFindings(DeriveModality(req.image, req.video), KeyFindings, Quality),
      IntegratedAssessment,
      NextSteps,
      PatientFriendly(req.Flag(), req.role),
      Confidence)
  }

  /** Every payload has exactly the seven keys, each once, and no other. */
  lemma OutputKeys(req: Request, k: string)
    ensures var d := BuildReport(req).ToJson();
      Keys(d) == ReportKeys && (Get(d, k).Some? <==> k in ReportKeys)
  {
  }

  /** The payload's confidence is the number 0.78, which lies in [0, 1]. */
  lemma OutputConfidence(req: Request)
    ensures Get(BuildReport(req).ToJson(), "confidence") == Some(Float(Confidence))
    ensures 0.0 <= Confidence <= 1.0
  {
    GetEntry(BuildReport(req).ToJson(), 6);
  }

  /** The payload's lay summary follows the patient-friendly rule. */
  lemma OutputPatientFriendly(req: Request)
    ensures Get(BuildReport(req).ToJson(), "patient_friendly")
      == Some(Str(PatientFriendly(req.Flag(), req.role)))
  {
    var d := BuildReport(req).ToJson();
    GetEntry(d, 5);
  }

  /** The payload's image findings carry the modality derived from the uploads. */
  lemma OutputModality(req: Request)
    ensures Get(BuildReport(req).ToJson(), "image_findings") == Some(BuildReport(req).imageFindings.ToJson())
    ensures Get(BuildReport(req).imageFindings.ToJson().fields, "imaging_modality")
      == Some(Str(DeriveModality(req.image, req.video).Name()))
  {
    var rep := BuildReport(req);
    var d := rep.ToJson();
    GetEntry(d, 2);
    var findings := rep.imageFindings.ToJson().fields;
    assert findings[0] == Field("imaging_modality", Str(rep.imageFindings.modality.Name()));
  }

  /** Looking up each of the seven keys in the payload gives the matching report field. */
  lemma OutputFields(rep: Report)
    ensures var d := rep.ToJson();
      && Get(d, "summary") == Some(Str(rep.summary))
      && Get(d, "text_reasoning") == Some(rep.textReasoning.ToJson())
      && Get(d, "image_findings") == Some(rep.imageFindings.ToJson())
      && Get(d, "integrated_assessment") == Some(Str(rep.integratedAssessment))
      && Get(d, "next_steps") == Some(Array(StrArray(rep.nextSteps)))
      && Get(d, "patient_friendly") == Some(Str(rep.patientFriendly))
      && Get(d, "confidence") == Some(Float(rep.confidence))
  {
    var d := rep.ToJson();
    GetEntry(d, 0);
    GetEntry(d, 1);
    GetEntry(d, 2);
    GetEntry(d, 3);
    GetEntry(d, 4);
    GetEntry(d, 5);
    GetEntry(d, 6);
  }

  // ---------------------------------------------------------------- analyze

  /** The response returned to the caller, and the session record written to the store, if any. */
  datatype Outcome = Outcome(response: Dict, stored: Option<Session>)

  /** The keyword arguments `analyze` passes to the session constructor. */
  function SessionArgsFor(req: Request, output: Dict): (args: SessionArgs)
    ensures args.role == Some(req.role) && args.simpleView == Some(req.Flag())
    ensures args.symptoms == req.symptoms && args.vitals == req.vitals && args.history == req.history
    ensures args.imageFilename.Some? <==> req.image.Some?
    ensures args.videoFilename.Some? <==> req.video.Some?
    ensures req.image.Some? ==> args.imageFilename == Some(req.image.value.filename)
    ensures req.video.Some? ==> args.videoFilename == Some(req.video.value.filename)
    ensures args.output == Some(output)
    ensures args.confidence.Some? && ConfidenceInRange(args.confidence)
  {
    SessionArgs(
      Some(req.role),
      Some(req.Flag()),
      req.symptoms,
      req.vitals,
      req.history,
      if req.image.Some? then Some(req.image.value.filename) else None,
      if req.video.Some? then Some(req.video.value.filename) else None,
      Some(output),
      Some(Confidence))
  }

  /**
   * One `/analyze` call. `storeAccepts` is the outcome of the write: when it is false
   * the write raises and the error is swallowed.
   */
  function Analyze(req: Request, storeAccepts: bool): (o: Outcome)
    ensures o.response == BuildReport(req).ToJson()
    ensures o.stored.Some? <==> storeAccepts
    ensures o.stored.Some? ==>
      var s := o.stored.value;
      && s.role == req.role
      && s.simpleView == req.Flag()
      && s.symptoms == req.symptoms && s.vitals == req.vitals && s.history == req.history
      && (s.imageFilename.Some? <==> req.image.Some?)
      && (req.image.Some? ==> s.imageFilename.value == req.image.value.filename)
      && (s.videoFilename.Some? <==> req.video.Some?)
      && (req.video.Some? ==> s.videoFilename.value == req.video.value.filename)
      && s.output == o.response
      && s.confidence == Some(BuildReport(req).confidence)
  {
    var output := BuildReport(req).ToJson();
    var record := NewSession(SessionArgsFor(req, output));
    var stored := if record.Ok? && storeAccepts then Some(record.value) else None;
    Outcome(output, stored)
  }

  /** Building the session record inside `analyze` never fails. */
  lemma SessionAlwaysBuilds(req: Request)
    ensures NewSession(SessionArgsFor(req, BuildReport(req).ToJson())).Ok?
  {
  }

  /** Whether the store accepts the write or fails, the caller gets the same response. */
  lemma ResponseIgnoresStore(req: Request, a: bool, b: bool)
    ensures Analyze(req, a).response == Analyze(req, b).response
  {
  }

  /** Clinician, flag off, no media: no lay summary, unknown modality. */
  lemma ScenarioClinicianPlain()
    ensures var rep := BuildReport(Request("Clinician", Some("false"), None, None, None, None, None));
      rep.patientFriendly == "" && rep.imageFindings.modality.Name() == "unknown"
  {
  }

  /** A patient gets the lay summary even with the flag off; "patient" in lower case does not. */
  lemma ScenarioPatient()
    ensures BuildReport(Request("Patient", Some("false"), None, None, None, None, None)).patientFriendly != ""
    ensures BuildReport(Request("patient", Some("false"), None, None, None, None, None)).patientFriendly == ""
  {
  }

  /** Clinician, flag on, a video: lay summary given, modality video. */
  lemma ScenarioClinicianVideo(v: Upload)
    ensures var rep := BuildReport(Request("Clinician", Some("true"), None, None, None, None, Some(v)));
      rep.patientFriendly != "" && rep.imageFindings.modality.Name() == "video"
  {
  }
}
