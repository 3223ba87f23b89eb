/**
 * The `RafaelSession` record: one logged clinical interaction, validated when it
 * is constructed. Construction is keyword-based: each argument is either supplied
 * or omitted, and omitted ones take the field's default.
 */
module Schemas {
  import opened Wrappers
  import opened Json

  /** The `confidence` bound: absent, or within the closed interval [0, 1]. */
  predicate ConfidenceInRange(c: Option<real>) {
    c.None? || (0.0 <= c.value && c.value <= 1.0)
  }

  datatype SessionRecord = SessionRecord(
    role: string,
    simpleView: bool,
    symptoms: Option<string>,
    vitals: Option<string>,
    history: Option<string>,
    imageFilename: Option<string>,
    videoFilename: Option<string>,
    output: Dict,
    confidence: Option<real>)

  /** A record that exists: validation runs at construction, so every session keeps the bound. */
  type Session = r: SessionRecord | ConfidenceInRange(r.confidence)
    witness SessionRecord("", false, None, None, None, None, None, [], None)

  /**
   * The keyword arguments given to the constructor; `None` means omitted. For the
   * `Optional[str]` fields passing `None` and omitting the argument are the same.
   */
  datatype SessionArgs = SessionArgs(
    role: Option<string>,
    simpleView: Option<bool>,
    symptoms: Option<string>,
    vitals: Option<string>,
    history: Option<string>,
    imageFilename: Option<string>,
    videoFilename: Option<string>,
    output: Option<Dict>,
    confidence: Option<real>)

  /** One validation failure; a failed construction reports every one, in field order. */
  datatype FieldError =
    | MissingRole
    | ConfidenceBelowZero(c: real)
    | ConfidenceAboveOne(c: real)

  /** The errors validation finds in `args`: a missing `role`, then a `confidence` out of bounds. */
  function Errors(args: SessionArgs): (errs: seq<FieldError>)
    ensures errs == [] <==> args.role.Some? && ConfidenceInRange(args.confidence)
    ensures MissingRole in errs <==> args.role.None?
    ensures |errs| <= 2
    ensures |errs| == (if args.role.None? then 1 else 0) + (if ConfidenceInRange(args.confidence) then 0 else 1)
    ensures args.confidence.Some? && !ConfidenceInRange(args.confidence) ==>
      errs[|errs| - 1] == (if args.confidence.value < 0.0 then ConfidenceBelowZero(args.confidence.value)
                           else ConfidenceAboveOne(args.confidence.value))
  {
    (if args.role.None? then [MissingRole] else [])
    + (if args.confidence.Some? && args.confidence.value < 0.0 then [ConfidenceBelowZero(args.confidence.value)] else [])
    + (if args.confidence.Some? && args.confidence.value > 1.0 then [ConfidenceAboveOne(args.confidence.value)] else [])
  }

  /** `RafaelSession(**args)`: a validated record with defaults filled in, or the validation errors. */
  function NewSession(args: SessionArgs): (r: Result<Session, seq<FieldError>>)
    ensures r.Ok? <==> args.role.Some? && ConfidenceInRange(args.confidence)
    ensures r.Err? ==> r.error != [] && r.error == Errors(args)
    ensures r.Err? ==> (MissingRole in r.error <==> args.role.None?)
    ensures r.Ok? ==> r.value.role == args.role.value && r.value.confidence == args.confidence
    ensures r.Ok? ==> r.value.simpleView == (args.simpleView == Some(true))
    ensures r.Ok? ==> (r.value.output == [] <==> args.output.None? || args.output == Some([]))
    ensures r.Ok? ==> r.value.symptoms == args.symptoms && r.value.vitals == args.vitals && r.value.history == args.history
    ensures r.Ok? ==> r.value.imageFilename == args.imageFilename && r.value.videoFilename == args.videoFilename
    ensures r.Ok? && args.output.Some? ==> r.value.output == args.output.value
  {
    var errs := Errors(args);
    if errs != [] then Err(errs)
    else
      Ok(SessionRecord(
        args.role.value,
        args.simpleView.GetOr(false),
        args.symptoms,
        args.vitals,
        args.history,
        args.imageFilename,
        args.videoFilename,
        args.output.GetOr([]),
        args.confidence))
  }

  /** Only `role` is required: with every other argument omitted, each field takes its default. */
  lemma RoleOnlyDefaults(role: string)
    ensures
      var r := NewSession(SessionArgs(Some(role), None, None, None, None, None, None, None, None));
      r == Ok(SessionRecord(role, false, None, None, None, None, None, [], None))
  {
  }

  /** Without `role` no record can be built, whatever else is supplied. */
  lemma {:induction false} RoleRequired(args: SessionArgs)
    requires args.role.None?
    ensures NewSession(args).Err? && NewSession(args).error[0] == MissingRole
  {
  }

  /** The bound is inclusive at both ends: 0.0 and 1.0 are accepted, 1.5 and -0.1 rejected. */
  lemma ConfidenceBoundary(role: string)
    ensures NewSession(SessionArgs(Some(role), None, None, None, None, None, None, None, Some(0.0))).Ok?
    ensures NewSession(SessionArgs(Some(role), None, None, None, None, None, None, None, Some(1.0))).Ok?
    ensures NewSession(SessionArgs(Some(role), None, None, None, None, None, None, None, Some(1.5)))
      == Err([ConfidenceAboveOne(1.5)])
    ensures NewSession(SessionArgs(Some(role), None, None, None, None, None, None, None, Some(-0.1)))
      == Err([ConfidenceBelowZero(-0.1)])
  {
    var high := SessionArgs(Some(role), None, None, None, None, None, None, None, Some(1.5));
    assert Errors(high) == [] + [] + [ConfidenceAboveOne(1.5)];
    assert NewSession(high).Err?;
    assert NewSession(high).error == [ConfidenceAboveOne(1.5)];
    var low := SessionArgs(Some(role), None, None, None, None, None, None, None, Some(-0.1));
    assert Errors(low) == [] + [ConfidenceBelowZero(-0.1)] + [];
    assert NewSession(low).Err?;
    assert NewSession(low).error == [ConfidenceBelowZero(-0.1)];
  }

  /** Every record the constructor returns satisfies the `confidence` bound. */
  lemma ConstructedInRange(args: SessionArgs)
    requires NewSession(args).Ok?
    ensures ConfidenceInRange(NewSession(args).value.confidence)
    ensures args.confidence.Some? ==> 0.0 <= args.confidence.value <= 1.0
  {
  }
}
