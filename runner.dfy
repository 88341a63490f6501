/**
 * `run`: warns about the deprecated options, hands the translated options to
 * the configuration, validates the schema, and either reports a parse failure
 * (exit code 2) or groups the diagnostics by file, hands them to the formatter
 * and exits with 1 when there is at least one diagnostic and 0 otherwise.
 *
 * Loading the configuration, parsing and validating the schema and formatting
 * the report are outside the runner: the validator's outcome and the source
 * map's lookups are parameters here.
 */
module Runner {
  import opened Wrappers
  import opened SourceMaps
  import opened Grouping
  import opened Options

  /** What `validateSchemaDefinition` does: return diagnostics or throw. */
  datatype Validation =
    | Validated(errors: seq<Diagnostic>)
    | ParseFailure(message: string)  // a `GraphQLError`
    | OtherFailure                   // any other exception, re-thrown

  /** The process exit code chosen by `run`; `None` when the exception escapes `run`. */
  function ExitCode(v: Validation): (code: Option<int>)
    ensures code.Some? ==> code.value in {0, 1, 2}
    ensures code.None? <==> v.OtherFailure?
    ensures code == Some(2) <==> v.ParseFailure?
    ensures code == Some(1) <==> v.Validated? && |v.errors| > 0
    ensures code == Some(0) <==> v.Validated? && |v.errors| == 0
  {
    match v
    case ParseFailure(_) => Some(2)
    case OtherFailure => None
    case Validated(errors) => Some(if |errors| > 0 then 1 else 0)
  }

  /** What a call of `run` leaves behind. */
  datatype RunResult =
    | Exited(warned: bool, options: CliOptions, report: Option<map<string, seq<Diagnostic>>>, code: int)
    | Threw(warned: bool, options: CliOptions)

  /** The diagnostics the validator returned, if it returned. */
  function Returned(v: Validation): seq<Diagnostic>
  {
    if v.Validated? then v.errors else []
  }

  /**
   * `run`, given the validator's outcome and the source map. `report` is the
   * grouped map handed to the formatter and written to standard output; it is
   * absent when the run stops before grouping.
   */
  method Run(flags: Flags, validation: Validation, lk: Lookup) returns (r: RunResult)
    requires validation.Validated? ==>
      var errors := validation.errors;
      (forall i, j :: 0 <= i < j < |errors| ==> errors[i] != errors[j]) &&
      (forall i :: 0 <= i < |errors| ==> |errors[i].locations| > 0) &&
      (forall i :: 0 <= i < |errors| ==> Resolves(lk, errors[i].locations[0].line))
    modifies Returned(validation)`locations
    ensures r.warned == WarnsDeprecated(flags)
    ensures r.options == GetOptionsFromCommander(flags)
    ensures validation.OtherFailure? <==> r.Threw?
    ensures r.Exited? ==> Some(r.code) == ExitCode(validation)
    ensures validation.ParseFailure? ==> r.Exited? && r.report.None?
    ensures validation.Validated? ==>
      var errors := validation.errors;
      r.Exited? &&
      r.report == Some(Group(errors, PathsOf(lk, old(FirstLines(errors))))) &&
      forall i :: 0 <= i < |errors| ==> errors[i].locations == Remapped(lk, old(errors[i].locations))
  {
    var warned := WarnsDeprecated(flags);
    var options := GetOptionsFromCommander(flags);
    match validation
    case ParseFailure(_) =>
      r := Exited(warned, options, None, 2);
    case OtherFailure =>
      r := Threw(warned, options);
    case Validated(errors) =>
      var groupedErrors := GroupErrorsBySchemaFilePath(errors, lk);
      r := Exited(warned, options, Some(groupedErrors), if |errors| > 0 then 1 else 0);
  }
}
