# graphql-schema-linter runner, modelled in Dafny

The runner is the command-line entry point of the schema linter. It
translates the parsed command-line flags into an options record, has the
configuration load the schema files (concatenated into one buffer) and
validate them, and then does one of two things. On a parse failure it
reports the error and exits with 2. Otherwise it remaps every diagnostic's
first location from a line of the concatenated buffer to a line of its own
file, groups the diagnostics by file path, hands the grouping to the
formatter, and exits with 1 when there is at least one diagnostic and 0
when there is none.

The project models that logic in five modules:

- `Wrappers` (`wrappers.dfy`): `Option`, standing for JavaScript's
  `undefined` or a present value.
- `SourceMaps` (`sourcemap.dfy`): the schema source map as a sequence of
  fragments `(path, startLine, lineCount)` and its two lookups, line to path
  and path to start line. `Lookup` is the abstract view the runner uses: two
  finite maps, defined exactly where the lookups answer. `LookupOf` gives the
  lookups of a concrete, well-formed fragment list. Lemmas show that a
  well-formed map answers both lookups for every buffer line, that the owner
  is unique, and that the file-relative line lies between 1 and the
  fragment's line count.
- `Grouping` (`grouping.dfy`): diagnostics are heap objects (`Diagnostic`),
  because the runner rewrites `locations[0].line` in place and the grouped
  map holds the very objects of the input. `GroupErrorsBySchemaFilePath` is a
  loop over the diagnostics that writes only their `locations` field. It is
  proved against `Group`, a pure fold over the diagnostics and their paths.
  `Group` is then proved equal, per path, to `Filter`, an independent
  per-path definition. From that come conservation, order preservation and
  "each diagnostic in exactly one list".
- `Options` (`options.dfy`): `getOptionsFromCommander` as a pure function
  over an optional-fields record, with `Split` and `Join` on a one-character
  separator and both round trips between them.
- `Runner` (`runner.dfy`): the exit code as a function of the validator's
  outcome, and `Run`, which puts the pieces together in the order of `run`.

Two behaviours of the code that a reader might expect otherwise:

- `run` has no exit code for configuration errors. An error thrown while the
  configuration is built or read (src/runner.js:53-61, outside the `try`)
  escapes `run`.
- `getOptionsFromCommander` passes `--rules` and `--only` through side by
  side (src/runner.js:120-126). Which one is used is decided in the
  configuration, which is not part of this model.

## Model

| member | source | states |
|---|---|---|
| `Grouping.GroupErrorsBySchemaFilePath` | src/runner.js:88-103 | The result is `Group` of the diagnostics and the paths the source map gives for their original first-location lines. Each diagnostic's locations become `Remapped` of its old locations. Only the `locations` field is written, and the sequence of diagnostics is unchanged. |
| `Grouping.RemapFirstLocation` | src/runner.js:90-96 | For one diagnostic: returns the path that owns its original first line and rewrites its locations to `Remapped` of the old ones. |
| `Grouping.Remapped` | src/runner.js:95-96 | Only the first location's line changes. It becomes `line - startLine(path(line)) + 1`, which is at least 1. The column and every other location are kept. |
| `Grouping.PathsOf` | src/runner.js:90-92 | The i-th path is the source map's answer for the i-th line. |
| `Grouping.GroupIsFilter` | src/runner.js:98-99 | The grouped map has a key exactly for the paths that occur. Each key's list is `Filter`: the diagnostics with that path, in input order. |
| `Grouping.FilterOrder` | src/runner.js:98-99 | Each diagnostic sits in its path's list at its rank, which is the number of earlier diagnostics with that path. Of two diagnostics with the same path, the earlier one comes first. |
| `Grouping.FilterAtRank` | src/runner.js:98-99 | The list of a diagnostic's path, as built up to and including it, ends with that diagnostic, and the full list holds it at its rank. |
| `Grouping.FilterMembers` | src/runner.js:98-99 | Every member of a path's list is an input diagnostic whose path is that path. |
| `Grouping.GroupedExactlyOnce` | src/runner.js:89-102 | Given distinct diagnostics, each one is in the list of its own path, exactly once, and in no other list. |
| `Grouping.FilterHoldsOnce` | src/runner.js:98-99 | Given distinct diagnostics, each occurs exactly once in its path's filter. |
| `Grouping.Group` | src/runner.js:89-102 | Every list in the grouped map holds at least one diagnostic: a key is only created when a diagnostic is appended to it. |
| `Grouping.FoldStep` | src/runner.js:90-101 | One turn of the loop takes the fold's state from the first `k` diagnostics grouped and remapped to the first `k + 1`, and leaves the later diagnostics untouched. |
| `Grouping.GroupConserves` | src/runner.js:89-102 | Over any distinct list of paths that covers every diagnostic's path, the lengths of the grouped lists sum to the number of diagnostics. |
| `Grouping.GroupConservesOverSourceMap` | src/runner.js:88-103 | For a well-formed source map and diagnostic lines inside its buffer, every line resolves, and the lists kept for the map's files hold exactly as many diagnostics as were given. |
| `Grouping.FiltersPartition` | src/runner.js:89-102 | The per-path filters over distinct covering paths partition the input: their sizes sum to its length. |
| `SourceMaps.Relative` | src/runner.js:94-96 | The file-relative line `line - startLine + 1` is at least 1 whenever the start line of the owning path is not after the line. |
| `SourceMaps.IndexFor` | src/runner.js:90-92 | The lookup from line to fragment finds the first fragment containing the line, and answers nothing when no fragment contains it. |
| `SourceMaps.PathFor` | src/runner.js:90 | A path is reported exactly when some fragment contains the line, and it is the path of such a fragment. |
| `SourceMaps.StartLineFor` | src/runner.js:94 | A start line is reported exactly when some fragment has the path, and it is the start line of such a fragment. |
| `SourceMaps.IndexOfPath` | src/runner.js:94 | The lookup from path to fragment finds a fragment with that path, and answers nothing when no fragment has it. |
| `SourceMaps.CoveredLineIsFound` | src/runner.js:90-92 | In a contiguous map, every line from the first fragment's start to the end of the buffer has an owning fragment. |
| `SourceMaps.EndsBeforeLater` | src/runner.js:90-92 | In a contiguous map, every fragment ends before any later fragment starts, so fragments do not overlap. |
| `SourceMaps.OwnerIsUnique` | src/runner.js:90-92 | A line that fragment k contains is reported as fragment k's, and no other fragment's. |
| `SourceMaps.BufferLineResolves` | src/runner.js:90-96 | In a well-formed map, every buffer line resolves, as the fold requires. Its file-relative line lies between 1 and the owning fragment's line count. |
| `SourceMaps.ReportedPathIsFragmentPath` | src/runner.js:90-92 | Every path the lookup reports is the path of one of the map's fragments. |
| `SourceMaps.TwoFileExample` | src/runner.js:90-96 | With a file `a` of 5 lines followed by a different file `b` of 3 lines, buffer line 7 is reported as `b`, line 2. |
| `Options.GetOptionsFromCommander` | src/runner.js:105-133 | `stdin` is always copied. `configDirectory` and `format` are present exactly when their flags are truthy, and then equal the flags. `rules`, `only` and `except` are present exactly when their flags are truthy, and then join back with `','` to the flag, and no piece contains `','`. `schemaPaths` is present exactly when there are positional arguments, and then equals them. |
| `Options.ListFlag` | src/runner.js:112-126 | A list flag is split exactly when it is truthy. The pieces join back to the flag, and no piece contains `','`. |
| `Options.StringFlag` | src/runner.js:108-118 | A string flag is copied exactly when it is truthy. |
| `Options.JoinSplit` | src/runner.js:124-126 | Joining the split pieces with the separator gives back the original string. |
| `Options.SplitPieces` | src/runner.js:124-126 | No piece of a split contains the separator, and there is one more piece than there are separators. |
| `Options.SplitJoin` | src/runner.js:124-126 | Splitting a join of at least one separator-free piece gives back the pieces. |
| `Options.WarnsDeprecated` | src/runner.js:42 | The deprecation warning is written exactly when `only` or `except` reaches the options record. |
| `Options.Split` | src/runner.js:113 | Splitting always yields at least one piece, as `String.prototype.split` does. |
| `Runner.ExitCode` | src/runner.js:65-85 | A parse failure gives 2. Validation with at least one diagnostic gives 1, and with none gives 0. Any other exception gives no exit code. No other value is ever returned. |
| `Runner.Run` | src/runner.js:10-86 | The warning is issued iff `--only` or `--except` is truthy, and the options are `GetOptionsFromCommander` of the flags. A parse failure exits with 2 and produces no report. Any other exception escapes. Otherwise the report is the grouping of the diagnostics, each diagnostic is remapped, and the exit code is 1 or 0 by the unchanged number of diagnostics. |

## Left out

- Command-line parsing by `commander`, the usage and version text, and the
  package version (src/runner.js:11-40). The parsed result is the input
  record `Flags`.
- Terminal output: the coloured deprecation warning, the parse-error text
  and the write of the formatted report. `Run` records whether the warning
  is issued and which grouping is handed to the formatter.
- `Configuration`: schema loading, choice of formatter, rule resolution and
  building the source map, together with `validateSchemaDefinition`, the
  rule index and the GraphQL parser. None of them is part of this model.
  The validator's outcome (`Validation`) and the source map's lookups
  (`Lookup`) are parameters. `SourceMaps` gives a concrete fragment list only
  to show which maps satisfy the fold's requirements.
- The formatter's rendering of the grouped map.
- Exceptions other than a parse failure are not followed further: `Run`
  returns `Threw`, and no exit code is chosen.
- `GroupErrorsBySchemaFilePath` requires what the runner relies on without
  checking. The lookups answer for every diagnostic's first line, and the
  start line is not after that line. Every diagnostic has at least one
  location. The diagnostics are distinct objects: the validator creates a
  fresh error per violation. A diagnostic listed twice would be rewritten
  twice.
- Grouping: JavaScript objects keep their keys in insertion order and
  inherit properties such as `constructor`. The model's accumulator is a
  Dafny `map`. It has no key order, and a schema path equal to an inherited
  property name (on which `groupedErrors[path] || []` would yield that
  property) is not modelled.
- Diagnostics: of a `GraphQLError`, only the message, the rule name and the
  locations are modelled. Message and rule name are immutable fields, since
  nothing in the runner writes them. Locations are values, so two
  diagnostics sharing one location object is not modelled. The validator
  creates fresh locations for each error.
- `Split` models `String.prototype.split` for a one-character separator and
  no limit, which is the only way the runner calls it.
- Truthiness: a string flag counts as given when it is present and not
  empty, as in JavaScript. `stdin` is copied as it is, `undefined` included.
  `commander.args` is always an array, so the case where it is missing is
  not modelled.
