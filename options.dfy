/**
 * `getOptionsFromCommander`: the flags parsed from the command line become the
 * options record handed to the configuration. A string flag is copied (or split
 * on commas) only when it is truthy in the JavaScript sense, that is present and
 * non-empty; `stdin` is copied whatever it is.
 */
module Options {
  import opened Wrappers

  // ---------------------------------------------------------------------------
  // Splitting on a separator

  /**
   * `s.split(sep)` for a one-character separator: the pieces between
   * separators, an empty piece wherever two separators meet or the string
   * starts or ends with one, and `[""]` for the empty string.
   */
  function Split(s: string, sep: char): (r: seq<string>)
    ensures |r| >= 1
    decreases |s|
  {
    if |s| == 0 then [""]
    else
      var rest := Split(s[1..], sep);
      if s[0] == sep then [""] + rest
      else [[s[0]] + rest[0]] + rest[1..]
  }

  /** `parts.join(sep)`. */
  function Join(parts: seq<string>, sep: char): string
  {
    if |parts| == 0 then ""
    else if |parts| == 1 then parts[0]
    else parts[0] + [sep] + Join(parts[1..], sep)
  }

  /** Number of occurrences of `c` in `s`. */
  function Count(s: string, c: char): nat
  {
    if |s| == 0 then 0 else (if s[0] == c then 1 else 0) + Count(s[1..], c)
  }

  /** Joining the pieces with the separator gives back the string. */
  lemma {:induction false} JoinSplit(s: string, sep: char)
    ensures Join(Split(s, sep), sep) == s
  {
    if |s| > 0 {
      var rest := Split(s[1..], sep);
      JoinSplit(s[1..], sep);
      if s[0] == sep {
        assert Split(s, sep) == [""] + rest;
        assert ([""] + rest)[1..] == rest;
      } else {
        var r := Split(s, sep);
        assert r == [[s[0]] + rest[0]] + rest[1..];
        if |rest| == 1 {
          assert Join(r, sep) == [s[0]] + rest[0];
        } else {
          assert r[1..] == rest[1..];
          assert Join(rest, sep) == rest[0] + [sep] + Join(rest[1..], sep);
        }
        assert s == [s[0]] + s[1..];
      }
    }
  }

  /** No piece contains the separator, and there is one piece more than separators. */
  lemma {:induction false} SplitPieces(s: string, sep: char)
    ensures forall i :: 0 <= i < |Split(s, sep)| ==> sep !in Split(s, sep)[i]
    ensures |Split(s, sep)| == Count(s, sep) + 1
  {
    if |s| > 0 {
      SplitPieces(s[1..], sep);
      var rest := Split(s[1..], sep);
      var r := Split(s, sep);
      if s[0] != sep {
        assert r[0] == [s[0]] + rest[0];
        forall i | 1 <= i < |r| ensures sep !in r[i] {
          assert r[i] == rest[i];
        }
      } else {
        forall i | 1 <= i < |r| ensures sep !in r[i] {
          assert r[i] == rest[i - 1];
        }
      }
    }
  }

  /** Splitting undoes joining pieces that do not contain the separator. */
  lemma {:induction false} SplitJoin(parts: seq<string>, sep: char)
    requires |parts| >= 1
    requires forall i :: 0 <= i < |parts| ==> sep !in parts[i]
    ensures Split(Join(parts, sep), sep) == parts
  {
    if |parts| == 1 {
      SplitNoSeparator(parts[0], sep);
    } else {
      SplitJoin(parts[1..], sep);
      SplitPrefix(parts[0], Join(parts[1..], sep), sep);
    }
  }

  /** A string without the separator splits into itself. */
  lemma {:induction false} SplitNoSeparator(s: string, sep: char)
    requires sep !in s
    ensures Split(s, sep) == [s]
  {
    if |s| > 0 {
      SplitNoSeparator(s[1..], sep);
      assert s == [s[0]] + s[1..];
    }
  }

  /** A separator-free prefix followed by a separator becomes the first piece. */
  lemma {:induction false} SplitPrefix(p: string, t: string, sep: char)
    requires sep !in p
    ensures Split(p + [sep] + t, sep) == [p] + Split(t, sep)
  {
    if |p| == 0 {
      assert p + [sep] + t == [sep] + t;
      assert ([sep] + t)[1..] == t;
    } else {
      SplitPrefix(p[1..], t, sep);
      assert (p + [sep] + t)[1..] == p[1..] + [sep] + t;
      assert p == [p[0]] + p[1..];
    }
  }

  // ---------------------------------------------------------------------------
  // Flags to options

  /** What the command-line parser leaves on its result object. */
  datatype Flags = Flags(
    rules: Option<string>,
    format: Option<string>,
    stdin: Option<bool>,
    configDirectory: Option<string>,
    only: Option<string>,
    except: Option<string>,
    args: seq<string>)

  /**
   * The options record. `stdin` is always set (possibly to `undefined`, here
   * `None`); every other field is absent (`None`) unless its flag was given.
   */
  datatype CliOptions = CliOptions(
    stdin: Option<bool>,
    configDirectory: Option<string>,
    except: Option<seq<string>>,
    format: Option<string>,
    only: Option<seq<string>>,
    rules: Option<seq<string>>,
    schemaPaths: Option<seq<string>>)

  /** JavaScript truthiness of an optional string: present and non-empty. */
  predicate Truthy(flag: Option<string>)
  {
    flag.Some? && flag.value != ""
  }

  /** A comma-separated list flag, split when truthy and absent otherwise. */
  function ListFlag(flag: Option<string>): (r: Option<seq<string>>)
    ensures r.Some? <==> Truthy(flag)
    ensures r.Some? ==> |r.value| >= 1 && Join(r.value, ',') == flag.value
    ensures r.Some? ==> forall i :: 0 <= i < |r.value| ==> ',' !in r.value[i]
  {
    if Truthy(flag) then
      JoinSplit(flag.value, ',');
      SplitPieces(flag.value, ',');
      Some(Split(flag.value, ','))
    else None
  }

  /** A plain string flag, copied when truthy and absent otherwise. */
  function StringFlag(flag: Option<string>): (r: Option<string>)
    ensures r.Some? <==> Truthy(flag)
    ensures r.Some? ==> r == flag
  {
    if Truthy(flag) then flag else None
  }

  /** `getOptionsFromCommander`. */
  function GetOptionsFromCommander(flags: Flags): (o: CliOptions)
    ensures o.stdin == flags.stdin
    ensures o.configDirectory.Some? <==> Truthy(flags.configDirectory)
    ensures o.configDirectory.Some? ==> o.configDirectory == flags.configDirectory
    ensures o.format.Some? <==> Truthy(flags.format)
    ensures o.format.Some? ==> o.format == flags.format
    ensures o.rules.Some? <==> Truthy(flags.rules)
    ensures o.rules.Some? ==> Join(o.rules.value, ',') == flags.rules.value
    ensures o.rules.Some? ==> forall i :: 0 <= i < |o.rules.value| ==> ',' !in o.rules.value[i]
    ensures o.only.Some? <==> Truthy(flags.only)
    ensures o.only.Some? ==> Join(o.only.value, ',') == flags.only.value
    ensures o.only.Some? ==> forall i :: 0 <= i < |o.only.value| ==> ',' !in o.only.value[i]
    ensures o.except.Some? <==> Truthy(flags.except)
    ensures o.except.Some? ==> Join(o.except.value, ',') == flags.except.value
    ensures o.except.Some? ==> forall i :: 0 <= i < |o.except.value| ==> ',' !in o.except.value[i]
    ensures o.schemaPaths.Some? <==> |flags.args| > 0
    ensures o.schemaPaths.Some? ==> o.schemaPaths.value == flags.args
  {
    CliOptions(
      stdin := flags.stdin,
      configDirectory := StringFlag(flags.configDirectory),
      except := ListFlag(flags.except),
      format := StringFlag(flags.format),
      only := ListFlag(flags.only),
      rules := ListFlag(flags.rules),
      schemaPaths := if |flags.args| > 0 then Some(flags.args) else None)
  }

  /**
   * The condition on which the deprecation warning is written: `--only` or
   * `--except` is truthy, which is exactly when a legacy option reaches the
   * options record.
   */
  predicate WarnsDeprecated(flags: Flags)
    ensures WarnsDeprecated(flags) <==>
      GetOptionsFromCommander(flags).only.Some? || GetOptionsFromCommander(flags).except.Some?
  {
    Truthy(flags.only) || Truthy(flags.except)
  }
}
