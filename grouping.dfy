/**
 * `groupErrorsBySchemaFilePath`: the validator's diagnostics carry lines of the
 * concatenated schema buffer. For each diagnostic, in order, the runner asks the
 * source map for the path owning its first location's line, rewrites that line
 * in place to be relative to the path's file, and appends the diagnostic to the
 * list kept for that path.
 *
 * Diagnostics are heap objects, since the runner mutates them and the grouped
 * map holds the very objects of the input sequence. The grouping itself is
 * specified by `Group`, a pure fold over the diagnostics and their paths, and
 * its properties are proved about `Filter`, an independent per-path definition.
 */
module Grouping {
  import opened Wrappers
  import opened SourceMaps

  /** A position in schema text, as reported by the validator (1-based line). */
  datatype Location = Location(line: int, column: int)

  /**
   * A validation error, as produced by the schema validator. Its message and
   * rule name are fixed when it is created; its locations can be rewritten.
   */
  class Diagnostic {
    const message: string
    const ruleName: string
    var locations: seq<Location>

    constructor (message: string, ruleName: string, locations: seq<Location>)
      ensures this.message == message && this.ruleName == ruleName
      ensures this.locations == locations
    {
      this.message := message;
      this.ruleName := ruleName;
      this.locations := locations;
    }
  }

  // ---------------------------------------------------------------------------
  // Specification of the grouping, on values

  /** The list kept for `path` in `g`, empty when the key is absent. */
  function ListFor<T>(g: map<string, seq<T>>, path: string): seq<T>
  {
    if path in g then g[path] else []
  }

  /**
   * The fold of the source: `es[i]` is appended to the list of `ps[i]`, from
   * the first diagnostic to the last.
   */
  function Group<T>(es: seq<T>, ps: seq<string>): (g: map<string, seq<T>>)
    requires |es| == |ps|
    ensures forall p {:trigger g[p]} :: p in g ==> |g[p]| >= 1
  {
    if |es| == 0 then map[]
    else
      var g := Group(es[..|es| - 1], ps[..|ps| - 1]);
      var p := ps[|ps| - 1];
      g[p := ListFor(g, p) + [es[|es| - 1]]]
  }

  /** The diagnostics whose path is `p`, in input order. */
  function Filter<T>(es: seq<T>, ps: seq<string>, p: string): seq<T>
    requires |es| == |ps|
  {
    if |es| == 0 then []
    else Filter(es[..|es| - 1], ps[..|ps| - 1], p) + (if ps[|ps| - 1] == p then [es[|es| - 1]] else [])
  }

  /** The grouped map has a key exactly for each path met, holding that path's diagnostics. */
  lemma {:induction false} GroupIsFilter<T>(es: seq<T>, ps: seq<string>, p: string)
    requires |es| == |ps|
    ensures p in Group(es, ps) <==> p in ps
    ensures ListFor(Group(es, ps), p) == Filter(es, ps, p)
  {
    if |es| > 0 {
      var n := |es| - 1;
      GroupIsFilter(es[..n], ps[..n], p);
      assert ps == ps[..n] + [ps[n]];
    }
  }

  /** Every member of a path's list is a diagnostic of the input with that path. */
  lemma {:induction false} FilterMembers<T>(es: seq<T>, ps: seq<string>, p: string, x: T)
    requires |es| == |ps| && x in Filter(es, ps, p)
    ensures exists i :: 0 <= i < |es| && es[i] == x && ps[i] == p
  {
    var n := |es| - 1;
    if x in Filter(es[..n], ps[..n], p) {
      FilterMembers(es[..n], ps[..n], p, x);
      var i :| 0 <= i < n && es[..n][i] == x && ps[..n][i] == p;
      assert es[i] == x && ps[i] == p;
    } else {
      assert es[n] == x && ps[n] == p;
    }
  }

  /** Filtering a prefix gives a prefix of the filtered whole. */
  lemma {:induction false} FilterPrefix<T>(es: seq<T>, ps: seq<string>, p: string, k: nat)
    requires |es| == |ps| && k <= |es|
    ensures Filter(es[..k], ps[..k], p) <= Filter(es, ps, p)
  {
    if k < |es| {
      var n := |es| - 1;
      FilterPrefix(es[..n], ps[..n], p, k);
      assert es[..n][..k] == es[..k] && ps[..n][..k] == ps[..k];
    } else {
      assert es[..k] == es && ps[..k] == ps;
    }
  }

  /** Position of `es[i]` in its path's list: the number of earlier diagnostics with that path. */
  function Rank<T>(es: seq<T>, ps: seq<string>, i: nat): nat
    requires |es| == |ps| && i < |es|
  {
    |Filter(es[..i], ps[..i], ps[i])|
  }

  /**
   * Each diagnostic sits in its own path's list at its rank, and of two
   * diagnostics with the same path the earlier one comes first.
   */
  lemma FilterOrder<T>(es: seq<T>, ps: seq<string>, i: nat, j: nat)
    requires |es| == |ps| && i < j < |es| && ps[i] == ps[j]
    ensures Rank(es, ps, i) < Rank(es, ps, j) < |Filter(es, ps, ps[j])|
    ensures Filter(es, ps, ps[i])[Rank(es, ps, i)] == es[i]
    ensures Filter(es, ps, ps[j])[Rank(es, ps, j)] == es[j]
  {
    FilterAtRank(es, ps, i);
    FilterAtRank(es, ps, j);
    FilterPrefix(es[..j], ps[..j], ps[i], i + 1);
    assert es[..j][..i + 1] == es[..i + 1] && ps[..j][..i + 1] == ps[..i + 1];
  }

  /** `es[i]` is found in its path's list, at its rank. */
  lemma FilterAtRank<T>(es: seq<T>, ps: seq<string>, i: nat)
    requires |es| == |ps| && i < |es|
    ensures Filter(es[..i + 1], ps[..i + 1], ps[i]) == Filter(es[..i], ps[..i], ps[i]) + [es[i]]
    ensures Rank(es, ps, i) < |Filter(es, ps, ps[i])|
    ensures Filter(es, ps, ps[i])[Rank(es, ps, i)] == es[i]
  {
    assert es[..i + 1][..i] == es[..i] && ps[..i + 1][..i] == ps[..i];
    FilterPrefix(es, ps, ps[i], i + 1);
  }

  /** Sum of the lengths of the lists of `keys` in `g` (absent keys count 0). */
  function TotalSize<T>(g: map<string, seq<T>>, keys: seq<string>): nat
  {
    if |keys| == 0 then 0 else TotalSize(g, keys[..|keys| - 1]) + |ListFor(g, keys[|keys| - 1])|
  }

  /** Sum of the lengths of the per-path filters over `keys`. */
  function FilterSizes<T>(es: seq<T>, ps: seq<string>, keys: seq<string>): nat
    requires |es| == |ps|
  {
    if |keys| == 0 then 0 else FilterSizes(es, ps, keys[..|keys| - 1]) + |Filter(es, ps, keys[|keys| - 1])|
  }

  /** How many entries of `keys` equal `p`. */
  function Occurrences(keys: seq<string>, p: string): nat
  {
    if |keys| == 0 then 0 else Occurrences(keys[..|keys| - 1], p) + (if keys[|keys| - 1] == p then 1 else 0)
  }

  predicate Distinct(keys: seq<string>)
  {
    forall i, j :: 0 <= i < j < |keys| ==> keys[i] != keys[j]
  }

  lemma {:induction false} OccursOnce(keys: seq<string>, p: string)
    requires Distinct(keys) && p in keys
    ensures Occurrences(keys, p) == 1
  {
    var n := |keys| - 1;
    if keys[n] == p {
      OccursNever(keys[..n], p);
    } else {
      assert p in keys[..n];
      OccursOnce(keys[..n], p);
    }
  }

  lemma {:induction false} OccursNever(keys: seq<string>, p: string)
    requires p !in keys
    ensures Occurrences(keys, p) == 0
  {
    if |keys| > 0 {
      OccursNever(keys[..|keys| - 1], p);
    }
  }

  /** Appending one diagnostic adds one to the filter sizes once for each key equal to its path. */
  lemma {:induction false} FilterSizesStep<T>(es: seq<T>, ps: seq<string>, keys: seq<string>)
    requires |es| == |ps| && |es| > 0
    ensures FilterSizes(es, ps, keys)
         == FilterSizes(es[..|es| - 1], ps[..|ps| - 1], keys) + Occurrences(keys, ps[|ps| - 1])
  {
    if |keys| > 0 {
      FilterSizesStep(es, ps, keys[..|keys| - 1]);
    }
  }

  /** Over distinct keys covering every path, the filters partition the input. */
  lemma {:induction false} FiltersPartition<T>(es: seq<T>, ps: seq<string>, keys: seq<string>)
    requires |es| == |ps| && Distinct(keys)
    requires forall i :: 0 <= i < |ps| ==> ps[i] in keys
    ensures FilterSizes(es, ps, keys) == |es|
  {
    if |es| == 0 {
      FilterSizesEmpty(es, ps, keys);
    } else {
      var n := |es| - 1;
      FiltersPartition(es[..n], ps[..n], keys);
      FilterSizesStep(es, ps, keys);
      OccursOnce(keys, ps[n]);
    }
  }

  lemma {:induction false} FilterSizesEmpty<T>(es: seq<T>, ps: seq<string>, keys: seq<string>)
    requires |es| == |ps| == 0
    ensures FilterSizes(es, ps, keys) == 0
  {
    if |keys| > 0 {
      FilterSizesEmpty(es, ps, keys[..|keys| - 1]);
    }
  }

  lemma {:induction false} TotalSizeIsFilterSizes<T>(es: seq<T>, ps: seq<string>, keys: seq<string>)
    requires |es| == |ps|
    ensures TotalSize(Group(es, ps), keys) == FilterSizes(es, ps, keys)
  {
    if |keys| > 0 {
      TotalSizeIsFilterSizes(es, ps, keys[..|keys| - 1]);
      GroupIsFilter(es, ps, keys[|keys| - 1]);
    }
  }

  /**
   * Conservation: over any distinct list of paths that covers every diagnostic's
   * path (such as the paths of the source map), the grouped lists' lengths sum
   * to the number of diagnostics.
   */
  lemma GroupConserves<T>(es: seq<T>, ps: seq<string>, keys: seq<string>)
    requires |es| == |ps| && Distinct(keys)
    requires forall i :: 0 <= i < |ps| ==> ps[i] in keys
    ensures TotalSize(Group(es, ps), keys) == |es|
  {
    TotalSizeIsFilterSizes(es, ps, keys);
    FiltersPartition(es, ps, keys);
  }

  /**
   * With distinct diagnostics, each one is in the list of its own path and in
   * the list of no other path.
   */
  lemma GroupedExactlyOnce<T>(es: seq<T>, ps: seq<string>, i: nat, q: string)
    requires |es| == |ps| && i < |es|
    requires forall a, b :: 0 <= a < b < |es| ==> es[a] != es[b]
    ensures ps[i] in Group(es, ps) && es[i] in Group(es, ps)[ps[i]]
    ensures multiset(Group(es, ps)[ps[i]])[es[i]] == 1
    ensures q != ps[i] ==> es[i] !in ListFor(Group(es, ps), q)
  {
    GroupIsFilter(es, ps, ps[i]);
    GroupIsFilter(es, ps, q);
    FilterAtRank(es, ps, i);
    FilterHoldsOnce(es, ps, i);
    if q != ps[i] && es[i] in Filter(es, ps, q) {
      FilterMembers(es, ps, q, es[i]);
    }
  }

  /** A value that is not among the diagnostics is in no filter. */
  lemma FilterWithout<T>(es: seq<T>, ps: seq<string>, p: string, x: T)
    requires |es| == |ps| && x !in es
    ensures multiset(Filter(es, ps, p))[x] == 0
  {
    if x in Filter(es, ps, p) {
      FilterMembers(es, ps, p, x);
      assert false;
    }
  }

  /** With distinct diagnostics, each occurs exactly once in its path's filter. */
  lemma {:induction false} FilterHoldsOnce<T>(es: seq<T>, ps: seq<string>, i: nat)
    requires |es| == |ps| && i < |es|
    requires forall a, b :: 0 <= a < b < |es| ==> es[a] != es[b]
    ensures multiset(Filter(es, ps, ps[i]))[es[i]] == 1
  {
    var n := |es| - 1;
    var tail: seq<T> := if ps[n] == ps[i] then [es[n]] else [];
    assert Filter(es, ps, ps[i]) == Filter(es[..n], ps[..n], ps[i]) + tail;
    if i == n {
      assert es[n] !in es[..n];
      FilterWithout(es[..n], ps[..n], ps[i], es[i]);
    } else {
      assert ps[..n][i] == ps[i] && es[..n][i] == es[i];
      FilterHoldsOnce(es[..n], ps[..n], i);
      assert es[n] != es[i];
      assert multiset(tail)[es[i]] == 0;
    }
  }

  /**
   * Conservation against a concrete source map: when every diagnostic's line
   * lies in the buffer, the lists kept for the map's files hold as many
   * diagnostics as there were.
   */
  lemma GroupConservesOverSourceMap<T>(sm: SourceMap, es: seq<T>, lines: seq<int>)
    requires WellFormed(sm) && |es| == |lines|
    requires forall i :: 0 <= i < |lines| ==> 1 <= lines[i] <= TotalLines(sm)
    ensures forall i :: 0 <= i < |lines| ==> Resolves(LookupOf(sm), lines[i])
    ensures TotalSize(Group(es, PathsOf(LookupOf(sm), lines)), Paths(sm)) == |es|
  {
    var lk := LookupOf(sm);
    forall i | 0 <= i < |lines| ensures Resolves(lk, lines[i]) {
      BufferLineResolves(sm, lines[i]);
    }
    var ps := PathsOf(lk, lines);
    forall i | 0 <= i < |ps| ensures ps[i] in Paths(sm) {
      ReportedPathIsFragmentPath(sm, lines[i]);
    }
    GroupConserves(es, ps, Paths(sm));
  }

  // ---------------------------------------------------------------------------
  // The in-place fold

  /** The paths owning the given buffer lines. */
  function PathsOf(lk: Lookup, lines: seq<int>): (ps: seq<string>)
    requires forall i :: 0 <= i < |lines| ==> Resolves(lk, lines[i])
    ensures |ps| == |lines|
    ensures forall i :: 0 <= i < |lines| ==> lines[i] in lk.pathFor && ps[i] == lk.pathFor[lines[i]]
  {
    if |lines| == 0 then []
    else
      assert Resolves(lk, lines[|lines| - 1]);
      PathsOf(lk, lines[..|lines| - 1]) + [lk.pathFor[lines[|lines| - 1]]]
  }

  /** The diagnostics' first-location lines. */
  function FirstLines(errors: seq<Diagnostic>): (ls: seq<int>)
    reads errors
    requires forall i :: 0 <= i < |errors| ==> |errors[i].locations| > 0
    ensures |ls| == |errors|
    ensures forall i :: 0 <= i < |errors| ==> ls[i] == errors[i].locations[0].line
  {
    seq(|errors|, i reads errors requires 0 <= i < |errors| && |errors[i].locations| > 0 => errors[i].locations[0].line)
  }

  /** Locations whose first line has been made relative to its file; the rest is kept. */
  function Remapped(lk: Lookup, locations: seq<Location>): (r: seq<Location>)
    requires |locations| > 0 && Resolves(lk, locations[0].line)
    ensures |r| == |locations| && r[1..] == locations[1..]
    ensures r[0].column == locations[0].column
    ensures r[0].line == locations[0].line - lk.startLineFor[lk.pathFor[locations[0].line]] + 1
    ensures r[0].line >= 1
  {
    locations[0 := locations[0].(line := Relative(lk, locations[0].line))]
  }

  /** The diagnostics' location lists. */
  function AllLocations(errors: seq<Diagnostic>): (r: seq<seq<Location>>)
    reads errors
    ensures |r| == |errors|
    ensures forall i :: 0 <= i < |errors| ==> r[i] == errors[i].locations
  {
    seq(|errors|, i reads errors requires 0 <= i < |errors| => errors[i].locations)
  }

  /** `Remapped` applied to each location list. */
  function RemapAll(lk: Lookup, all: seq<seq<Location>>): (r: seq<seq<Location>>)
    requires forall i :: 0 <= i < |all| ==> |all[i]| > 0 && Resolves(lk, all[i][0].line)
    ensures |r| == |all|
    ensures forall i :: 0 <= i < |all| ==> r[i] == Remapped(lk, all[i])
  {
    if |all| == 0 then []
    else RemapAll(lk, all[..|all| - 1]) + [Remapped(lk, all[|all| - 1])]
  }

  /** One fold of `Group`: the diagnostic at `k` is appended to its path's list. */
  lemma GroupStep<T>(es: seq<T>, ps: seq<string>, k: nat)
    requires |es| == |ps| && k < |es|
    ensures Group(es[..k + 1], ps[..k + 1])
         == Group(es[..k], ps[..k])[ps[k] := ListFor(Group(es[..k], ps[..k]), ps[k]) + [es[k]]]
  {
    assert es[..k + 1][..k] == es[..k] && ps[..k + 1][..k] == ps[..k];
  }

  /**
   * The body of the fold for one diagnostic: looks up the path owning its first
   * line, makes that line relative to the path's file, and returns the path.
   */
  method RemapFirstLocation(error: Diagnostic, lk: Lookup) returns (path: string)
    requires |error.locations| > 0 && Resolves(lk, error.locations[0].line)
    modifies error`locations
    ensures path == lk.pathFor[old(error.locations[0].line)]
    ensures error.locations == Remapped(lk, old(error.locations))
  {
    var line := error.locations[0].line;
    path := lk.pathFor[line];
    var offsetForPath := lk.startLineFor[path];
    error.locations := error.locations[0 := error.locations[0].(line := line - offsetForPath + 1)];
  }

  /**
   * The state of the fold after `k` diagnostics: the first `k` are grouped and
   * rewritten, the others are as they were.
   */
  ghost predicate Folded(errors: seq<Diagnostic>, k: nat, grouped: map<string, seq<Diagnostic>>,
                         paths: seq<string>, before: seq<seq<Location>>, after: seq<seq<Location>>)
    reads errors
  {
    k <= |errors| == |paths| == |before| == |after| &&
    grouped == Group(errors[..k], paths[..k]) &&
    forall i :: 0 <= i < |errors| ==> errors[i].locations == if i < k then after[i] else before[i]
  }

  /**
   * What the fold will do, fixed before it starts: for each diagnostic, its
   * locations before and after, and the path its first line belongs to.
   */
  ghost predicate Planned(lk: Lookup, paths: seq<string>, before: seq<seq<Location>>, after: seq<seq<Location>>)
  {
    |paths| == |before| == |after| &&
    forall k :: 0 <= k < |before| ==>
      |before[k]| > 0 && Resolves(lk, before[k][0].line) &&
      paths[k] == lk.pathFor[before[k][0].line] && after[k] == Remapped(lk, before[k])
  }

  /** The plan of the fold over `errors`, taken from their current locations. */
  lemma PlanFold(errors: seq<Diagnostic>, lk: Lookup)
    returns (paths: seq<string>, before: seq<seq<Location>>, after: seq<seq<Location>>)
    requires forall i :: 0 <= i < |errors| ==> |errors[i].locations| > 0
    requires forall i :: 0 <= i < |errors| ==> Resolves(lk, errors[i].locations[0].line)
    ensures Planned(lk, paths, before, after) && |paths| == |errors|
    ensures paths == PathsOf(lk, FirstLines(errors))
    ensures forall i :: 0 <= i < |errors| ==> before[i] == errors[i].locations
  {
    paths := PathsOf(lk, FirstLines(errors));
    before := AllLocations(errors);
    after := RemapAll(lk, before);
  }

  /** One turn of the fold, on the diagnostic at `k`. */
  method FoldStep(errors: seq<Diagnostic>, lk: Lookup, k: nat, grouped: map<string, seq<Diagnostic>>,
                  ghost paths: seq<string>, ghost before: seq<seq<Location>>, ghost after: seq<seq<Location>>)
    returns (grouped': map<string, seq<Diagnostic>>)
    requires forall i, j :: 0 <= i < j < |errors| ==> errors[i] != errors[j]
    requires k < |errors| && Folded(errors, k, grouped, paths, before, after)
    requires Planned(lk, paths, before, after)
    modifies errors`locations
    ensures Folded(errors, k + 1, grouped', paths, before, after)
  {
    var error := errors[k];
    var path := RemapFirstLocation(error, lk);
    GroupStep(errors, paths, k);
    grouped' := grouped[path := ListFor(grouped, path) + [error]];
  }

  /** The fold's state once every diagnostic has been visited. */
  lemma FoldDone(errors: seq<Diagnostic>, lk: Lookup, grouped: map<string, seq<Diagnostic>>,
                 paths: seq<string>, before: seq<seq<Location>>, after: seq<seq<Location>>)
    requires Folded(errors, |errors|, grouped, paths, before, after) && Planned(lk, paths, before, after)
    ensures grouped == Group(errors, paths)
    ensures forall i :: 0 <= i < |errors| ==> errors[i].locations == Remapped(lk, before[i])
  {
    assert errors[..|errors|] == errors && paths[..|errors|] == paths;
  }

  /**
   * `groupErrorsBySchemaFilePath`. The diagnostics are distinct objects, each
   * with a first location whose line the source map resolves. Only the
   * `locations` field of the diagnostics is written.
   */
  method GroupErrorsBySchemaFilePath(errors: seq<Diagnostic>, lk: Lookup)
    returns (grouped: map<string, seq<Diagnostic>>)
    requires forall i, j :: 0 <= i < j < |errors| ==> errors[i] != errors[j]
    requires forall i :: 0 <= i < |errors| ==> |errors[i].locations| > 0
    requires forall i :: 0 <= i < |errors| ==> Resolves(lk, errors[i].locations[0].line)
    modifies errors`locations
    ensures grouped == Group(errors, PathsOf(lk, old(FirstLines(errors))))
    ensures forall i :: 0 <= i < |errors| ==>
      errors[i].locations == Remapped(lk, old(errors[i].locations))
  {
    ghost var paths, before, after := PlanFold(errors, lk);
    grouped := map[];
    var k := 0;
    while k < |errors|
      invariant Folded(errors, k, grouped, paths, before, after)
    {
      grouped := FoldStep(errors, lk, k, grouped, paths, before, after);
      k := k + 1;
    }
    FoldDone(errors, lk, grouped, paths, before, after);
  }
}
