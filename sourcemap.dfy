/**
 * The schema source map consumed by the runner. Every schema file (or standard
 * input) is a fragment of one concatenated buffer; the map records, in buffer
 * order, the line at which each fragment starts and how many lines it spans.
 * The runner only uses two lookups: the path owning a buffer line, and the
 * start line of a path.
 */
module SourceMaps {
  import opened Wrappers

  /** One schema source inside the concatenated buffer (lines are 1-based). */
  datatype Fragment = Fragment(path: string, startLine: int, lineCount: nat)

  type SourceMap = seq<Fragment>

  predicate Contains(f: Fragment, line: int)
  {
    f.startLine <= line < f.startLine + f.lineCount
  }

  /** Each fragment starts where the previous one ends. */
  predicate Contiguous(sm: SourceMap)
  {
    forall i :: 0 <= i < |sm| - 1 ==> sm[i + 1].startLine == sm[i].startLine + sm[i].lineCount
  }

  predicate DistinctPaths(sm: SourceMap)
  {
    forall i, j :: 0 <= i < j < |sm| ==> sm[i].path != sm[j].path
  }

  /** A source map as it is built: from line 1, contiguous, one fragment per path. */
  predicate WellFormed(sm: SourceMap)
  {
    (|sm| > 0 ==> sm[0].startLine == 1) && Contiguous(sm) && DistinctPaths(sm)
  }

  /** Number of lines of the concatenated buffer. */
  function TotalLines(sm: SourceMap): int
  {
    if |sm| == 0 then 0 else sm[|sm| - 1].startLine + sm[|sm| - 1].lineCount - 1
  }

  /** Index of the first fragment that contains `line`, if any. */
  function IndexFor(sm: SourceMap, line: int): (r: Option<nat>)
    ensures r.Some? ==> r.value < |sm| && Contains(sm[r.value], line)
    ensures r.Some? ==> forall i :: 0 <= i < r.value ==> !Contains(sm[i], line)
    ensures r.None? ==> forall i :: 0 <= i < |sm| ==> !Contains(sm[i], line)
  {
    if |sm| == 0 then None
    else if Contains(sm[0], line) then Some(0)
    else match IndexFor(sm[1..], line)
      case None => None
      case Some(k) => Some(k + 1)
  }

  /** `getOriginalPathForLine`: the path of the fragment that owns a buffer line. */
  function PathFor(sm: SourceMap, line: int): (r: Option<string>)
    ensures r.None? <==> forall k :: 0 <= k < |sm| ==> !Contains(sm[k], line)
    ensures r.Some? ==> exists k :: 0 <= k < |sm| && Contains(sm[k], line) && sm[k].path == r.value
  {
    match IndexFor(sm, line)
    case None => None
    case Some(k) => Some(sm[k].path)
  }

  /** Index of the first fragment registered under `path`, if any. */
  function IndexOfPath(sm: SourceMap, path: string): (r: Option<nat>)
    ensures r.Some? ==> r.value < |sm| && sm[r.value].path == path
    ensures r.None? ==> forall i :: 0 <= i < |sm| ==> sm[i].path != path
  {
    if |sm| == 0 then None
    else if sm[0].path == path then Some(0)
    else match IndexOfPath(sm[1..], path)
      case None => None
      case Some(k) => Some(k + 1)
  }

  /** `getOffsetForPath(path).startLine`: where the fragment of `path` begins. */
  function StartLineFor(sm: SourceMap, path: string): (r: Option<int>)
    ensures r.None? <==> forall k :: 0 <= k < |sm| ==> sm[k].path != path
    ensures r.Some? ==> exists k :: 0 <= k < |sm| && sm[k].path == path && sm[k].startLine == r.value
  {
    match IndexOfPath(sm, path)
    case None => None
    case Some(k) => Some(sm[k].startLine)
  }

  /**
   * The source map as the runner sees it: two lookups whose code lies outside
   * the runner, `getOriginalPathForLine` (line to path) and
   * `getOffsetForPath(path).startLine` (path to start line), each defined on
   * the keys of its map.
   */
  datatype Lookup = Lookup(pathFor: map<int, string>, startLineFor: map<string, int>)

  /** The lookups of a concrete fragment map, on the lines of its buffer. */
  function LookupOf(sm: SourceMap): Lookup
  {
    Lookup(
      map line | 1 <= line <= TotalLines(sm) && PathFor(sm, line).Some? :: PathFor(sm, line).value,
      map f | f in sm :: f.path := StartLineFor(sm, f.path).value)
  }

  /**
   * What the runner relies on for one buffer line: the line has an owning path,
   * that path has a start line, and the start line is not after the line.
   */
  predicate Resolves(lk: Lookup, line: int)
  {
    line in lk.pathFor &&
    lk.pathFor[line] in lk.startLineFor &&
    lk.startLineFor[lk.pathFor[line]] <= line
  }

  /** A buffer line made relative to its own file: `line - startLine + 1`. */
  function Relative(lk: Lookup, line: int): (r: int)
    requires Resolves(lk, line)
    ensures r >= 1
  {
    line - lk.startLineFor[lk.pathFor[line]] + 1
  }

  /** In a contiguous map, every fragment ends no later than any later one starts. */
  lemma {:induction false} EndsBeforeLater(sm: SourceMap, i: nat, j: nat)
    requires Contiguous(sm) && i < j < |sm|
    ensures sm[i].startLine + sm[i].lineCount <= sm[j].startLine
  {
    if j > i + 1 {
      EndsBeforeLater(sm, i, j - 1);
      assert sm[j].startLine == sm[j - 1].startLine + sm[j - 1].lineCount;
    }
  }

  /** The fragments cover every line from the first start up to the end, with no gap. */
  lemma {:induction false} CoveredLineIsFound(sm: SourceMap, line: int)
    requires Contiguous(sm) && |sm| > 0
    requires sm[0].startLine <= line <= TotalLines(sm)
    ensures IndexFor(sm, line).Some?
  {
    if !Contains(sm[0], line) {
      assert |sm| > 1;
      assert sm[1].startLine == sm[0].startLine + sm[0].lineCount;
      var rest := sm[1..];
      assert Contiguous(rest) by {
        forall i | 0 <= i < |rest| - 1
          ensures rest[i + 1].startLine == rest[i].startLine + rest[i].lineCount
        {
          assert rest[i] == sm[i + 1] && rest[i + 1] == sm[i + 2];
        }
      }
      assert TotalLines(rest) == TotalLines(sm);
      CoveredLineIsFound(rest, line);
    }
  }

  /** A line that fragment `k` contains is owned by fragment `k` and no other. */
  lemma OwnerIsUnique(sm: SourceMap, line: int, k: nat)
    requires Contiguous(sm) && k < |sm| && Contains(sm[k], line)
    ensures IndexFor(sm, line) == Some(k)
  {
    var r := IndexFor(sm, line);
    if r.Some? && r.value < k {
      EndsBeforeLater(sm, r.value, k);
    }
  }

  /** With distinct paths, the start line looked up by path is the fragment's own. */
  lemma StartLineOfOwnPath(sm: SourceMap, k: nat)
    requires DistinctPaths(sm) && k < |sm|
    ensures StartLineFor(sm, sm[k].path) == Some(sm[k].startLine)
  {
  }

  /**
   * Every line of the buffer of a well-formed map resolves, and its file-relative
   * line lies between 1 and the owning fragment's line count.
   */
  lemma BufferLineResolves(sm: SourceMap, line: int)
    requires WellFormed(sm) && 1 <= line <= TotalLines(sm)
    ensures Resolves(LookupOf(sm), line)
    ensures IndexFor(sm, line).Some?
    ensures 1 <= Relative(LookupOf(sm), line) <= sm[IndexFor(sm, line).value].lineCount
  {
    CoveredLineIsFound(sm, line);
    StartLineOfOwnPath(sm, IndexFor(sm, line).value);
  }

  /** The paths of the fragments, in buffer order. */
  function Paths(sm: SourceMap): (ps: seq<string>)
    ensures |ps| == |sm| && forall i :: 0 <= i < |sm| ==> ps[i] == sm[i].path
  {
    seq(|sm|, i requires 0 <= i < |sm| => sm[i].path)
  }

  /** Every path the lookups of a concrete map report is one of its fragments' paths. */
  lemma ReportedPathIsFragmentPath(sm: SourceMap, line: int)
    requires line in LookupOf(sm).pathFor
    ensures LookupOf(sm).pathFor[line] in Paths(sm)
  {
    var k := IndexFor(sm, line).value;
    assert Paths(sm)[k] == sm[k].path;
  }

  /**
   * Two files, `a` of 5 lines and `b` of 3 lines, concatenated in that order:
   * buffer line 7 belongs to `b`, where it is line 2.
   */
  lemma TwoFileExample(a: string, b: string)
    requires a != b
    ensures var lk := LookupOf([Fragment(a, 1, 5), Fragment(b, 6, 3)]);
      Resolves(lk, 7) && lk.pathFor[7] == b && Relative(lk, 7) == 2
  {
    var sm := [Fragment(a, 1, 5), Fragment(b, 6, 3)];
    var lk := LookupOf(sm);
    assert WellFormed(sm) && TotalLines(sm) == 8;
    BufferLineResolves(sm, 7);
    OwnerIsUnique(sm, 7, 1);
    StartLineOfOwnPath(sm, 1);
    assert sm[1] in sm;
  }
}
