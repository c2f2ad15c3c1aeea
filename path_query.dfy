/**
 * `Validator.addPathQueryParams` (src/resources/Validator.js): turns a data
 * path such as `a[0].b[1].c` into a query on `a` whose value is a chain of
 * `$elemMatch` objects, one level per remaining segment.  The path is split
 * with the regular expression `/\[\d+\]?./`.  `MatchLen` is the longest
 * match of that regex at a position, which is what its backtracking finds,
 * and `Split` scans for separators as `String.prototype.split` does.  A
 * character here is a Unicode scalar value, whereas the regex (without the
 * `u` flag) matches UTF-16 code units: a separator whose last character lies
 * outside the Basic Multilingual Plane is one character longer here.
 */
module PathQuery {
  import opened Json

  predicate IsDigit(c: char) {
    '0' <= c <= '9'
  }

  /** The characters `.` does not match in a JavaScript regular expression. */
  predicate IsLineTerminator(c: char) {
    c == '\n' || c == '\r' || c == '\U{2028}' || c == '\U{2029}'
  }

  /** The number of consecutive digits of `s` from position `j` on. */
  function DigitRun(s: string, j: nat): (d: nat)
    requires j <= |s|
    ensures j + d <= |s|
    ensures forall i {:trigger IsDigit(s[i])} :: j <= i < j + d ==> IsDigit(s[i])
    ensures j + d == |s| || !IsDigit(s[j + d])
    decreases |s| - j
  {
    if j < |s| && IsDigit(s[j]) then 1 + DigitRun(s, j + 1) else 0
  }

  /** `s[q..q + m]` is a match of `/\[\d+\]?./`: a `[`, at least one digit,
      an optional `]` and one character that is not a line terminator. */
  predicate MatchesAt(s: string, q: nat, m: nat) {
    && 3 <= m && q + m <= |s| && s[q] == '['
    && (forall i {:trigger IsDigit(s[i])} :: q + 1 <= i < q + m - 2 ==> IsDigit(s[i]))
    && (IsDigit(s[q + m - 2]) || (m >= 4 && s[q + m - 2] == ']'))
    && !IsLineTerminator(s[q + m - 1])
  }

  /** The length of the match of `/\[\d+\]?./` that starts at `q`, or 0 when
      none starts there.  `\d+` is greedy: the longest digit run is tried
      first, with `\]?` taking a `]` when one follows and `.` one more
      character; when `.` finds no character the regex backtracks, first
      giving up the `]`, then handing the last digit to `.`. */
  function MatchLen(s: string, q: nat): (n: nat)
    requires q < |s|
    ensures n > 0 ==> 3 <= n && q + n <= |s|
    ensures n > 0 ==> MatchesAt(s, q, n)
    ensures forall m: nat :: MatchesAt(s, q, m) ==> m <= n
    ensures n > 0 <==> s[q] == '[' && q + 2 < |s| && IsDigit(s[q + 1]) && !IsLineTerminator(s[q + 2])
  {
    if s[q] != '[' then 0
    else
      var d := DigitRun(s, q + 1);
      if d == 0 then 0
      else
        var j := q + 1 + d;
        assert IsDigit(s[q + 1]) && IsDigit(s[j - 1]);
        assert d >= 2 ==> IsDigit(s[q + 2]);
        if j + 1 < |s| && s[j] == ']' && !IsLineTerminator(s[j + 1]) then d + 3
        else if j < |s| && !IsLineTerminator(s[j]) then d + 2
        else if d >= 2 then d + 1
        else 0
  }

  /** A separator occurs somewhere in `s`. */
  predicate HasSeparator(s: string) {
    exists q :: 0 <= q < |s| && MatchLen(s, q) > 0
  }

  /** JavaScript's `String.prototype.split` with the separator regex,
      scanning `s` from position `q`: at the first separator found, the text
      before it is a piece and the split goes on with the text after it.
      The regex only looks forward from where it is tried, so this is the
      same as scanning the whole string with a moving piece start. */
  function SplitScan(s: string, q: nat): (pieces: seq<string>)
    requires q <= |s|
    ensures |pieces| >= 1 && pieces[0] <= s
    decreases |s|, |s| - q
  {
    if q >= |s| then [s]
    else
      var n := MatchLen(s, q);
      if n > 0 then [s[..q]] + SplitScan(s[q + n..], 0)
      else SplitScan(s, q + 1)
  }

  /** `path.split(/\[\d+\]?./)`: at least one piece, the first a prefix of
      `s`, and no piece holding a separator. */
  function Split(s: string): (pieces: seq<string>)
    ensures |pieces| >= 1 && pieces[0] <= s
    ensures forall i :: 0 <= i < |pieces| ==> !HasSeparator(pieces[i])
  {
    SplitScanPlain(s, 0);
    SplitScan(s, 0)
  }

  /** A prefix of `s` before which no separator starts holds none itself:
      whether the regex matches at a position depends only on the three
      characters from there. */
  lemma PrefixPlain(s: string, q: nat)
    requires q <= |s|
    requires forall k :: 0 <= k < q ==> MatchLen(s, k) == 0
    ensures !HasSeparator(s[..q])
  {
    forall k | 0 <= k < q
      ensures MatchLen(s[..q], k) == 0
    {
      assert MatchLen(s, k) == 0;
      if k + 2 < q {
        assert s[..q][k] == s[k] && s[..q][k + 1] == s[k + 1] && s[..q][k + 2] == s[k + 2];
      }
    }
  }

  /** Scanning from a position before which no separator starts yields only
      pieces without a separator. */
  lemma {:induction false} SplitScanPlain(s: string, q: nat)
    requires q <= |s|
    requires forall k :: 0 <= k < q ==> MatchLen(s, k) == 0
    ensures forall i :: 0 <= i < |SplitScan(s, q)| ==> !HasSeparator(SplitScan(s, q)[i])
    decreases |s|, |s| - q
  {
    if q >= |s| {
      PrefixPlain(s, q);
      assert s[..q] == s;
    } else {
      var n := MatchLen(s, q);
      if n > 0 {
        PrefixPlain(s, q);
        SplitScanPlain(s[q + n..], 0);
        var rest := SplitScan(s[q + n..], 0);
        assert SplitScan(s, q) == [s[..q]] + rest;
        forall i | 0 <= i < |SplitScan(s, q)|
          ensures !HasSeparator(SplitScan(s, q)[i])
        {
          if i > 0 {
            assert SplitScan(s, q)[i] == rest[i - 1];
          }
        }
      } else {
        SplitScanPlain(s, q + 1);
      }
    }
  }

  lemma {:induction false} SplitScanCount(s: string, q: nat)
    requires q <= |s|
    ensures |SplitScan(s, q)| > 1 <==> exists k :: q <= k < |s| && MatchLen(s, k) > 0
    decreases |s| - q
  {
    if q < |s| {
      var n := MatchLen(s, q);
      if n == 0 {
        SplitScanCount(s, q + 1);
        assert (exists k :: q <= k < |s| && MatchLen(s, k) > 0) ==>
               (exists k :: q + 1 <= k < |s| && MatchLen(s, k) > 0);
      } else {
        var rest := SplitScan(s[q + n..], 0);
        assert SplitScan(s, q) == [s[..q]] + rest;
        assert |rest| >= 1;
        assert q <= q < |s| && MatchLen(s, q) > 0;
      }
    }
  }

  /** The path splits into more than one piece exactly when a separator occurs in it. */
  lemma SplitHasManyPieces(s: string)
    ensures |Split(s)| > 1 <==> HasSeparator(s)
  {
    SplitScanCount(s, 0);
  }

  lemma {:induction false} SplitScanSkip(s: string, q: nat, first: nat)
    requires q <= first <= |s|
    requires forall k :: q <= k < first ==> MatchLen(s, k) == 0
    ensures SplitScan(s, q) == SplitScan(s, first)
    decreases first - q
  {
    if q < first {
      SplitScanSkip(s, q + 1, first);
    }
  }

  /** A path without separator is its own single piece. */
  lemma SplitWithoutSeparator(s: string)
    requires !HasSeparator(s)
    ensures Split(s) == [s]
  {
    SplitScanSkip(s, 0, |s|);
  }

  /** The first piece, the key written into the query, is the text before
      the first separator, and the other pieces are the split of the text
      after it. */
  lemma SplitHead(s: string, first: nat)
    requires first < |s| && MatchLen(s, first) > 0
    requires forall k :: 0 <= k < first ==> MatchLen(s, k) == 0
    ensures first + MatchLen(s, first) <= |s|
    ensures Split(s) == [s[..first]] + Split(s[first + MatchLen(s, first)..])
  {
    SplitScanSkip(s, 0, first);
  }

  /** A key with no `[` in it holds no separator. */
  predicate PlainKey(k: string) {
    forall i :: 0 <= i < |k| ==> k[i] != '['
  }

  /** A string of decimal digits. */
  predicate Digits(ds: string) {
    ds != [] && forall i :: 0 <= i < |ds| ==> IsDigit(ds[i])
  }

  /** `[`, the digits `ds`, `]` and `.` at position `at` are one whole separator. */
  lemma SeparatorMatch(s: string, at: nat, ds: string)
    requires Digits(ds) && at + |ds| + 3 <= |s|
    requires s[at] == '[' && s[at + 1..at + 1 + |ds|] == ds
    requires s[at + 1 + |ds|] == ']' && s[at + 2 + |ds|] == '.'
    ensures MatchLen(s, at) == |ds| + 3
  {
    assert forall i :: at + 1 <= i < at + 1 + |ds| ==> s[i] == ds[i - at - 1] && IsDigit(s[i]);
    assert !IsDigit(s[at + 1 + |ds|]);
    assert DigitRun(s, at + 1) == |ds|;
  }

  /** No separator starts inside a leading key without `[`. */
  lemma PlainPrefix(s: string, k: string)
    requires PlainKey(k) && k <= s
    ensures forall q :: 0 <= q < |k| ==> MatchLen(s, q) == 0
  {
    forall q | 0 <= q < |k|
      ensures MatchLen(s, q) == 0
    {
      assert s[q] == k[q];
    }
  }

  /** A key, an array index and the rest of the path: the key comes off as
      the first piece and the rest splits on its own. */
  lemma SplitSeparated(k: string, ds: string, rest: string)
    requires PlainKey(k) && Digits(ds)
    ensures Split(k + "[" + ds + "]." + rest) == [k] + Split(rest)
  {
    var s := k + "[" + ds + "]." + rest;
    assert k <= s && s[..|k|] == k;
    assert s[|k|] == '[' && s[|k| + 1..|k| + 1 + |ds|] == ds;
    assert s[|k| + 1 + |ds|] == ']' && s[|k| + 2 + |ds|] == '.';
    assert s[|k| + |ds| + 3..] == rest;
    PlainPrefix(s, k);
    SeparatorMatch(s, |k|, ds);
    SplitHead(s, |k|);
  }

  lemma PlainKeyAlone(k: string)
    requires PlainKey(k)
    ensures Split(k) == [k]
  {
    forall q | 0 <= q < |k|
      ensures MatchLen(k, q) == 0
    {
    }
    SplitWithoutSeparator(k);
  }

  /** The data path of a value nested in data grids: keys joined by array
      indexes, as in `a[0].b[1].c`. */
  function DataPath(keys: seq<string>, indexes: seq<nat>): string
    requires |keys| == |indexes| + 1
    decreases |indexes|
  {
    if indexes == [] then keys[0]
    else keys[0] + "[" + NatToString(indexes[0]) + "]." + DataPath(keys[1..], indexes[1..])
  }

  /** Splitting a data path gives back its keys. */
  lemma {:induction false} SplitDataPath(keys: seq<string>, indexes: seq<nat>)
    requires |keys| == |indexes| + 1
    requires forall i :: 0 <= i < |keys| ==> PlainKey(keys[i])
    ensures Split(DataPath(keys, indexes)) == keys
    decreases |indexes|
  {
    if indexes == [] {
      PlainKeyAlone(keys[0]);
    } else {
      var ds := NatToString(indexes[0]);
      SplitSeparated(keys[0], ds, DataPath(keys[1..], indexes[1..]));
      SplitDataPath(keys[1..], indexes[1..]);
    }
  }

  /** A two-level data-grid path splits into its three keys. */
  lemma SplitExample()
    ensures Split("a[0].b[1].c") == ["a", "b", "c"]
  {
    var keys := ["a", "b", "c"];
    assert NatToString(0) == "0" && NatToString(1) == "1";
    assert DataPath(keys, [0, 1]) == "a[0].b[1].c" by {
      assert DataPath(keys[2..], []) == "c";
      assert DataPath(keys[1..], [1]) == "b[1].c";
    }
    forall i | 0 <= i < |keys|
      ensures PlainKey(keys[i])
    {
    }
    SplitDataPath(keys, [0, 1]);
  }

  /** The query value for the segments after the first: one `$elemMatch`
      level per segment, keyed in order, with `leaf` innermost. */
  function Chain(parts: seq<string>, leaf: Value): Value
    decreases |parts|
  {
    if parts == [] then leaf
    else Obj(map["$elemMatch" := Obj(map[parts[0] := Chain(parts[1..], leaf)])])
  }

  /** The key path `$elemMatch, p0, $elemMatch, p1, ...` the reduce accumulates. */
  function ElemPath(parts: seq<string>): (path: seq<string>)
    ensures |path| == 2 * |parts|
    decreases |parts|
  {
    if parts == [] then [] else ["$elemMatch", parts[0]] + ElemPath(parts[1..])
  }

  lemma {:induction false} ElemPathSnoc(parts: seq<string>, k: string)
    ensures ElemPath(parts + [k]) == ElemPath(parts) + ["$elemMatch", k]
    decreases |parts|
  {
    if parts == [] {
      assert parts + [k] == [k];
    } else {
      assert (parts + [k])[1..] == parts[1..] + [k];
      ElemPathSnoc(parts[1..], k);
    }
  }

  /** The value set at the bottom of the chain is found along its `$elemMatch` path. */
  lemma {:induction false} ChainLookup(parts: seq<string>, leaf: Value)
    ensures Lookup(Chain(parts, leaf), ElemPath(parts)) == leaf
    decreases |parts|
  {
    if parts != [] {
      var rest := ElemPath(parts[1..]);
      assert ElemPath(parts) == ["$elemMatch", parts[0]] + rest;
      assert Lookup(Chain(parts, leaf), ElemPath(parts)) == Lookup(Chain(parts[1..], leaf), rest);
      ChainLookup(parts[1..], leaf);
    }
  }

  lemma SetPathStep(m: map<string, Value>, k: string, rest: seq<string>, x: Value)
    ensures SetPath(Obj(m), [k] + rest, x) == Obj(m[k := SetPath(if k in m then m[k] else Undefined, rest, x)])
  {
    assert ([k] + rest)[0] == k && ([k] + rest)[1..] == rest;
  }

  lemma ChainStepEmpty(k: string, leaf: Value)
    ensures SetPath(Obj(map[]), ["$elemMatch", k], leaf) == Chain([k], leaf)
  {
    SetPathStep(map[], "$elemMatch", [k], leaf);
    assert [k] == [k] + [];
    SetPathStep(map[], k, [], leaf);
    assert Chain([k], leaf) == Obj(map["$elemMatch" := Obj(map[k := Chain([], leaf)])]);
  }

  /** Setting below two single-key levels rebuilds both of them. */
  lemma SetPathTwoLevels(a: string, b: string, inner: Value, tail: seq<string>, leaf: Value)
    ensures SetPath(Obj(map[a := Obj(map[b := inner])]), [a] + ([b] + tail), leaf)
         == Obj(map[a := Obj(map[b := SetPath(inner, tail, leaf)])])
  {
    var level := map[b := inner];
    var below := SetPath(inner, tail, leaf);
    SetPathStep(map[a := Obj(level)], a, [b] + tail, leaf);
    SetPathStep(level, b, tail, leaf);
    assert level[b := below] == map[b := below];
    assert map[a := Obj(level)][a := Obj(map[b := below])] == map[a := Obj(map[b := below])];
  }

  lemma ChainSetUnfold(parts: seq<string>, k: string, leaf: Value)
    requires parts != []
    ensures SetPath(Chain(parts, Obj(map[])), ElemPath(parts) + ["$elemMatch", k], leaf)
         == Obj(map["$elemMatch" := Obj(map[parts[0] :=
              SetPath(Chain(parts[1..], Obj(map[])), ElemPath(parts[1..]) + ["$elemMatch", k], leaf)])])
  {
    var tail := ElemPath(parts[1..]) + ["$elemMatch", k];
    assert ElemPath(parts) + ["$elemMatch", k] == ["$elemMatch"] + ([parts[0]] + tail);
    SetPathTwoLevels("$elemMatch", parts[0], Chain(parts[1..], Obj(map[])), tail, leaf);
  }

  /** One step of the reduce: setting `{$elemMatch: {k: leaf}}` into the
      innermost placeholder of a chain extends the chain by `k`. */
  lemma {:induction false} ChainStep(parts: seq<string>, k: string, leaf: Value)
    ensures SetPath(Chain(parts, Obj(map[])), ElemPath(parts) + ["$elemMatch", k], leaf) == Chain(parts + [k], leaf)
    decreases |parts|
  {
    if parts == [] {
      assert parts + [k] == [k];
      assert ElemPath(parts) + ["$elemMatch", k] == ["$elemMatch", k];
      ChainStepEmpty(k, leaf);
    } else {
      ChainSetUnfold(parts, k, leaf);
      ChainStep(parts[1..], k, leaf);
      var longer := parts + [k];
      assert longer[0] == parts[0] && longer[1..] == parts[1..] + [k];
    }
  }

  /** The query object the caller hands in; `addPathQueryParams` writes one
      of its keys in place. */
  class Query {
    var entries: map<string, Value>

    constructor (entries: map<string, Value>)
      ensures this.entries == entries
    {
      this.entries := entries;
    }
  }

  /** The `_.reduce` over the pieces after the first: each step sets
      `$elemMatch['piece']` below the object the path so far leads to, with
      `{}` as the value until the last piece, which gets the params.  The
      result is the `$elemMatch` chain of the pieces, params innermost.
      Every level is built as an object, as `SetPath` builds it; lodash
      builds a level as an array when the piece below it is an array index. */
  method ElemMatchChain(pathQueryParams: Value, parts: seq<string>) returns (pathQueryObj: Value)
    requires parts != []
    ensures pathQueryObj == Chain(parts, pathQueryParams)
    ensures Lookup(pathQueryObj, ElemPath(parts)) == pathQueryParams
  {
    pathQueryObj := Obj(map[]);
    var pathQueryPath: seq<string> := [];
    var index := 0;
    while index < |parts|
      invariant 0 <= index <= |parts|
      invariant pathQueryPath == ElemPath(parts[..index])
      invariant index < |parts| ==> pathQueryObj == Chain(parts[..index], Obj(map[]))
      invariant index == |parts| ==> pathQueryObj == Chain(parts, pathQueryParams)
    {
      var isLastPathPart := index == |parts| - 1;
      var addedPath := ["$elemMatch", parts[index]];
      // `_.get(pathQueryObj, pathQueryPath, pathQueryObj)` is the object the
      // path so far leads to (the root while the path is empty), and
      // `_.set` on it writes `addedPath` below that point of the root.
      var leaf := if isLastPathPart then pathQueryParams else Obj(map[]);
      ChainStep(parts[..index], parts[index], leaf);
      ElemPathSnoc(parts[..index], parts[index]);
      assert parts[..index] + [parts[index]] == parts[..index + 1];
      assert index + 1 == |parts| ==> parts[..index + 1] == parts;
      pathQueryObj := SetPath(pathQueryObj, pathQueryPath + addedPath, leaf);
      pathQueryPath := pathQueryPath + addedPath;
      index := index + 1;
    }
    ChainLookup(parts, pathQueryParams);
  }

  /** `addPathQueryParams(pathQueryParams, query, path)`.  Without separator
      `query[path]` becomes the params; otherwise `query[first piece]`
      becomes the `$elemMatch` chain of the other pieces with the params
      innermost.  Only that one key is written. */
  method AddPathQueryParams(pathQueryParams: Value, query: Query, path: string)
    modifies query
    ensures !HasSeparator(path) ==> query.entries == old(query.entries)[path := pathQueryParams]
    ensures HasSeparator(path) ==>
      var pieces := Split(path);
      && |pieces| > 1
      && query.entries == old(query.entries)[pieces[0] := Chain(pieces[1..], pathQueryParams)]
      && Lookup(query.entries[pieces[0]], ElemPath(pieces[1..])) == pathQueryParams
  {
    var pathArray := Split(path);
    SplitHasManyPieces(path);
    var needValuesInArray := |pathArray| > 1;
    var pathToValue := path;
    if needValuesInArray {
      pathToValue := pathArray[0];
      var pathQueryObj := ElemMatchChain(pathQueryParams, pathArray[1..]);
      query.entries := query.entries[pathToValue := pathQueryObj];
    } else {
      query.entries := query.entries[pathToValue := pathQueryParams];
    }
  }
}
