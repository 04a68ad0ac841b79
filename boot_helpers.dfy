/** helpers.ts of @loopback/boot: flattening the nested listing of a folder
    and keeping the files with given extensions. */
module BootHelpers {
  import opened JsStrings

  /** An entry of a folder listing: a file path, or the listing of a
      sub-folder. */
  datatype Item = Leaf(path: string) | Nest(items: seq<Item>)

  // ---------------------------------------------------------------------
  // flatten

  /** `flatten(arr)`: `arr.reduce((flat, item) => flat.concat(...), [])`. */
  function Flatten(arr: seq<Item>): seq<string>
    decreases arr, 1
  {
    FlattenFrom([], arr)
  }

  /** The reduction from accumulator `flat` over the rest of the items: a
      nested listing is flattened, a path is appended. */
  function FlattenFrom(flat: seq<string>, arr: seq<Item>): seq<string>
    decreases arr, 0
  {
    if arr == [] then flat
    else
      var piece := match arr[0] case Leaf(p) => [p] case Nest(items) => Flatten(items);
      FlattenFrom(flat + piece, arr[1..])
  }

  /** The paths of a listing, left to right: the reference reading of what
      `flatten` produces. */
  function Paths(arr: seq<Item>): seq<string>
    decreases arr
  {
    if arr == [] then [] else ItemPaths(arr[0]) + Paths(arr[1..])
  }

  function ItemPaths(item: Item): seq<string>
    decreases item
  {
    match item
    case Leaf(p) => [p]
    case Nest(items) => Paths(items)
  }

  /** The reduction appends the paths of the remaining items to its
      accumulator. */
  lemma {:induction false} FlattenFromPaths(flat: seq<string>, arr: seq<Item>)
    ensures FlattenFrom(flat, arr) == flat + Paths(arr)
    decreases arr, 0
  {
    if arr != [] {
      match arr[0]
      case Leaf(p) =>
        FlattenFromPaths(flat + [p], arr[1..]);
      case Nest(items) =>
        FlattenPaths(items);
        FlattenFromPaths(flat + Flatten(items), arr[1..]);
    }
  }

  /** `flatten` lists every path of the nested listing, in order. */
  lemma {:induction false} FlattenPaths(arr: seq<Item>)
    ensures Flatten(arr) == Paths(arr)
    decreases arr, 1
  {
    FlattenFromPaths([], arr);
  }

  /** Flattening the concatenation of two listings concatenates their
      flattenings. */
  lemma {:induction false} FlattenAppend(a: seq<Item>, b: seq<Item>)
    ensures Flatten(a + b) == Flatten(a) + Flatten(b)
    decreases |a|
  {
    FlattenPaths(a + b);
    FlattenPaths(a);
    FlattenPaths(b);
    PathsAppend(a, b);
  }

  lemma {:induction false} PathsAppend(a: seq<Item>, b: seq<Item>)
    ensures Paths(a + b) == Paths(a) + Paths(b)
    decreases |a|
  {
    if a != [] {
      assert (a + b)[0] == a[0];
      assert (a + b)[1..] == a[1..] + b;
      PathsAppend(a[1..], b);
      assert Paths(a + b) == ItemPaths(a[0]) + Paths(a[1..] + b);
    } else {
      assert a + b == b;
    }
  }

  /** The listing of plain paths. */
  function Leaves(paths: seq<string>): (items: seq<Item>)
    ensures |items| == |paths|
    ensures forall i :: 0 <= i < |paths| ==> items[i] == Leaf(paths[i])
  {
    seq(|paths|, i requires 0 <= i < |paths| => Leaf(paths[i]))
  }

  /** A listing without sub-folders flattens to its own paths. */
  lemma {:induction false} FlattenFlat(paths: seq<string>)
    ensures Flatten(Leaves(paths)) == paths
    decreases |paths|
  {
    FlattenPaths(Leaves(paths));
    PathsOfLeaves(paths);
  }

  lemma {:induction false} PathsOfLeaves(paths: seq<string>)
    ensures Paths(Leaves(paths)) == paths
    decreases |paths|
  {
    if paths != [] {
      assert Leaves(paths)[1..] == Leaves(paths[1..]);
      PathsOfLeaves(paths[1..]);
    }
  }

  /** Flattening is idempotent: a flattened listing flattens to itself. */
  lemma FlattenIdempotent(arr: seq<Item>)
    ensures Flatten(Leaves(Flatten(arr))) == Flatten(arr)
  {
    FlattenFlat(Flatten(arr));
  }

  /** Flattening a listing nested inside another one changes nothing. */
  lemma FlattenNested(arr: seq<Item>)
    ensures Flatten([Nest(arr)]) == Flatten(arr)
  {
    FlattenPaths([Nest(arr)]);
    FlattenPaths(arr);
    assert Paths([Nest(arr)][1..]) == [];
  }

  // ---------------------------------------------------------------------
  // filterExts

  /** The test `filterExts` applies: the first occurrence of `ext` in `item`
      starts where `ext` would start if it ended the item. */
  predicate Matches(item: string, ext: string) {
    IndexOf(item, ext) == |item| - |ext|
  }

  /** Whether some extension of `exts` passes the test (`include` after the
      `forEach`). */
  predicate AnyMatches(item: string, exts: seq<string>) {
    exists e :: e in exts && Matches(item, e)
  }

  lemma AnyMatchesSnoc(item: string, exts: seq<string>, ext: string)
    ensures AnyMatches(item, exts + [ext]) <==> AnyMatches(item, exts) || Matches(item, ext)
  {
    if AnyMatches(item, exts + [ext]) {
      var e :| e in exts + [ext] && Matches(item, e);
      if e != ext {
        assert e in exts;
      }
    }
    if Matches(item, ext) {
      assert ext in exts + [ext];
    }
    if AnyMatches(item, exts) {
      var e :| e in exts && Matches(item, e);
      assert e in exts + [ext];
    }
  }

  /** The items `filterExts` keeps, in order: those that pass the test for
      some extension and are not empty (the callback returns the item, and
      `''` is falsy). */
  function KeepMatching(arr: seq<string>, exts: seq<string>): (r: seq<string>)
    ensures |r| <= |arr|
    ensures forall x :: x in r <==> x in arr && x != "" && AnyMatches(x, exts)
    ensures forall x :: multiset(r)[x] == if x != "" && AnyMatches(x, exts) then multiset(arr)[x] else 0
  {
    if arr == [] then []
    else
      var rest := KeepMatching(arr[1..], exts);
      assert forall x :: x in arr <==> x == arr[0] || x in arr[1..];
      assert arr == [arr[0]] + arr[1..];
      if arr[0] != "" && AnyMatches(arr[0], exts) then [arr[0]] + rest else rest
  }

  /** `filterExts(arr, exts)`: an empty extension list keeps everything;
      otherwise the items that pass the test for some extension. */
  function FilterSpec(arr: seq<string>, exts: seq<string>): seq<string> {
    if exts == [] then arr else KeepMatching(arr, exts)
  }

  /** `filterExts(arr, exts)`, the `filter` with its inner `forEach` that
      raises the `include` flag (`included` here). */
  method FilterExts(arr: seq<string>, exts: seq<string>) returns (r: seq<string>)
    ensures r == FilterSpec(arr, exts)
  {
    if exts == [] {
      return arr;
    }
    r := [];
    var k := |arr|;
    // `filter` keeps order; the loop builds the result from the back so
    // that it follows the definition of KeepMatching
    while k > 0
      invariant 0 <= k <= |arr|
      invariant r == KeepMatching(arr[k..], exts)
      decreases k
    {
      k := k - 1;
      var item := arr[k];
      var included := false;
      for j := 0 to |exts|
        invariant included == AnyMatches(item, exts[..j])
      {
        if IndexOf(item, exts[j]) == |item| - |exts[j]| {
          included := true;
        }
        assert exts[..j + 1] == exts[..j] + [exts[j]];
        AnyMatchesSnoc(item, exts[..j], exts[j]);
      }
      assert exts[..|exts|] == exts;
      assert arr[k..][1..] == arr[k + 1..];
      if included && item != "" {
        r := [item] + r;
      }
    }
    assert arr[0..] == arr;
  }

  /** The result keeps the items' order: it is a subsequence of `arr`. */
  predicate Subsequence(r: seq<string>, arr: seq<string>)
    decreases |arr|
  {
    if r == [] then true
    else if arr == [] then false
    else if r[0] == arr[0] then Subsequence(r[1..], arr[1..])
    else Subsequence(r, arr[1..])
  }

  lemma {:induction false} KeepMatchingInOrder(arr: seq<string>, exts: seq<string>)
    ensures Subsequence(KeepMatching(arr, exts), arr)
    decreases |arr|
  {
    if arr != [] {
      KeepMatchingInOrder(arr[1..], exts);
      var rest := KeepMatching(arr[1..], exts);
      if arr[0] != "" && AnyMatches(arr[0], exts) {
        assert ([arr[0]] + rest)[1..] == rest;
      } else {
        SubsequenceSkip(rest, arr);
      }
    }
  }

  lemma {:induction false} SubsequenceSkip(r: seq<string>, arr: seq<string>)
    requires arr != [] && Subsequence(r, arr[1..])
    ensures Subsequence(r, arr)
    decreases |arr|, 1
  {
    if r != [] && r[0] == arr[0] {
      SubsequenceTail(r, arr[1..]);
    }
  }

  lemma {:induction false} SubsequenceTail(r: seq<string>, arr: seq<string>)
    requires r != [] && Subsequence(r, arr)
    ensures Subsequence(r[1..], arr)
    decreases |arr|, 2
  {
    if r[0] == arr[0] {
      if r[1..] != [] {
        SubsequenceTail(r[1..], arr[1..]);
        SubsequenceSkip(r[1..], arr);
      }
    } else {
      SubsequenceTail(r, arr[1..]);
      SubsequenceSkip(r[1..], arr);
    }
  }

  /** `filterExts` keeps the order of the items it keeps, and with
      extensions it keeps exactly the non-empty items that pass the test. */
  lemma FilterExtsKeeps(arr: seq<string>, exts: seq<string>)
    ensures Subsequence(FilterSpec(arr, exts), arr)
    ensures exts != [] ==>
              forall x :: x in FilterSpec(arr, exts) <==> x in arr && x != "" && AnyMatches(x, exts)
    ensures exts != [] ==>
              forall x :: multiset(FilterSpec(arr, exts))[x] ==
                          if x != "" && AnyMatches(x, exts) then multiset(arr)[x] else 0
  {
    if exts == [] {
      SubsequenceRefl(arr);
    } else {
      KeepMatchingInOrder(arr, exts);
    }
  }

  lemma {:induction false} SubsequenceRefl(arr: seq<string>)
    ensures Subsequence(arr, arr)
    decreases |arr|
  {
    if arr != [] {
      SubsequenceRefl(arr[1..]);
    }
  }

  /** As written, a name one character shorter than the extension passes
      the test: `indexOf` gives -1 for the missing extension, which is also
      the length difference. So `filterExts(['ts'], ['.ts'])` keeps `'ts'`. */
  lemma ShortNamePassesAsWritten()
    ensures FilterSpec(["ts"], [".ts"]) == ["ts"]
  {
    assert IndexOf("ts", ".ts") == -1;
    assert Matches("ts", ".ts");
    assert AnyMatches("ts", [".ts"]);
  }

  /** As written, a name in which the extension also occurs before its end
      fails the test, since `indexOf` finds the first occurrence. So
      `filterExts(['a.ts.ts'], ['.ts'])` drops `'a.ts.ts'`. */
  lemma RepeatedExtensionFailsAsWritten()
    ensures FilterSpec(["a.ts.ts"], [".ts"]) == []
  {
    assert OccursAt("a.ts.ts", ".ts", 1) by {
      assert "a.ts.ts"[1..4] == ".ts";
    }
    assert !OccursAt("a.ts.ts", ".ts", 0) by {
      assert "a.ts.ts"[0] != '.';
    }
    assert IndexOf("a.ts.ts", ".ts") == 1;
    assert !AnyMatches("a.ts.ts", [".ts"]);
  }

  /** The evident intent of the test: the item ends with the extension. */
  predicate AnyEndsWith(item: string, exts: seq<string>) {
    exists e :: e in exts && EndsWith(item, e)
  }

  /** `filterExts` with the test it evidently intends. */
  function FilterExtsBySuffix(arr: seq<string>, exts: seq<string>): (r: seq<string>)
    ensures exts == [] ==> r == arr
    ensures exts != [] ==> forall x :: x in r <==> x in arr && x != "" && AnyEndsWith(x, exts)
    ensures exts != [] ==>
              forall x :: multiset(r)[x] == if x != "" && AnyEndsWith(x, exts) then multiset(arr)[x] else 0
    ensures Subsequence(r, arr)
    decreases |arr|
  {
    if exts == [] then (SubsequenceRefl(arr); arr)
    else if arr == [] then []
    else
      var rest := FilterExtsBySuffix(arr[1..], exts);
      assert forall x :: x in arr <==> x == arr[0] || x in arr[1..];
      assert arr == [arr[0]] + arr[1..];
      if arr[0] != "" && AnyEndsWith(arr[0], exts) then
        assert ([arr[0]] + rest)[1..] == rest;
        [arr[0]] + rest
      else
        SubsequenceSkip(rest, arr);
        rest
  }

  /** The corrected filter keeps a file exactly when its name ends with
      one of the extensions: both examples above come out as intended. */
  lemma SuffixFilterExamples()
    ensures FilterExtsBySuffix(["ts"], [".ts"]) == []
    ensures FilterExtsBySuffix(["a.ts.ts"], [".ts"]) == ["a.ts.ts"]
  {
    assert !EndsWith("ts", ".ts");
    assert EndsWith("a.ts.ts", ".ts") by {
      assert "a.ts.ts"[4..] == ".ts";
    }
    assert AnyEndsWith("a.ts.ts", [".ts"]);
  }

  /** Where the extension occurs in the name only at its end, the test as
      written and the intended one agree. */
  lemma MatchesWhenOnlyAtEnd(item: string, ext: string)
    requires |ext| <= |item|
    requires forall i :: 0 <= i < |item| - |ext| ==> !OccursAt(item, ext, i)
    ensures Matches(item, ext) <==> EndsWith(item, ext)
  {
    if EndsWith(item, ext) {
      assert OccursAt(item, ext, |item| - |ext|);
    }
  }
}
