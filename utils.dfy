/** `remove_logs` of src/utils/utils.py: the names in the logs directory are
    sorted and, when there are more than five, every one but the last in
    sorted order is deleted. The directory is a class whose listing the
    deletions update in place. Python orders strings by code point,
    lexicographically, a proper prefix first. */
module Logs {

  /** Python's `a <= b` on strings. */
  predicate LexLe(a: string, b: string)
    decreases |a|
  {
    a == [] || (b != [] && (a[0] < b[0] || (a[0] == b[0] && LexLe(a[1..], b[1..]))))
  }

  lemma {:induction false} LexLeTotal(a: string, b: string)
    ensures LexLe(a, b) || LexLe(b, a)
    decreases |a|
  {
    if a != [] && b != [] && a[0] == b[0] {
      LexLeTotal(a[1..], b[1..]);
    }
  }

  lemma {:induction false} LexLeTransitive(a: string, b: string, c: string)
    requires LexLe(a, b) && LexLe(b, c)
    ensures LexLe(a, c)
    decreases |a|
  {
    if a != [] && a[0] == b[0] && b[0] == c[0] {
      LexLeTransitive(a[1..], b[1..], c[1..]);
    }
  }

  lemma {:induction false} LexLeAntisymmetric(a: string, b: string)
    requires LexLe(a, b) && LexLe(b, a)
    ensures a == b
    decreases |a|
  {
    if a != [] {
      LexLeAntisymmetric(a[1..], b[1..]);
      assert a == [a[0]] + a[1..] && b == [b[0]] + b[1..];
    }
  }

  predicate Sorted(s: seq<string>) {
    forall i, j :: 0 <= i < j < |s| ==> LexLe(s[i], s[j])
  }

  /** Every name occurs at most once, as in a directory listing. */
  predicate Distinct(s: seq<string>) {
    forall x | x in s :: multiset(s)[x] <= 1
  }

  /** A name no larger than the head of a sorted listing extends it. */
  lemma ConsSorted(y: string, t: seq<string>)
    requires Sorted(t) && (t != [] ==> LexLe(y, t[0]))
    ensures Sorted([y] + t)
  {
    var r := [y] + t;
    forall i, j | 0 <= i < j < |r| ensures LexLe(r[i], r[j]) {
      if i == 0 && j > 1 {
        LexLeTransitive(y, t[0], t[j - 1]);
      }
    }
  }

  function Insert(x: string, s: seq<string>): (r: seq<string>)
    requires Sorted(s)
    ensures |r| == |s| + 1
    ensures r[0] == x || (s != [] && r[0] == s[0])
    ensures Sorted(r) && multiset(r) == multiset(s) + multiset{x}
    decreases |s|
  {
    if s == [] then [x]
    else if LexLe(x, s[0]) then
      ConsSorted(x, s);
      [x] + s
    else
      LexLeTotal(x, s[0]);
      var rest := Insert(x, s[1..]);
      assert s == [s[0]] + s[1..];
      assert LexLe(s[0], rest[0]) by {
        if rest[0] != x {
          assert rest[0] == s[1];
        }
      }
      ConsSorted(s[0], rest);
      [s[0]] + rest
  }

  /** `sorted(names)`. */
  function Sort(s: seq<string>): (r: seq<string>)
    ensures |r| == |s|
    ensures Sorted(r) && multiset(r) == multiset(s)
    decreases |s|
  {
    if s == [] then []
    else
      assert s == [s[0]] + s[1..];
      Insert(s[0], Sort(s[1..]))
  }

  /** `s` without the name `x`, in the same order. */
  function Without(s: seq<string>, x: string): (r: seq<string>)
    ensures multiset(r) == multiset(s)[x := 0]
    decreases |s|
  {
    if s == [] then []
    else
      assert s == [s[0]] + s[1..];
      (if s[0] == x then [] else [s[0]]) + Without(s[1..], x)
  }

  /** The logs directory: its file names, in the order the listing gives them. */
  class LogDirectory {
    var files: seq<string>

    predicate Valid()
      reads this
    {
      Distinct(files)
    }

    constructor (files: seq<string>)
      requires Distinct(files)
      ensures Valid() && this.files == files
    {
      this.files := files;
    }

    /** `os.remove(f"logs/{name}")`. */
    method Remove(name: string)
      requires Valid() && name in files
      modifies this
      ensures Valid() && files == Without(old(files), name)
    {
      files := Without(files, name);
    }
  }

  /** `for log in names: os.remove(f"logs/{log}")`: each name, present in
      the directory, is deleted in turn. */
  method RemoveEach(dir: LogDirectory, names: seq<string>)
    requires dir.Valid() && multiset(names) <= multiset(dir.files)
    modifies dir
    ensures dir.Valid() && multiset(dir.files) == multiset(old(dir.files)) - multiset(names)
  {
    for i := 0 to |names|
      invariant dir.Valid()
      invariant multiset(dir.files) == multiset(old(dir.files)) - multiset(names[..i])
    {
      var name := names[i];
      assert names[..i + 1] == names[..i] + [name];
      NextIsPresent(old(dir.files), names, i);
      dir.Remove(name);
    }
    assert names[..|names|] == names;
  }

  /** `remove_logs`: with more than five files, delete all but the last in
      sorted order, one after the other. Returns the names deleted, in order. */
  method RemoveLogs(dir: LogDirectory) returns (removed: seq<string>)
    requires dir.Valid()
    modifies dir
    ensures dir.Valid()
    ensures |old(dir.files)| <= 5 ==> removed == [] && dir.files == old(dir.files)
    ensures |old(dir.files)| > 5 ==>
      && removed == Sort(old(dir.files))[..|old(dir.files)| - 1]
      && dir.files == [Sort(old(dir.files))[|old(dir.files)| - 1]]
  {
    var logs := Sort(dir.files);
    removed := [];
    if |logs| > 5 {
      var n := |logs|;
      assert logs == logs[..n - 1] + [logs[n - 1]];
      assert multiset(logs) == multiset(logs[..n - 1]) + multiset{logs[n - 1]};
      RemoveEach(dir, logs[..n - 1]);
      removed := logs[..n - 1];
      Singleton(dir.files, logs[n - 1]);
    }
  }

  // ---- helpers about listings ----

  /** The next name to delete is still in the directory, once. */
  lemma NextIsPresent(files: seq<string>, names: seq<string>, i: int)
    requires Distinct(files) && multiset(names) <= multiset(files) && 0 <= i < |names|
    ensures var left := multiset(files) - multiset(names[..i]);
      left[names[i]] == 1 && left - multiset{names[i]} == left[names[i] := 0]
  {
    NextCountsOnce(files, names, i);
  }

  lemma NextCountsOnce(files: seq<string>, names: seq<string>, i: int)
    requires Distinct(files) && multiset(names) <= multiset(files) && 0 <= i < |names|
    ensures (multiset(files) - multiset(names[..i]))[names[i]] == 1
  {
    var x := names[i];
    var done := multiset(names[..i]);
    assert names == names[..i] + [x] + names[i + 1..];
    assert done + multiset{x} <= multiset(files);
    assert x in files && multiset(files)[x] <= 1;
  }

  /** Dropping the first name of a listing where it occurs once removes it. */
  lemma DropFirst(s: seq<string>)
    requires |s| > 0 && multiset(s)[s[0]] <= 1
    ensures multiset(s[1..]) == multiset(s)[s[0] := 0]
  {
    assert s == [s[0]] + s[1..];
    assert multiset(s) == multiset{s[0]} + multiset(s[1..]);
  }

  /** The only listing holding exactly one name is that name. */
  lemma Singleton(s: seq<string>, x: string)
    requires multiset(s) == multiset{x}
    ensures s == [x]
  {
    assert |s| == |multiset(s)| == 1;
    assert s[0] in multiset(s);
  }

  lemma LexLeReflexive(a: string)
    ensures LexLe(a, a)
  {
    LexLeTotal(a, a);
  }

  /** The last of a sorted arrangement of `files` is one of them and the
      largest. */
  lemma {:induction false} LastOfSortedIsMaximum(sorted: seq<string>, files: seq<string>)
    requires |sorted| > 0 && Sorted(sorted) && multiset(sorted) == multiset(files)
    ensures sorted[|sorted| - 1] in files
    ensures forall x :: x in files ==> LexLe(x, sorted[|sorted| - 1])
  {
    var n := |sorted|;
    assert sorted[n - 1] in multiset(sorted);
    forall x | x in files ensures LexLe(x, sorted[n - 1]) {
      assert x in multiset(sorted);
      var j :| 0 <= j < n && sorted[j] == x;
      if j == n - 1 {
        LexLeReflexive(x);
      }
    }
  }

  /** All but the last of an arrangement of distinct names: distinct, drawn
      from `files`, covering every name but the last, and not the last. */
  lemma {:induction false} AllButLast(sorted: seq<string>, files: seq<string>)
    requires |sorted| > 0 && Distinct(files) && multiset(sorted) == multiset(files)
    ensures var removed := sorted[..|sorted| - 1];
      && Distinct(removed)
      && (forall x :: x in removed ==> x in files)
      && (forall x :: x in files ==> x in removed || x == sorted[|sorted| - 1])
      && sorted[|sorted| - 1] !in removed
  {
    var n := |sorted|;
    var removed := sorted[..n - 1];
    var last := sorted[n - 1];
    assert sorted == removed + [last];
    assert multiset(sorted) == multiset(removed) + multiset{last};
    assert last in multiset(files);
    assert multiset(files)[last] <= 1;
    assert multiset(removed)[last] == 0;
    forall x | x in removed ensures multiset(removed)[x] <= 1 {
      assert x in multiset(files);
    }
    forall x | x in removed ensures x in files {
      assert x in multiset(sorted);
    }
    forall x | x in files ensures x in removed || x == last {
      assert x in multiset(sorted);
    }
  }

  // ---- properties ----

  /** The file kept is the largest name of the directory. */
  lemma KeptIsMaximum(files: seq<string>)
    requires |files| > 0
    ensures var kept := Sort(files)[|files| - 1];
      kept in files && forall x :: x in files ==> LexLe(x, kept)
  {
    LastOfSortedIsMaximum(Sort(files), files);
  }

  /** Only names of the directory are deleted, each at most once, and
      every name but the kept one is deleted. */
  lemma RemovedAreTheOthers(files: seq<string>)
    requires Distinct(files) && |files| > 5
    ensures var sorted := Sort(files);
      var removed := sorted[..|files| - 1];
      && Distinct(removed)
      && (forall x :: x in removed ==> x in files)
      && (forall x :: x in files ==> x in removed || x == sorted[|files| - 1])
      && sorted[|files| - 1] !in removed
  {
    AllButLast(Sort(files), files);
  }
}
