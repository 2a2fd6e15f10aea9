/**
 * The editor-side values of the project screen: the file tree in the shape the
 * sandbox runtime mounts, the list of open editor tabs and the set of users
 * picked in the "add collaborator" dialog.
 */
module Workspace {

  /** A node of the mounted tree: `{file: {contents}}` or `{directory: {...}}`. */
  datatype Entry = File(contents: string) | Directory(entries: map<string, Entry>)

  /** The project's `fileTree`: top-level names to entries. */
  type Tree = map<string, Entry>

  /**
   * `{...fileTree, [path]: {file: {contents}}}`: `path` now holds a file with the
   * new contents, every other name keeps its entry, and no name is dropped.
   */
  function WithFileContents(tree: Tree, path: string, contents: string): (r: Tree)
    ensures r.Keys == tree.Keys + {path}
    ensures r[path] == File(contents)
    ensures forall k :: k in tree && k != path ==> r[k] == tree[k]
  {
    tree[path := File(contents)]
  }

  predicate NoDuplicates<T(==)>(s: seq<T>) {
    forall i, j :: 0 <= i < j < |s| ==> s[i] != s[j]
  }

  /** `[...new Set(s)]`: the elements of `s` in order of first occurrence, each once. */
  function Distinct(s: seq<string>): (r: seq<string>)
    ensures NoDuplicates(r)
    ensures forall x :: x in r <==> x in s
  {
    if s == [] then []
    else
      var init := Distinct(s[..|s| - 1]);
      var last := s[|s| - 1];
      assert forall x :: x in s <==> x in s[..|s| - 1] || x == last by {
        assert s == s[..|s| - 1] + [last];
      }
      if last in init then init else init + [last]
  }

  /** The position of the first occurrence of `x` in `s`. */
  function FirstIndex(s: seq<string>, x: string): (k: nat)
    requires x in s
    ensures k < |s| && s[k] == x
    ensures forall i :: 0 <= i < k ==> s[i] != x
  {
    if s[0] == x then 0
    else
      assert x in s[1..] by { assert s == [s[0]] + s[1..]; }
      FirstIndex(s[1..], x) + 1
  }

  /** Appending elements after the first occurrence of `x` does not move it. */
  lemma FirstIndexPrefix(p: seq<string>, q: seq<string>, x: string)
    requires x in p
    ensures FirstIndex(p + q, x) == FirstIndex(p, x)
  {
    var k := FirstIndex(p, x);
    assert (p + q)[k] == x;
  }

  /**
   * `[...new Set(s)]` lists the elements in the order in which they first occur in `s`.
   */
  lemma {:induction false} DistinctFirstOccurrence(s: seq<string>)
    ensures forall i, j :: 0 <= i < j < |Distinct(s)| ==>
      FirstIndex(s, Distinct(s)[i]) < FirstIndex(s, Distinct(s)[j])
  {
    if s != [] {
      var init := s[..|s| - 1];
      var last := s[|s| - 1];
      assert s == init + [last];
      var r0 := Distinct(init);
      var r := Distinct(s);
      DistinctFirstOccurrence(init);
      forall x | x in r0 ensures FirstIndex(s, x) == FirstIndex(init, x) {
        FirstIndexPrefix(init, [last], x);
      }
      forall i, j | 0 <= i < j < |r| ensures FirstIndex(s, r[i]) < FirstIndex(s, r[j]) {
        assert r[i] == r0[i];
        if j < |r0| {
          assert r[j] == r0[j];
        } else {
          assert r[j] == last && last !in init;
          assert FirstIndex(s, last) == |s| - 1;
        }
      }
    }
  }

  /** A list with no repetition is its own `Distinct`. */
  lemma {:induction false} DistinctOfDistinct(s: seq<string>)
    requires NoDuplicates(s)
    ensures Distinct(s) == s
  {
    if s != [] {
      var init := s[..|s| - 1];
      assert NoDuplicates(init) by {
        forall i, j | 0 <= i < j < |init| ensures init[i] != init[j] {
          assert init[i] == s[i] && init[j] == s[j];
        }
      }
      DistinctOfDistinct(init);
      assert s[|s| - 1] !in init by {
        forall k | 0 <= k < |init| ensures init[k] != s[|s| - 1] { assert init[k] == s[k]; }
      }
      assert s == init + [s[|s| - 1]];
    }
  }

  /**
   * The tab list after clicking a file in the explorer, `[...new Set([...openFiles, file])]`:
   * unchanged when the file is already open, otherwise the file is added at the end.
   */
  function OpenTab(openFiles: seq<string>, file: string): (r: seq<string>)
    requires NoDuplicates(openFiles)
    ensures NoDuplicates(r)
    ensures r == if file in openFiles then openFiles else openFiles + [file]
  {
    DistinctOfDistinct(openFiles);
    assert (openFiles + [file])[..|openFiles|] == openFiles;
    Distinct(openFiles + [file])
  }

  /** The collaborator picker's toggle: `id` flips membership, every other id keeps it. */
  function Toggle(selected: set<string>, id: string): (r: set<string>)
    ensures id in r <==> id !in selected
    ensures forall x :: x != id ==> (x in r <==> x in selected)
  {
    if id in selected then selected - {id} else selected + {id}
  }

  /** Clicking the same user twice restores the selection. */
  lemma ToggleTwice(selected: set<string>, id: string)
    ensures Toggle(Toggle(selected, id), id) == selected
  {
  }
}
