/**
 * The download directory `/app/downloads` as the model sees it: a listing of
 * plain file names, in the order a directory scan returns them. Lock markers
 * and downloaded media live side by side in it. These are the three changes
 * the program makes to the directory: creating a name, unlinking one
 * (`os.unlink`, yt_api.py:183) and renaming one (`os.rename`, yt_api.py:304).
 */
module Listing {

  /** The listing after `name` has been created; an existing name is written over in place. */
  function AddFile(files: seq<string>, name: string): (r: seq<string>)
    ensures forall f :: f in r <==> f in files || f == name
    ensures |r| >= |files| && r[..|files|] == files
  {
    if name in files then files else files + [name]
  }

  /** The listing after each name of `written` has been created, in that order. */
  function AddAll(files: seq<string>, written: seq<string>): (r: seq<string>)
    ensures forall f :: f in r <==> f in files || f in written
    ensures |r| >= |files| && r[..|files|] == files
    decreases |written|
  {
    if written == [] then files
    else
      var r := AddAll(AddFile(files, written[0]), written[1..]);
      assert forall f :: f in written <==> f == written[0] || f in written[1..];
      r
  }

  /** The listing after `name` has been unlinked: every other name stays, in order. */
  function Without(files: seq<string>, name: string): (r: seq<string>)
    ensures forall f :: f in r <==> f in files && f != name
    ensures name !in files ==> r == files
    ensures |r| <= |files|
  {
    if files == [] then []
    else
      var rest := Without(files[1..], name);
      assert files == [files[0]] + files[1..];
      if files[0] == name then rest else [files[0]] + rest
  }

  /**
   * The listing after `from` has been renamed to `to`: the entry keeps its
   * place in the listing. The program renames only onto an absent name.
   */
  function Renamed(files: seq<string>, from: string, to: string): (r: seq<string>)
    ensures |r| == |files|
    ensures forall f :: f in r <==> (f in files && f != from) || (f == to && from in files)
  {
    if files == [] then []
    else
      var rest := Renamed(files[1..], from, to);
      assert forall f :: f in files <==> f == files[0] || f in files[1..];
      [if files[0] == from then to else files[0]] + rest
  }

  /** Unlinking a name that was just created restores the listing (yt_api.py:168, 183). */
  lemma {:induction false} WithoutUndoesAdd(files: seq<string>, name: string)
    requires name !in files
    ensures Without(files + [name], name) == files
    decreases |files|
  {
    if files == [] {
      assert [] + [name] == [name];
      assert [name][1..] == [];
    } else {
      assert (files + [name])[1..] == files[1..] + [name];
      WithoutUndoesAdd(files[1..], name);
      assert files == [files[0]] + files[1..];
    }
  }

  /** No name occurs twice: a directory holds at most one entry per name. */
  predicate Distinct(files: seq<string>)
  {
    forall i, j :: 0 <= i < j < |files| ==> files[i] != files[j]
  }

  lemma {:induction false} DistinctCons(x: string, rest: seq<string>)
    ensures Distinct([x] + rest) <==> x !in rest && Distinct(rest)
  {
    var s := [x] + rest;
    assert forall i :: 0 <= i < |rest| ==> rest[i] == s[i + 1];
    if x !in rest && Distinct(rest) {
      forall i, j | 0 <= i < j < |s| ensures s[i] != s[j] {
        if i > 0 {
          assert s[i] == rest[i - 1] && s[j] == rest[j - 1];
        } else {
          assert s[j] == rest[j - 1];
        }
      }
    }
    if x in rest {
      var j :| 0 <= j < |rest| && rest[j] == x;
      assert s[0] == s[j + 1];
    }
  }

  /** Creating names never duplicates one. */
  lemma {:induction false} AddAllKeepsDistinct(files: seq<string>, written: seq<string>)
    requires Distinct(files)
    ensures Distinct(AddAll(files, written))
    decreases |written|
  {
    if written != [] {
      AddFileKeepsDistinct(files, written[0]);
      AddAllKeepsDistinct(AddFile(files, written[0]), written[1..]);
    }
  }

  /** Creating a name never duplicates one. */
  lemma {:induction false} AddFileKeepsDistinct(files: seq<string>, name: string)
    requires Distinct(files)
    ensures Distinct(AddFile(files, name))
  {
    var next := AddFile(files, name);
    if name !in files {
      assert forall i :: 0 <= i < |files| ==> next[i] == files[i];
    }
  }

  /** Unlinking a name never duplicates one. */
  lemma {:induction false} WithoutKeepsDistinct(files: seq<string>, name: string)
    requires Distinct(files)
    ensures Distinct(Without(files, name))
    decreases |files|
  {
    if files != [] {
      assert files == [files[0]] + files[1..];
      DistinctCons(files[0], files[1..]);
      WithoutKeepsDistinct(files[1..], name);
      if files[0] != name {
        DistinctCons(files[0], Without(files[1..], name));
      }
    }
  }

  /** Renaming onto an absent name never duplicates one; onto a present name it would. */
  lemma {:induction false} RenamedKeepsDistinct(files: seq<string>, from: string, to: string)
    requires Distinct(files) && to !in files
    ensures Distinct(Renamed(files, from, to))
    decreases |files|
  {
    if files != [] {
      assert files == [files[0]] + files[1..];
      DistinctCons(files[0], files[1..]);
      RenamedKeepsDistinct(files[1..], from, to);
      var head := if files[0] == from then to else files[0];
      DistinctCons(head, Renamed(files[1..], from, to));
    }
  }
}
