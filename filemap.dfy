/** The run's file mapping `AgentState.files` and its last-write-wins update. */
module FileMap {
  import opened Records

  /** Apply `writes` to `m` in order; a later write to a path replaces an earlier one. */
  function Merge(m: map<string, string>, writes: seq<FileEntry>): map<string, string>
    decreases |writes|
  {
    if writes == [] then m
    else
      var last := writes[|writes| - 1];
      Merge(m, writes[..|writes| - 1])[last.path := last.content]
  }

  /** The paths named in `writes`. */
  function PathsOf(writes: seq<FileEntry>): set<string>
  {
    set i | 0 <= i < |writes| :: writes[i].path
  }

  /** The content of the last write to `path` in `writes`, if any. */
  function LastWrite(writes: seq<FileEntry>, path: string): Option<string>
    decreases |writes|
  {
    if writes == [] then None
    else if writes[|writes| - 1].path == path then Some(writes[|writes| - 1].content)
    else LastWrite(writes[..|writes| - 1], path)
  }

  /** LastWrite finds the last occurrence of the path, and nothing when the path is absent. */
  lemma {:induction false} LastWriteIsLastOccurrence(writes: seq<FileEntry>, path: string)
    ensures LastWrite(writes, path).None? <==> forall i :: 0 <= i < |writes| ==> writes[i].path != path
    ensures LastWrite(writes, path).Some? ==>
      exists i :: 0 <= i < |writes| && writes[i] == FileEntry(path, LastWrite(writes, path).value) &&
        forall j :: i < j < |writes| ==> writes[j].path != path
    decreases |writes|
  {
    if writes != [] {
      var n := |writes| - 1;
      var init := writes[..n];
      LastWriteIsLastOccurrence(init, path);
      if writes[n].path != path {
        assert forall i :: 0 <= i < n ==> init[i] == writes[i];
        if LastWrite(init, path).Some? {
          var i :| 0 <= i < n && init[i] == FileEntry(path, LastWrite(init, path).value) &&
            forall j :: i < j < n ==> init[j].path != path;
          assert writes[i] == init[i];
        }
      }
    }
  }

  /** Merge is last-write-wins: a written path holds its last written content,
      an untouched path keeps its old content, and no path is removed. */
  lemma {:induction false} MergeLastWriteWins(m: map<string, string>, writes: seq<FileEntry>, path: string)
    ensures path in Merge(m, writes) <==> path in m || LastWrite(writes, path).Some?
    ensures LastWrite(writes, path).Some? ==> Merge(m, writes)[path] == LastWrite(writes, path).value
    ensures LastWrite(writes, path).None? && path in m ==> Merge(m, writes)[path] == m[path]
    decreases |writes|
  {
    if writes != [] {
      MergeLastWriteWins(m, writes[..|writes| - 1], path);
    }
  }

  /** The key set after a merge is the old key set plus the written paths. */
  lemma {:induction false} MergeKeys(m: map<string, string>, writes: seq<FileEntry>)
    ensures Merge(m, writes).Keys == m.Keys + PathsOf(writes)
    decreases |writes|
  {
    if writes != [] {
      var n := |writes| - 1;
      MergeKeys(m, writes[..n]);
      assert PathsOf(writes) == PathsOf(writes[..n]) + {writes[n].path} by {
        forall p | p in PathsOf(writes) ensures p in PathsOf(writes[..n]) + {writes[n].path} {
          var i :| 0 <= i < |writes| && writes[i].path == p;
          if i < n { assert writes[..n][i] == writes[i]; }
        }
        forall p | p in PathsOf(writes[..n]) ensures p in PathsOf(writes) {
          var i :| 0 <= i < n && writes[..n][i].path == p;
          assert writes[i] == writes[..n][i];
        }
      }
    }
  }

  /** The number of files never decreases. */
  lemma {:induction false} MergeNeverShrinks(m: map<string, string>, writes: seq<FileEntry>)
    ensures m.Keys <= Merge(m, writes).Keys
    ensures |m| <= |Merge(m, writes)|
    decreases |writes|
  {
    if writes != [] {
      var n := |writes| - 1;
      MergeNeverShrinks(m, writes[..n]);
      var before := Merge(m, writes[..n]);
      assert |before| <= |before[writes[n].path := writes[n].content]|;
    }
  }

  /** Two calls in a row have the effect of one call with both lists. */
  lemma {:induction false} MergeCompose(m: map<string, string>, a: seq<FileEntry>, b: seq<FileEntry>)
    ensures Merge(Merge(m, a), b) == Merge(m, a + b)
    decreases |b|
  {
    if b == [] {
      assert a + b == a;
    } else {
      var n := |b| - 1;
      assert (a + b)[..|a + b| - 1] == a + b[..n];
      assert (a + b)[|a + b| - 1] == b[n];
      MergeCompose(m, a, b[..n]);
    }
  }

  /** Writing `a.txt` then, in a second call, `b.txt` leaves both files in the mapping. */
  lemma TwoCallsKeepBothFiles()
    ensures Merge(Merge(map[], [FileEntry("a.txt", "1")]), [FileEntry("b.txt", "2")])
      == map["a.txt" := "1", "b.txt" := "2"]
  {
    var first := [FileEntry("a.txt", "1")];
    assert first[..0] == [];
    var second := [FileEntry("b.txt", "2")];
    assert second[..0] == [];
  }
}
