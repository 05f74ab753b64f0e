/** The agent's download of a lease's granted inputs into one directory (agent.py). */
module Downloads {
  import opened Json
  import opened Contracts

  /** Where each key's file is, and what each file holds. */
  datatype Workspace = Workspace(paths: map<string, string>, files: map<string, Bytes>)

  /** Every plugin that opens an input's path reads that input. */
  predicate EachPathHoldsItsInput(keys: seq<string>, stored: map<string, Bytes>, w: Workspace) {
    forall k | k in keys :: k in w.paths && k in stored && w.paths[k] in w.files && w.files[w.paths[k]] == stored[k]
  }

  /** Keys that share a file name share their content. */
  predicate NamesTellApart(keys: seq<string>, stored: map<string, Bytes>, nameOf: string -> string) {
    forall a, b | a in keys && b in keys && nameOf(a) == nameOf(b) ::
      a in stored && b in stored && stored[a] == stored[b]
  }

  /** `_download_inputs`: it fails when an asset cannot be fetched or is too large. Otherwise every
   *  key's path holds that key's bytes exactly when no two different inputs share a file name. */
  method DownloadInputs(keys: seq<string>, stored: map<string, Bytes>, nameOf: string -> string, maxBytes: nat)
    returns (r: Option<Workspace>)
    ensures r.Some? <==> forall k | k in keys :: k in stored && |stored[k]| <= maxBytes
    ensures r.Some? ==> r.value.paths == map k | k in keys :: nameOf(k)
    ensures r.Some? ==> r.value.files.Keys == set k | k in keys :: nameOf(k)
    ensures r.Some? ==> (EachPathHoldsItsInput(keys, stored, r.value) <==> NamesTellApart(keys, stored, nameOf))
  {
    var paths: map<string, string>, files: map<string, Bytes> := map[], map[];
    for n := 0 to |keys|
      invariant forall k | k in keys[..n] :: k in stored && |stored[k]| <= maxBytes
      invariant paths == map k | k in keys[..n] :: nameOf(k)
      invariant files.Keys == set k | k in keys[..n] :: nameOf(k)
      invariant forall f | f in files :: exists k | k in keys[..n] :: nameOf(k) == f && files[f] == stored[k]
    {
      var key := keys[n];
      assert keys[..n + 1] == keys[..n] + [key];
      if key !in stored || |stored[key]| > maxBytes {
        assert key in keys;
        return None;
      }
      ghost var before := files;
      files := files[nameOf(key) := stored[key]];
      paths := paths[key := nameOf(key)];
      forall f | f in files ensures exists k | k in keys[..n + 1] :: nameOf(k) == f && files[f] == stored[k] {
        if f == nameOf(key) {
          assert key in keys[..n + 1];
        } else {
          var k :| k in keys[..n] && nameOf(k) == f && before[f] == stored[k];
          assert k in keys[..n + 1];
        }
      }
    }
    assert keys[..|keys|] == keys;
    r := Some(Workspace(paths, files));
  }

  // ----- two inputs, one file

  /** The last component of a key: what follows its last slash. */
  function FileName(key: string): string {
    if key == [] || key[|key| - 1] == '/' then []
    else FileName(key[..|key| - 1]) + [key[|key| - 1]]
  }

  /** Two different granted inputs that are both called "x": whatever the directory holds afterwards,
   *  some path does not hold its input. */
  lemma OneNameTwoInputs(w: Workspace)
    ensures var keys, stored := ["inputs/a/x", "inputs/b/x"], map["inputs/a/x" := [1 as bv8], "inputs/b/x" := [2 as bv8]];
      && FileName("inputs/a/x") == FileName("inputs/b/x") == "x"
      && !NamesTellApart(keys, stored, FileName)
      && (w.paths == (map k | k in keys :: FileName(k)) ==> !EachPathHoldsItsInput(keys, stored, w))
  {
    var keys, stored := ["inputs/a/x", "inputs/b/x"], map["inputs/a/x" := [1 as bv8], "inputs/b/x" := [2 as bv8]];
    assert "inputs/a/x"[7] != "inputs/b/x"[7];
    assert "inputs/a/x"[..9] == "inputs/a/" && "inputs/b/x"[..9] == "inputs/b/";
    assert FileName("inputs/a/") == [] && FileName("inputs/b/") == [];
    assert FileName("inputs/a/x") == FileName("inputs/b/x") == "x";
    assert keys[0] == "inputs/a/x" && keys[1] == "inputs/b/x";
    assert stored["inputs/a/x"] == [1 as bv8] && stored["inputs/b/x"] == [2 as bv8];
    assert [1 as bv8][0] != [2 as bv8][0];
  }
}
