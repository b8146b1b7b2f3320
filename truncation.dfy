/** The layer truncator of `diff_export`: every layer archive of the bundle
    whose path contains a stripped duplicate digest is emptied in place. */
module Truncation {
  import opened DigestText

  newtype byte = x: int | 0 <= x < 256

  /** Bundle-relative path to file content: the extracted `docker save` tree. */
  type Files = map<string, seq<byte>>

  /** Path `p` is chosen for truncation: it is one of the resolved layer paths
      and contains some duplicate digest with its tag stripped. */
  ghost predicate Marked(p: string, duplicates: seq<string>, layers: seq<string>)
    ensures Marked(p, duplicates, layers) ==> p in layers && duplicates != []
  {
    p in layers && exists k :: 0 <= k < |duplicates| && Contains(p, Strip(duplicates[k]))
  }

  /** The bundle after truncation: marked files are empty, nothing else moves. */
  ghost function Truncated(files: Files, duplicates: seq<string>, layers: seq<string>): (r: Files)
    ensures r.Keys == files.Keys
    ensures forall p :: p in files && Marked(p, duplicates, layers) ==> r[p] == []
    ensures forall p :: p in files && !Marked(p, duplicates, layers) ==> r[p] == files[p]
  {
    map p | p in files :: if Marked(p, duplicates, layers) then [] else files[p]
  }

  /** Warnings for one stripped digest `id`: one per layer path that contains
      `id` but is absent from the bundle, in the order of `layers`. */
  ghost function WarningsFor(keys: set<string>, id: string, layers: seq<string>): (w: seq<string>)
    ensures forall x :: x in w ==> x == id
    decreases |layers|
  {
    if layers == [] then []
    else
      var last := layers[|layers| - 1];
      WarningsFor(keys, id, layers[..|layers| - 1])
        + (if Contains(last, id) && last !in keys then [id] else [])
  }

  /** All warnings of the nested loop, duplicates outermost. */
  ghost function Warnings(keys: set<string>, duplicates: seq<string>, layers: seq<string>): (w: seq<string>)
    ensures forall x :: x in w ==> exists k :: 0 <= k < |duplicates| && x == Strip(duplicates[k])
    decreases |duplicates|
  {
    if duplicates == [] then []
    else
      Warnings(keys, duplicates[..|duplicates| - 1], layers)
        + WarningsFor(keys, Strip(duplicates[|duplicates| - 1]), layers)
  }

  /** A warning for `id` is issued exactly when some layer path containing it
      is missing from the bundle. */
  lemma {:induction false} WarningsForIff(keys: set<string>, id: string, layers: seq<string>)
    ensures WarningsFor(keys, id, layers) != [] <==>
      exists j :: 0 <= j < |layers| && Contains(layers[j], id) && layers[j] !in keys
    decreases |layers|
  {
    if layers != [] {
      var init := layers[..|layers| - 1];
      WarningsForIff(keys, id, init);
      assert forall j :: 0 <= j < |init| ==> init[j] == layers[j];
    }
  }

  /** The truncation loop warns at all exactly when some duplicate digest is
      contained in a layer path that the bundle lacks. */
  lemma {:induction false} WarningsIff(keys: set<string>, duplicates: seq<string>, layers: seq<string>)
    ensures Warnings(keys, duplicates, layers) != [] <==>
      exists k, j :: 0 <= k < |duplicates| && 0 <= j < |layers|
        && Contains(layers[j], Strip(duplicates[k])) && layers[j] !in keys
    decreases |duplicates|
  {
    if duplicates != [] {
      var n := |duplicates| - 1;
      var init := duplicates[..n];
      WarningsIff(keys, init, layers);
      WarningsForIff(keys, Strip(duplicates[n]), layers);
      assert forall k :: 0 <= k < n ==> init[k] == duplicates[k];
    }
  }

  /** Marking grows by one digest at a time, as the outer loop does. */
  lemma MarkedStep(p: string, duplicates: seq<string>, layers: seq<string>, i: nat)
    requires i < |duplicates|
    ensures Marked(p, duplicates[..i + 1], layers) <==>
      Marked(p, duplicates[..i], layers) || (p in layers && Contains(p, Strip(duplicates[i])))
  {
  }

  /** Truncating a truncated bundle again changes nothing. */
  lemma TruncatedIdempotent(files: Files, duplicates: seq<string>, layers: seq<string>)
    ensures Truncated(Truncated(files, duplicates, layers), duplicates, layers)
      == Truncated(files, duplicates, layers)
  {
  }

  /** When the resolver found no entry, no file is touched and nothing is warned. */
  lemma NoLayersNoChange(files: Files, duplicates: seq<string>)
    ensures Truncated(files, duplicates, []) == files
    ensures Warnings(files.Keys, duplicates, []) == []
  {
  }

  /** Two duplicate digests, each contained in its own archive path and not
      in a third: exactly those two archives are emptied, with no warning. */
  lemma ScenarioTruncation(files: Files, l1: string, l2: string, p1: string, p2: string, p4: string)
    requires Contains(p1, Strip(l1)) && Contains(p2, Strip(l2))
    requires !Contains(p4, Strip(l1)) && !Contains(p4, Strip(l2))
    requires p1 in files && p2 in files && p4 in files
    ensures Truncated(files, [l1, l2], [p1, p2, p4]) == files[p1 := []][p2 := []]
    ensures Warnings(files.Keys, [l1, l2], [p1, p2, p4]) == []
  {
    var dups := [l1, l2];
    var layers := [p1, p2, p4];
    assert Marked(p1, dups, layers) && Marked(p2, dups, layers) by {
      assert Contains(p1, Strip(dups[0])) && Contains(p2, Strip(dups[1]));
    }
    WarningsIff(files.Keys, dups, layers);
    var t := Truncated(files, dups, layers);
    assert forall p :: p in t ==> t[p] == files[p1 := []][p2 := []][p];
  }

  /** The extracted bundle directory, whose files the truncator rewrites. */
  class Bundle {
    var files: Files

    constructor (files: Files)
      ensures this.files == files
    {
      this.files := files;
    }

    /** `open(path, "w")`: the file exists afterwards and is empty. */
    method TruncateFile(path: string)
      modifies this
      ensures files == old(files)[path := []]
    {
      files := files[path := []];
    }

    /** The inner loop of `diff_export` (diffdocker.py): for one stripped digest `id`, empty each
        layer path that contains it and exists, and warn about each that does not. */
    method TruncateMatching(id: string, layers: seq<string>) returns (warnings: seq<string>)
      modifies this
      ensures files.Keys == old(files).Keys
      ensures forall p :: p in files ==>
        files[p] == if p in layers && Contains(p, id) then [] else old(files)[p]
      ensures warnings == WarningsFor(old(files).Keys, id, layers)
    {
      warnings := [];
      var j := 0;
      while j < |layers|
        invariant j <= |layers|
        invariant files.Keys == old(files).Keys
        invariant forall p :: p in files ==>
          files[p] == if p in layers[..j] && Contains(p, id) then [] else old(files)[p]
        invariant warnings == WarningsFor(old(files).Keys, id, layers[..j])
      {
        var layer := layers[j];
        assert layers[..j + 1] == layers[..j] + [layer];
        if Contains(layer, id) {
          if layer in files {
            TruncateFile(layer);
          } else {
            warnings := warnings + [id];
          }
        }
        j := j + 1;
      }
      assert layers[..j] == layers;
    }

    /** The nested loop of `diff_export` (diffdocker.py) over duplicates and resolved layer paths. */
    method TruncateDuplicates(duplicates: seq<string>, layers: seq<string>) returns (warnings: seq<string>)
      modifies this
      ensures files == Truncated(old(files), duplicates, layers)
      ensures warnings == Warnings(old(files).Keys, duplicates, layers)
    {
      warnings := [];
      var i := 0;
      while i < |duplicates|
        invariant i <= |duplicates|
        invariant files.Keys == old(files).Keys
        invariant forall p :: p in files ==>
          files[p] == if Marked(p, duplicates[..i], layers) then [] else old(files)[p]
        invariant warnings == Warnings(old(files).Keys, duplicates[..i], layers)
      {
        var more := TruncateMatching(Strip(duplicates[i]), layers);
        forall p | p in files
          ensures files[p] == if Marked(p, duplicates[..i + 1], layers) then [] else old(files)[p]
        {
          MarkedStep(p, duplicates, layers, i);
        }
        assert duplicates[..i + 1][..i] == duplicates[..i];
        warnings := warnings + more;
        i := i + 1;
      }
      assert duplicates[..i] == duplicates;
    }
  }
}
