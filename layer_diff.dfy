/** The layer prefix differ of `diff_export`: the longest leading run of
    root-filesystem layers that two images share position by position. */
module LayerDiff {

  /** A layer digest as the image engine reports it, e.g. "sha256:<hex>". */
  type Digest = string

  /** The maximal common prefix of two layer lists. */
  function CommonPrefix(a: seq<Digest>, b: seq<Digest>): (r: seq<Digest>)
    ensures |r| <= |a| && |r| <= |b|
    ensures r == a[..|r|] && r == b[..|r|]
    ensures |r| < |a| && |r| < |b| ==> a[|r|] != b[|r|]
  {
    if a == [] || b == [] || a[0] != b[0] then []
    else [a[0]] + CommonPrefix(a[1..], b[1..])
  }

  /** Being a prefix of both lists and stopping at a mismatch or at the end of
      either list pins the common prefix down uniquely. */
  lemma CommonPrefixUnique(a: seq<Digest>, b: seq<Digest>, p: seq<Digest>)
    requires |p| <= |a| && |p| <= |b|
    requires p == a[..|p|] && p == b[..|p|]
    requires |p| < |a| && |p| < |b| ==> a[|p|] != b[|p|]
    ensures p == CommonPrefix(a, b)
  {
  }

  /** Identical layer lists fully deduplicate. */
  lemma CommonPrefixSelf(a: seq<Digest>)
    ensures CommonPrefix(a, a) == a
  {
  }

  /** An empty list on either side leaves nothing to deduplicate. */
  lemma CommonPrefixEmpty(a: seq<Digest>)
    ensures CommonPrefix(a, []) == [] && CommonPrefix([], a) == []
  {
  }

  /** The differ does not depend on which image comes first. */
  lemma CommonPrefixSymmetric(a: seq<Digest>, b: seq<Digest>)
    ensures CommonPrefix(a, b) == CommonPrefix(b, a)
  {
    CommonPrefixUnique(b, a, CommonPrefix(a, b));
  }

  /** Two lists that agree except for their last element share all but it. */
  lemma CommonPrefixAllButLast(c: seq<Digest>, x: Digest, y: Digest)
    requires x != y
    ensures CommonPrefix(c + [x], c + [y]) == c
  {
    CommonPrefixUnique(c + [x], c + [y], c);
  }

  /** Matching is positional: a shared layer that is displaced by one position
      does not count, so a first-layer mismatch gives the empty prefix. */
  lemma CommonPrefixHeadMismatch(a: seq<Digest>, b: seq<Digest>)
    requires a != [] && b != [] && a[0] != b[0]
    ensures CommonPrefix(a, b) == []
  {
  }

  /** The loop of `diff_export` (diffdocker.py): walk `layers1` with its index, stop when `layers2`
      runs out or the layers differ, otherwise append. */
  method DuplicatePrefix(layers1: seq<Digest>, layers2: seq<Digest>) returns (duplicates: seq<Digest>)
    ensures duplicates == CommonPrefix(layers1, layers2)
  {
    duplicates := [];
    var i := 0;
    while i < |layers1|
      invariant i <= |layers1| && i <= |layers2|
      invariant duplicates == layers1[..i] && duplicates == layers2[..i]
    {
      if i >= |layers2| || layers1[i] != layers2[i] {
        break;
      }
      duplicates := duplicates + [layers1[i]];
      i := i + 1;
    }
    CommonPrefixUnique(layers1, layers2, duplicates);
  }
}
