/** The manifest resolver of `diff_export`: finds the entry of the saved
    bundle's manifest.json that describes image2 and takes its layer paths. */
module Manifest {
  import opened DigestText

  datatype Option<T> = None | Some(value: T)

  /** Where the bundle keeps its manifest, relative to the bundle root. */
  const ManifestPath: string := "manifest.json"

  /** One entry of manifest.json: the config file name and the ordered
      layer archive paths, relative to the bundle root. */
  datatype ManifestEntry = ManifestEntry(config: string, layers: seq<string>)

  /** Index of the first entry whose Config contains `imageId`, if any. */
  ghost function FirstConfigMatch(manifest: seq<ManifestEntry>, imageId: string): (r: Option<nat>)
    ensures r.Some? ==> r.value < |manifest| && Contains(manifest[r.value].config, imageId)
    ensures r.Some? ==> forall k :: 0 <= k < r.value ==> !Contains(manifest[k].config, imageId)
    ensures r.None? <==> forall k :: 0 <= k < |manifest| ==> !Contains(manifest[k].config, imageId)
  {
    if manifest == [] then None
    else if Contains(manifest[0].config, imageId) then Some(0)
    else match FirstConfigMatch(manifest[1..], imageId)
      case None => None
      case Some(j) => Some(j + 1)
  }

  /** The layer paths the resolver settles on: those of the first matching
      entry, or none at all when no entry matches. */
  ghost function ResolvedLayers(manifest: seq<ManifestEntry>, imageId: string): (r: seq<string>)
    ensures r == [] || exists j :: 0 <= j < |manifest| && Contains(manifest[j].config, imageId) && r == manifest[j].layers
    ensures (forall k :: 0 <= k < |manifest| ==> !Contains(manifest[k].config, imageId)) ==> r == []
  {
    match FirstConfigMatch(manifest, imageId)
    case None => []
    case Some(j) => manifest[j].layers
  }

  /** An entry that matches and is preceded only by entries that do not is the
      one whose layers are used: later matches are never consulted. */
  lemma ResolvedIsFirstMatch(manifest: seq<ManifestEntry>, imageId: string, j: nat)
    requires j < |manifest| && Contains(manifest[j].config, imageId)
    requires forall k :: 0 <= k < j ==> !Contains(manifest[k].config, imageId)
    ensures ResolvedLayers(manifest, imageId) == manifest[j].layers
  {
  }

  /** The scan of `diff_export` (diffdocker.py): `layers` starts empty and is set from the first entry
      whose Config contains the id, after which the loop breaks. */
  method ResolveLayers(manifest: seq<ManifestEntry>, imageId: string) returns (layers: seq<string>)
    ensures layers == ResolvedLayers(manifest, imageId)
  {
    layers := [];
    var i := 0;
    while i < |manifest|
      invariant i <= |manifest|
      invariant forall k :: 0 <= k < i ==> !Contains(manifest[k].config, imageId)
    {
      if Contains(manifest[i].config, imageId) {
        layers := manifest[i].layers;
        ResolvedIsFirstMatch(manifest, imageId, i);
        return;
      }
      i := i + 1;
    }
  }
}
