/** `diff_export`: validate image2, compute the duplicate layer prefix, fail
    fast when there is none, materialize image2's bundle, resolve its layer
    paths and truncate the duplicate archives. */
module Orchestrator {
  import opened DigestText
  import opened LayerDiff
  import opened Manifest
  import opened Truncation

  /** The part of `inspect_image`'s answer that `diff_export` reads:
      `Id`, `RepoTags` and `RootFS.Layers`. */
  datatype Image = Image(id: string, repoTags: seq<string>, layers: seq<Digest>)

  /** What materializing an image reference yields: the extracted bundle,
      or a failed `docker save`. */
  datatype Saved = Saved(files: Files) | SaveFailed

  /** Reading manifest.json: `json.load` and the entries' `Config` and
      `Layers` fields, or None when the content is not such a manifest. */
  type Parser = seq<byte> -> Option<seq<ManifestEntry>>

  datatype Error =
    | NoRepoTags     // image2 has no RepoTags
    | NoDuplication  // the duplicate prefix is empty
    | ExportFailed   // materializing image2 failed
    | BadManifest    // manifest.json is missing or cannot be read

  /** A finished export: the duplicate layers found, the bundle as it is
      packed, and the warnings of the truncation loop. */
  datatype Export = Export(duplicates: seq<Digest>, files: Files, warnings: seq<string>)

  datatype Result = Ok(value: Export) | Err(error: Error)

  /** The outcome of `diff_export`, stage by stage. `save` stands for
      `image_export`, applied to image2's first RepoTag, and `parse` for
      reading the bundle's manifest.json. */
  ghost function DiffExportSpec(image1: Image, image2: Image, save: string -> Saved, parse: Parser): (r: Result)
    ensures image2.repoTags == [] ==> r == Err(NoRepoTags)
    ensures r.Ok? ==> image2.repoTags != [] && save(image2.repoTags[0]).Saved?
    ensures r.Ok? ==> r.value.duplicates != [] && r.value.duplicates == CommonPrefix(image1.layers, image2.layers)
    ensures r.Ok? ==> r.value.files.Keys == save(image2.repoTags[0]).files.Keys
  {
    if image2.repoTags == [] then Err(NoRepoTags)
    else
      var duplicates := CommonPrefix(image1.layers, image2.layers);
      if duplicates == [] then Err(NoDuplication)
      else match save(image2.repoTags[0])
        case SaveFailed => Err(ExportFailed)
        case Saved(files) =>
          if ManifestPath !in files then Err(BadManifest)
          else match parse(files[ManifestPath])
            case None => Err(BadManifest)
            case Some(manifest) =>
              var layers := ResolvedLayers(manifest, Strip(image2.id));
              Ok(Export(duplicates, Truncated(files, duplicates, layers), Warnings(files.Keys, duplicates, layers)))
  }

  /** The pipeline of `diff_export` (diffdocker.py); the bundle object exists
      only once both checks have passed and the export succeeded. */
  method DiffExport(image1: Image, image2: Image, save: string -> Saved, parse: Parser) returns (r: Result)
    ensures r == DiffExportSpec(image1, image2, save, parse)
  {
    if |image2.repoTags| == 0 {
      return Err(NoRepoTags);
    }
    var duplicates := DuplicatePrefix(image1.layers, image2.layers);
    if |duplicates| == 0 {
      return Err(NoDuplication);
    }
    var saved := save(image2.repoTags[0]);
    if saved.SaveFailed? {
      return Err(ExportFailed);
    }
    var bundle := new Bundle(saved.files);
    if ManifestPath !in bundle.files {
      return Err(BadManifest);
    }
    var parsed := parse(bundle.files[ManifestPath]);
    if parsed.None? {
      return Err(BadManifest);
    }
    var layers := ResolveLayers(parsed.value, Strip(image2.id));
    var warnings := bundle.TruncateDuplicates(duplicates, layers);
    r := Ok(Export(duplicates, bundle.files, warnings));
  }

  /** The RepoTags check comes before everything else. */
  lemma RepoTagsCheckedFirst(image1: Image, image2: Image, save: string -> Saved, parse: Parser)
    requires image2.repoTags == []
    ensures DiffExportSpec(image1, image2, save, parse) == Err(NoRepoTags)
  {
  }

  /** An empty duplicate prefix aborts with NoDuplication. */
  lemma NoDuplicationAborts(image1: Image, image2: Image, save: string -> Saved, parse: Parser)
    requires image2.repoTags != []
    requires image1.layers == [] || image2.layers == [] || image1.layers[0] != image2.layers[0]
    ensures DiffExportSpec(image1, image2, save, parse) == Err(NoDuplication)
  {
  }

  /** Both validation failures happen before any export: their outcome is the
      same whatever materializing the image and reading its manifest would
      have produced. */
  lemma FailFastIgnoresBundle(image1: Image, image2: Image, save1: string -> Saved, parse1: Parser,
                              save2: string -> Saved, parse2: Parser)
    requires DiffExportSpec(image1, image2, save1, parse1) in {Err(NoRepoTags), Err(NoDuplication)}
    ensures DiffExportSpec(image1, image2, save2, parse2) == DiffExportSpec(image1, image2, save1, parse1)
  {
  }

  /** Once both checks pass and the saved bundle's manifest.json reads as
      `manifest`, the export is the truncation of the saved files along the
      layer paths resolved from that manifest. */
  lemma ExportFromManifest(image1: Image, image2: Image, save: string -> Saved, parse: Parser,
                           manifest: seq<ManifestEntry>)
    requires image2.repoTags != [] && CommonPrefix(image1.layers, image2.layers) != []
    requires save(image2.repoTags[0]).Saved?
    requires ManifestPath in save(image2.repoTags[0]).files
    requires parse(save(image2.repoTags[0]).files[ManifestPath]) == Some(manifest)
    ensures
      var files := save(image2.repoTags[0]).files;
      var duplicates := CommonPrefix(image1.layers, image2.layers);
      var layers := ResolvedLayers(manifest, Strip(image2.id));
      DiffExportSpec(image1, image2, save, parse)
        == Ok(Export(duplicates, Truncated(files, duplicates, layers), Warnings(files.Keys, duplicates, layers)))
  {
  }

  /** After a successful save, a bundle without a readable manifest.json
      fails with BadManifest, before any file is truncated. */
  lemma BadManifestFails(image1: Image, image2: Image, save: string -> Saved, parse: Parser)
    requires image2.repoTags != [] && CommonPrefix(image1.layers, image2.layers) != []
    requires save(image2.repoTags[0]).Saved?
    requires var files := save(image2.repoTags[0]).files;
      ManifestPath !in files || parse(files[ManifestPath]).None?
    ensures DiffExportSpec(image1, image2, save, parse) == Err(BadManifest)
  {
  }

  /** A successful export read image2's manifest from the saved bundle, kept
      every path of the bundle, emptied exactly the marked layer archives and
      left every other file, manifest.json included, as it was. */
  lemma ExportOutcome(image1: Image, image2: Image, save: string -> Saved, parse: Parser)
    requires DiffExportSpec(image1, image2, save, parse).Ok?
    ensures image2.repoTags != [] && save(image2.repoTags[0]).Saved?
    ensures ManifestPath in save(image2.repoTags[0]).files
    ensures parse(save(image2.repoTags[0]).files[ManifestPath]).Some?
    ensures
      var e := DiffExportSpec(image1, image2, save, parse).value;
      var files := save(image2.repoTags[0]).files;
      var layers := ResolvedLayers(parse(files[ManifestPath]).value, Strip(image2.id));
      && (forall p :: p in files && Marked(p, e.duplicates, layers) ==> e.files[p] == [])
      && (forall p :: p in files && !Marked(p, e.duplicates, layers) ==> e.files[p] == files[p])
  {
  }

  /** When no manifest entry names image2's id, the bundle is packed as it was
      saved and no warning is issued. */
  lemma UnmatchedImageKeepsBundle(image1: Image, image2: Image, save: string -> Saved, parse: Parser,
                                  manifest: seq<ManifestEntry>)
    requires image2.repoTags != [] && CommonPrefix(image1.layers, image2.layers) != []
    requires save(image2.repoTags[0]).Saved?
    requires ManifestPath in save(image2.repoTags[0]).files
    requires parse(save(image2.repoTags[0]).files[ManifestPath]) == Some(manifest)
    requires forall k :: 0 <= k < |manifest| ==> !Contains(manifest[k].config, Strip(image2.id))
    ensures DiffExportSpec(image1, image2, save, parse)
      == Ok(Export(CommonPrefix(image1.layers, image2.layers), save(image2.repoTags[0]).files, []))
  {
    NoLayersNoChange(save(image2.repoTags[0]).files, CommonPrefix(image1.layers, image2.layers));
  }

  /** Layers [L1, L2, L3] against [L1, L2, L4]: the duplicates are [L1, L2] and
      the export empties exactly their two archives, leaving L4's archive, the
      config and manifest.json as they were. */
  lemma ScenarioTwoSharedLayers(image1: Image, image2: Image, save: string -> Saved, parse: Parser,
                                files: Files, manifest: seq<ManifestEntry>,
                                l1: Digest, l2: Digest, l3: Digest, l4: Digest,
                                p1: string, p2: string, p4: string)
    requires image1.layers == [l1, l2, l3] && image2.layers == [l1, l2, l4] && l3 != l4
    requires image2.repoTags != [] && save(image2.repoTags[0]) == Saved(files)
    requires ManifestPath in files && parse(files[ManifestPath]) == Some(manifest)
    requires manifest != [] && Contains(manifest[0].config, Strip(image2.id))
    requires manifest[0].layers == [p1, p2, p4]
    requires Contains(p1, Strip(l1)) && Contains(p2, Strip(l2))
    requires !Contains(p4, Strip(l1)) && !Contains(p4, Strip(l2))
    requires p1 in files && p2 in files && p4 in files
    ensures DiffExportSpec(image1, image2, save, parse) == Ok(Export([l1, l2], files[p1 := []][p2 := []], []))
  {
    assert image1.layers == [l1, l2] + [l3] && image2.layers == [l1, l2] + [l4];
    CommonPrefixAllButLast([l1, l2], l3, l4);
    ResolvedIsFirstMatch(manifest, Strip(image2.id), 0);
    ScenarioTruncation(files, l1, l2, p1, p2, p4);
    ExportFromManifest(image1, image2, save, parse, manifest);
  }
}
