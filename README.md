# Layer-deduplicating image export, modelled in Dafny

`diffdocker` re-exports a container image (image2) that shares a leading run
of filesystem layers with a reference image (image1). `diff_export` inspects
both images, computes the longest position-by-position common prefix of their
`RootFS.Layers` digests, refuses to go on when image2 has no `RepoTags` or
when that prefix is empty, saves image2 by its first tag into a temporary
directory, finds image2's entry in the bundle's `manifest.json`, and empties
("truncates") every layer archive of that entry whose path contains one of
the duplicate digests with `sha256:` removed. The directory is then packed
into one tar stream.

This project models the deduplication logic of `diff_export`:

- `DigestText` — Python's substring test (`Contains`, proved equal to the
  positional definition) and `str.replace("sha256:", "")` (`RemoveAll`,
  `Strip`), which removes every non-overlapping occurrence, not only a
  leading one.
- `LayerDiff` — the prefix differ: `CommonPrefix` is the specification
  (prefix of both lists, maximal, unique), `DuplicatePrefix` is the
  index loop of `diff_export` with `break`, proved equal to it.
- `Manifest` — the resolver: `FirstConfigMatch` specifies the first entry
  whose `Config` contains the stripped image id; `ResolveLayers` is the
  scan of `diff_export` with early exit, returning `[]` when nothing matches.
- `Truncation` — the bundle (the extracted directory) as a class `Bundle`
  whose field `files` maps bundle-relative paths to file bytes;
  `TruncateDuplicates` is the nested loop over duplicates and manifest layer
  paths, proved to produce exactly `Truncated(old(files), …)` (marked paths
  empty, key set unchanged, every other file unchanged) and the warning
  sequence `Warnings(…)` (one stripped id per matched path missing from the
  bundle).
- `Orchestrator` — `DiffExport`, the whole pipeline, returning either the
  error (`NoRepoTags`, `NoDuplication`, `ExportFailed`, `BadManifest`) or the duplicates,
  the bundle as it would be packed, and the warnings; proved equal to the
  stage-by-stage specification `DiffExportSpec`.

Inputs that come from outside: the two image descriptors (`Id`, `RepoTags`,
`RootFS.Layers` of `inspect_image`) are `Image` values; materializing image2
(`image_export`) is the function parameter `save`, applied to image2's first
RepoTag, which yields the extracted files or `SaveFailed`. The manifest is
read from the saved files themselves: the content stored under
`manifest.json` is handed to the function parameter `parse` (`json.load` and
the entries' `Config` and `Layers` fields), and a bundle without that file,
or one whose content `parse` rejects, fails with `BadManifest`. The packed
output is the `files` map of the result.

Two behaviours of the code are modelled as written: `diff_export` raises
nothing when no manifest entry matches image2's id, and then truncates
nothing because the layer list stays empty (diffdocker.py:89-94); and it
warns only about a matched layer path that is missing from the bundle, never
about a duplicate digest that matches no path (diffdocker.py:99-109).

## Model

| member | source | states |
|---|---|---|
| `LayerDiff.CommonPrefix` | diffdocker.py:64-68 | the duplicate layers are a prefix of both layer lists, no longer than either, and maximal: when shorter than both, the next layers differ |
| `LayerDiff.DuplicatePrefix` | diffdocker.py:64-68 | the index loop that stops when `layers2` runs out or the layers differ returns exactly `CommonPrefix(layers1, layers2)` |
| `LayerDiff.CommonPrefixUnique` | diffdocker.py:65-68 | any list that is a prefix of both inputs and stops at a mismatch or at the end of either input is the common prefix |
| `LayerDiff.CommonPrefixSelf` | diffdocker.py:64-68 | identical layer lists deduplicate completely: `CommonPrefix(a, a) == a` |
| `LayerDiff.CommonPrefixEmpty` | diffdocker.py:65-66 | an empty layer list on either side gives an empty prefix |
| `LayerDiff.CommonPrefixSymmetric` | diffdocker.py:64-68 | swapping the two images gives the same duplicate prefix |
| `LayerDiff.CommonPrefixAllButLast` | diffdocker.py:64-68 | lists equal except for their last layer share all but the last layer |
| `LayerDiff.CommonPrefixHeadMismatch` | diffdocker.py:66-67 | matching is positional: differing first layers give no duplicates at all |
| `DigestText.Contains` | diffdocker.py:92 | Python's `in` on strings: the empty needle is contained in every string, and a contained needle is never longer than the string |
| `DigestText.ContainsIffOccurs` | diffdocker.py:92 | the substring test used by the resolver and truncator holds exactly when the needle occurs at some position of the string |
| `DigestText.RemoveAll` | diffdocker.py:90 | removing every occurrence of the tag never lengthens the string, a string without the tag is returned unchanged, and a string containing the tag loses at least the tag's length |
| `DigestText.Strip` | diffdocker.py:90 | `replace("sha256:", "")` never lengthens a digest and removes at least one tag from a digest that contains it |
| `DigestText.NoColonNoTag` | diffdocker.py:98 | a digest value without ':' contains no `sha256:` tag |
| `DigestText.StripTagged` | diffdocker.py:98 | stripping `sha256:` from a tagged digest whose value has no ':' yields exactly the value |
| `DigestText.InsertedTag` | diffdocker.py:98 | the tag is removed wherever it stands, not only in front: after a colon-free stretch it disappears and the rest is stripped in turn |
| `Manifest.FirstConfigMatch` | diffdocker.py:89-94 | the chosen entry matches and no earlier entry does; there is no choice exactly when no entry's Config contains the id |
| `Manifest.ResolvedLayers` | diffdocker.py:89-94 | the resolved layer paths are either empty or the Layers of an entry whose Config contains the id, and they are empty when no entry matches |
| `Manifest.ResolvedIsFirstMatch` | diffdocker.py:91-94 | a matching entry preceded only by non-matching entries is the one whose Layers are used; later entries are never consulted |
| `Manifest.ResolveLayers` | diffdocker.py:89-94 | the scan returns the Layers of the first entry whose Config contains the stripped id, and `[]` when there is none |
| `Truncation.Marked` | diffdocker.py:99-102 | only a resolved layer path can be truncated, and only when there is at least one duplicate digest |
| `Truncation.Truncated` | diffdocker.py:97-105 | after truncation the bundle has the same paths, every marked path (a resolved layer path containing a stripped duplicate digest) is empty, every other file is unchanged |
| `Truncation.WarningsFor` | diffdocker.py:106-109 | every warning issued for one duplicate names that duplicate's stripped id |
| `Truncation.Warnings` | diffdocker.py:97-109 | every warning of the nested loop names the stripped id of one of the duplicate digests |
| `Truncation.WarningsForIff` | diffdocker.py:99-109 | one duplicate draws a warning exactly when some layer path containing its id is absent from the bundle |
| `Truncation.WarningsIff` | diffdocker.py:97-109 | the truncation loop warns at all exactly when some duplicate id is contained in a resolved layer path missing from the bundle |
| `Truncation.TruncatedIdempotent` | diffdocker.py:104-105 | running the truncation a second time on its own output changes nothing |
| `Truncation.NoLayersNoChange` | diffdocker.py:97-100 | with no resolved layer paths no file changes and no warning is issued |
| `Truncation.ScenarioTruncation` | diffdocker.py:97-105 | two duplicates each contained in their own archive path and not in a third: exactly those two archives are emptied, with no warning |
| `Truncation.Bundle.TruncateFile` | diffdocker.py:104-105 | opening a path for writing leaves it present with empty content and changes no other file |
| `Truncation.Bundle.TruncateMatching` | diffdocker.py:99-109 | for one stripped digest, every resolved path containing it that exists is emptied, other files and the key set stay as they were, and each matching missing path adds one warning |
| `Truncation.Bundle.TruncateDuplicates` | diffdocker.py:97-109 | the nested loop leaves the bundle equal to `Truncated(old(files), duplicates, layers)` and returns `Warnings(old(files).Keys, duplicates, layers)` |
| `Orchestrator.DiffExportSpec` | diffdocker.py:50-109 | no RepoTags fails with NoRepoTags; a success saved image2 by its first tag, found the non-empty common layer prefix as duplicates, and packs a bundle with exactly the saved paths |
| `Orchestrator.DiffExport` | diffdocker.py:50-109 | the pipeline's outcome equals the stage-by-stage specification: NoRepoTags, then NoDuplication, then ExportFailed, then BadManifest, else the duplicates, the truncated bundle and the warnings |
| `Orchestrator.RepoTagsCheckedFirst` | diffdocker.py:57-58 | an image2 without RepoTags fails with NoRepoTags whatever the layers are |
| `Orchestrator.NoDuplicationAborts` | diffdocker.py:75-76 | with RepoTags present, an empty layer list or differing first layers fail with NoDuplication |
| `Orchestrator.FailFastIgnoresBundle` | diffdocker.py:57-81 | both validation failures are decided before export: their outcome does not depend on what saving image2 would produce |
| `Orchestrator.ExportFromManifest` | diffdocker.py:84-109 | once both checks pass and the saved manifest.json reads as a manifest, the export is the saved bundle truncated along the layer paths resolved from that manifest, with the matching warnings |
| `Orchestrator.BadManifestFails` | diffdocker.py:84-86 | after a successful save, a missing or unreadable manifest.json fails with BadManifest before any file is truncated |
| `Orchestrator.ExportOutcome` | diffdocker.py:75-109 | a successful export saved image2 by its first tag, read its manifest.json from the saved bundle, emptied exactly the marked archives and left every other file unchanged |
| `Orchestrator.UnmatchedImageKeepsBundle` | diffdocker.py:89-105 | when no manifest entry's Config contains image2's stripped id, the bundle is packed exactly as saved, without warnings |
| `Orchestrator.ScenarioTwoSharedLayers` | diffdocker.py:61-105 | layers [L1, L2, L3] against [L1, L2, L4]: duplicates are [L1, L2] and exactly their two archives are emptied; L4's archive, the config and manifest.json keep their content |

## Left out

- `image_export` (diffdocker.py:12-34): `docker save` through a subprocess, tar extraction and deleting the temporary tar are engine and filesystem I/O; the model takes their result as the `save` parameter.
- `image_tar` (diffdocker.py:37-47): walking the directory and writing the tar stream is I/O and a library format; the packed content is the `files` map of the result.
- `main` (diffdocker.py:118-173): argument parsing, the Docker client, output stream handling, the global `tempfile.tempdir` setting and the exit status are CLI glue.
- `inspect_image` (diffdocker.py:54-55) is a foreign call; the image descriptors are inputs. Missing keys of the descriptors (`RootFS`, `Layers`, `Id`), which raise in the code, are not modelled: the datatype always carries these fields, and a missing or null `RepoTags` is the empty sequence.
- `json.load` of manifest.json (diffdocker.py:84-86) is the `parse` parameter. The model does not decode JSON, so which contents are rejected, including entries that lack `Config` or `Layers`, is up to `parse`; every rejection, like a missing manifest.json, ends in `BadManifest`.
- The temporary directory's creation and removal (diffdocker.py:79) and the `print` diagnostics (diffdocker.py:70-73) are left out; the only diagnostic kept is the truncation warning, as the stripped duplicate id.
- Paths are taken verbatim as bundle keys: `os.path.join` normalisation, absolute layer paths and directories are not modelled, so a layer path naming a directory (where `open(…, "w")` would raise) cannot occur in the model.
- The wrapping of every exception into "diff export failed: …" (diffdocker.py:114-115) is reduced to the error constructors.
